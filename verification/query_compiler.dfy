/** The query compiler of the product-list endpoint: it turns the raw query
    parameters into the arguments of the page fetch and of the count. */
module QueryCompiler {
  import opened Wrappers

  const DefaultPage: int := 1
  const DefaultLimit: int := 12
  const DefaultSort: string := "newest"

  /** The raw request. `page` and `limit` are what `Number(...)` made of the
      query text: `None` stands for NaN (which is also what an absent
      parameter gives), `Some(n)` for a number that parsed. The text
      parameters are `None` when the query string does not carry them. */
  datatype Params = Params(
    page: Option<int>,
    limit: Option<int>,
    category: Option<string>,
    sort: Option<string>,
    search: Option<string>,
    featured: Option<string>)

  /** The fields the free-text search looks at. */
  datatype TextField = Name | Description | Region | GrapeVariety

  /** Matching mode of a substring test; the handler only ever asks for
      case-insensitive matching. */
  datatype Mode = Insensitive

  /** `{ <field>: { contains: text, mode } }` */
  datatype Contains = Contains(field: TextField, text: string, mode: Mode)

  /** `where.category = { slug }`: equality on the joined category's slug. */
  datatype SlugFilter = SlugIs(slug: string)

  /** The filter object. Each part is `None` when the handler does not set
      that key; `anyOf` is the `OR` array. */
  datatype Where = Where(
    category: Option<SlugFilter>,
    featured: Option<bool>,
    anyOf: Option<seq<Contains>>)

  datatype SortField = ByPrice | ByName | ByCreatedAt
  datatype Direction = Asc | Desc

  /** The single-key `orderBy` object. */
  datatype OrderBy = OrderBy(field: SortField, direction: Direction)

  /** The arguments of the page fetch (`include: { category: true }` is the
      last field). */
  datatype FindManyArgs = FindManyArgs(
    where: Where,
    skip: int,
    take: int,
    orderBy: OrderBy,
    includeCategory: bool)

  /** Everything the handler derives from the request: the echoed page and
      limit, the page fetch and the filter handed to the count. */
  datatype QueryPlan = QueryPlan(
    page: int,
    limit: int,
    findMany: FindManyArgs,
    countWhere: Where)

  /** JavaScript truthiness of an optional query string: present and not
      empty. */
  predicate Truthy(v: Option<string>) {
    v.Some? && v.value != ""
  }

  /** `Number(x) || fallback`: NaN and 0 are falsy and give the fallback;
      every other number, negative ones included, is kept. */
  function NumberOr(parsed: Option<int>, fallback: int): (r: int)
    ensures parsed.None? || parsed == Some(0) ==> r == fallback
    ensures parsed.Some? && parsed.value != 0 ==> r == parsed.value
  {
    match parsed
    case Some(n) => if n != 0 then n else fallback
    case None => fallback
  }

  /** `x || fallback` on an optional string. */
  function StringOr(v: Option<string>, fallback: string): (r: string)
    ensures Truthy(v) ==> r == v.value
    ensures !Truthy(v) ==> r == fallback
  {
    if Truthy(v) then v.value else fallback
  }

  /** The four search fields, in the order the `OR` array lists them. */
  const SearchFields: seq<TextField> := [Name, Description, Region, GrapeVariety]

  /** The `OR` group of the search: one case-insensitive `contains` per search
      field, all with the same text. */
  function SearchGroup(text: string): (g: seq<Contains>)
    ensures |g| == |SearchFields| == 4
    ensures forall i :: 0 <= i < |g| ==> g[i] == Contains(SearchFields[i], text, Insensitive)
  {
    seq(|SearchFields|, i requires 0 <= i < |SearchFields| => Contains(SearchFields[i], text, Insensitive))
  }

  /** The filter the handler builds from `category`, `featured` and `search`. */
  function WhereOf(category: Option<string>, featured: Option<string>, search: Option<string>): (w: Where)
    ensures w.category.Some? <==> Truthy(category)
    ensures w.category.Some? ==> w.category.value == SlugIs(category.value)
    ensures w.featured.Some? <==> featured == Some("true")
    ensures w.featured.Some? ==> w.featured.value
    ensures w.anyOf.Some? <==> Truthy(search)
    ensures w.anyOf.Some? ==> w.anyOf.value == SearchGroup(search.value)
  {
    Where(
      if Truthy(category) then Some(SlugIs(category.value)) else None,
      if featured == Some("true") then Some(true) else None,
      if Truthy(search) then Some(SearchGroup(search.value)) else None)
  }

  /** The sort switch on the (already defaulted) sort token. */
  function OrderOf(token: string): (o: OrderBy)
    ensures token == "price-asc" ==> o == OrderBy(ByPrice, Asc)
    ensures token == "price-desc" ==> o == OrderBy(ByPrice, Desc)
    ensures token == "name" ==> o == OrderBy(ByName, Asc)
    ensures token !in {"price-asc", "price-desc", "name"} ==> o == OrderBy(ByCreatedAt, Desc)
  {
    if token == "price-asc" then OrderBy(ByPrice, Asc)
    else if token == "price-desc" then OrderBy(ByPrice, Desc)
    else if token == "name" then OrderBy(ByName, Asc)
    else OrderBy(ByCreatedAt, Desc)
  }

  /** The whole compilation of a request. */
  function Compile(p: Params): (plan: QueryPlan)
    ensures plan.page == NumberOr(p.page, DefaultPage)
    ensures plan.limit == NumberOr(p.limit, DefaultLimit)
    ensures plan.limit != 0
    ensures plan.findMany.skip == (plan.page - 1) * plan.limit
    ensures plan.findMany.take == plan.limit
    ensures plan.findMany.where == WhereOf(p.category, p.featured, p.search)
    ensures plan.countWhere == plan.findMany.where
    ensures plan.findMany.orderBy == OrderOf(StringOr(p.sort, DefaultSort))
    ensures plan.findMany.includeCategory
  {
    var page := NumberOr(p.page, DefaultPage);
    var limit := NumberOr(p.limit, DefaultLimit);
    var where := WhereOf(p.category, p.featured, p.search);
    QueryPlan(
      page,
      limit,
      FindManyArgs(where, (page - 1) * limit, limit, OrderOf(StringOr(p.sort, DefaultSort)), true),
      where)
  }

  /** The filter as the handler builds it: start from `{}` and set one key
      after the other. */
  method BuildWhere(category: Option<string>, featured: Option<string>, search: Option<string>)
    returns (where: Where)
    ensures where == WhereOf(category, featured, search)
  {
    where := Where(None, None, None);
    if Truthy(category) {
      where := where.(category := Some(SlugIs(category.value)));
    }
    if featured == Some("true") {
      where := where.(featured := Some(true));
    }
    if Truthy(search) {
      var text := search.value;
      where := where.(anyOf := Some([
        Contains(Name, text, Insensitive),
        Contains(Description, text, Insensitive),
        Contains(Region, text, Insensitive),
        Contains(GrapeVariety, text, Insensitive)]));
      assert where.anyOf.value == SearchGroup(text);
    }
  }

  /** The `orderBy` variable as the handler's `switch` assigns it. */
  method ChooseOrderBy(sort: Option<string>) returns (orderBy: OrderBy)
    ensures orderBy == OrderOf(StringOr(sort, DefaultSort))
  {
    var token := if Truthy(sort) then sort.value else DefaultSort;
    if token == "price-asc" {
      orderBy := OrderBy(ByPrice, Asc);
    } else if token == "price-desc" {
      orderBy := OrderBy(ByPrice, Desc);
    } else if token == "name" {
      orderBy := OrderBy(ByName, Asc);
    } else {
      orderBy := OrderBy(ByCreatedAt, Desc);
    }
  }

  /** The handler's compilation step, statement by statement. */
  method CompileRequest(p: Params) returns (plan: QueryPlan)
    ensures plan == Compile(p)
  {
    var page := NumberOr(p.page, DefaultPage);
    var limit := NumberOr(p.limit, DefaultLimit);
    var skip := (page - 1) * limit;
    var where := BuildWhere(p.category, p.featured, p.search);
    var orderBy := ChooseOrderBy(p.sort);
    plan := QueryPlan(page, limit, FindManyArgs(where, skip, limit, orderBy, true), where);
  }

  /** `page` and `limit` fall back to their defaults exactly when the parsed
      value is NaN or 0, and are otherwise used unchanged, with no clamp. */
  lemma DefaultingRule(p: Params)
    ensures Compile(p).page == (if p.page.Some? && p.page.value != 0 then p.page.value else 1)
    ensures Compile(p).limit == (if p.limit.Some? && p.limit.value != 0 then p.limit.value else 12)
  {
  }

  /** A request without parameters asks for the first twelve products, newest
      first, without any filter. */
  lemma EmptyRequestPlan()
    ensures Compile(Params(None, None, None, None, None, None))
         == QueryPlan(1, 12,
                      FindManyArgs(Where(None, None, None), 0, 12, OrderBy(ByCreatedAt, Desc), true),
                      Where(None, None, None))
  {
  }

  /** A negative page is kept; with a positive limit it gives a negative
      offset, and with a negative limit a positive one. Nothing clamps it. */
  lemma NegativePageIsKept()
    ensures Compile(Params(Some(-5), None, None, None, None, None)).findMany.skip == -72
    ensures Compile(Params(Some(-1), Some(-12), None, None, None, None)).findMany.skip == 24
  {
  }

  /** Only the exact text "true" turns the featured filter on. */
  lemma FeaturedNeedsLiteralTrue(featured: Option<string>)
    ensures featured != Some("true") ==> WhereOf(None, featured, None).featured == None
    ensures WhereOf(None, Some("1"), None).featured == None
    ensures WhereOf(None, Some("yes"), None).featured == None
    ensures WhereOf(None, Some("false"), None).featured == None
    ensures WhereOf(None, Some("True"), None).featured == None
  {
  }

  /** An absent or empty sort, and the token "newest" itself, give the
      newest-first order. */
  lemma DefaultSortIsNewest(sort: Option<string>)
    requires sort.None? || sort == Some("") || sort == Some("newest")
    ensures Compile(Params(None, None, None, sort, None, None)).findMany.orderBy == OrderBy(ByCreatedAt, Desc)
  {
  }

  /** The count's filter depends only on `category`, `featured` and `search`:
      two requests that agree on those are counted alike, whatever their page,
      limit and sort. */
  lemma CountIgnoresWindowAndSort(p: Params, q: Params)
    requires p.category == q.category && p.featured == q.featured && p.search == q.search
    ensures Compile(p).countWhere == Compile(q).countWhere
    ensures Compile(p).countWhere == Compile(q).findMany.where
  {
  }
}
