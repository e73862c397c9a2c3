/** What a compiled plan asks of the store, read as predicates on products.
    The handler never evaluates these itself: the store does. They are this
    model's reading of the filter and sort objects, used to state what a
    category, featured or search parameter means for the rows returned. */
module PlanSemantics {
  import opened Wrappers
  import opened Catalog
  import opened QueryCompiler

  /** Case folding for the insensitive mode (ASCII letters only). */
  function Lower(c: char): char {
    if 'A' <= c <= 'Z' then (c as int - 'A' as int + 'a' as int) as char else c
  }

  function Fold(s: string): (r: string)
    ensures |r| == |s|
    ensures forall i :: 0 <= i < |s| ==> r[i] == Lower(s[i])
  {
    seq(|s|, i requires 0 <= i < |s| => Lower(s[i]))
  }

  /** `needle` sits in `hay` starting at position `i`. */
  predicate OccursAt(needle: string, hay: string, i: int) {
    0 <= i && i + |needle| <= |hay| && hay[i..i + |needle|] == needle
  }

  /** `needle` is a contiguous part of `hay`, found by scanning from the left. */
  predicate IsSubstring(needle: string, hay: string)
    decreases |hay|
  {
    || (|needle| <= |hay| && hay[..|needle|] == needle)
    || (|hay| > 0 && IsSubstring(needle, hay[1..]))
  }

  /** The scan finds the needle exactly when it occurs at some position. */
  lemma {:induction false} SubstringIffOccurs(needle: string, hay: string)
    ensures IsSubstring(needle, hay) <==> exists i :: OccursAt(needle, hay, i)
    decreases |hay|
  {
    if |needle| <= |hay| && hay[..|needle|] == needle {
      assert OccursAt(needle, hay, 0);
    } else if |hay| > 0 {
      SubstringIffOccurs(needle, hay[1..]);
      if IsSubstring(needle, hay[1..]) {
        var i :| OccursAt(needle, hay[1..], i);
        assert hay[1..][i..i + |needle|] == hay[i + 1..i + 1 + |needle|];
        assert OccursAt(needle, hay, i + 1);
      }
      if exists i :: OccursAt(needle, hay, i) {
        var i :| OccursAt(needle, hay, i);
        assert i != 0;
        assert hay[1..][i - 1..i - 1 + |needle|] == hay[i..i + |needle|];
        assert OccursAt(needle, hay[1..], i - 1);
      }
    } else {
      assert forall i :: !OccursAt(needle, hay, i);
    }
  }

  /** `contains` with `mode: 'insensitive'`. */
  predicate ContainsInsensitive(hay: string, needle: string) {
    IsSubstring(Fold(needle), Fold(hay))
  }

  function FieldText<Img>(p: Product<Img>, f: TextField): string {
    match f
    case Name => p.name
    case Description => p.description
    case Region => p.region
    case GrapeVariety => p.grapeVariety
  }

  predicate Holds<Img>(p: Product<Img>, t: Contains) {
    ContainsInsensitive(FieldText(p, t.field), t.text)
  }

  /** An `OR` array: at least one of its tests holds. */
  predicate AnyHolds<Img>(p: Product<Img>, tests: seq<Contains>) {
    exists i :: 0 <= i < |tests| && Holds(p, tests[i])
  }

  /** A product satisfies a filter when it satisfies every part that is set. */
  predicate Matches<Img>(p: Product<Img>, w: Where) {
    && (w.category.Some? ==> p.category.slug == w.category.value.slug)
    && (w.featured.Some? ==> p.featured == w.featured.value)
    && (w.anyOf.Some? ==> AnyHolds(p, w.anyOf.value))
  }

  /** The search text occurs, ignoring case, in one of the four search fields. */
  predicate SearchHits<Img>(p: Product<Img>, text: string) {
    || ContainsInsensitive(p.name, text)
    || ContainsInsensitive(p.description, text)
    || ContainsInsensitive(p.region, text)
    || ContainsInsensitive(p.grapeVariety, text)
  }

  lemma SearchGroupMeaning<Img>(p: Product<Img>, text: string)
    ensures AnyHolds(p, SearchGroup(text)) <==> SearchHits(p, text)
  {
    var g := SearchGroup(text);
    if SearchHits(p, text) {
      if ContainsInsensitive(p.name, text) {
        assert Holds(p, g[0]);
      } else if ContainsInsensitive(p.description, text) {
        assert Holds(p, g[1]);
      } else if ContainsInsensitive(p.region, text) {
        assert Holds(p, g[2]);
      } else {
        assert Holds(p, g[3]);
      }
    }
  }

  /** What the compiled filter lets through, in terms of the raw parameters:
      the category slug must equal the parameter, the product must be
      featured when the parameter is "true", and the search text must occur
      in one of the four fields; an unset parameter constrains nothing. */
  lemma CompiledFilterMeaning<Img>(p: Product<Img>, category: Option<string>, featured: Option<string>, search: Option<string>)
    ensures Matches(p, WhereOf(category, featured, search)) <==>
      && (Truthy(category) ==> p.category.slug == category.value)
      && (featured == Some("true") ==> p.featured)
      && (Truthy(search) ==> SearchHits(p, search.value))
  {
    if Truthy(search) {
      SearchGroupMeaning(p, search.value);
    }
  }

  /** The category filter is equality on the slug: a slug that merely
      contains the parameter is not selected. */
  lemma CategoryIsExactSlug(p: ProductRow)
    requires p.category.slug == "reds-sparkling"
    ensures !Matches(p, WhereOf(Some("reds"), None, None))
    ensures Matches(p, WhereOf(Some("reds-sparkling"), None, None))
  {
  }

  /** `search=cabernet` selects a product whose grape variety mentions
      "Cabernet", whatever its other fields say. */
  lemma SearchFindsGrapeVariety(p: ProductRow)
    requires p.grapeVariety == "Cabernet Sauvignon"
    ensures Matches(p, WhereOf(None, None, Some("cabernet")))
  {
    var needle, hay := Fold("cabernet"), Fold(p.grapeVariety);
    assert hay[..|needle|] == needle;
    assert ContainsInsensitive(p.grapeVariety, "cabernet");
    SearchGroupMeaning(p, "cabernet");
  }

  /** Code-point lexicographic order on strings. */
  predicate StrLe(a: string, b: string)
    decreases |a|
  {
    if a == [] then true
    else if b == [] then false
    else if a[0] != b[0] then a[0] < b[0]
    else StrLe(a[1..], b[1..])
  }

  /** `a` may come before `b` when ascending on field `f`. */
  predicate KeyLe<Img>(a: Product<Img>, b: Product<Img>, f: SortField) {
    match f
    case ByPrice => a.price <= b.price
    case ByName => StrLe(a.name, b.name)
    case ByCreatedAt => a.createdAt <= b.createdAt
  }

  /** `a` may come before `b` under the order `o`. */
  predicate InOrder<Img>(a: Product<Img>, b: Product<Img>, o: OrderBy) {
    match o.direction
    case Asc => KeyLe(a, b, o.field)
    case Desc => KeyLe(b, a, o.field)
  }

  predicate SortedBy<Img>(rows: seq<Product<Img>>, o: OrderBy) {
    forall i, j :: 0 <= i < j < |rows| ==> InOrder(rows[i], rows[j], o)
  }

  function Reverse<T>(s: seq<T>): (r: seq<T>)
    ensures |r| == |s|
    ensures forall k :: 0 <= k < |s| ==> r[k] == s[|s| - 1 - k]
  {
    seq(|s|, k requires 0 <= k < |s| => s[|s| - 1 - k])
  }

  /** A list is in ascending order on a field exactly when its reverse is in
      descending order on that field. */
  lemma AscendingReversedIsDescending<Img>(rows: seq<Product<Img>>, f: SortField)
    ensures SortedBy(rows, OrderBy(f, Asc)) <==> SortedBy(Reverse(rows), OrderBy(f, Desc))
  {
    var n, r := |rows|, Reverse(rows);
    if SortedBy(rows, OrderBy(f, Asc)) {
      forall i, j | 0 <= i < j < n ensures InOrder(r[i], r[j], OrderBy(f, Desc)) {
        assert InOrder(rows[n - 1 - j], rows[n - 1 - i], OrderBy(f, Asc));
      }
    }
    if SortedBy(r, OrderBy(f, Desc)) {
      forall i, j | 0 <= i < j < n ensures InOrder(rows[i], rows[j], OrderBy(f, Asc)) {
        assert InOrder(r[n - 1 - j], r[n - 1 - i], OrderBy(f, Desc));
      }
    }
  }

  /** `sort=price-asc` and `sort=price-desc` ask for mutually reversed lists. */
  lemma PriceDescIsReversedPriceAsc<Img>(rows: seq<Product<Img>>)
    ensures SortedBy(rows, OrderOf("price-asc")) <==> SortedBy(Reverse(rows), OrderOf("price-desc"))
  {
    AscendingReversedIsDescending(rows, ByPrice);
  }
}
