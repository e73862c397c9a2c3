/** The two product endpoints around the compiler: the list handler, which
    runs the page fetch and the count and assembles the response, and the
    single-product lookup with its 200/404/500 classification. The store
    calls and the decoder of the serialized `images` field are parameters:
    each either returns a value or throws, and a throw is `Failure(message)`. */
module Handlers {
  import opened Wrappers
  import opened Catalog
  import opened QueryCompiler
  import opened Paging

  /** `JSON.parse` applied to a stored `images` text. */
  type ImagesDecoder = string -> Result<seq<string>, string>

  /** `prisma.product.findMany(args)` */
  type FindMany = FindManyArgs -> Result<seq<ProductRow>, string>

  /** `prisma.product.count({ where })` */
  type Count = Where -> Result<nat, string>

  /** `prisma.product.findUnique({ where: { id }, include: { category: true } })` */
  type FindUnique = string -> Result<Option<ProductRow>, string>

  /** `{ ...product, images: decoded }` */
  function Formatted(row: ProductRow, images: seq<string>): ProductView {
    Product(row.id, row.name, row.description, row.price, row.region, row.grapeVariety,
            row.featured, row.createdAt, row.category, images)
  }

  /** `products.map(...)` with its `JSON.parse`: every row is kept in order
      with its images decoded, and the first row whose images do not decode
      makes the whole map throw that row's error. */
  function FormatAll(rows: seq<ProductRow>, decode: ImagesDecoder): (r: Result<seq<ProductView>, string>)
    ensures r.Success? <==> forall i :: 0 <= i < |rows| ==> decode(rows[i].images).Success?
    ensures r.Success? ==> |r.value| == |rows|
    ensures r.Success? ==> forall i :: 0 <= i < |rows| ==>
              r.value[i] == Formatted(rows[i], decode(rows[i].images).value)
    ensures r.Failure? ==>
      exists i :: && 0 <= i < |rows|
                  && decode(rows[i].images) == Failure(r.error)
                  && forall j :: 0 <= j < i ==> decode(rows[j].images).Success?
  {
    if rows == [] then Success([])
    else
      match decode(rows[0].images)
      case Failure(e) => Failure(e)
      case Success(images) =>
        match FormatAll(rows[1..], decode)
        case Failure(e) =>
          assert forall j :: 1 <= j < |rows| ==> rows[j] == rows[1..][j - 1];
          Failure(e)
        case Success(rest) =>
          assert forall j :: 1 <= j < |rows| ==> rows[j] == rows[1..][j - 1];
          Success([Formatted(rows[0], images)] + rest)
  }

  /** `{ products, pagination }` */
  datatype ListBody = ListBody(products: seq<ProductView>, pagination: Pagination)

  /** The list response: the body, or the 500 reply with the error's message. */
  datatype ListResponse = ListOk(body: ListBody) | ListFailed(message: string)

  function ListStatus(r: ListResponse): int {
    if r.ListOk? then 200 else 500
  }

  /** `GET /api/products`. The plan's filter goes to both store calls; if
      either call throws, or a row's images do not decode, the reply is a 500
      carrying the message of one of the failures. */
  function ListProducts(p: Params, findMany: FindMany, count: Count, decode: ImagesDecoder): (r: ListResponse)
    ensures var plan := Compile(p);
      var rows := findMany(plan.findMany);
      var total := count(plan.findMany.where);
      && (r.ListOk? <==> rows.Success? && total.Success? && FormatAll(rows.value, decode).Success?)
      && (r.ListOk? ==> r.body.pagination == Pagination(plan.page, plan.limit, total.value, CeilDiv(total.value, plan.limit)))
      && (r.ListOk? ==> |r.body.products| == |rows.value|
                        && forall i :: 0 <= i < |rows.value| ==>
                             r.body.products[i] == Formatted(rows.value[i], decode(rows.value[i].images).value))
      && (r.ListFailed? ==> || rows == Failure(r.message)
                            || total == Failure(r.message)
                            || (rows.Success? && total.Success? && FormatAll(rows.value, decode) == Failure(r.message)))
  {
    var plan := Compile(p);
    var rows := findMany(plan.findMany);
    var total := count(plan.countWhere);
    if rows.Failure? then ListFailed(rows.error)
    else if total.Failure? then ListFailed(total.error)
    else
      match FormatAll(rows.value, decode)
      case Failure(e) => ListFailed(e)
      case Success(views) => ListOk(ListBody(views, PaginationOf(plan.page, plan.limit, total.value)))
  }

  /** The list reply is a 500 exactly when a store call threw or a fetched
      row's images did not decode, and a 200 otherwise. */
  lemma ListStatusOfOutcome(p: Params, findMany: FindMany, count: Count, decode: ImagesDecoder)
    ensures var plan := Compile(p);
      var rows := findMany(plan.findMany);
      var total := count(plan.countWhere);
      && (ListStatus(ListProducts(p, findMany, count, decode)) == 500 <==>
            || rows.Failure?
            || total.Failure?
            || exists i :: 0 <= i < |rows.value| && decode(rows.value[i].images).Failure?)
      && ListStatus(ListProducts(p, findMany, count, decode)) in {200, 500}
  {
  }

  /** Requests that differ only in page, limit or sort report the same total:
      the count sees neither the window nor the order. */
  lemma TotalIgnoresWindowAndSort(p: Params, q: Params, findMany: FindMany, count: Count, decode: ImagesDecoder)
    requires p.category == q.category && p.featured == q.featured && p.search == q.search
    requires ListProducts(p, findMany, count, decode).ListOk?
    requires ListProducts(q, findMany, count, decode).ListOk?
    ensures ListProducts(p, findMany, count, decode).body.pagination.total
         == ListProducts(q, findMany, count, decode).body.pagination.total
  {
  }

  /** A request without parameters against a store with no matching rows:
      an empty first page of twelve and no pages at all. */
  lemma EmptyCatalogFirstPage(findMany: FindMany, count: Count, decode: ImagesDecoder)
    requires forall a :: findMany(a) == Success([])
    requires forall w :: count(w) == Success(0)
    ensures ListProducts(Params(None, None, None, None, None, None), findMany, count, decode)
         == ListOk(ListBody([], Pagination(1, 12, 0, 0)))
  {
  }

  /** The single-product response. */
  datatype ProductResponse = Found(product: ProductView) | NotFound | ProductFailed(message: string)

  function ProductStatus(r: ProductResponse): int {
    match r
    case Found(_) => 200
    case NotFound => 404
    case ProductFailed(_) => 500
  }

  /** The outcome of a lookup: a record gives the product with its images
      decoded, no record gives not-found, and a throw (from the store or from
      the decoder) gives a failure with its message. */
  function ClassifyLookup(lookup: Result<Option<ProductRow>, string>, decode: ImagesDecoder): (r: ProductResponse)
    ensures r.NotFound? <==> lookup == Success(None)
    ensures r.ProductFailed? <==>
              lookup.Failure? || (lookup.Success? && lookup.value.Some? && decode(lookup.value.value.images).Failure?)
    ensures r.ProductFailed? && lookup.Failure? ==> r.message == lookup.error
    ensures r.ProductFailed? && lookup.Success? ==> r.message == decode(lookup.value.value.images).error
    ensures r.Found? ==>
      && lookup.Success? && lookup.value.Some?
      && r.product == Formatted(lookup.value.value, decode(lookup.value.value.images).value)
  {
    match lookup
    case Failure(e) => ProductFailed(e)
    case Success(None) => NotFound
    case Success(Some(row)) =>
      match decode(row.images)
      case Failure(e) => ProductFailed(e)
      case Success(images) => Found(Formatted(row, images))
  }

  /** `GET /api/products/:id` */
  function GetProduct(id: string, findUnique: FindUnique, decode: ImagesDecoder): (r: ProductResponse)
    ensures r.NotFound? <==> findUnique(id) == Success(None)
    ensures findUnique(id).Failure? ==> r == ProductFailed(findUnique(id).error)
    ensures r == ClassifyLookup(findUnique(id), decode)
  {
    ClassifyLookup(findUnique(id), decode)
  }

  /** The status of a lookup: 404 exactly when the store found no record,
      500 exactly when something threw, 200 otherwise; a missing record is
      never reported as a server failure. */
  lemma LookupStatus(lookup: Result<Option<ProductRow>, string>, decode: ImagesDecoder)
    ensures ProductStatus(ClassifyLookup(lookup, decode)) == 404 <==> lookup == Success(None)
    ensures ProductStatus(ClassifyLookup(lookup, decode)) == 500 <==>
              lookup.Failure? || (lookup.Success? && lookup.value.Some? && decode(lookup.value.value.images).Failure?)
    ensures ProductStatus(ClassifyLookup(lookup, decode)) in {200, 404, 500}
    ensures lookup == Success(None) ==> ProductStatus(ClassifyLookup(lookup, decode)) != 500
  {
  }
}
