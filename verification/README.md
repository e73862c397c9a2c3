# cavavin-backend product query compiler, in Dafny

This project models the decision logic of the catalog service in `server.js`:

- the product-list endpoint `GET /api/products` turns its query parameters
  (`page`, `limit`, `category`, `sort`, `search`, `featured`) into a query plan;
- the plan holds a filter, a `skip`/`take` window and a single-key order;
- the same filter goes to the page fetch and to the count;
- the response carries pagination metadata `{page, limit, total, totalPages}`;
- the single-product endpoint `GET /api/products/:id` classifies its lookup
  as a product (200), not found (404) or a failure (500).

Modules:

- `Wrappers` (wrappers.dfy): `Option` and `Result`.
- `Catalog` (catalog.dfy): categories and products. A product is
  parameterised by the type of its `images` field: serialized text as stored,
  or a decoded list as sent.
- `QueryCompiler` (query_compiler.dfy): the parameter defaulting, the filter,
  the sort switch and the window. These are functions. The methods
  `BuildWhere`, `ChooseOrderBy` and `CompileRequest` follow the handler's
  statement-by-statement construction and are proved equal to the functions.
- `PlanSemantics` (plan_semantics.dfy): the model's reading of what a filter
  and an order ask of the store. The handler never evaluates these; the store
  does. They exist to state what the parameters mean for the products
  returned.
- `Paging` (pagination.dfy): `totalPages = Math.ceil(total / limit)`, and how
  the pages cover the matching rows.
- `Handlers` (handlers.dfy): the two endpoints. The store calls (`findMany`,
  `count`, `findUnique`) and `JSON.parse` of `images` are function
  parameters. Each one returns a value or throws, and a throw is modelled as
  `Failure(message)`.

`Number(x) || d` is modelled on the parsed number. The input is
`Option<int>`: `None` is NaN, which is also what an absent parameter gives.
`Some(0)` is falsy, like NaN. Every other value is kept, negatives included.
Nothing clamps it.

What the code does not guard:

- The code enforces no `page >= 1` or `limit > 0` invariant. With a positive
  limit, a negative page gives a negative `skip`. A negative limit gives a
  negative `totalPages` once `total` reaches the limit's magnitude.
- `category` and `search` are tested for JavaScript truthiness, so an empty
  string sets no filter.
- A corrupt `images` field is not a distinct error. `JSON.parse` throws inside
  the handler's `try`, so the reply is the same 500 as a store failure.

## Model

| member | source | states |
|---|---|---|
| QueryCompiler.NumberOr | server.js:28-29 | NaN (or absent) and 0 give the fallback; every other parsed value, negative included, is returned unchanged |
| QueryCompiler.StringOr | server.js:31 | an absent or empty string gives the fallback, any other string is kept |
| QueryCompiler.SearchGroup | server.js:50-57 | the OR group has exactly four tests, on name, description, region and grapeVariety in that order, all case-insensitive `contains` with the same text |
| QueryCompiler.WhereOf | server.js:38-57 | category filter present iff `category` is non-empty, and then slug equality with it; `featured = true` present iff the raw value is exactly "true"; OR group present iff `search` is non-empty, and then the four-field group |
| QueryCompiler.OrderOf | server.js:60-73 | price-asc gives (price, asc), price-desc gives (price, desc), name gives (name, asc), every other token gives (createdAt, desc) |
| QueryCompiler.Compile | server.js:28-86 | page and limit by the defaulting rule; limit is never 0; skip = (page - 1) * limit; take = limit; the count gets the identical filter; order from the defaulted sort token; category included |
| QueryCompiler.BuildWhere | server.js:38-57 | building the filter key by key from `{}` yields exactly the filter of WhereOf |
| QueryCompiler.ChooseOrderBy | server.js:60-73 | the switch over `sort || 'newest'` yields exactly OrderOf of the defaulted token |
| QueryCompiler.CompileRequest | server.js:28-86 | the statement-by-statement compilation yields exactly the plan of Compile |
| QueryCompiler.DefaultingRule | server.js:28-29 | page is the parsed value unless it is NaN or 0, then 1; limit likewise with 12 |
| QueryCompiler.EmptyRequestPlan | server.js:28-35 | a request without parameters gives page 1, limit 12, skip 0, take 12, no filter, newest first |
| QueryCompiler.NegativePageIsKept | server.js:28-35 | page -5 is not clamped: skip is -72 at the default limit; page -1 with limit -12 gives skip 24 |
| QueryCompiler.FeaturedNeedsLiteralTrue | server.js:46-48 | any featured value other than the exact text "true" (absent, "1", "yes", "false", "True") sets no featured filter |
| QueryCompiler.DefaultSortIsNewest | server.js:31 | an absent or empty sort, and "newest", give createdAt descending |
| QueryCompiler.CountIgnoresWindowAndSort | server.js:76-86 | the count's filter depends only on category, featured and search, never on page, limit or sort, and equals the page fetch's filter |
| PlanSemantics.SubstringIffOccurs | server.js:52-55 | the scanning substring test holds exactly when the needle occurs at some position of the text |
| PlanSemantics.SearchGroupMeaning | server.js:50-57 | a product passes the OR group exactly when the search text occurs, ignoring case, in at least one of the four fields |
| PlanSemantics.CompiledFilterMeaning | server.js:38-57 | a product matches the compiled filter exactly when its category slug equals a non-empty category, it is featured if featured is "true", and a non-empty search text occurs in one of the four fields |
| PlanSemantics.CategoryIsExactSlug | server.js:40-44 | category "reds" does not select slug "reds-sparkling", which "reds-sparkling" itself does: equality, not substring |
| PlanSemantics.SearchFindsGrapeVariety | server.js:50-57 | search "cabernet" selects a product whose grape variety is "Cabernet Sauvignon", whatever its other fields |
| PlanSemantics.AscendingReversedIsDescending | server.js:60-73 | a list is ascending on a sort field exactly when its reverse is descending on that field |
| PlanSemantics.PriceDescIsReversedPriceAsc | server.js:62-67 | a list is in price-asc order exactly when its reverse is in price-desc order |
| Paging.CeilDiv | server.js:101 | for a positive limit, r is the least integer with total <= r * limit; for a negative limit, the least integer with r * limit <= total; both are Math.ceil(total / limit) |
| Paging.PaginationOf | server.js:97-102 | page, limit and total are echoed and totalPages is the ceiling of total / limit |
| Paging.NoPagesIffNoRows | server.js:101 | with a positive limit, totalPages is non-negative and is 0 exactly when total is 0 |
| Paging.RowsOnPage | server.js:79-80 | a page never holds more than limit rows |
| Paging.FirstPagesHold | server.js:79-80 | the first n pages hold min(total, n * limit) rows |
| Paging.OffsetIsRowsBefore | server.js:35 | skip equals the number of rows on the pages before the requested one |
| Paging.TotalPagesCoverAllRows | server.js:97-102 | the totalPages pages together hold every matching row |
| Paging.PageHasRowsIffWithinTotalPages | server.js:97-102 | for page >= 1 and limit > 0, a page holds rows exactly when page <= totalPages |
| Paging.ThirteenAtTwelve | server.js:97-102 | 13 rows at limit 12: totalPages 2, page 1 holds 12 rows, page 2 holds 1, page 3 none |
| Paging.NoRowsNoPages | server.js:101 | total 0 gives totalPages 0 |
| Paging.NegativeLimit | server.js:101 | limit -12 with 13 rows gives totalPages -1, with 5 rows 0; no guard rejects it |
| Handlers.FormatAll | server.js:90-93 | succeeds iff every row's images decode; then it keeps every row in order with its images decoded; otherwise it fails with the error of the first row that does not decode |
| Handlers.ListProducts | server.js:26-111 | 200 iff both store calls and every images decode succeed; the count gets the page fetch's filter; pagination is (page, limit, total, ceil(total / limit)); products are the fetched rows formatted in order; a 500 carries the message of one failing store call, or, when both store calls succeed, of the first row whose images do not decode |
| Handlers.ListStatusOfOutcome | server.js:95-110 | the list reply is 500 exactly when a store call threw or a fetched row's images did not decode, and 200 otherwise |
| Handlers.TotalIgnoresWindowAndSort | server.js:76-86 | two successful requests that differ only in page, limit or sort report the same total |
| Handlers.EmptyCatalogFirstPage | server.js:95-103 | no parameters and an empty store give an empty product list with pagination (1, 12, 0, 0) |
| Handlers.ClassifyLookup | server.js:116-134 | not found iff the store returned no record; failure iff the store threw or the images did not decode, with that message; otherwise the record with its images decoded |
| Handlers.GetProduct | server.js:114-136 | the lookup by id is not found iff the store has no record for the id, and is a failure with the store's message when the store throws |
| Handlers.LookupStatus | server.js:121-134 | status 404 iff no record; status 500 iff the store or the decoder threw; the status is always 200, 404 or 500; a missing record is never a 500 |

## Left out

- Express setup, the CORS allow-list, `express.json`, `/health` with its
  timestamp, `app.listen` and environment loading: these are framework and
  I/O plumbing.
- The categories, stores and delivery-zones endpoints: they pass store
  results through without decisions of their own. `JSON.parse` of opening
  hours and postal codes goes with them.
- The images decoder yields a list of strings or a failure. `JSON.parse` can
  also return `null`, a number or an object (for a stored `"null"` or `"{}"`),
  and the code sends those back with status 200. The model narrows the decoded
  value to a list of strings.
- `JSON.parse` itself is a parameter of the model. The code has no encoder,
  so there is no encode/decode round trip to prove.
- The Prisma calls are parameters. The model does not say which rows the
  store returns, how it orders ties, or how it treats a negative `skip` or
  `take`. `PlanSemantics` and `Paging.RowsOnPage` are the model's own reading
  of the filter, the order and the window.
- `Promise.all` concurrency: the two reads are independent values.
  ListProducts: when both store calls throw, the source reports whichever
  rejects first, which depends on timing. The contract only says the message
  comes from one of the failing calls.
- `Number()` float semantics are not modelled: fractions, exponents and
  precision loss of large numbers. Parsing is abstracted to `Option<int>`.
  Paging.CeilDiv: modelled exactly for integer totals and non-zero integer
  limits, not for floating-point limits.
- Query values that Express parses as arrays or objects (`?category[]=a`):
  every parameter is modelled as an optional string.
- PlanSemantics.ContainsInsensitive: case folding covers ASCII letters only;
  the database's locale-dependent folding is not modelled.
- PlanSemantics.StrLe: name order is read as code-point order, not the
  database collation.
- Catalog: prices and timestamps are integers, and every text field is
  present. The database schema is not part of this model.
- Error-message strings (`'Error fetching products'`, `'Product not
  found'`) and `console.error` logging.
