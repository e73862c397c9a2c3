/** The pagination block of the product-list response, and what its numbers
    mean for the windows the store hands back. */
module Paging {

  /** `{ page, limit, total, totalPages }` */
  datatype Pagination = Pagination(page: int, limit: int, total: nat, totalPages: int)

  /** `Math.ceil(total / limit)` for a whole-number total and a non-zero
      whole-number limit: the least integer not below the exact quotient. */
  function CeilDiv(total: int, limit: int): (r: int)
    requires limit != 0
    ensures limit > 0 ==> (r - 1) * limit < total <= r * limit
    ensures limit < 0 ==> r * limit <= total < (r - 1) * limit
  {
    if limit > 0 then
      var q := (-total) / limit;
      assert q * limit <= -total < q * limit + limit;
      -q
    else
      var q := total / (-limit);
      assert q * (-limit) <= total < q * (-limit) + (-limit);
      -q
  }

  /** The pagination block for a page of a filter that `total` rows match. */
  function PaginationOf(page: int, limit: int, total: nat): (r: Pagination)
    requires limit != 0
    ensures r.page == page && r.limit == limit && r.total == total
    ensures limit > 0 ==> (r.totalPages - 1) * limit < total <= r.totalPages * limit
    ensures limit < 0 ==> r.totalPages * limit <= total < (r.totalPages - 1) * limit
  {
    Pagination(page, limit, total, CeilDiv(total, limit))
  }

  /** With a positive limit there are no pages exactly when nothing matched. */
  lemma NoPagesIffNoRows(total: nat, limit: int)
    requires limit > 0
    ensures CeilDiv(total, limit) >= 0
    ensures CeilDiv(total, limit) == 0 <==> total == 0
  {
  }

  /** How many of `total` matching rows the store returns for a page: skip
      `(page - 1) * limit` rows, then take at most `limit`. This is the
      model's reading of `skip`/`take`, for a positive page and limit. */
  function RowsOnPage(total: nat, page: int, limit: int): (n: nat)
    requires page >= 1 && limit > 0
    ensures n <= limit
  {
    var skip := (page - 1) * limit;
    if total <= skip then 0
    else if total - skip < limit then total - skip
    else limit
  }

  /** Rows on pages 1 to `pages` together. */
  function RowsOnFirstPages(total: nat, limit: int, pages: nat): nat
    requires limit > 0
  {
    if pages == 0 then 0 else RowsOnFirstPages(total, limit, pages - 1) + RowsOnPage(total, pages, limit)
  }

  /** The first `pages` pages hold `pages * limit` rows, or every row once
      that is more than there are. */
  lemma {:induction false} FirstPagesHold(total: nat, limit: int, pages: nat)
    requires limit > 0
    ensures RowsOnFirstPages(total, limit, pages) == if total <= pages * limit then total else pages * limit
  {
    if pages > 0 {
      FirstPagesHold(total, limit, pages - 1);
      assert pages * limit == (pages - 1) * limit + limit;
    }
  }

  /** The offset of a page is the number of rows on the pages before it, as
      long as the rows reach that far. */
  lemma OffsetIsRowsBefore(total: nat, page: int, limit: int)
    requires page >= 1 && limit > 0
    requires (page - 1) * limit <= total
    ensures (page - 1) * limit == RowsOnFirstPages(total, limit, page - 1)
  {
    FirstPagesHold(total, limit, page - 1);
  }

  /** The `totalPages` pages together return every matching row, each once. */
  lemma TotalPagesCoverAllRows(total: nat, limit: int)
    requires limit > 0
    ensures CeilDiv(total, limit) >= 0
    ensures RowsOnFirstPages(total, limit, CeilDiv(total, limit)) == total
  {
    NoPagesIffNoRows(total, limit);
    FirstPagesHold(total, limit, CeilDiv(total, limit));
  }

  /** A page returns rows exactly when its number is at most `totalPages`. */
  lemma PageHasRowsIffWithinTotalPages(total: nat, page: int, limit: int)
    requires page >= 1 && limit > 0
    ensures RowsOnPage(total, page, limit) > 0 <==> page <= CeilDiv(total, limit)
  {
  }

  /** Thirteen matching products at the default limit of twelve: two pages,
      twelve rows then one, and nothing on page three. */
  lemma ThirteenAtTwelve()
    ensures PaginationOf(1, 12, 13).totalPages == 2
    ensures RowsOnPage(13, 1, 12) == 12
    ensures RowsOnPage(13, 2, 12) == 1
    ensures RowsOnPage(13, 3, 12) == 0
  {
  }

  /** No matching products: zero pages, whatever positive limit. */
  lemma NoRowsNoPages(limit: int)
    requires limit > 0
    ensures PaginationOf(1, limit, 0).totalPages == 0
  {
  }

  /** A negative limit is not rejected: `Math.ceil` of a negative quotient,
      which is negative once the total reaches the limit's magnitude. */
  lemma NegativeLimit()
    ensures PaginationOf(1, -12, 13).totalPages == -1
    ensures PaginationOf(1, -5, 0).totalPages == 0
    ensures PaginationOf(1, -12, 5).totalPages == 0
  {
  }
}
