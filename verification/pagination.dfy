/**
 * PaginationService: one page of a sorted query result and the page counts
 * that go with it.
 */
module Pagination {

  /** `{ totalItems, itemCount, itemsPerPage, totalPages, currentPage }`. */
  datatype PageInfo = PageInfo(totalItems: nat, itemCount: nat, itemsPerPage: int, totalPages: int, currentPage: int)

  /** `{ data, pagination }`. */
  datatype Page<T> = Page(data: seq<T>, pagination: PageInfo)

  function Min(a: int, b: int): int
  {
    if a <= b then a else b
  }

  /** `Math.ceil(total / limit)` for a positive limit. */
  function CeilDiv(total: nat, limit: nat): (q: nat)
    requires limit > 0
    ensures q * limit >= total
    ensures q > 0 ==> (q - 1) * limit < total
  {
    (total + limit - 1) / limit
  }

  /**
   * `paginate(model, page, limit, query, sort)` (lines 8-29) over the query's
   * result `sorted`, already in the requested order. The page count is the
   * least positive count whose pages hold every item.
   */
  function Paginate<T>(sorted: seq<T>, page: int, limit: int): (r: Page<T>)
    requires page >= 1 && limit >= 1
    ensures var skip := (page - 1) * limit;
      skip >= 0 && r.data == sorted[Min(skip, |sorted|)..Min(skip + limit, |sorted|)]
    ensures |r.data| <= limit && r.pagination.itemCount == |r.data|
    ensures r.pagination.totalItems == |sorted|
    ensures r.pagination.totalPages >= 1
    ensures r.pagination.totalPages * limit >= |sorted|
    ensures r.pagination.totalPages == 1 || (r.pagination.totalPages - 1) * limit < |sorted|
    ensures r.pagination.itemsPerPage == limit && r.pagination.currentPage == page
  {
    var skip := (page - 1) * limit;
    var items := sorted[Min(skip, |sorted|)..Min(skip + limit, |sorted|)];
    var ceil := CeilDiv(|sorted|, limit);
    Page(items, PageInfo(|sorted|, |items|, limit, if ceil >= 1 then ceil else 1, page))
  }

  /** The default first page of ten skips nothing. */
  lemma DefaultsStartAtTheTop<T>(sorted: seq<T>)
    ensures Paginate(sorted, 1, 10).data == sorted[..Min(10, |sorted|)]
  {
  }

  /** Item `i` is on page `i / limit + 1`, at offset `i % limit`. */
  lemma EachItemOnItsPage<T>(sorted: seq<T>, limit: int, i: nat)
    requires limit >= 1 && i < |sorted|
    ensures var p := Paginate(sorted, i / limit + 1, limit);
      i % limit < |p.data| && p.data[i % limit] == sorted[i]
  {
    var k := i / limit;
    var m := i % limit;
    DivParts(i, limit);
    var page := k + 1;
    assert (page - 1) * limit + m == i by {
      assert page - 1 == k;
    }
    PageAt(sorted, page, limit, m);
  }

  lemma DivParts(i: nat, limit: int)
    requires limit >= 1
    ensures i == (i / limit) * limit + i % limit && 0 <= i % limit < limit
  {
  }

  /** Offset `m` of a page holds the item `m` places after the items skipped. */
  lemma PageAt<T>(sorted: seq<T>, page: int, limit: int, m: nat)
    requires page >= 1 && limit >= 1 && m < limit && (page - 1) * limit + m < |sorted|
    ensures m < |Paginate(sorted, page, limit).data|
    ensures Paginate(sorted, page, limit).data[m] == sorted[(page - 1) * limit + m]
  {
  }

  /** The page of every item is within the page count. */
  lemma EachItemsPageIsCounted<T>(sorted: seq<T>, limit: int, i: nat)
    requires limit >= 1 && i < |sorted|
    ensures i / limit + 1 <= Paginate(sorted, i / limit + 1, limit).pagination.totalPages
  {
    var k := i / limit;
    assert k * limit <= i;
    var ceil := CeilDiv(|sorted|, limit);
    if ceil <= k {
      MulMonotone(ceil, k, limit);
      assert false;
    }
  }

  lemma MulMonotone(a: int, b: int, c: nat)
    requires a <= b
    ensures a * c <= b * c
  {
    assert b * c - a * c == (b - a) * c;
  }
}
