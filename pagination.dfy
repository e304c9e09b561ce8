/** The page arithmetic of the two contract listings: nine contracts per
    page, the request offset of a page, the page count, the "Showing
    contracts X - Y of N" caption and the previous / next / numbered page
    buttons. Pages are numbered from 1; nothing clamps a page number. */
module Pagination {

  const ItemsPerPage: nat := 9

  function Min(a: int, b: int): int
  {
    if a <= b then a else b
  }

  /** `(page - 1) * itemsPerPage`, the number of matches before the page. */
  function Skip(page: int): (r: int)
    ensures page >= 1 ==> r >= 0 && r % ItemsPerPage == 0
  {
    (page - 1) * ItemsPerPage
  }

  /** `Math.ceil(x)`. */
  function Ceil(x: real): (r: int)
    ensures x <= r as real < x + 1.0
  {
    -((-x).Floor)
  }

  /** `Math.ceil(total / itemsPerPage)`, in exact arithmetic: the fewest
      pages that hold `total` contracts. */
  function TotalPages(total: nat): (r: int)
    ensures r >= 0
    ensures r == 0 <==> total == 0
    ensures total > 0 ==> (r - 1) * ItemsPerPage < total <= r * ItemsPerPage
  {
    Ceil(total as real / ItemsPerPage as real)
  }

  /** The caption "Showing contracts start - end of total". */
  function ShowingRange(page: int, total: nat): (r: (int, int))
    ensures r.0 == Skip(page) + 1
    ensures r.0 <= total ==> r.0 <= r.1 <= total && r.1 - r.0 + 1 <= ItemsPerPage
    ensures r.0 <= total && page < TotalPages(total) ==> r.1 - r.0 + 1 == ItemsPerPage
    ensures r.0 > total ==> r.1 < r.0
  {
    ((page - 1) * ItemsPerPage + 1, Min(page * ItemsPerPage, total))
  }

  /** The "Previous" item carries the `disabled` class. */
  predicate PreviousDisabled(page: int)
  {
    page == 1
  }

  /** The "Next" item carries the `disabled` class. */
  predicate NextDisabled(page: int, totalPages: int)
  {
    page == totalPages
  }

  /** With no contracts at all there are no pages, so "Next" stays enabled
      on page 1 and "Previous" is disabled there. */
  lemma EmptyListingKeepsNextEnabled()
    ensures TotalPages(0) == 0
    ensures PreviousDisabled(1) && !NextDisabled(1, TotalPages(0))
  {
  }

  /** On a non-empty listing, "Next" is disabled exactly on the last page,
      the last page is the one holding the final contract, and on every
      earlier page "Next" is enabled. */
  lemma NextDisabledOnlyOnLastPage(page: int, total: nat)
    requires total > 0
    ensures NextDisabled(page, TotalPages(total)) <==> Skip(page) < total <= Skip(page) + ItemsPerPage
  {
  }

  /** One numbered page item. */
  datatype PageItem = PageItem(number: int, active: bool)

  /** `[...Array(totalPages)].map(...)`: one item per page number, the one
      for the current page marked active. */
  function PageItems(page: int, totalPages: nat): (r: seq<PageItem>)
    ensures |r| == totalPages
    ensures forall k :: 0 <= k < |r| ==> r[k].number == k + 1
    ensures forall k :: 0 <= k < |r| && r[k].active ==> k == page - 1
    ensures 1 <= page <= totalPages ==> r[page - 1].active
  {
    seq(totalPages, k => PageItem(k + 1, page == k + 1))
  }
}
