/**
 * The Previous/Next pair every admin list page renders under its table:
 * Previous moves to `max(1, page - 1)` and Next to `min(totalPages,
 * page + 1)`; each is disabled while it would stay where it is.
 */
module AdminPaging {
  import opened Common

  /** Previous: one page back, never below the first page. */
  function PrevPage(page: int): (p: int)
    ensures p >= 1
    ensures page > 1 ==> p == page - 1
    ensures page <= 1 ==> p == 1
  {
    Max(1, page - 1)
  }

  /** Next: one page on, never past the last page the response announced. */
  function NextPage(page: int, totalPages: int): (p: int)
    ensures p <= totalPages
    ensures page < totalPages ==> p == page + 1
    ensures page >= totalPages ==> p == totalPages
  {
    Min(totalPages, page + 1)
  }

  /** `data.totalPages || 1`: a page count of zero or none at all reads as one page. */
  function PagesShown(totalPages: nat): (n: int)
    ensures n >= 1
    ensures totalPages > 0 ==> n == totalPages
    ensures totalPages == 0 ==> n == 1
  {
    if totalPages == 0 then 1 else totalPages
  }

  predicate PrevDisabled(page: int) {
    page == 1
  }

  predicate NextDisabled(page: int, totalPages: int) {
    page == totalPages
  }

  /** Inside `[1, totalPages]`, Next then Previous comes back to the start. */
  lemma PrevUndoesNext(page: int, totalPages: int)
    requires 1 <= page < totalPages
    ensures PrevPage(NextPage(page, totalPages)) == page
  {
  }

  /** Inside `[1, totalPages]`, Previous then Next comes back to the start. */
  lemma NextUndoesPrev(page: int, totalPages: int)
    requires 1 < page <= totalPages
    ensures NextPage(PrevPage(page), totalPages) == page
  {
  }

  /**
   * With at least one page, both buttons keep the page inside
   * `[1, totalPages]`, and a button that is not disabled always moves.
   */
  lemma ButtonsStayInRange(page: int, totalPages: int)
    requires 1 <= page <= totalPages
    ensures 1 <= PrevPage(page) <= totalPages
    ensures 1 <= NextPage(page, totalPages) <= totalPages
    ensures !PrevDisabled(page) ==> PrevPage(page) == page - 1
    ensures !NextDisabled(page, totalPages) ==> NextPage(page, totalPages) == page + 1
  {
  }
}
