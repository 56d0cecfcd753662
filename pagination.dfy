/** Page-count arithmetic and the enablement of the Prev / Next controls on the home page. */
module Pagination {

  /** The search API returns ten results per page. */
  const PageSize: nat := 10

  /** `Math.ceil(totalResults / 10)` on a non-negative count. */
  function TotalPages(totalResults: nat): (r: nat)
    ensures totalResults <= PageSize * r
    ensures r > 0 ==> PageSize * (r - 1) < totalResults
  {
    (totalResults + PageSize - 1) / PageSize
  }

  /** The pagination block is rendered only when there is more than one page. */
  predicate ShowControls(totalResults: nat) {
    TotalPages(totalResults) > 1
  }

  /** `disabled={page === 1}` on Prev. */
  predicate PrevDisabled(page: int) {
    page == 1
  }

  /** `disabled={page === totalPages}` on Next. */
  predicate NextDisabled(page: int, totalResults: nat) {
    page == TotalPages(totalResults)
  }

  /** The controls appear exactly when there are more results than fit on one page. */
  lemma ShowControlsIff(totalResults: nat)
    ensures ShowControls(totalResults) <==> totalResults > PageSize
  {
    var r := TotalPages(totalResults);
    if totalResults > PageSize {
      assert r > 1;
    }
  }

  /** The worked examples: 23 results make 3 pages, 10 results make 1 page and no controls. */
  lemma TotalPagesExamples()
    ensures TotalPages(23) == 3 && ShowControls(23)
    ensures TotalPages(10) == 1 && !ShowControls(10)
    ensures TotalPages(0) == 0
  {
  }

  /** While the page lies within range and the controls show, at least one of Prev and
      Next is enabled, and an enabled one asks for a page that is again within range. */
  lemma NavigationStaysInRange(page: int, totalResults: nat)
    requires ShowControls(totalResults) && 1 <= page <= TotalPages(totalResults)
    ensures !PrevDisabled(page) || !NextDisabled(page, totalResults)
    ensures !PrevDisabled(page) ==> 1 <= page - 1 <= TotalPages(totalResults)
    ensures !NextDisabled(page, totalResults) ==> 1 <= page + 1 <= TotalPages(totalResults)
  {
  }
}
