/**
  * The Previous / Page n of m / Next controls that the posts list and the
  * mobile content manager both draw under their lists: shown only when there
  * is more than one page, Previous disabled on page 1, Next disabled on the
  * last page. A click requests the neighbouring page.
  */
module PageControls {
  import opened Wrappers

  /** `n || 1` on an optional page number: 1 when it is missing or zero. */
  function PageOr1(n: Option<int>): (r: int)
    ensures r != 0
    ensures n.None? || n.value == 0 ==> r == 1
    ensures n.Some? && n.value != 0 ==> r == n.value
  {
    if n.Some? && n.value != 0 then n.value else 1
  }

  /** `totalPages > 1`: whether the controls are drawn at all. */
  predicate ShowsControls(totalPages: int) {
    totalPages > 1
  }

  /** `disabled={currentPage === 1}`. */
  predicate PreviousDisabled(currentPage: int) {
    currentPage == 1
  }

  /** `disabled={currentPage === totalPages}`. */
  predicate NextDisabled(currentPage: int, totalPages: int) {
    currentPage == totalPages
  }

  /** The page a click on Previous requests, or `None` when the button is not there or disabled. */
  function PreviousPage(currentPage: int, totalPages: int): (p: Option<int>)
    ensures p.Some? <==> totalPages > 1 && currentPage != 1
    ensures p.Some? ==> p.value == currentPage - 1
    ensures p.Some? && 1 <= currentPage <= totalPages ==> 1 <= p.value < totalPages
  {
    if ShowsControls(totalPages) && !PreviousDisabled(currentPage) then Some(currentPage - 1) else None
  }

  /** The page a click on Next requests, or `None` when the button is not there or disabled. */
  function NextPage(currentPage: int, totalPages: int): (p: Option<int>)
    ensures p.Some? <==> totalPages > 1 && currentPage != totalPages
    ensures p.Some? ==> p.value == currentPage + 1
    ensures p.Some? && 1 <= currentPage <= totalPages ==> 1 < p.value <= totalPages
  {
    if ShowsControls(totalPages) && !NextDisabled(currentPage, totalPages) then Some(currentPage + 1) else None
  }

  /**
    * From a page inside the range, any sequence of clicks stays inside it:
    * every page the controls request lies in 1..totalPages.
    */
  lemma {:induction false} ClicksStayInRange(currentPage: int, totalPages: int, clicks: seq<bool>)
    requires 1 <= currentPage <= totalPages
    ensures 1 <= AfterClicks(currentPage, totalPages, clicks) <= totalPages
    decreases |clicks|
  {
    if clicks != [] {
      var next := Click(currentPage, totalPages, clicks[0]);
      ClicksStayInRange(next, totalPages, clicks[1..]);
    }
  }

  /** The page shown after one click (`true` is Next, `false` is Previous); a disabled click changes nothing. */
  function Click(currentPage: int, totalPages: int, forward: bool): (p: int)
    ensures 1 <= currentPage <= totalPages ==> 1 <= p <= totalPages
  {
    var target := if forward then NextPage(currentPage, totalPages) else PreviousPage(currentPage, totalPages);
    target.GetOr(currentPage)
  }

  /** The page shown after a sequence of clicks, each loading the page it requests. */
  function AfterClicks(currentPage: int, totalPages: int, clicks: seq<bool>): int
    decreases |clicks|
  {
    if clicks == [] then currentPage
    else AfterClicks(Click(currentPage, totalPages, clicks[0]), totalPages, clicks[1..])
  }

  /**
    * The guards compare for equality only, so a current page past the last one
    * (page 3 of 2) leaves Next enabled and it requests page 4.
    */
  lemma NextUnguardedPastLastPage()
    ensures NextPage(3, 2) == Some(4)
  {
  }
}
