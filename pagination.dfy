/**
 * The arithmetic of the pagination control (src/components/Pagination.js):
 * the window of at most five page numbers, the item range shown above it and
 * the targets and enablement of the first/previous/next/last buttons.
 * Pages are numbered from 0.
 */
module Pagination {

  const MaxVisiblePages := 5

  function Max(a: int, b: int): int { if a >= b then a else b }
  function Min(a: int, b: int): int { if a <= b then a else b }

  // ---------------------------------------------------------------------------
  // generatePageNumbers
  // ---------------------------------------------------------------------------

  /** The first page of the window: centred on the current page, then shifted left when it hits the end. */
  function WindowStart(currentPage: int, totalPages: int): int {
    var start := Max(0, currentPage - MaxVisiblePages / 2);
    var end := Min(totalPages - 1, start + MaxVisiblePages - 1);
    if end - start < MaxVisiblePages - 1 then Max(0, end - MaxVisiblePages + 1) else start
  }

  /** The last page of the window. */
  function WindowEnd(currentPage: int, totalPages: int): int {
    Min(totalPages - 1, Max(0, currentPage - MaxVisiblePages / 2) + MaxVisiblePages - 1)
  }

  /** The pages `start..end`, both included, in increasing order; empty when `end < start`. */
  function PageRange(start: int, end: int): (r: seq<int>)
    ensures forall x :: x in r <==> start <= x <= end
    ensures forall i, j :: 0 <= i < j < |r| ==> r[i] < r[j]
  {
    var r := seq(Max(0, end - start + 1), i => start + i);
    RunCoversRange(r, start, end);
    r
  }

  /** A run counting up from `start` with one page per number up to `end` contains every page in between. */
  lemma RunCoversRange(r: seq<int>, start: int, end: int)
    requires |r| == Max(0, end - start + 1)
    requires forall i :: 0 <= i < |r| ==> r[i] == start + i
    ensures forall x :: start <= x <= end ==> x in r
  {
    forall x | start <= x <= end
      ensures x in r
    {
      assert r[x - start] == x;
    }
  }

  /** The page numbers the control shows: at most five, all of them valid pages. */
  function PageWindow(currentPage: int, totalPages: int): (w: seq<int>)
    ensures |w| <= MaxVisiblePages
    ensures forall p :: p in w ==> 0 <= p < totalPages
  {
    PageRange(WindowStart(currentPage, totalPages), WindowEnd(currentPage, totalPages))
  }

  /** `generatePageNumbers`. */
  method GeneratePageNumbers(currentPage: int, totalPages: int) returns (pages: seq<int>)
    ensures pages == PageWindow(currentPage, totalPages)
  {
    pages := [];
    var startPage := Max(0, currentPage - MaxVisiblePages / 2);
    var endPage := Min(totalPages - 1, startPage + MaxVisiblePages - 1);
    if endPage - startPage < MaxVisiblePages - 1 {
      startPage := Max(0, endPage - MaxVisiblePages + 1);
    }
    var i := startPage;
    while i <= endPage
      invariant startPage <= i <= Max(startPage, endPage + 1)
      invariant |pages| == i - startPage
      invariant forall k :: 0 <= k < |pages| ==> pages[k] == startPage + k
    {
      pages := pages + [i];
      i := i + 1;
    }
  }

  /** On a valid page the window holds exactly `min(5, totalPages)` pages. */
  lemma WindowSize(currentPage: int, totalPages: int)
    requires 0 <= currentPage < totalPages
    ensures |PageWindow(currentPage, totalPages)| == Min(MaxVisiblePages, totalPages)
  {
  }

  /** The window is a run of consecutive pages inside `[0, totalPages - 1]`, and empty when there is no page. */
  lemma WindowBounds(currentPage: int, totalPages: int)
    ensures var w := PageWindow(currentPage, totalPages);
      && (forall i :: 0 <= i < |w| ==> 0 <= w[i] <= totalPages - 1)
      && (forall i :: 0 <= i < |w| - 1 ==> w[i + 1] == w[i] + 1)
      && (totalPages <= 0 ==> w == [])
  {
  }

  /** On a valid page the window shows the current page. */
  lemma WindowContainsCurrent(currentPage: int, totalPages: int)
    requires 0 <= currentPage < totalPages
    ensures currentPage in PageWindow(currentPage, totalPages)
  {
    var w := PageWindow(currentPage, totalPages);
    var s := WindowStart(currentPage, totalPages);
    assert w[currentPage - s] == currentPage;
  }

  /** Twenty pages: the first, a middle and the last page. */
  lemma WindowExamples()
    ensures PageWindow(0, 20) == [0, 1, 2, 3, 4]
    ensures PageWindow(10, 20) == [8, 9, 10, 11, 12]
    ensures PageWindow(19, 20) == [15, 16, 17, 18, 19]
  {
  }

  // ---------------------------------------------------------------------------
  // startItem / endItem
  // ---------------------------------------------------------------------------

  /** The 1-based number of the first item on the page: one past the items of the earlier pages. */
  function StartItem(currentPage: int, pageSize: int): (first: int)
    ensures 0 <= currentPage && 0 <= pageSize ==> first >= 1
  {
    currentPage * pageSize + 1
  }

  /** The 1-based number of the last item on the page: never past the page's end nor the last item. */
  function EndItem(currentPage: int, pageSize: int, totalElements: int): (last: int)
    ensures last <= totalElements && last <= StartItem(currentPage, pageSize) + pageSize - 1
    ensures last == totalElements || last == StartItem(currentPage, pageSize) + pageSize - 1
  {
    Min((currentPage + 1) * pageSize, totalElements)
  }

  /** On a page that holds items, the range lies within `1..totalElements` and counts the page's items. */
  lemma ItemRangeOnPage(currentPage: int, pageSize: int, totalElements: int)
    requires 0 <= currentPage && 0 < pageSize
    requires currentPage * pageSize < totalElements
    ensures var first, last := StartItem(currentPage, pageSize), EndItem(currentPage, pageSize, totalElements);
      && 1 <= first <= last <= totalElements
      && last - first + 1 == Min(pageSize, totalElements - currentPage * pageSize)
  {
    assert (currentPage + 1) * pageSize == currentPage * pageSize + pageSize;
  }

  /** On a page past the last item the range is inverted: the first item number exceeds the last. */
  lemma ItemRangePastEnd(currentPage: int, pageSize: int, totalElements: int)
    requires 0 <= currentPage && 0 < pageSize
    requires totalElements <= currentPage * pageSize
    ensures StartItem(currentPage, pageSize) > EndItem(currentPage, pageSize, totalElements)
  {
  }

  // ---------------------------------------------------------------------------
  // First / previous / next / last
  // ---------------------------------------------------------------------------

  /** A navigation button: the page it asks for and whether it is disabled. */
  datatype NavButton = NavButton(target: int, disabled: bool)

  datatype NavButtons = NavButtons(first: NavButton, prev: NavButton, next: NavButton, last: NavButton)

  /** The four buttons: first and previous are enabled together, and so are next and last. */
  function Buttons(currentPage: int, totalPages: int): (b: NavButtons)
    ensures b.first.disabled == b.prev.disabled && b.next.disabled == b.last.disabled
    ensures b.prev.target < currentPage < b.next.target
  {
    NavButtons(
      NavButton(0, currentPage == 0),
      NavButton(currentPage - 1, currentPage == 0),
      NavButton(currentPage + 1, currentPage >= totalPages - 1),
      NavButton(totalPages - 1, currentPage >= totalPages - 1))
  }

  /**
   * From a valid page, every enabled button asks for a valid page other than
   * the current one, and a button is enabled exactly when such a move exists
   * in its direction.
   */
  lemma ButtonsStayInRange(currentPage: int, totalPages: int)
    requires 0 <= currentPage < totalPages
    ensures var b := Buttons(currentPage, totalPages);
      && (forall n :: n in [b.first, b.prev, b.next, b.last] && !n.disabled ==>
            0 <= n.target < totalPages && n.target != currentPage)
      && (!b.first.disabled <==> 0 < currentPage) && (!b.prev.disabled <==> 0 < currentPage)
      && (!b.next.disabled <==> currentPage + 1 < totalPages) && (!b.last.disabled <==> currentPage + 1 < totalPages)
      && b.prev.target < currentPage < b.next.target
  {
  }
}
