/** The pagination both list pages share: six records a page, the "Mostrando a-b de n"
    caption, the window of at most five page buttons, and the previous/next buttons. */
module Pagination {

  const ITEMS_PER_PAGE: int := 6
  /** The most page buttons shown at once. */
  const WINDOW: int := 5

  /** `Math.ceil(n / ITEMS_PER_PAGE)`. */
  function TotalPages(n: nat): (p: nat)
    ensures p * ITEMS_PER_PAGE >= n
    ensures p > 0 ==> (p - 1) * ITEMS_PER_PAGE < n
  {
    (n + ITEMS_PER_PAGE - 1) / ITEMS_PER_PAGE
  }

  /** `(currentPage - 1) * ITEMS_PER_PAGE`. */
  function StartIndex(page: int): int
  {
    (page - 1) * ITEMS_PER_PAGE
  }

  /** `list.slice(startIndex, startIndex + ITEMS_PER_PAGE)`: slice clamps both ends to
      the list. The current page never drops below 1. */
  function PageSlice<T>(s: seq<T>, page: int): (r: seq<T>)
    requires page >= 1
    ensures |r| <= ITEMS_PER_PAGE
    ensures forall i :: 0 <= i < |r| ==> StartIndex(page) + i < |s| && r[i] == s[StartIndex(page) + i]
    ensures StartIndex(page) < |s| ==> |r| == (if StartIndex(page) + ITEMS_PER_PAGE <= |s| then ITEMS_PER_PAGE else |s| - StartIndex(page))
  {
    var start := StartIndex(page);
    var end := start + ITEMS_PER_PAGE;
    if start >= |s| then [] else if end <= |s| then s[start..end] else s[start..]
  }

  /** Pages 1 to `k`, one after the other. */
  function FirstPages<T>(s: seq<T>, k: nat): seq<T>
  {
    if k == 0 then [] else FirstPages(s, k - 1) + PageSlice(s, k)
  }

  lemma {:induction false} FirstPagesPrefix<T>(s: seq<T>, k: nat)
    requires k * ITEMS_PER_PAGE <= |s|
    ensures FirstPages(s, k) == s[..k * ITEMS_PER_PAGE]
    decreases k
  {
    if k > 0 {
      FirstPagesPrefix(s, k - 1);
      assert s[..k * ITEMS_PER_PAGE] == s[..(k - 1) * ITEMS_PER_PAGE] + s[(k - 1) * ITEMS_PER_PAGE..k * ITEMS_PER_PAGE];
    }
  }

  /** The pages partition the list: read in order, pages 1 to `TotalPages` give back
      every record exactly once, in order. */
  lemma PagesPartition<T>(s: seq<T>)
    ensures FirstPages(s, TotalPages(|s|)) == s
  {
    var p := TotalPages(|s|);
    if p > 0 {
      var m := (p - 1) * ITEMS_PER_PAGE;
      assert StartIndex(p) == m < |s| <= m + ITEMS_PER_PAGE;
      FirstPagesPrefix(s, p - 1);
      var before := FirstPages(s, p - 1);
      var last := PageSlice(s, p);
      assert FirstPages(s, p) == before + last;
      assert before == s[..m];
      assert last == s[m..];
      assert s == s[..m] + s[m..];
    }
  }

  /** "Mostrando {startIndex + 1}-{Math.min(endIndex, n)} de {n}". */
  function ShownRange(n: nat, page: int): (int, int)
  {
    var start := StartIndex(page);
    var end := start + ITEMS_PER_PAGE;
    (start + 1, if end < n then end else n)
  }

  /** On an existing page, the caption names exactly the 1-based positions of the
      records that page shows. */
  lemma ShownRangeMatchesSlice<T>(s: seq<T>, page: int)
    requires 1 <= page <= TotalPages(|s|)
    ensures var (first, last) := ShownRange(|s|, page);
      && 1 <= first <= last <= |s|
      && last - first + 1 == |PageSlice(s, page)|
      && forall i :: 0 <= i < |PageSlice(s, page)| ==> PageSlice(s, page)[i] == s[first - 1 + i]
  {
  }

  /** The page numbers of the button row (`Array.from({length: Math.min(5, totalPages)}, ...)`):
      the first five pages near the start, the last five near the end, and otherwise
      the current page with two on each side. */
  function PageWindow(current: int, total: int): seq<int>
  {
    var len := if total < WINDOW then total else WINDOW;
    if len <= 0 then [] else seq(len, i => WindowButton(current, total, i))
  }

  /** The page number on button `i` of the row. */
  function WindowButton(current: int, total: int, i: int): int
  {
    if total <= WINDOW then i + 1
    else if current <= 3 then i + 1
    else if current >= total - 2 then total - 4 + i
    else current - 2 + i
  }

  /** For a current page in range, the row holds min(5, totalPages) consecutive page
      numbers, all existing pages, one of them the current page. */
  lemma PageWindowSpec(current: int, total: int)
    requires 1 <= current <= total
    ensures var w := PageWindow(current, total);
      && |w| == (if total < WINDOW then total else WINDOW)
      && (forall i :: 0 <= i < |w| ==> 1 <= w[i] <= total)
      && (forall i :: 0 < i < |w| ==> w[i] == w[i - 1] + 1)
      && current in w
  {
    var w := PageWindow(current, total);
    var k := if total <= WINDOW || current <= 3 then current - 1
             else if current >= total - 2 then current - (total - 4)
             else 2;
    assert 0 <= k < |w| && w[k] == current;
  }

  /** "Anterior": `Math.max(1, p - 1)`. */
  function PrevPage(p: int): int
  {
    if p - 1 < 1 then 1 else p - 1
  }

  /** "Siguiente": `Math.min(totalPages, p + 1)`. */
  function NextPage(p: int, total: int): int
  {
    if p + 1 < total then p + 1 else total
  }

  /** Both buttons keep the current page within [1, totalPages] and move it by at most one;
      each moves exactly one page unless already at its end. */
  lemma PrevNextClamp(p: int, total: int)
    requires 1 <= p <= total
    ensures 1 <= PrevPage(p) <= total && 1 <= NextPage(p, total) <= total
    ensures PrevPage(p) == (if p == 1 then 1 else p - 1)
    ensures NextPage(p, total) == (if p == total then total else p + 1)
  {
  }
}
