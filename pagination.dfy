/** The pagination bar (`PhanTrang`): the list of page buttons and ellipses
    for the current page and the page count, and what each button reports. */
module Pagination {
  import opened Common

  /** One entry of the bar: a numbered page or a "..." placeholder. */
  datatype PageItem = Page(number: int) | Ellipsis

  /** The pages lo, lo+1, ..., hi (empty when lo > hi). */
  function Numbers(lo: int, hi: int): (r: seq<PageItem>)
    ensures |r| == if lo <= hi then hi - lo + 1 else 0
    ensures forall i :: 0 <= i < |r| ==> r[i] == Page(lo + i)
    decreases hi - lo
  {
    if lo > hi then [] else [Page(lo)] + Numbers(lo + 1, hi)
  }

  /** Extending the range by one page appends that page. */
  lemma NumbersSnoc(lo: int, hi: int)
    requires lo <= hi + 1
    ensures Numbers(lo, hi + 1) == Numbers(lo, hi) + [Page(hi + 1)]
  {
    var a, b := Numbers(lo, hi + 1), Numbers(lo, hi) + [Page(hi + 1)];
    assert |a| == |b|;
    forall i | 0 <= i < |a| ensures a[i] == b[i] {
    }
  }

  function Max(a: int, b: int): int { if a >= b then a else b }
  function Min(a: int, b: int): int { if a <= b then a else b }

  /** First and last page of the window around the current page. */
  function WindowStart(current: int): int { Max(2, current - 1) }
  function WindowEnd(current: int, total: int): int { Min(total - 1, current + 1) }

  predicate HasLeadingGap(current: int) { current > 3 }
  predicate HasTrailingGap(current: int, total: int) { current < total - 2 }

  /** The list `taoDanhSachTrang` builds, as a value. */
  function PageList(current: int, total: int): seq<PageItem> {
    if total <= 5 then Numbers(1, total)
    else
      [Page(1)]
      + (if HasLeadingGap(current) then [Ellipsis] else [])
      + Numbers(WindowStart(current), WindowEnd(current, total))
      + (if HasTrailingGap(current, total) then [Ellipsis] else [])
      + [Page(total)]
  }

  /** The `for` loop that pushes the pages `lo`..`hi` one by one. */
  method PushRange(pages: seq<PageItem>, lo: int, hi: int) returns (r: seq<PageItem>)
    ensures r == pages + Numbers(lo, hi)
  {
    r := pages;
    var i := lo;
    while i <= hi
      invariant lo <= i <= Max(lo, hi + 1)
      invariant r == pages + Numbers(lo, i - 1)
    {
      NumbersSnoc(lo, i - 1);
      r := r + [Page(i)];
      i := i + 1;
    }
  }

  /** `taoDanhSachTrang()`: pushes the entries one by one. */
  method BuildPageList(current: int, total: int) returns (pages: seq<PageItem>)
    ensures pages == PageList(current, total)
  {
    if total <= 5 {
      pages := PushRange([], 1, total);
      assert pages == Numbers(1, total);
    } else {
      pages := [Page(1)];
      // the leading "..." is pushed when the current page is above 3
      var lead: seq<PageItem> := if HasLeadingGap(current) then [Ellipsis] else [];
      pages := pages + lead;
      var start := WindowStart(current);
      var end := WindowEnd(current, total);
      pages := PushRange(pages, start, end);
      ghost var window := pages;
      // the trailing "..." is pushed when the current page is below total - 2
      var trail: seq<PageItem> := if HasTrailingGap(current, total) then [Ellipsis] else [];
      pages := pages + trail;
      pages := pages + [Page(total)];
      assert window == [Page(1)] + lead + Numbers(start, end);
      assert pages == window + trail + [Page(total)];
    }
  }

  // -----------------------------------------------------------------------
  // Properties of the page list

  /** Up to five pages, every page is listed, in order, without ellipses. */
  lemma SmallTotalListsEveryPage(current: int, total: int)
    requires total <= 5
    ensures var p := PageList(current, total);
      && |p| == Max(0, total)
      && forall i :: 0 <= i < |p| ==> p[i] == Page(i + 1)
  {
  }

  /** Above five pages the list starts at page 1, ends at the last page and
      has at most seven entries (the window holds at most three pages). */
  lemma LargeTotalShape(current: int, total: int)
    requires total > 5
    ensures var p := PageList(current, total);
      && 3 <= |p| <= 7
      && p[0] == Page(1) && p[|p| - 1] == Page(total)
  {
    var w := Numbers(WindowStart(current), WindowEnd(current, total));
    assert |w| <= 3;
    assert HasLeadingGap(current) || HasTrailingGap(current, total) || |w| >= 1;
  }

  /** For a current page in range, the second entry is "..." exactly when the
      current page is above 3, i.e. exactly when the window starts above 2. */
  lemma {:induction false} LeadingEllipsisIff(current: int, total: int)
    requires total > 5 && 1 <= current
    ensures var p := PageList(current, total);
      && (p[1] == Ellipsis <==> current > 3)
      && (current > 3 <==> WindowStart(current) > 2)
  {
    if current <= 3 {
      assert WindowStart(current) == 2 <= WindowEnd(current, total);
      assert PageList(current, total)[1] == Numbers(2, WindowEnd(current, total))[0];
    }
  }

  /** For a current page in range, the entry before the last is "..." exactly
      when the current page is below total - 2, i.e. exactly when the window
      ends below total - 1. */
  lemma {:induction false} TrailingEllipsisIff(current: int, total: int)
    requires total > 5 && 1 <= current <= total
    ensures var p := PageList(current, total);
      && (p[|p| - 2] == Ellipsis <==> current < total - 2)
      && (current < total - 2 <==> WindowEnd(current, total) < total - 1)
  {
    var p := PageList(current, total);
    if current >= total - 2 {
      var lo, hi := WindowStart(current), WindowEnd(current, total);
      assert hi == total - 1 && lo <= hi;
      var w := Numbers(lo, hi);
      assert p[|p| - 2] == w[|w| - 1];
    }
  }

  predicate IsPage(p: seq<PageItem>, i: int) {
    0 <= i < |p| && p[i].Page?
  }

  function LeadLength(current: int): nat { if HasLeadingGap(current) then 1 else 0 }
  function TrailLength(current: int, total: int): nat { if HasTrailingGap(current, total) then 1 else 0 }

  /** Where each entry sits, for a current page in range: page 1 first, the
      optional leading "...", the window from `WindowStart` to `WindowEnd`,
      the optional trailing "...", and the last page. */
  lemma {:induction false} Layout(current: int, total: int)
    requires total > 5 && 1 <= current <= total
    ensures var p, lo, hi, k := PageList(current, total), WindowStart(current), WindowEnd(current, total), 1 + LeadLength(current);
      && 2 <= lo <= hi <= total - 1 && (current == 1 || current == total || lo <= current <= hi)
      && |p| == k + (hi - lo + 1) + TrailLength(current, total) + 1
      && p[0] == Page(1) && p[|p| - 1] == Page(total)
      && (forall i :: k <= i < k + (hi - lo + 1) ==> p[i] == Page(lo + i - k))
      && (LeadLength(current) == 1 ==> p[1] == Ellipsis && lo > 2)
      && (LeadLength(current) == 0 ==> lo == 2)
      && (TrailLength(current, total) == 1 ==> p[|p| - 2] == Ellipsis && hi < total - 1)
      && (TrailLength(current, total) == 0 ==> hi == total - 1)
  {
    var lo, hi := WindowStart(current), WindowEnd(current, total);
    var w := Numbers(lo, hi);
    var lead: seq<PageItem> := if HasLeadingGap(current) then [Ellipsis] else [];
    var trail: seq<PageItem> := if HasTrailingGap(current, total) then [Ellipsis] else [];
    var p := PageList(current, total);
    assert p == [Page(1)] + lead + w + trail + [Page(total)];
    var k := 1 + |lead|;
    forall i | k <= i < k + |w| ensures p[i] == Page(lo + i - k) {
      assert p[i] == w[i - k];
    }
  }

  /** For a current page in range, every numbered entry lies in [1, total]
      and the current page is listed. */
  lemma {:induction false} NumbersInRange(current: int, total: int)
    requires total > 5 && 1 <= current <= total
    ensures var p := PageList(current, total);
      && (forall i :: IsPage(p, i) ==> 1 <= p[i].number <= total)
      && Page(current) in p
  {
    Layout(current, total);
    var p, lo, hi, k := PageList(current, total), WindowStart(current), WindowEnd(current, total), 1 + LeadLength(current);
    if current == 1 {
      assert p[0] == Page(current);
    } else if current == total {
      assert p[|p| - 1] == Page(current);
    } else {
      assert p[k + current - lo] == Page(current);
    }
  }

  /** The number at a numbered position, as a non-decreasing map from
      positions: every position of the list is the first page, a window
      page, or the last page. */
  lemma {:induction false} PositionCases(current: int, total: int, i: int)
    requires total > 5 && 1 <= current <= total && IsPage(PageList(current, total), i)
    ensures var p, lo, hi, k := PageList(current, total), WindowStart(current), WindowEnd(current, total), 1 + LeadLength(current);
      || (i == 0 && p[i].number == 1)
      || (k <= i < k + (hi - lo + 1) && p[i].number == lo + i - k)
      || (i == |p| - 1 && p[i].number == total)
  {
    Layout(current, total);
  }

  /** For a current page in range, the numbered entries strictly increase. */
  lemma {:induction false} NumbersIncrease(current: int, total: int)
    requires total > 5 && 1 <= current <= total
    ensures var p := PageList(current, total);
      forall i, j :: IsPage(p, i) && IsPage(p, j) && i < j ==> p[i].number < p[j].number
  {
    var p := PageList(current, total);
    Layout(current, total);
    forall i, j | IsPage(p, i) && IsPage(p, j) && i < j ensures p[i].number < p[j].number {
      PositionCases(current, total, i);
      PositionCases(current, total, j);
    }
  }

  /** For a current page in range, two neighbouring numbered entries are
      consecutive pages. */
  lemma {:induction false} NeighboursAreConsecutive(current: int, total: int)
    requires total > 5 && 1 <= current <= total
    ensures var p := PageList(current, total);
      forall i :: IsPage(p, i) && IsPage(p, i + 1) ==> p[i + 1].number == p[i].number + 1
  {
    var p := PageList(current, total);
    Layout(current, total);
    forall i | IsPage(p, i) && IsPage(p, i + 1) ensures p[i + 1].number == p[i].number + 1 {
      PositionCases(current, total, i);
      PositionCases(current, total, i + 1);
    }
  }

  /** For a current page in range, every "..." stands between two numbered
      entries that skip at least one page. */
  lemma {:induction false} EllipsisMarksSkip(current: int, total: int)
    requires total > 5 && 1 <= current <= total
    ensures var p := PageList(current, total);
      forall i :: 0 <= i < |p| && p[i] == Ellipsis ==>
        IsPage(p, i - 1) && IsPage(p, i + 1) && p[i + 1].number > p[i - 1].number + 1
  {
    var p := PageList(current, total);
    Layout(current, total);
    var lo, hi, k := WindowStart(current), WindowEnd(current, total), 1 + LeadLength(current);
    forall i | 0 <= i < |p| && p[i] == Ellipsis
      ensures IsPage(p, i - 1) && IsPage(p, i + 1) && p[i + 1].number > p[i - 1].number + 1
    {
      if i < k {
        // the leading "..." sits between page 1 and the window's first page
        assert i == 1 && p[2] == Page(lo);
      } else {
        // past the window, the only "..." is the trailing one
        assert i >= k + (hi - lo + 1);
        assert i == |p| - 2 && p[i - 1] == Page(hi);
      }
    }
  }

  /** For a current page in range, numbered neighbours are consecutive pages
      and an ellipsis stands exactly where pages are skipped. */
  lemma {:induction false} GapsAreMarked(current: int, total: int)
    requires total > 5 && 1 <= current <= total
    ensures var p := PageList(current, total);
      && (forall i :: IsPage(p, i) && IsPage(p, i + 1) ==> p[i + 1].number == p[i].number + 1)
      && (forall i :: 0 <= i < |p| && p[i] == Ellipsis ==>
            IsPage(p, i - 1) && IsPage(p, i + 1) && p[i + 1].number > p[i - 1].number + 1)
  {
    NeighboursAreConsecutive(current, total);
    EllipsisMarksSkip(current, total);
  }

  // -----------------------------------------------------------------------
  // What the buttons report

  /** The previous button: `current - 1` only when the current page is above 1. */
  function PrevTarget(current: int): (r: Option<int>)
    ensures r.Some? <==> current > 1
    ensures r.Some? ==> r.value == current - 1
  {
    if current > 1 then Some(current - 1) else None
  }

  /** The next button: `current + 1` only when the current page is below the total. */
  function NextTarget(current: int, total: int): (r: Option<int>)
    ensures r.Some? <==> current < total
    ensures r.Some? ==> r.value == current + 1
  {
    if current < total then Some(current + 1) else None
  }

  /** A list entry: a numbered button reports its own number, "..." nothing. */
  function ItemTarget(item: PageItem): (r: Option<int>)
    ensures r.Some? <==> item.Page?
    ensures r.Some? ==> r.value == item.number
  {
    match item
    case Page(n) => Some(n)
    case Ellipsis => None
  }

  /** For a current page in range, every page a button can report is a page
      that exists, and the previous and next buttons never report the
      current page. */
  lemma {:induction false} TargetsInRange(current: int, total: int, i: int)
    requires 1 <= current <= total
    requires 0 <= i < |PageList(current, total)|
    ensures var t := ItemTarget(PageList(current, total)[i]); t.Some? ==> 1 <= t.value <= total
    ensures var t := PrevTarget(current); t.Some? ==> 1 <= t.value <= total && t.value != current
    ensures var t := NextTarget(current, total); t.Some? ==> 1 <= t.value <= total && t.value != current
  {
    if total > 5 {
      NumbersInRange(current, total);
      assert IsPage(PageList(current, total), i) || PageList(current, total)[i] == Ellipsis;
    }
  }
}
