// Exact gap detection and fetch windows (src/market_data_service/domain/gaps.py).

module Gaps {
  import opened Optional
  import opened Grid
  import opened Windows

  /** A maximal run of missing bars [start, end). */
  datatype Gap = Gap(start: int, end: int)

  datatype GapError = StepNotPositive | WindowOffGrid | ObservedOffGrid

  datatype GapResult = GapsFound(gaps: seq<Gap>) | GapsRefused(error: GapError)

  function Observed(times: seq<int>): (observed: set<int>)
  {
    set t | t in times
  }

  function Missing(observed: set<int>, start: int, end: int, step: int): (missing: set<int>)
    requires step > 0
  {
    GridPoints(start, end, step) - observed
  }

  ghost predicate InSomeGap(t: int, gaps: seq<Gap>)
  {
    exists i :: 0 <= i < |gaps| && gaps[i].start <= t < gaps[i].end
  }

  /** What a gap report has to be, said without any algorithm: aligned runs in the window, in order,
      never touching, whose bars are precisely the missing ones. */
  ghost predicate ExactGaps(gaps: seq<Gap>, observed: set<int>, start: int, end: int, step: int)
    requires step > 0
  {
    && (forall i :: 0 <= i < |gaps| ==>
          && start <= gaps[i].start < gaps[i].end <= end
          && OnGrid(gaps[i].start, step) && OnGrid(gaps[i].end, step))
    && (forall i, j :: 0 <= i < j < |gaps| ==> gaps[i].end < gaps[j].start)
    && (forall t :: t in GridPoints(start, end, step) ==> (t !in observed <==> InSomeGap(t, gaps)))
  }

  /** First observed bar at or after the cursor, or the end of the window. */
  function NextObserved(observed: set<int>, cursor: int, end: int, step: int): (next: int)
    requires step > 0 && OnGrid(cursor, step) && OnGrid(end, step) && cursor <= end
    ensures cursor <= next <= end && OnGrid(next, step)
    ensures next < end ==> next in observed
    decreases end - cursor
  {
    if cursor == end || cursor in observed then cursor
    else
      NextOnGrid(cursor, step);
      GridSpacing(cursor, end, step);
      NextObserved(observed, cursor + step, end, step)
  }

  lemma {:induction false} NothingObservedBefore(observed: set<int>, cursor: int, end: int, step: int)
    requires step > 0 && OnGrid(cursor, step) && OnGrid(end, step) && cursor <= end
    ensures GridPoints(cursor, NextObserved(observed, cursor, end, step), step) !! observed
    decreases end - cursor
  {
    var next := NextObserved(observed, cursor, end, step);
    if cursor != end && cursor !in observed {
      NextOnGrid(cursor, step);
      GridSpacing(cursor, end, step);
      NothingObservedBefore(observed, cursor + step, end, step);
      GridPointsSplitFirst(cursor, next, step);
    } else {
      assert GridPoints(cursor, next, step) == {};
    }
  }

  function GapsFrom(observed: set<int>, cursor: int, end: int, step: int): (gaps: seq<Gap>)
    requires step > 0 && OnGrid(cursor, step) && OnGrid(end, step) && cursor <= end
    decreases end - cursor
  {
    if cursor == end then []
    else
      NextOnGrid(cursor, step);
      GridSpacing(cursor, end, step);
      if cursor in observed then GapsFrom(observed, cursor + step, end, step)
      else
        var next := NextObserved(observed, cursor, end, step);
        assert next > cursor;
        [Gap(cursor, next)] + GapsFrom(observed, next, end, step)
  }

  /** One sweep over the window's bars; unsorted and repeated observations are accepted. */
  method FindGaps(times: seq<int>, window: TimeWindow, step: int) returns (result: GapResult)
    requires window.Valid()
    ensures step <= 0 <==> result == GapsRefused(StepNotPositive)
    ensures step > 0 ==> (!window.Aligned(step) <==> result == GapsRefused(WindowOffGrid))
    ensures step > 0 && window.Aligned(step) ==>
              ((exists t :: t in times && window.Contains(t) && !OnGrid(t, step)) <==> result == GapsRefused(ObservedOffGrid))
    ensures result.GapsFound? ==>
              && step > 0 && window.Aligned(step)
              && result.gaps == GapsFrom(Observed(times), window.start, window.end, step)
              && ExactGaps(result.gaps, Observed(times), window.start, window.end, step)
  {
    if step <= 0 {
      return GapsRefused(StepNotPositive);
    }
    if window.start % step != 0 || window.end % step != 0 {
      return GapsRefused(WindowOffGrid);
    }
    var observed := set t | t in times && window.start <= t < window.end;
    var misaligned := set t | t in observed && t % step != 0;
    if misaligned != {} {
      assert exists t :: t in misaligned;
      return GapsRefused(ObservedOffGrid);
    }
    assert forall t :: t in times && window.Contains(t) && !OnGrid(t, step) ==> t in misaligned;
    SameInsideWindow(observed, Observed(times), window.start, window.end, step);
    GapsFromExact(Observed(times), window.start, window.end, step);
    var gaps := SweepBars(observed, window, step);
    return GapsFound(gaps);
  }

  /** The loop of the sweep: one open gap at most, closed by the next observed bar. */
  method SweepBars(observed: set<int>, window: TimeWindow, step: int) returns (gaps: seq<Gap>)
    requires window.Valid() && step > 0 && window.Aligned(step)
    ensures gaps == GapsFrom(observed, window.start, window.end, step)
  {
    var end := window.end;
    gaps := [];
    var gapStart: Option<int> := None;
    var cursor := window.start;
    ghost var all := GapsFrom(observed, cursor, end, step);
    while cursor < end
      invariant cursor <= end && OnGrid(cursor, step)
      invariant all == gaps + Pending(observed, gapStart, cursor, end, step)
      decreases end - cursor
    {
      NextOnGrid(cursor, step);
      GridSpacing(cursor, end, step);
      if cursor !in observed {
        if gapStart.None? {
          gapStart := Some(cursor);
        }
      } else if gapStart.Some? {
        gaps := gaps + [Gap(gapStart.value, cursor)];
        gapStart := None;
      }
      cursor := cursor + step;
    }
    if gapStart.Some? {
      gaps := gaps + [Gap(gapStart.value, end)];
    }
  }

  /** What the sweep has still to report: the open gap, if any, closes at the next observed bar. */
  function Pending(observed: set<int>, gapStart: Option<int>, cursor: int, end: int, step: int): (gaps: seq<Gap>)
    requires step > 0 && OnGrid(cursor, step) && OnGrid(end, step) && cursor <= end
  {
    var next := NextObserved(observed, cursor, end, step);
    if gapStart.None? then GapsFrom(observed, cursor, end, step)
    else [Gap(gapStart.value, next)] + GapsFrom(observed, next, end, step)
  }

  /** Bars outside the audited window do not matter. */
  lemma {:induction false} SameInsideWindow(a: set<int>, b: set<int>, cursor: int, end: int, step: int)
    requires step > 0 && OnGrid(cursor, step) && OnGrid(end, step) && cursor <= end
    requires forall t :: t in GridPoints(cursor, end, step) ==> (t in a <==> t in b)
    ensures GapsFrom(a, cursor, end, step) == GapsFrom(b, cursor, end, step)
    ensures NextObserved(a, cursor, end, step) == NextObserved(b, cursor, end, step)
    decreases end - cursor
  {
    if cursor < end {
      NextOnGrid(cursor, step);
      GridSpacing(cursor, end, step);
      assert cursor in GridPoints(cursor, end, step);
      GridPointsSplitFirst(cursor, end, step);
      SameInsideWindow(a, b, cursor + step, end, step);
      if cursor !in a {
        SameInsideWindow(a, b, NextObserved(a, cursor, end, step), end, step);
      }
    }
  }

  /** The sweep's result is exact. */
  lemma {:induction false} GapsFromExact(observed: set<int>, cursor: int, end: int, step: int)
    requires step > 0 && OnGrid(cursor, step) && OnGrid(end, step) && cursor <= end
    ensures ExactGaps(GapsFrom(observed, cursor, end, step), observed, cursor, end, step)
    ensures cursor in observed && cursor < end ==>
              forall i :: 0 <= i < |GapsFrom(observed, cursor, end, step)| ==> cursor < GapsFrom(observed, cursor, end, step)[i].start
    decreases end - cursor
  {
    if cursor < end {
      NextOnGrid(cursor, step);
      GridSpacing(cursor, end, step);
      GridPointsSplitFirst(cursor, end, step);
      var gaps := GapsFrom(observed, cursor, end, step);
      if cursor in observed {
        GapsFromExact(observed, cursor + step, end, step);
        assert forall t :: t in GridPoints(cursor, end, step) ==> (t !in observed <==> InSomeGap(t, gaps));
      } else {
        var next := NextObserved(observed, cursor, end, step);
        GapsFromExact(observed, next, end, step);
        NothingObservedBefore(observed, cursor, end, step);
        PrependGap(observed, cursor, next, end, step, GapsFrom(observed, next, end, step));
      }
    }
  }

  lemma PrependGap(observed: set<int>, cursor: int, next: int, end: int, step: int, rest: seq<Gap>)
    requires step > 0 && OnGrid(cursor, step) && OnGrid(next, step) && cursor < next <= end
    requires ExactGaps(rest, observed, next, end, step)
    requires forall i :: 0 <= i < |rest| ==> next < rest[i].start
    requires GridPoints(cursor, next, step) !! observed
    ensures ExactGaps([Gap(cursor, next)] + rest, observed, cursor, end, step)
  {
    var gaps := [Gap(cursor, next)] + rest;
    forall t | t in GridPoints(cursor, end, step)
      ensures t !in observed <==> InSomeGap(t, gaps)
    {
      if t < next {
        assert t in GridPoints(cursor, next, step);
        assert gaps[0].start <= t < gaps[0].end;
      } else {
        assert t in GridPoints(next, end, step);
        if InSomeGap(t, rest) {
          var i :| 0 <= i < |rest| && rest[i].start <= t < rest[i].end;
          assert gaps[i + 1] == rest[i];
        }
        if InSomeGap(t, gaps) {
          var i :| 0 <= i < |gaps| && gaps[i].start <= t < gaps[i].end;
          assert rest[i - 1] == gaps[i];
        }
      }
    }
  }

  /** A gap report is pinned down by exactness: no second exact report exists. */
  lemma {:induction false} ExactGapsUnique(a: seq<Gap>, b: seq<Gap>, observed: set<int>, start: int, end: int, step: int)
    requires step > 0 && OnGrid(start, step) && OnGrid(end, step) && start <= end
    requires ExactGaps(a, observed, start, end, step) && ExactGaps(b, observed, start, end, step)
    ensures a == b
    decreases |a| + |b|
  {
    if a != [] && b != [] {
      FirstGapNotLater(a, b, observed, start, end, step);
      FirstGapNotLater(b, a, observed, start, end, step);
      FirstGapNotLonger(a, b, observed, start, end, step);
      FirstGapNotLonger(b, a, observed, start, end, step);
      DropFirstGap(a, observed, start, end, step);
      DropFirstGap(b, observed, start, end, step);
      ExactGapsUnique(a[1..], b[1..], observed, a[0].end, end, step);
      assert a == [a[0]] + a[1..] && b == [b[0]] + b[1..];
    } else if a != [] {
      FirstGapReported(a, b, observed, start, end, step);
    } else if b != [] {
      FirstGapReported(b, a, observed, start, end, step);
    }
  }

  lemma FirstGapReported(a: seq<Gap>, b: seq<Gap>, observed: set<int>, start: int, end: int, step: int)
    requires step > 0 && a != []
    requires ExactGaps(a, observed, start, end, step) && ExactGaps(b, observed, start, end, step)
    ensures InSomeGap(a[0].start, b)
  {
    assert a[0].start in GridPoints(start, end, step);
    assert InSomeGap(a[0].start, a);
  }

  lemma FirstGapNotLater(a: seq<Gap>, b: seq<Gap>, observed: set<int>, start: int, end: int, step: int)
    requires step > 0 && a != [] && b != []
    requires ExactGaps(a, observed, start, end, step) && ExactGaps(b, observed, start, end, step)
    ensures a[0].start <= b[0].start
  {
    assert b[0].start in GridPoints(start, end, step);
    assert InSomeGap(b[0].start, b);
    assert InSomeGap(b[0].start, a);
  }

  lemma FirstGapNotLonger(a: seq<Gap>, b: seq<Gap>, observed: set<int>, start: int, end: int, step: int)
    requires step > 0 && a != [] && b != [] && OnGrid(end, step)
    requires ExactGaps(a, observed, start, end, step) && ExactGaps(b, observed, start, end, step)
    requires a[0].start == b[0].start
    ensures a[0].end <= b[0].end
  {
    if b[0].end < a[0].end {
      var t := b[0].end;
      assert t in GridPoints(start, end, step);
      assert a[0].start <= t < a[0].end;
      assert InSomeGap(t, a);
    }
  }

  lemma DropFirstGap(gaps: seq<Gap>, observed: set<int>, start: int, end: int, step: int)
    requires step > 0 && gaps != []
    requires ExactGaps(gaps, observed, start, end, step)
    ensures ExactGaps(gaps[1..], observed, gaps[0].end, end, step)
  {
    var rest := gaps[1..];
    forall t | t in GridPoints(gaps[0].end, end, step)
      ensures t !in observed <==> InSomeGap(t, rest)
    {
      assert t in GridPoints(start, end, step);
      if InSomeGap(t, gaps) {
        var i :| 0 <= i < |gaps| && gaps[i].start <= t < gaps[i].end;
        assert rest[i - 1] == gaps[i];
      }
      if InSomeGap(t, rest) {
        var i :| 0 <= i < |rest| && rest[i].start <= t < rest[i].end;
        assert gaps[i + 1] == rest[i];
      }
    }
  }

  /** Bars counted by a gap report. */
  function GapBars(gaps: seq<Gap>, step: int): (bars: int)
    requires step > 0
  {
    if gaps == [] then 0 else (gaps[0].end - gaps[0].start) / step + GapBars(gaps[1..], step)
  }

  /** Conservation: what the report counts is the number of missing bars. */
  lemma {:induction false} GapBarsCountMissing(observed: set<int>, cursor: int, end: int, step: int)
    requires step > 0 && OnGrid(cursor, step) && OnGrid(end, step) && cursor <= end
    ensures GapBars(GapsFrom(observed, cursor, end, step), step) == |Missing(observed, cursor, end, step)|
    decreases end - cursor
  {
    if cursor == end {
      assert Missing(observed, cursor, end, step) == {};
    } else {
      NextOnGrid(cursor, step);
      GridSpacing(cursor, end, step);
      if cursor in observed {
        GapBarsCountMissing(observed, cursor + step, end, step);
        GridPointsSplitFirst(cursor, end, step);
        assert Missing(observed, cursor, end, step) == Missing(observed, cursor + step, end, step);
      } else {
        var next := NextObserved(observed, cursor, end, step);
        GapBarsCountMissing(observed, next, end, step);
        FirstGapBars(observed, cursor, end, step);
        FirstGapMissing(observed, cursor, end, step);
        GridPointsCount(cursor, next, step);
      }
    }
  }

  lemma FirstGapBars(observed: set<int>, cursor: int, end: int, step: int)
    requires step > 0 && OnGrid(cursor, step) && OnGrid(end, step) && cursor < end && cursor !in observed
    ensures var next := NextObserved(observed, cursor, end, step);
            GapBars(GapsFrom(observed, cursor, end, step), step)
            == (next - cursor) / step + GapBars(GapsFrom(observed, next, end, step), step)
  {
    var next := NextObserved(observed, cursor, end, step);
    assert GapsFrom(observed, cursor, end, step)[1..] == GapsFrom(observed, next, end, step);
  }

  lemma FirstGapMissing(observed: set<int>, cursor: int, end: int, step: int)
    requires step > 0 && OnGrid(cursor, step) && OnGrid(end, step) && cursor < end && cursor !in observed
    ensures var next := NextObserved(observed, cursor, end, step);
            |Missing(observed, cursor, end, step)| == |GridPoints(cursor, next, step)| + |Missing(observed, next, end, step)|
  {
    NothingObservedBefore(observed, cursor, end, step);
    MissingSplit(observed, cursor, NextObserved(observed, cursor, end, step), end, step);
  }

  lemma MissingSplit(observed: set<int>, start: int, middle: int, end: int, step: int)
    requires step > 0 && start <= middle <= end
    ensures |Missing(observed, start, end, step)| == |Missing(observed, start, middle, step)| + |Missing(observed, middle, end, step)|
    ensures GridPoints(start, middle, step) !! observed ==> Missing(observed, start, middle, step) == GridPoints(start, middle, step)
  {
    var left, right := Missing(observed, start, middle, step), Missing(observed, middle, end, step);
    assert Missing(observed, start, end, step) == left + right;
    assert left !! right;
  }

  /** A stream has no gap in a window exactly when every bar of it is there. */
  lemma NoGapsMeansComplete(observed: set<int>, start: int, end: int, step: int)
    requires step > 0 && OnGrid(start, step) && OnGrid(end, step) && start <= end
    ensures GapsFrom(observed, start, end, step) == [] <==> GridPoints(start, end, step) <= observed
  {
    var gaps := GapsFrom(observed, start, end, step);
    GapsFromExact(observed, start, end, step);
    if gaps != [] {
      assert gaps[0].start in GridPoints(start, end, step);
      assert InSomeGap(gaps[0].start, gaps);
    }
  }

  // ---- Fetch windows ----

  /** Span of one fetch window: a whole number of bars. */
  function FetchWindows(start: int, end: int, span: int): (windows: seq<TimeWindow>)
    requires span > 0
    decreases end - start
  {
    if start >= end then [] else
      var next := Min(start + span, end);
      [TimeWindow(start, next)] + FetchWindows(next, end, span)
  }

  datatype FetchPlan = Fetches(windows: seq<TimeWindow>) | FetchRefused

  /** Split one gap into bounded windows; refuses a bad step, limit or off-grid gap. */
  method IterFetchWindows(gap: Gap, step: int, maxCandles: int) returns (plan: FetchPlan)
    requires gap.start < gap.end
    ensures plan.FetchRefused? <==>
              step <= 0 || maxCandles <= 0 || gap.start % step != 0 || gap.end % step != 0
    ensures plan.Fetches? ==> step * maxCandles > 0 && plan.windows == FetchWindows(gap.start, gap.end, step * maxCandles)
  {
    if step <= 0 || maxCandles <= 0 {
      return FetchRefused;
    }
    if gap.start % step != 0 || gap.end % step != 0 {
      return FetchRefused;
    }
    SpanPositive(step, maxCandles);
    var windows := CutWindows(gap, step * maxCandles);
    return Fetches(windows);
  }

  method CutWindows(gap: Gap, span: int) returns (windows: seq<TimeWindow>)
    requires gap.start < gap.end && span > 0
    ensures windows == FetchWindows(gap.start, gap.end, span)
  {
    windows := [];
    var cursor := gap.start;
    while cursor < gap.end
      invariant cursor <= gap.end
      invariant FetchWindows(gap.start, gap.end, span) == windows + FetchWindows(cursor, gap.end, span)
      decreases gap.end - cursor
    {
      var end := if cursor + span <= gap.end then cursor + span else gap.end;
      windows := windows + [TimeWindow(cursor, end)];
      cursor := end;
    }
  }

  lemma SpanPositive(step: int, maxCandles: int)
    requires step > 0 && maxCandles > 0
    ensures step * maxCandles >= step
  {
    AtLeastOneStep(maxCandles, step);
  }

  /** The windows tile [start, end) in order, each aligned, non-empty and at most one span long. */
  ghost predicate Tiles(windows: seq<TimeWindow>, start: int, end: int, span: int, step: int)
    requires step > 0
  {
    && (windows == [] ==> start >= end)
    && (windows != [] ==> windows[0].start == start && windows[|windows| - 1].end == end)
    && (forall i :: 0 <= i < |windows| ==>
          windows[i].Valid() && windows[i].end - windows[i].start <= span && windows[i].Aligned(step))
    && (forall i :: 0 < i < |windows| ==> windows[i].start == windows[i - 1].end)
  }

  lemma {:induction false} FetchWindowsTile(start: int, end: int, step: int, maxCandles: int)
    requires step > 0 && maxCandles > 0 && step * maxCandles > 0
    requires OnGrid(start, step) && OnGrid(end, step)
    ensures Tiles(FetchWindows(start, end, step * maxCandles), start, end, step * maxCandles, step)
    decreases end - start
  {
    if start < end {
      var span := step * maxCandles;
      var next := Min(start + span, end);
      ShiftOnGrid(start, maxCandles, step);
      assert start + maxCandles * step == start + span;
      FetchWindowsTile(next, end, step, maxCandles);
      var rest := FetchWindows(next, end, span);
      var windows := FetchWindows(start, end, span);
      assert windows == [TimeWindow(start, next)] + rest;
      assert forall i :: 0 < i < |windows| ==> windows[i] == rest[i - 1];
    }
  }

  /** No window but the last is short, so their number is the span count rounded up. */
  lemma {:induction false} FetchWindowsCount(start: int, end: int, span: int)
    requires span > 0
    ensures (|FetchWindows(start, end, span)| - 1) * span < Max(0, end - start) <= |FetchWindows(start, end, span)| * span
            || (start >= end && FetchWindows(start, end, span) == [])
    decreases end - start
  {
    if start < end {
      var next := Min(start + span, end);
      FetchWindowsCount(next, end, span);
      var n := |FetchWindows(next, end, span)|;
      assert |FetchWindows(start, end, span)| == n + 1;
      assert (n + 1) * span == n * span + span && (n - 1) * span == n * span - span;
      if n == 0 {
        assert next == end;
      }
    }
  }

  /** Resuming after the first windows yields exactly the remaining ones. */
  lemma {:induction false} FetchWindowsResume(start: int, end: int, span: int, used: nat)
    requires span > 0 && used < |FetchWindows(start, end, span)|
    ensures FetchWindows(start, end, span)[used..] == FetchWindows(FetchWindows(start, end, span)[used].start, end, span)
    decreases end - start
  {
    if used > 0 {
      var next := Min(start + span, end);
      var rest := FetchWindows(next, end, span);
      assert FetchWindows(start, end, span) == [TimeWindow(start, next)] + rest;
      FetchWindowsResume(next, end, span, used - 1);
      assert FetchWindows(start, end, span)[used..] == rest[used - 1..];
    }
  }
}
