// What repeated bounded repair passes come to
// (src/market_data_service/application/repair_gaps.py, repair_types.py).

module RepairConvergence {
  import opened Optional
  import opened Grid
  import opened Windows
  import opened Gaps
  import opened Continuity
  import opened Repair

  /** Conservation: a pass that only adds bars of its window lowers the remaining count by exactly
      the number of bars it committed. */
  lemma CommittedBarsCloseGaps(before: set<int>, after: set<int>, window: TimeWindow, step: int)
    requires step > 0 && window.Valid() && window.Aligned(step)
    requires before <= after && after - before <= GridPoints(window.start, window.end, step)
    ensures GapBars(GapsFrom(after, window.start, window.end, step), step)
            == GapBars(GapsFrom(before, window.start, window.end, step), step) - (|after| - |before|)
  {
    GapBarsCountMissing(before, window.start, window.end, step);
    GapBarsCountMissing(after, window.start, window.end, step);
    SetsConserve(GridPoints(window.start, window.end, step), before, after);
  }

  lemma SetsConserve(all: set<int>, before: set<int>, after: set<int>)
    requires before <= after && after - before <= all
    ensures |all - after| == |all - before| - (|after| - |before|)
  {
    var added := after - before;
    assert after == before + added;
    assert all - before == (all - after) + added;
  }

  // ---- Filling the first window of the plan ----

  lemma {:induction false} SkipObserved(observed: set<int>, cursor: int, next: int, end: int, step: int)
    requires step > 0 && OnGrid(cursor, step) && OnGrid(next, step) && OnGrid(end, step) && cursor <= next <= end
    requires GridPoints(cursor, next, step) <= observed
    ensures GapsFrom(observed, cursor, end, step) == GapsFrom(observed, next, end, step)
    decreases next - cursor
  {
    if cursor < next {
      NextOnGrid(cursor, step);
      GridSpacing(cursor, next, step);
      GridPointsSplitFirst(cursor, next, step);
      SkipObserved(observed, cursor + step, next, end, step);
    }
  }

  /** A run of missing bars ends at the same place seen from any bar inside it. */
  lemma {:induction false} SameRunEnd(observed: set<int>, cursor: int, inner: int, end: int, step: int)
    requires step > 0 && OnGrid(cursor, step) && OnGrid(inner, step) && OnGrid(end, step)
    requires cursor <= inner <= end && inner <= NextObserved(observed, cursor, end, step)
    ensures NextObserved(observed, inner, end, step) == NextObserved(observed, cursor, end, step)
    decreases inner - cursor
  {
    if cursor < inner {
      NextOnGrid(cursor, step);
      GridSpacing(cursor, inner, step);
      GridSpacing(cursor, end, step);
      assert cursor !in observed;
      SameRunEnd(observed, cursor + step, inner, end, step);
    }
  }

  function AfterFirstWindow(gaps: seq<Gap>, span: int): (rest: seq<Gap>)
    requires gaps != []
  {
    var filled := Min(gaps[0].start + span, gaps[0].end);
    (if filled == gaps[0].end then [] else [Gap(filled, gaps[0].end)]) + gaps[1..]
  }

  lemma {:induction false} FillFirstWindow(stored: set<int>, cursor: int, end: int, step: int, span: int)
    requires step > 0 && OnGrid(cursor, step) && OnGrid(end, step) && cursor <= end
    requires span > 0 && OnGrid(span, step)
    requires GapsFrom(stored, cursor, end, step) != []
    ensures var gaps := GapsFrom(stored, cursor, end, step);
            var filled := Min(gaps[0].start + span, gaps[0].end);
            GapsFrom(stored + GridPoints(gaps[0].start, filled, step), cursor, end, step) == AfterFirstWindow(gaps, span)
    decreases end - cursor
  {
    NextOnGrid(cursor, step);
    GridSpacing(cursor, end, step);
    var gaps := GapsFrom(stored, cursor, end, step);
    if cursor in stored {
      FillFirstWindow(stored, cursor + step, end, step, span);
    } else {
      FillOpenRun(stored, cursor, end, step, span);
    }
  }

  lemma FillOpenRun(stored: set<int>, cursor: int, end: int, step: int, span: int)
    requires step > 0 && OnGrid(cursor, step) && OnGrid(end, step) && cursor < end
    requires span > 0 && OnGrid(span, step) && cursor !in stored
    ensures var gaps := GapsFrom(stored, cursor, end, step);
            && gaps != [] && gaps[0] == Gap(cursor, NextObserved(stored, cursor, end, step))
            && GapsFrom(stored + GridPoints(cursor, Min(cursor + span, gaps[0].end), step), cursor, end, step)
               == AfterFirstWindow(gaps, span)
  {
    var next := NextObserved(stored, cursor, end, step);
    SumOnGrid(cursor, span, step);
    var filled := Min(cursor + span, next);
    RunIsFirstGap(stored, cursor, end, step);
    SeenFromFilled(stored, cursor, filled, end, step);
    if filled < next {
      SameRunEnd(stored, cursor, filled, end, step);
      StillMissing(stored, cursor, filled, end, step);
      RunIsFirstGap(stored, filled, end, step);
    }
  }

  lemma RunIsFirstGap(observed: set<int>, cursor: int, end: int, step: int)
    requires step > 0 && OnGrid(cursor, step) && OnGrid(end, step) && cursor < end && cursor !in observed
    ensures cursor < NextObserved(observed, cursor, end, step)
    ensures var next := NextObserved(observed, cursor, end, step);
            GapsFrom(observed, cursor, end, step) == [Gap(cursor, next)] + GapsFrom(observed, next, end, step)
  {
    NextOnGrid(cursor, step);
    GridSpacing(cursor, end, step);
  }

  lemma StillMissing(observed: set<int>, cursor: int, inner: int, end: int, step: int)
    requires step > 0 && OnGrid(cursor, step) && OnGrid(inner, step) && OnGrid(end, step)
    requires cursor <= inner <= end && inner < NextObserved(observed, cursor, end, step)
    ensures inner !in observed
  {
    NothingObservedBefore(observed, cursor, end, step);
    assert inner in GridPoints(cursor, NextObserved(observed, cursor, end, step), step);
  }

  lemma SeenFromFilled(stored: set<int>, cursor: int, filled: int, end: int, step: int)
    requires step > 0 && OnGrid(cursor, step) && OnGrid(filled, step) && OnGrid(end, step) && cursor <= filled <= end
    ensures GapsFrom(stored + GridPoints(cursor, filled, step), cursor, end, step) == GapsFrom(stored, filled, end, step)
  {
    var after := stored + GridPoints(cursor, filled, step);
    SkipObserved(after, cursor, filled, end, step);
    SameInsideWindow(after, stored, filled, end, step);
  }

  /** One honestly imported window takes exactly itself off the plan. */
  lemma FirstWindowLeavesThePlan(stored: set<int>, window: TimeWindow, step: int, span: int)
    requires step > 0 && span > 0 && OnGrid(span, step) && window.Valid() && window.Aligned(step)
    requires Plan(stored, window, step, span) != []
    ensures var plan := Plan(stored, window, step, span);
            Plan(stored + GridPoints(plan[0].start, plan[0].end, step), window, step, span) == plan[1..]
  {
    var gaps := GapsFrom(stored, window.start, window.end, step);
    GapsFromExact(stored, window.start, window.end, step);
    var first := gaps[0];
    var filled := Min(first.start + span, first.end);
    FillFirstWindow(stored, window.start, window.end, step, span);
    var plan := Plan(stored, window, step, span);
    assert FetchWindows(first.start, first.end, span) == [TimeWindow(first.start, filled)] + FetchWindows(filled, first.end, span);
    assert plan[0] == TimeWindow(first.start, filled);
    assert plan[1..] == FetchWindows(filled, first.end, span) + PlannedWindows(gaps[1..], span);
    var rest := AfterFirstWindow(gaps, span);
    if filled < first.end {
      assert rest[1..] == gaps[1..];
    } else {
      assert rest == gaps[1..];
    }
  }

  /** Re-planning after any number of honestly imported windows yields the old plan without them. */
  lemma {:induction false} ReplanDropsImported(stored: set<int>, window: TimeWindow, step: int, span: int, imported: nat)
    requires step > 0 && span > 0 && OnGrid(span, step) && window.Valid() && window.Aligned(step)
    requires imported <= |Plan(stored, window, step, span)|
    ensures var plan := Plan(stored, window, step, span);
            Plan(stored + PointsOf(plan[..imported], step), window, step, span) == plan[imported..]
    decreases imported
  {
    var plan := Plan(stored, window, step, span);
    if imported == 0 {
      assert plan[..0] == [] && PointsOf(plan[..0], step) == {};
      assert stored + PointsOf(plan[..0], step) == stored;
    } else {
      ReplanDropsImported(stored, window, step, span, imported - 1);
      var before := stored + PointsOf(plan[..imported - 1], step);
      FirstWindowLeavesThePlan(before, window, step, span);
      PointsOfAppend(plan, imported, step);
      assert plan[imported - 1..][0] == plan[imported - 1] && plan[imported - 1..][1..] == plan[imported..];
      assert stored + PointsOf(plan[..imported], step)
          == before + GridPoints(plan[imported - 1].start, plan[imported - 1].end, step);
    }
  }

  /** No gap left is the same as nothing left to plan. */
  lemma EmptyPlanMeansComplete(stored: set<int>, window: TimeWindow, step: int, span: int)
    requires step > 0 && span > 0 && window.Valid() && window.Aligned(step)
    ensures Plan(stored, window, step, span) == [] <==> GridPoints(window.start, window.end, step) <= stored
  {
    NoGapsMeansComplete(stored, window.start, window.end, step);
    var gaps := GapsFrom(stored, window.start, window.end, step);
    if gaps != [] {
      GapsFromExact(stored, window.start, window.end, step);
      assert FetchWindows(gaps[0].start, gaps[0].end, span) != [];
    }
  }

  // ---- Repeated passes ----

  /** The stored bars after a number of passes over one window against an honest source, each pass
      storing what RepairStreamGaps.Execute promises for such a source. */
  function AfterPasses(stored: set<int>, window: TimeWindow, step: int, span: int, maxWindows: int, passes: nat): (after: set<int>)
    requires step > 0 && span > 0 && window.Valid() && window.Aligned(step) && maxWindows > 0
    decreases passes
  {
    if passes == 0 then stored else
      var plan := Plan(stored, window, step, span);
      AfterPasses(stored + PointsOf(plan[..Min(maxWindows, |plan|)], step), window, step, span, maxWindows, passes - 1)
  }

  lemma {:induction false} PlanAfterPasses(stored: set<int>, window: TimeWindow, step: int, span: int, maxWindows: int, passes: nat)
    requires step > 0 && span > 0 && OnGrid(span, step) && window.Valid() && window.Aligned(step) && maxWindows > 0
    ensures |Plan(AfterPasses(stored, window, step, span, maxWindows, passes), window, step, span)|
            == Max(0, |Plan(stored, window, step, span)| - passes * maxWindows)
    decreases passes
  {
    if passes > 0 {
      var plan := Plan(stored, window, step, span);
      var k := Min(maxWindows, |plan|);
      ReplanDropsImported(stored, window, step, span, k);
      PlanAfterPasses(stored + PointsOf(plan[..k], step), window, step, span, maxWindows, passes - 1);
      assert (passes - 1) * maxWindows == passes * maxWindows - maxWindows;
      if |plan| < maxWindows {
        ProductAtLeast(passes, maxWindows);
      }
    }
  }

  lemma ProductAtLeast(n: int, k: int)
    requires n >= 1 && k > 0
    ensures n * k >= k
  {
    AtLeastOneStep(n, k);
  }

  /** Passes against an honest source complete the window exactly once enough windows were allowed:
      the number of window-fetching passes is the plan's size over the budget, rounded up. */
  lemma PassesToComplete(stored: set<int>, window: TimeWindow, step: int, span: int, maxWindows: int, passes: nat)
    requires step > 0 && span > 0 && OnGrid(span, step) && window.Valid() && window.Aligned(step) && maxWindows > 0
    ensures GridPoints(window.start, window.end, step) <= AfterPasses(stored, window, step, span, maxWindows, passes)
            <==> passes >= CeilDiv(|Plan(stored, window, step, span)|, maxWindows)
  {
    PlanAfterPasses(stored, window, step, span, maxWindows, passes);
    EmptyPlanMeansComplete(AfterPasses(stored, window, step, span, maxWindows, passes), window, step, span);
    CeilDivLeast(|Plan(stored, window, step, span)|, maxWindows, passes);
  }

  function CeilDiv(n: nat, k: int): (q: nat)
    requires k > 0
  {
    (n + k - 1) / k
  }

  lemma CeilDivLeast(n: nat, k: int, passes: nat)
    requires k > 0
    ensures passes >= CeilDiv(n, k) <==> n <= passes * k
  {
    var q, r := (n + k - 1) / k, (n + k - 1) % k;
    assert n + k - 1 == q * k + r;
    if passes >= q {
      MulMonotone(q, passes, k);
    } else {
      MulMonotone(passes + 1, q, k);
      assert (passes + 1) * k == passes * k + k;
    }
  }

  lemma MulMonotone(a: int, b: int, k: int)
    requires a <= b && k > 0
    ensures a * k <= b * k
  {
    assert (b - a) * k >= 0;
  }
}
