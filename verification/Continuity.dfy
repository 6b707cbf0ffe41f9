// Continuity reports (src/market_data_service/domain/continuity.py) and the ready-read check
// (src/market_data_service/application/consumer_read/validation.py).

module Continuity {
  import opened Optional
  import opened Grid
  import opened Windows
  import opened Gaps

  datatype ContinuityReport = ContinuityReport(
    window: TimeWindow, candleCount: nat, isContinuous: bool, gaps: seq<Gap>)

  datatype AuditOutcome = Audited(report: ContinuityReport) | AuditRefused(error: GapError)

  /** The report of an aligned window over on-grid observations. */
  function ReportOf(window: TimeWindow, observed: set<int>, step: int): (report: ContinuityReport)
    requires window.Valid() && step > 0 && window.Aligned(step)
  {
    var gaps := GapsFrom(observed, window.start, window.end, step);
    ContinuityReport(window, |observed|, gaps == [], gaps)
  }

  /** Nothing observed is answered without a sweep; everything else goes through the gap finder. */
  method BuildContinuityReport(window: TimeWindow, times: seq<int>, step: int) returns (outcome: AuditOutcome)
    requires window.Valid()
    ensures times == [] ==> outcome == Audited(ContinuityReport(window, 0, false, [Gap(window.start, window.end)]))
    ensures step > 0 && window.Aligned(step) && (forall t :: t in times ==> OnGrid(t, step)) ==>
              outcome == Audited(ReportOf(window, Observed(times), step))
    ensures times != [] ==>
              (outcome.AuditRefused? <==>
                 step <= 0 || !window.Aligned(step) || exists t :: t in times && window.Contains(t) && !OnGrid(t, step))
  {
    if times == [] {
      if step > 0 && window.Aligned(step) {
        EmptyWindowIsOneGap(window, step);
      }
      return Audited(ContinuityReport(window, 0, false, [Gap(window.start, window.end)]));
    }
    var found := FindGaps(times, window, step);
    match found
    case GapsRefused(error) =>
      assert error.StepNotPositive? || error.WindowOffGrid? || error.ObservedOffGrid?;
      assert error.ObservedOffGrid? ==> step > 0 && window.Aligned(step);
      return AuditRefused(error);
    case GapsFound(gaps) =>
      var distinct := set t | t in times;
      return Audited(ContinuityReport(window, |distinct|, gaps == [], gaps));
  }

  /** The shortcut for an empty table says what the sweep would have said. */
  lemma EmptyWindowIsOneGap(window: TimeWindow, step: int)
    requires window.Valid() && step > 0 && window.Aligned(step)
    ensures ReportOf(window, Observed([]), step) == ContinuityReport(window, 0, false, [Gap(window.start, window.end)])
  {
    var none := Observed([]);
    assert none == {};
    assert NextObserved(none, window.start, window.end, step) == window.end;
    assert GapsFrom(none, window.end, window.end, step) == [];
  }

  /** Conservation: stored bars plus reported bars make up the whole window. */
  lemma ReportCountsTheWindow(window: TimeWindow, observed: set<int>, step: int)
    requires window.Valid() && step > 0 && window.Aligned(step)
    requires observed <= GridPoints(window.start, window.end, step)
    ensures ReportOf(window, observed, step).candleCount + GapBars(ReportOf(window, observed, step).gaps, step)
            == (window.end - window.start) / step
    ensures ReportOf(window, observed, step).isContinuous <==> observed == GridPoints(window.start, window.end, step)
  {
    var points := GridPoints(window.start, window.end, step);
    GapBarsCountMissing(observed, window.start, window.end, step);
    GridPointsCount(window.start, window.end, step);
    assert Missing(observed, window.start, window.end, step) + observed == points;
    NoGapsMeansComplete(observed, window.start, window.end, step);
  }

  // ---- The read of a ready stream ----

  /** Accept a read exactly when it is the full grid of the range, in order. */
  method ValidateCompleteGrid(times: seq<int>, start: int, end: int, step: int) returns (accepted: bool)
    requires step > 0
    ensures accepted <==> |times| == (end - start) / step && forall i :: 0 <= i < |times| ==> times[i] == start + i * step
  {
    if |times| != (end - start) / step {
      return false;
    }
    var expected := start;
    for i := 0 to |times|
      invariant expected == start + i * step
      invariant forall j :: 0 <= j < i ==> times[j] == start + j * step
    {
      if times[i] != expected {
        return false;
      }
      expected := expected + step;
    }
    return true;
  }

  ghost predicate Ascending(times: seq<int>)
  {
    forall i, j :: 0 <= i < j < |times| ==> times[i] < times[j]
  }

  /** Reading and auditing agree: an ordered read of the stored bars of a range is accepted exactly
      when an audit of that range finds no gap. */
  lemma ReadAcceptedExactlyWhenContinuous(times: seq<int>, start: int, end: int, step: int)
    requires step > 0 && OnGrid(start, step) && OnGrid(end, step) && start < end
    requires Ascending(times) && Observed(times) <= GridPoints(start, end, step)
    ensures (|times| == (end - start) / step && forall i :: 0 <= i < |times| ==> times[i] == start + i * step)
            <==> GapsFrom(Observed(times), start, end, step) == []
  {
    NoGapsMeansComplete(Observed(times), start, end, step);
    GridPointsCount(start, end, step);
    AscendingCount(times);
    if Observed(times) == GridPoints(start, end, step) {
      forall i | 0 <= i < |times|
        ensures times[i] == start + i * step
      {
        FullReadAt(times, i, start, end, step);
      }
    }
    if |times| == (end - start) / step {
      SubsetOfSameSize(Observed(times), GridPoints(start, end, step));
    }
  }

  lemma SubsetOfSameSize(a: set<int>, b: set<int>)
    requires a <= b && |a| == |b|
    ensures a == b
  {
    assert b == a + (b - a);
  }

  lemma {:induction false} AscendingCount(times: seq<int>)
    requires Ascending(times)
    ensures |Observed(times)| == |times|
  {
    if times == [] {
      assert Observed(times) == {};
    } else {
      var last := |times| - 1;
      AscendingCount(times[..last]);
      assert Observed(times) == Observed(times[..last]) + {times[last]};
      assert times[last] !in times[..last];
    }
  }

  /** An ordered list of all bars of a range has its i-th bar at position i. */
  lemma {:induction false} FullReadAt(times: seq<int>, i: nat, start: int, end: int, step: int)
    requires step > 0 && OnGrid(start, step) && OnGrid(end, step)
    requires Ascending(times) && Observed(times) == GridPoints(start, end, step) && i < |times|
    ensures times[i] == start + i * step
    decreases i
  {
    assert times[i] in Observed(times);
    if i == 0 {
      assert start in Observed(times);
      var k :| 0 <= k < |times| && times[k] == start;
    } else {
      FullReadAt(times, i - 1, start, end, step);
      assert times[i - 1] in Observed(times);
      var next := times[i - 1] + step;
      GridSpacing(times[i - 1], times[i], step);
      NextOnGrid(times[i - 1], step);
      assert next in Observed(times);
      var k :| 0 <= k < |times| && times[k] == next;
      assert next == start + i * step;
    }
  }
}
