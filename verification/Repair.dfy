// Bounded gap repair of one track (src/market_data_service/application/repair_gaps.py, repair_types.py).

module Repair {
  import opened Optional
  import opened Grid
  import opened Windows
  import opened Gaps
  import opened Continuity

  datatype RepairRequest = RepairRequest(start: int, end: int, maxWindows: int) {
    /** What the request's constructor insists on. */
    predicate Valid(step: int)
      requires step > 0
    {
      start < end && maxWindows > 0 && OnGrid(start, step) && OnGrid(end, step)
    }

    function Window(): TimeWindow { TimeWindow(start, end) }
  }

  /** What importing one window came to: a source failure, or the bars it delivered
      and the number of stored bars it corrected. */
  datatype Import = ImportFailed(recoverable: bool) | Imported(points: set<int>, corrected: nat)

  /** The source as an oracle: the n-th request of a run, for a window. Nothing is assumed of it. */
  type Importer = (nat, TimeWindow) -> Import

  datatype RepairStatus = Complete | Incomplete | Failed

  datatype WindowResult = WindowResult(window: TimeWindow, committed: nat, corrected: nat)

  datatype WindowOutcome = SourceFailed(recoverable: bool) | WindowImported(result: WindowResult)

  datatype ProgressMarker = ProgressMarker(window: TimeWindow, remaining: int, earliestGap: Option<int>)

  datatype RepairResult = RepairResult(
    window: TimeWindow,
    status: RepairStatus,
    pre: ContinuityReport,
    post: Option<ContinuityReport>,
    attempted: nat,
    results: seq<WindowResult>,
    recoverable: bool)
  {
    function Failure(): Option<bool> { if status == Failed then Some(recoverable) else None }

    function Marker(step: int): ProgressMarker
      requires step > 0
    {
      var report := if post.Some? then post.value else pre;
      ProgressMarker(window, GapBars(report.gaps, step),
                     if report.gaps != [] then Some(report.gaps[0].start) else None)
    }
  }

  /** Only bars of the requested window on the stream's grid are ever stored. */
  function Stored(stored: set<int>, window: TimeWindow, points: set<int>, step: int): (after: set<int>)
    requires step > 0
  {
    stored + (points * GridPoints(window.start, window.end, step))
  }

  function PlannedWindows(gaps: seq<Gap>, span: int): (plan: seq<TimeWindow>)
    requires span > 0
  {
    if gaps == [] then [] else FetchWindows(gaps[0].start, gaps[0].end, span) + PlannedWindows(gaps[1..], span)
  }

  function Plan(stored: set<int>, window: TimeWindow, step: int, span: int): (plan: seq<TimeWindow>)
    requires step > 0 && span > 0 && window.Valid() && window.Aligned(step)
  {
    PlannedWindows(GapsFrom(stored, window.start, window.end, step), span)
  }

  function PointsOf(windows: seq<TimeWindow>, step: int): (points: set<int>)
    requires step > 0
  {
    if windows == [] then {} else GridPoints(windows[0].start, windows[0].end, step) + PointsOf(windows[1..], step)
  }

  function Committed(results: seq<WindowResult>): (total: nat)
  {
    if results == [] then 0 else Committed(results[..|results| - 1]) + results[|results| - 1].committed
  }

  function CorrectedBars(results: seq<WindowResult>): (total: nat)
  {
    if results == [] then 0 else CorrectedBars(results[..|results| - 1]) + results[|results| - 1].corrected
  }

  function WindowsOf(results: seq<WindowResult>): (windows: seq<TimeWindow>)
    ensures |windows| == |results|
  {
    seq(|results|, i requires 0 <= i < |results| => results[i].window)
  }

  /** Some request for the first windows of a plan, counted from the n-th, failed in the given way. */
  ghost predicate FailsWith(importer: Importer, n: nat, plan: seq<TimeWindow>, attempted: nat, recoverable: bool)
  {
    exists i: nat :: i < attempted && i < |plan| && importer(n + i, plan[i]) == ImportFailed(recoverable)
  }

  ghost predicate Answers(importer: Importer, n: nat, plan: seq<TimeWindow>, count: nat)
  {
    forall i: nat :: i < count && i < |plan| ==> importer(n + i, plan[i]).Imported?
  }

  /** Of the requests made, one failed in a way exactly when that failure is told. */
  ghost predicate ReportsSource(importer: Importer, n: nat, plan: seq<TimeWindow>, attempted: nat, failure: Option<bool>)
  {
    && (FailsWith(importer, n, plan, attempted, true) <==> failure == Some(true))
    && (FailsWith(importer, n, plan, attempted, false) <==> failure == Some(false))
  }

  /** Each result tells how many stored bars its import corrected. */
  ghost predicate Corrections(results: seq<WindowResult>, importer: Importer, first: nat, plan: seq<TimeWindow>)
  {
    forall i: nat :: i < |results| && i < |plan| ==>
      importer(first + i, plan[i]).Imported? && results[i].corrected == importer(first + i, plan[i]).corrected
  }

  /** No bar was corrected exactly when no import corrected one. */
  lemma {:induction false} NothingCorrectedExactlyWhen(results: seq<WindowResult>)
    ensures CorrectedBars(results) == 0 <==> forall r :: r in results ==> r.corrected == 0
  {
    if results != [] {
      NothingCorrectedExactlyWhen(results[..|results| - 1]);
      assert results == results[..|results| - 1] + [results[|results| - 1]];
    }
  }

  /** What a number of answered requests for a plan's first windows leave behind. */
  ghost predicate ImportedSoFar(start: set<int>, now: set<int>, plan: seq<TimeWindow>, results: seq<WindowResult>,
                                importer: Importer, first: nat, step: int)
    requires step > 0
  {
    && |results| <= |plan| && WindowsOf(results) == plan[..|results|] && Corrections(results, importer, first, plan)
    && Answers(importer, first, plan, |results|)
    && start <= now && now - start <= PointsOf(plan[..|results|], step)
    && |now| == |start| + Committed(results)
    && (Honest(importer, step) ==> now == start + PointsOf(plan[..|results|], step))
  }

  lemma OneMoreImported(start: set<int>, before: set<int>, after: set<int>, plan: seq<TimeWindow>, results: seq<WindowResult>,
                        result: WindowResult, importer: Importer, first: nat, step: int)
    requires step > 0 && |results| < |plan| && ImportedSoFar(start, before, plan, results, importer, first, step)
    requires importer(first + |results|, plan[|results|]).Imported?
    requires after == Stored(before, plan[|results|], importer(first + |results|, plan[|results|]).points, step)
    requires result.window == plan[|results|] && result.committed == |after| - |before|
    requires result.corrected == importer(first + |results|, plan[|results|]).corrected
    ensures ImportedSoFar(start, after, plan, results + [result], importer, first, step)
  {
    AnswersMore(importer, first, plan, |results|);
    CorrectsMore(results, result, importer, first, plan);
    OneMoreResult(results, result, plan);
    PointsOfAppend(plan, |results| + 1, step);
    if Honest(importer, step) {
      HonestWindow(start, before, after, plan, |results|, importer(first + |results|, plan[|results|]).points, step);
    }
  }

  lemma CorrectsMore(results: seq<WindowResult>, result: WindowResult, importer: Importer, first: nat, plan: seq<TimeWindow>)
    requires |results| < |plan| && Corrections(results, importer, first, plan)
    requires importer(first + |results|, plan[|results|]).Imported? && result.corrected == importer(first + |results|, plan[|results|]).corrected
    ensures Corrections(results + [result], importer, first, plan)
  {
  }

  lemma AnswersMore(importer: Importer, n: nat, plan: seq<TimeWindow>, count: nat)
    requires count < |plan| && Answers(importer, n, plan, count) && importer(n + count, plan[count]).Imported?
    ensures Answers(importer, n, plan, count + 1)
  {
  }

  lemma NoneFails(importer: Importer, n: nat, plan: seq<TimeWindow>, count: nat)
    requires Answers(importer, n, plan, count)
    ensures !FailsWith(importer, n, plan, count, true) && !FailsWith(importer, n, plan, count, false)
  {
  }

  lemma FailsOnlyAtTheEnd(importer: Importer, n: nat, plan: seq<TimeWindow>, count: nat, recoverable: bool)
    requires count < |plan| && Answers(importer, n, plan, count) && importer(n + count, plan[count]) == ImportFailed(recoverable)
    ensures FailsWith(importer, n, plan, count + 1, recoverable) && !FailsWith(importer, n, plan, count + 1, !recoverable)
  {
  }

  /** A source that always answers, with every bar asked for. */
  ghost predicate Honest(importer: Importer, step: int)
    requires step > 0
  {
    forall n: nat, w: TimeWindow ::
      importer(n, w).Imported? && GridPoints(w.start, w.end, step) <= importer(n, w).points
  }

  class RepairStreamGaps {
    const step: int
    const span: int
    var stored: set<int>
    var requests: nat

    ghost predicate Configured()
    {
      step > 0 && span > 0 && OnGrid(span, step)
    }

    constructor (step: int, maxCandles: int, stored: set<int>)
      requires step > 0 && maxCandles > 0
      ensures Configured() && this.step == step && this.span == step * maxCandles && this.stored == stored
    {
      SpanPositive(step, maxCandles);
      ShiftOnGrid(0, maxCandles, step);
      assert 0 + maxCandles * step == step * maxCandles;
      this.step := step;
      this.span := step * maxCandles;
      this.stored := stored;
      this.requests := 0;
    }

    /** One of the requests made since the first, for a window planned over the bars stored then, failed in
        the given way. */
    ghost predicate FailedSince(importer: Importer, before: set<int>, first: nat, window: TimeWindow, recoverable: bool)
      requires Configured() && window.Valid() && window.Aligned(step) && first <= requests
      reads this
    {
      FailsWith(importer, first, Plan(before, window, step, span), requests - first, recoverable)
    }

    /** What the imports of a repair did, from the bars stored and the number of requests made before:
        windows of the plan in order, as many as allowed or until the source failed, which is told as the
        source told it and leaves the window incomplete. An honest source has delivered all that was asked
        for. */
    ghost predicate ImportedPlan(request: RepairRequest, importer: Importer, before: set<int>, first: nat,
                                 results: seq<WindowResult>, failure: Option<bool>)
      requires Configured() && request.Valid(step)
      reads this
    {
      var bars := GridPoints(request.start, request.end, step);
      var plan := Plan(before, request.Window(), step, span);
      && before <= stored && stored - before <= bars && |stored| == |before| + Committed(results)
      && requests == first + |results| + (if failure.Some? then 1 else 0)
      && |results| <= Min(request.maxWindows, |plan|) && (failure.None? <==> |results| == Min(request.maxWindows, |plan|))
      && WindowsOf(results) == plan[..|results|] && Corrections(results, importer, first, plan)
      && (failure.Some? ==> importer(first + |results|, plan[|results|]) == ImportFailed(failure.value) && !(bars <= stored))
      && ReportsSource(importer, first, plan, requests - first, failure)
      && (Honest(importer, step) ==> failure.None? && stored == before + PointsOf(plan[..|results|], step))
    }

    /** A repair: both audits around the imports. It is complete exactly when every bar of the window is
        stored. */
    ghost predicate Repaired(request: RepairRequest, importer: Importer, before: set<int>, first: nat, result: RepairResult)
      requires Configured() && request.Valid(step)
      reads this
    {
      var bars := GridPoints(request.start, request.end, step);
      && ImportedPlan(request, importer, before, first, result.results, result.Failure())
      && result.window == request.Window() && result.pre == ReportOf(request.Window(), before * bars, step)
      && result.attempted == requests - first
      && (result.status == Failed ==> result.post == None)
      && (result.status != Failed ==> result.post == Some(ReportOf(request.Window(), stored * bars, step)))
      && (result.status == Complete <==> bars <= stored)
    }

    /** Audit, import at most the allowed number of planned windows, audit again. */
    method Execute(request: RepairRequest, importer: Importer) returns (result: RepairResult)
      requires Configured() && request.Valid(step)
      modifies this
      ensures Repaired(request, importer, old(stored), old(requests), result)
    {
      var pre := Audit(request.Window());
      if pre.isContinuous {
        assert Plan(stored, request.Window(), step, span) == [];
        NoneFails(importer, requests, [], 0);
        return RepairResult(request.Window(), Complete, pre, Some(pre), 0, [], false);
      }
      result := RepairFound(pre, request, importer);
    }

    method RepairFound(pre: ContinuityReport, request: RepairRequest, importer: Importer) returns (result: RepairResult)
      requires Configured() && request.Valid(step)
      requires pre == ReportOf(request.Window(), stored * GridPoints(request.start, request.end, step), step)
      requires pre.gaps == GapsFrom(stored, request.start, request.end, step) && !(GridPoints(request.start, request.end, step) <= stored)
      modifies this
      ensures Repaired(request, importer, old(stored), old(requests), result)
    {
      var results, failure := ImportBounded(PlannedWindows(pre.gaps, span), request, importer);
      result := AuditAgain(pre, request, results, failure);
    }

    /** The end of a repair: a failure needs no second audit, otherwise that decides. */
    method AuditAgain(pre: ContinuityReport, request: RepairRequest, results: seq<WindowResult>, failure: Option<bool>)
      returns (result: RepairResult)
      requires Configured() && request.Valid(step)
      ensures result.window == request.Window() && result.pre == pre && result.results == results
      ensures failure.Some? ==>
                && result.status == Failed && result.recoverable == failure.value && result.post == None
                && result.attempted == |results| + 1
      ensures failure.None? ==>
                && result.status == (if GridPoints(request.start, request.end, step) <= stored then Complete else Incomplete)
                && result.attempted == |results|
                && result.post == Some(ReportOf(request.Window(), stored * GridPoints(request.start, request.end, step), step))
    {
      var window := request.Window();
      if failure.Some? {
        return RepairResult(window, Failed, pre, None, |results| + 1, results, failure.value);
      }
      var post := Audit(window);
      var status := if post.isContinuous then Complete else Incomplete;
      return RepairResult(window, status, pre, Some(post), |results|, results, false);
    }

    /** The import part of a repair: at most the allowed number of planned windows. */
    method ImportBounded(plan: seq<TimeWindow>, request: RepairRequest, importer: Importer)
      returns (results: seq<WindowResult>, failure: Option<bool>)
      requires Configured() && request.Valid(step) && plan == Plan(stored, request.Window(), step, span)
      modifies this
      ensures ImportedPlan(request, importer, old(stored), old(requests), results, failure)
    {
      var window := request.Window();
      var limit := if request.maxWindows <= |plan| then request.maxWindows else |plan|;
      results, failure := ImportPlanned(plan, limit, importer);
      ImportedInside(old(stored), stored, results, importer, old(requests), window, step, span);
      if failure.Some? {
        FailedWindowStaysMissing(old(stored), stored, window, step, span, |results|);
        FailsOnlyAtTheEnd(importer, old(requests), plan, |results|, failure.value);
      } else {
        NoneFails(importer, old(requests), plan, |results|);
      }
    }

    /** Import the first windows of the plan in order; stop at the first source failure. */
    method ImportPlanned(plan: seq<TimeWindow>, limit: nat, importer: Importer)
      returns (results: seq<WindowResult>, failure: Option<bool>)
      requires Configured() && limit <= |plan|
      modifies this
      ensures requests == old(requests) + |results| + (if failure.Some? then 1 else 0)
      ensures |results| <= limit && (failure.None? <==> |results| == limit)
      ensures ImportedSoFar(old(stored), stored, plan, results, importer, old(requests), step)
      ensures failure.Some? ==> importer(old(requests) + |results|, plan[|results|]) == ImportFailed(failure.value)
    {
      results, failure := [], None;
      while |results| < limit
        invariant |results| <= limit && requests == old(requests) + |results|
        invariant ImportedSoFar(old(stored), stored, plan, results, importer, old(requests), step)
        decreases limit - |results|
      {
        ghost var before := stored;
        var outcome := ImportWindow(plan[|results|], importer);
        if outcome.SourceFailed? {
          failure := Some(outcome.recoverable);
          break;
        }
        OneMoreImported(old(stored), before, stored, plan, results, outcome.result, importer, old(requests), step);
        results := results + [outcome.result];
      }
    }

    /** Fetch one window and store what belongs to it. */
    method ImportWindow(window: TimeWindow, importer: Importer) returns (outcome: WindowOutcome)
      requires Configured()
      modifies this
      ensures requests == old(requests) + 1
      ensures old(stored) <= stored && stored - old(stored) <= GridPoints(window.start, window.end, step)
      ensures outcome.SourceFailed? ==>
                importer(old(requests), window) == ImportFailed(outcome.recoverable) && stored == old(stored)
      ensures outcome.WindowImported? ==>
                && importer(old(requests), window).Imported?
                && stored == Stored(old(stored), window, importer(old(requests), window).points, step)
                && outcome.result.window == window && outcome.result.committed == |stored| - |old(stored)|
                && outcome.result.corrected == importer(old(requests), window).corrected
    {
      var imported := importer(requests, window);
      requests := requests + 1;
      if imported.ImportFailed? {
        return SourceFailed(imported.recoverable);
      }
      var after := Stored(stored, window, imported.points, step);
      var added := after - stored;
      assert after == stored + added;
      stored := after;
      outcome := WindowImported(WindowResult(window, |added|, imported.corrected));
    }

    /** The audit reads the stored bars of the window and reports their gaps. */
    method Audit(window: TimeWindow) returns (report: ContinuityReport)
      requires Configured() && window.Valid() && window.Aligned(step)
      ensures report == ReportOf(window, stored * GridPoints(window.start, window.end, step), step)
      ensures report.gaps == GapsFrom(stored, window.start, window.end, step)
      ensures report.isContinuous <==> GridPoints(window.start, window.end, step) <= stored
    {
      var observed := stored * GridPoints(window.start, window.end, step);
      SameInsideWindow(observed, stored, window.start, window.end, step);
      NoGapsMeansComplete(stored, window.start, window.end, step);
      var gaps := GapsFrom(observed, window.start, window.end, step);
      return ContinuityReport(window, |observed|, gaps == [], gaps);
    }
  }

  lemma ImportedInside(start: set<int>, now: set<int>, results: seq<WindowResult>, importer: Importer, first: nat, window: TimeWindow,
                       step: int, span: int)
    requires step > 0 && span > 0 && window.Valid() && window.Aligned(step)
    requires ImportedSoFar(start, now, Plan(start, window, step, span), results, importer, first, step)
    ensures now - start <= GridPoints(window.start, window.end, step)
  {
    var gaps := GapsFrom(start, window.start, window.end, step);
    GapsFromExact(start, window.start, window.end, step);
    PlanInside(gaps, window, span);
    PointsInside(PlannedWindows(gaps, span)[..|results|], window, step);
  }

  lemma SubWindow(inner: TimeWindow, outer: TimeWindow, step: int)
    requires step > 0 && outer.start <= inner.start && inner.end <= outer.end
    ensures GridPoints(inner.start, inner.end, step) <= GridPoints(outer.start, outer.end, step)
  {
  }

  lemma {:induction false} PointsInside(windows: seq<TimeWindow>, outer: TimeWindow, step: int)
    requires step > 0 && forall w :: w in windows ==> outer.start <= w.start && w.end <= outer.end
    ensures PointsOf(windows, step) <= GridPoints(outer.start, outer.end, step)
  {
    if windows != [] {
      SubWindow(windows[0], outer, step);
      PointsInside(windows[1..], outer, step);
    }
  }

  lemma {:induction false} PointsOfConcat(a: seq<TimeWindow>, b: seq<TimeWindow>, step: int)
    requires step > 0
    ensures PointsOf(a + b, step) == PointsOf(a, step) + PointsOf(b, step)
  {
    if a == [] {
      assert a + b == b;
    } else {
      assert (a + b)[1..] == a[1..] + b;
      PointsOfConcat(a[1..], b, step);
    }
  }

  lemma PointsOfAppend(plan: seq<TimeWindow>, n: nat, step: int)
    requires step > 0 && 0 < n <= |plan|
    ensures PointsOf(plan[..n], step) == PointsOf(plan[..n - 1], step) + GridPoints(plan[n - 1].start, plan[n - 1].end, step)
  {
    assert plan[..n] == plan[..n - 1] + [plan[n - 1]];
    PointsOfConcat(plan[..n - 1], [plan[n - 1]], step);
    assert PointsOf([plan[n - 1]], step) == GridPoints(plan[n - 1].start, plan[n - 1].end, step) + PointsOf([], step);
  }

  lemma OneMoreResult(results: seq<WindowResult>, result: WindowResult, plan: seq<TimeWindow>)
    requires |results| < |plan| && WindowsOf(results) == plan[..|results|] && result.window == plan[|results|]
    ensures WindowsOf(results + [result]) == plan[..|results| + 1]
    ensures Committed(results + [result]) == Committed(results) + result.committed
  {
    assert (results + [result])[..|results|] == results;
  }

  lemma HonestWindow(start: set<int>, before: set<int>, after: set<int>, plan: seq<TimeWindow>, n: nat, points: set<int>, step: int)
    requires step > 0 && n < |plan| && before == start + PointsOf(plan[..n], step)
    requires after == Stored(before, plan[n], points, step) && GridPoints(plan[n].start, plan[n].end, step) <= points
    ensures after == start + PointsOf(plan[..n + 1], step)
  {
    PointsOfAppend(plan, n + 1, step);
  }

  lemma {:induction false} FetchInside(start: int, end: int, span: int)
    requires span > 0
    ensures forall w :: w in FetchWindows(start, end, span) ==> start <= w.start < w.end <= end
    decreases end - start
  {
    if start < end {
      FetchInside(Min(start + span, end), end, span);
    }
  }

  lemma {:induction false} PlanInside(gaps: seq<Gap>, window: TimeWindow, span: int)
    requires span > 0
    requires forall g :: g in gaps ==> window.start <= g.start && g.end <= window.end
    ensures forall w :: w in PlannedWindows(gaps, span) ==> window.start <= w.start < w.end <= window.end
  {
    if gaps != [] {
      FetchInside(gaps[0].start, gaps[0].end, span);
      PlanInside(gaps[1..], window, span);
    }
  }

  // ---- The progress marker ----

  /** A marker counts the bars still missing and names the first of them, and none exactly when the
      window is complete. */
  lemma MarkerTellsWhatIsMissing(result: RepairResult, stored: set<int>, step: int)
    requires step > 0 && result.window.Valid() && result.window.Aligned(step)
    requires var report := if result.post.Some? then result.post.value else result.pre;
             report.gaps == GapsFrom(stored, result.window.start, result.window.end, step)
    ensures var missing := Missing(stored, result.window.start, result.window.end, step);
            var marker := result.Marker(step);
            && marker.window == result.window && marker.remaining == |missing|
            && (marker.earliestGap.None? <==> missing == {})
            && (marker.earliestGap.Some? ==> marker.earliestGap.value in missing && forall t :: t in missing ==> marker.earliestGap.value <= t)
  {
    var start, end := result.window.start, result.window.end;
    var gaps := GapsFrom(stored, start, end, step);
    GapBarsCountMissing(stored, start, end, step);
    GapsFromExact(stored, start, end, step);
    NoGapsMeansComplete(stored, start, end, step);
    forall t | t in Missing(stored, start, end, step)
      ensures gaps != [] && gaps[0].start <= t
    {
      assert InSomeGap(t, gaps);
    }
    if gaps == [] {
      assert Missing(stored, start, end, step) == {};
    } else {
      assert InSomeGap(gaps[0].start, gaps) && gaps[0].start in GridPoints(start, end, step);
      assert gaps[0].start in Missing(stored, start, end, step);
    }
  }

  // ---- What a failed window leaves ----

  ghost predicate InOrder(plan: seq<TimeWindow>)
  {
    forall i, j :: 0 <= i < j < |plan| ==> plan[i].end <= plan[j].start
  }

  lemma {:induction false} FetchInOrder(start: int, end: int, span: int, step: int)
    requires step > 0 && span > 0 && OnGrid(start, step) && OnGrid(span, step)
    ensures InOrder(FetchWindows(start, end, span))
    ensures forall w :: w in FetchWindows(start, end, span) ==> start <= w.start < end && w.start < w.end <= end && OnGrid(w.start, step)
    decreases end - start
  {
    if start < end {
      var next := Min(start + span, end);
      var rest := FetchWindows(next, end, span);
      SumOnGrid(start, span, step);
      if next < end {
        FetchInOrder(next, end, span, step);
      } else {
        assert rest == [];
      }
      var plan := FetchWindows(start, end, span);
      assert plan == [TimeWindow(start, next)] + rest;
      forall i, j | 0 <= i < j < |plan|
        ensures plan[i].end <= plan[j].start
      {
        assert plan[j] == rest[j - 1] && rest[j - 1] in rest;
        if i > 0 {
          assert plan[i] == rest[i - 1];
        }
      }
    }
  }

  lemma InOrderJoin(a: seq<TimeWindow>, b: seq<TimeWindow>, middle: int)
    requires InOrder(a) && InOrder(b)
    requires (forall w :: w in a ==> w.end <= middle) && (forall w :: w in b ==> middle <= w.start)
    ensures InOrder(a + b)
  {
    var all := a + b;
    forall i, j | 0 <= i < j < |all|
      ensures all[i].end <= all[j].start
    {
      if i < |a| {
        assert all[i] in a;
      }
      if j >= |a| {
        assert all[j] in b;
      }
      if j < |a| {
        assert all[i] == a[i] && all[j] == a[j];
      } else if i >= |a| {
        assert all[i] == b[i - |a|] && all[j] == b[j - |a|];
      }
    }
  }

  /** The planned windows of ordered gaps are in order, and each starts at a bar of a gap. */
  lemma {:induction false} PlanInOrder(gaps: seq<Gap>, span: int, step: int)
    requires step > 0 && span > 0 && OnGrid(span, step)
    requires forall g :: g in gaps ==> g.start < g.end && OnGrid(g.start, step)
    requires forall i, j :: 0 <= i < j < |gaps| ==> gaps[i].end < gaps[j].start
    ensures InOrder(PlannedWindows(gaps, span))
    ensures forall w :: w in PlannedWindows(gaps, span) ==> OnGrid(w.start, step) && InSomeGap(w.start, gaps)
    ensures gaps != [] ==> forall w :: w in PlannedWindows(gaps, span) ==> gaps[0].start <= w.start
  {
    if gaps != [] {
      var first, rest := FetchWindows(gaps[0].start, gaps[0].end, span), gaps[1..];
      FetchInOrder(gaps[0].start, gaps[0].end, span, step);
      PlanInOrder(rest, span, step);
      forall w | w in PlannedWindows(rest, span)
        ensures gaps[0].end <= w.start && InSomeGap(w.start, gaps)
      {
        var i :| 0 <= i < |rest| && rest[i].start <= w.start < rest[i].end;
        assert gaps[i + 1] == rest[i];
      }
      InOrderJoin(first, PlannedWindows(rest, span), gaps[0].end);
    }
  }

  lemma {:induction false} EarlierPointsAreBefore(windows: seq<TimeWindow>, bar: int, step: int)
    requires step > 0 && forall w :: w in windows ==> w.end <= bar
    ensures bar !in PointsOf(windows, step)
  {
    if windows != [] {
      EarlierPointsAreBefore(windows[1..], bar, step);
    }
  }

  /** A window the source failed on stays missing, so a failed repair is never complete. */
  lemma FailedWindowStaysMissing(before: set<int>, after: set<int>, window: TimeWindow, step: int, span: int, n: nat)
    requires step > 0 && span > 0 && OnGrid(span, step) && window.Valid() && window.Aligned(step)
    requires n < |Plan(before, window, step, span)|
    requires after - before <= PointsOf(Plan(before, window, step, span)[..n], step)
    ensures !(GridPoints(window.start, window.end, step) <= after)
  {
    var gaps := GapsFrom(before, window.start, window.end, step);
    var plan := Plan(before, window, step, span);
    GapsFromExact(before, window.start, window.end, step);
    PlanInOrder(gaps, span, step);
    PlanInside(gaps, window, span);
    var bar := plan[n].start;
    assert plan[n] in plan;
    assert bar in GridPoints(window.start, window.end, step) && bar !in before;
    EarlierPointsAreBefore(plan[..n], bar, step);
  }
}
