// Bounded backfill of one stream and the bootstrap that shares one window budget with discovery
// (src/market_data_service/application/backfill_stream.py, backfill_types.py, full_bootstrap.py).

module Backfill {
  import opened Optional
  import opened Grid
  import opened Windows
  import opened Gaps
  import opened Repair

  datatype BackfillRequest = BackfillRequest(start: int, end: int, maxWindows: int, resume: bool) {
    /** What the request's constructor insists on. */
    predicate Valid(step: int)
      requires step > 0
    {
      start < end && maxWindows > 0 && OnGrid(start, step) && OnGrid(end, step)
    }
  }

  datatype BackfillResult = BackfillResult(
    attempted: nat, results: seq<WindowResult>, reachedEnd: bool, next: int, failure: Option<bool>)

  /** The cached latest bar is the greatest stored one. */
  ghost predicate IsLatest(latest: Option<int>, stored: set<int>)
  {
    && (latest.None? <==> stored == {})
    && (latest.Some? ==> latest.value in stored && forall t :: t in stored ==> t <= latest.value)
  }

  lemma SomeBar(bars: set<int>)
    ensures bars == {} || exists t :: t in bars
  {
    if forall t :: t !in bars {
      assert bars <= {};
    }
  }

  function ResumeStart(request: BackfillRequest, latest: Option<int>, step: int): int
  {
    if !request.resume || latest.None? then request.start else Max(request.start, latest.value + step)
  }

  /** Where an import that may resume starts: at the requested bar, or at the one after the latest stored
      bar when that is later. */
  predicate StartsAt(start: int, requested: int, latest: Option<int>, resume: bool, step: int)
  {
    && requested <= start && (resume && latest.Some? ==> latest.value + step <= start)
    && (start == requested || (resume && latest == Some(start - step)))
  }

  lemma ResumesExactlyAt(start: int, request: BackfillRequest, latest: Option<int>, step: int)
    ensures StartsAt(start, request.start, latest, request.resume, step) <==> start == ResumeStart(request, latest, step)
  {
  }

  /** The windows of a plan cover its bars. */
  lemma {:induction false} FetchedPoints(start: int, end: int, span: int, step: int)
    requires step > 0 && span > 0
    ensures PointsOf(FetchWindows(start, end, span), step) == GridPoints(start, end, step)
    decreases end - start
  {
    if start < end {
      var next := Min(start + span, end);
      FetchedPoints(next, end, span, step);
      assert FetchWindows(start, end, span)[1..] == FetchWindows(next, end, span);
      assert GridPoints(start, end, step) == GridPoints(start, next, step) + GridPoints(next, end, step);
    }
  }

  class BackfillStreamHistory {
    const step: int
    const span: int
    var stored: set<int>
    var latest: Option<int>
    var requests: nat

    ghost predicate Valid()
      reads this
    {
      step > 0 && span > 0 && OnGrid(span, step) && IsLatest(latest, stored) && forall t :: t in stored ==> OnGrid(t, step)
    }

    constructor (step: int, maxCandles: int)
      requires step > 0 && maxCandles > 0
      ensures Valid() && this.step == step && this.span == step * maxCandles && stored == {}
    {
      SpanPositive(step, maxCandles);
      ShiftOnGrid(0, maxCandles, step);
      assert 0 + maxCandles * step == step * maxCandles;
      this.step := step;
      this.span := step * maxCandles;
      this.stored := {};
      this.latest := None;
      this.requests := 0;
    }

    /** Store what a window delivered, bar by bar, moving the latest along. */
    method Store(points: set<int>)
      requires Valid() && forall t :: t in points ==> OnGrid(t, step)
      modifies `stored, `latest
      ensures Valid() && stored == old(stored) + points
    {
      var rest := points;
      while rest != {}
        invariant Valid() && rest <= points && stored == old(stored) + (points - rest)
        decreases |rest|
      {
        SomeBar(rest);
        var t :| t in rest;
        rest := rest - {t};
        stored := stored + {t};
        latest := Some(if latest.None? then t else Max(latest.value, t));
      }
    }

    /** Import at most the allowed number of windows from where durable progress ended. */
    method Execute(request: BackfillRequest, importer: Importer) returns (result: BackfillResult)
      requires Valid() && request.Valid(step)
      modifies this
      ensures Valid() && old(stored) <= stored
      ensures var start := ResumeStart(request, old(latest), step);
              var plan := FetchWindows(start, request.end, span);
              && stored - old(stored) <= GridPoints(start, request.end, step)
              && |stored| == |old(stored)| + Committed(result.results)
              && requests == old(requests) + result.attempted
              && result.attempted == |result.results| + (if result.failure.Some? then 1 else 0)
              && result.attempted <= request.maxWindows && result.attempted <= |plan|
              && WindowsOf(result.results) == plan[..|result.results|]
              && (result.failure.None? ==> result.attempted == Min(request.maxWindows, |plan|))
              && (result.failure.Some? ==>
                    && importer(requests - 1, plan[|result.results|]) == ImportFailed(result.failure.value)
                    && !result.reachedEnd && result.next == plan[|result.results|].start)
              && (Honest(importer, step) ==>
                    && result.failure.None?
                    && stored == old(stored) + PointsOf(plan[..result.attempted], step))
      ensures result.failure.None? && request.resume ==>
                && (result.reachedEnd <==> ResumeStart(request, latest, step) >= request.end)
                && result.next == Min(ResumeStart(request, latest, step), request.end)
      ensures result.failure.None? && !request.resume ==>
                var plan := FetchWindows(request.start, request.end, span);
                && (result.reachedEnd <==> result.attempted == |plan|)
                && result.next == (if result.attempted < |plan| then plan[result.attempted].start else request.end)
    {
      var cursor := ResumeStart(request, latest, step);
      if cursor >= request.end {
        assert FetchWindows(cursor, request.end, span) == [];
        assert GridPoints(cursor, request.end, step) == {};
        return BackfillResult(0, [], true, request.end, None);
      }
      var plan := CutWindows(Gap(cursor, request.end), span);
      var limit := if request.maxWindows <= |plan| then request.maxWindows else |plan|;
      FetchInside(cursor, request.end, span);
      var results, failure := ImportWindows(plan, limit, TimeWindow(cursor, request.end), importer);
      if failure.Some? {
        return BackfillResult(|results| + 1, results, false, plan[|results|].start, failure);
      }
      WindowsMeet(cursor, request.end, span, limit);
      var next := if request.resume then ResumeStart(request, latest, step) else plan[limit - 1].end;
      return BackfillResult(|results|, results, next >= request.end, Min(next, request.end), None);
    }

    /** Fetch one window and store what belongs to it. */
    method ImportWindow(window: TimeWindow, importer: Importer) returns (outcome: WindowOutcome)
      requires Valid()
      modifies this
      ensures Valid() && requests == old(requests) + 1
      ensures outcome.SourceFailed? ==>
                importer(old(requests), window) == ImportFailed(outcome.recoverable) && stored == old(stored)
      ensures old(stored) <= stored && stored - old(stored) <= GridPoints(window.start, window.end, step)
      ensures outcome.WindowImported? ==>
                && importer(old(requests), window).Imported?
                && stored == Stored(old(stored), window, importer(old(requests), window).points, step)
                && outcome.result.window == window && outcome.result.committed == |stored| - |old(stored)|
    {
      var imported := importer(requests, window);
      requests := requests + 1;
      if imported.ImportFailed? {
        return SourceFailed(imported.recoverable);
      }
      var delivered := imported.points * GridPoints(window.start, window.end, step);
      var added := delivered - stored;
      assert stored + delivered == stored + added;
      outcome := WindowImported(WindowResult(window, |added|, imported.corrected));
      Store(delivered);
    }

    method ImportWindows(plan: seq<TimeWindow>, limit: nat, window: TimeWindow, importer: Importer)
      returns (results: seq<WindowResult>, failure: Option<bool>)
      requires Valid() && limit <= |plan|
      requires forall w :: w in plan ==> window.start <= w.start && w.end <= window.end
      modifies this
      ensures Valid() && old(stored) <= stored
      ensures stored - old(stored) <= GridPoints(window.start, window.end, step)
      ensures |stored| == |old(stored)| + Committed(results)
      ensures requests == old(requests) + |results| + (if failure.Some? then 1 else 0)
      ensures |results| <= limit && (failure.None? <==> |results| == limit)
      ensures WindowsOf(results) == plan[..|results|]
      ensures failure.Some? ==> importer(old(requests) + |results|, plan[|results|]) == ImportFailed(failure.value)
      ensures Honest(importer, step) ==> failure.None? && stored == old(stored) + PointsOf(plan[..limit], step)
    {
      ghost var bars := GridPoints(window.start, window.end, step);
      results, failure := [], None;
      while |results| < limit
        invariant Valid() && |results| <= limit && requests == old(requests) + |results|
        invariant WindowsOf(results) == plan[..|results|]
        invariant old(stored) <= stored && stored - old(stored) <= bars
        invariant |stored| == |old(stored)| + Committed(results)
        invariant Honest(importer, step) ==> stored == old(stored) + PointsOf(plan[..|results|], step)
        decreases limit - |results|
      {
        var next := plan[|results|];
        assert next in plan;
        SubWindow(next, window, step);
        ghost var before := stored;
        var outcome := ImportWindow(next, importer);
        if outcome.SourceFailed? {
          failure := Some(outcome.recoverable);
          break;
        }
        if Honest(importer, step) {
          HonestWindow(old(stored), before, stored, plan, |results|, importer(requests - 1, next).points, step);
        }
        OneMoreResult(results, outcome.result, plan);
        results := results + [outcome.result];
      }
    }
  }

  // ---- Resuming ----

  /** Where an honest pass leaves the resume point: after the last window it was allowed. */
  function NextCursor(cursor: int, end: int, span: int, maxWindows: nat): int
    requires span > 0
  {
    var plan := FetchWindows(cursor, end, span);
    if |plan| <= maxWindows then Max(cursor, end) else plan[maxWindows].start
  }

  /** An honest pass that resumes from the latest bar leaves the resume point exactly after the last
      window it imported: nothing is fetched twice and nothing is skipped. */
  lemma HonestPassMovesOn(request: BackfillRequest, before: set<int>, latest: Option<int>, after: set<int>, newLatest: Option<int>,
                          step: int, span: int)
    requires step > 0 && span > 0 && OnGrid(span, step) && request.Valid(step) && request.resume
    requires IsLatest(latest, before) && (forall t :: t in before ==> OnGrid(t, step))
    requires var plan := FetchWindows(ResumeStart(request, latest, step), request.end, span);
             after == before + PointsOf(plan[..Min(request.maxWindows, |plan|)], step)
    requires IsLatest(newLatest, after)
    ensures ResumeStart(request, newLatest, step)
            == NextCursor(ResumeStart(request, latest, step), request.end, span, request.maxWindows)
  {
    var cursor := ResumeStart(request, latest, step);
    var plan := FetchWindows(cursor, request.end, span);
    var n := Min(request.maxWindows, |plan|);
    if latest.Some? {
      NextOnGrid(latest.value, step);
    }
    if n == 0 {
      assert after == before;
      assert newLatest == latest;
    } else {
      LastPoint(cursor, request.end, span, n, step);
      assert newLatest == Some(plan[n - 1].end - step);
      WindowsMeet(cursor, request.end, span, n);
    }
  }

  /** An honest pass that reports the end has stored every bar from where it started. */
  lemma HonestEndIsComplete(request: BackfillRequest, before: set<int>, latest: Option<int>, after: set<int>, newLatest: Option<int>,
                            step: int, span: int)
    requires step > 0 && span > 0 && OnGrid(span, step) && request.Valid(step) && request.resume
    requires IsLatest(latest, before) && (forall t :: t in before ==> OnGrid(t, step))
    requires var plan := FetchWindows(ResumeStart(request, latest, step), request.end, span);
             after == before + PointsOf(plan[..Min(request.maxWindows, |plan|)], step)
    requires IsLatest(newLatest, after)
    ensures var start := ResumeStart(request, latest, step);
            && (ResumeStart(request, newLatest, step) >= request.end <==> |FetchWindows(start, request.end, span)| <= request.maxWindows)
            && (ResumeStart(request, newLatest, step) >= request.end ==> GridPoints(start, request.end, step) <= after)
  {
    var start := ResumeStart(request, latest, step);
    var plan := FetchWindows(start, request.end, span);
    HonestPassMovesOn(request, before, latest, after, newLatest, step, span);
    FetchInside(start, request.end, span);
    if |plan| <= request.maxWindows {
      assert plan[..|plan|] == plan;
      FetchedPoints(start, request.end, span, step);
    } else {
      assert plan[request.maxWindows] in plan;
    }
  }

  /** The latest bar of the first windows of a plan is the last bar of the last of them. */
  lemma {:induction false} LastPoint(start: int, end: int, span: int, n: nat, step: int)
    requires step > 0 && span > 0 && OnGrid(span, step) && OnGrid(start, step) && OnGrid(end, step)
    requires 0 < n <= |FetchWindows(start, end, span)|
    ensures var plan := FetchWindows(start, end, span);
            var last := plan[n - 1].end - step;
            && start <= last && last in PointsOf(plan[..n], step) && OnGrid(plan[n - 1].end, step)
            && forall t :: t in PointsOf(plan[..n], step) ==> start <= t <= last
    decreases n
  {
    var plan := FetchWindows(start, end, span);
    var first := plan[0].end;
    SumOnGrid(start, span, step);
    GridSpacing(start, first, step);
    PreviousOnGrid(first, step);
    forall t | t in GridPoints(start, first, step)
      ensures t <= first - step
    {
      GridSpacing(t, first, step);
    }
    var rest := FetchWindows(first, end, span);
    assert plan == [plan[0]] + rest && plan[..n] == [plan[0]] + rest[..n - 1];
    if n > 1 {
      LastPoint(first, end, span, n - 1, step);
    } else {
      assert plan[..1][1..] == [];
    }
  }

  lemma {:induction false} WindowsMeet(start: int, end: int, span: int, n: nat)
    requires span > 0 && 0 < n <= |FetchWindows(start, end, span)|
    ensures var plan := FetchWindows(start, end, span);
            plan[n - 1].end == if n < |plan| then plan[n].start else end
    decreases n
  {
    var plan := FetchWindows(start, end, span);
    var rest := FetchWindows(plan[0].end, end, span);
    assert plan == [plan[0]] + rest;
    if n > 1 {
      WindowsMeet(plan[0].end, end, span, n - 1);
    }
  }

  function CursorAfter(cursor: int, end: int, span: int, maxWindows: nat, passes: nat): int
    requires span > 0
    decreases passes
  {
    if passes == 0 then cursor else NextCursor(CursorAfter(cursor, end, span, maxWindows, passes - 1), end, span, maxWindows)
  }

  function From(plan: seq<TimeWindow>, n: nat): seq<TimeWindow> { if n < |plan| then plan[n..] else [] }

  lemma FromFrom(plan: seq<TimeWindow>, n: nat, more: nat)
    ensures From(From(plan, n), more) == From(plan, n + more)
  {
    if n + more < |plan| {
      assert plan[n..][more..] == plan[n + more..];
    }
  }

  /** What one pass leaves of a plan. */
  lemma PlanLeft(cursor: int, end: int, span: int, maxWindows: nat)
    requires span > 0 && maxWindows > 0
    ensures FetchWindows(NextCursor(cursor, end, span, maxWindows), end, span) == From(FetchWindows(cursor, end, span), maxWindows)
  {
    if maxWindows < |FetchWindows(cursor, end, span)| {
      FetchWindowsResume(cursor, end, span, maxWindows);
    }
  }

  function Allowed(maxWindows: nat, passes: nat): nat
  {
    if passes == 0 then 0 else Allowed(maxWindows, passes - 1) + maxWindows
  }

  lemma {:induction false} AllowedIsProduct(maxWindows: nat, passes: nat)
    ensures Allowed(maxWindows, passes) == passes * maxWindows
  {
    if passes > 0 {
      AllowedIsProduct(maxWindows, passes - 1);
    }
  }

  lemma {:induction false} PlanAfterPasses(cursor: int, end: int, span: int, maxWindows: nat, passes: nat)
    requires span > 0 && maxWindows > 0
    ensures FetchWindows(CursorAfter(cursor, end, span, maxWindows, passes), end, span)
            == From(FetchWindows(cursor, end, span), Allowed(maxWindows, passes))
    decreases passes
  {
    var plan := FetchWindows(cursor, end, span);
    if passes == 0 {
      assert plan[0..] == plan;
    } else {
      PlanAfterPasses(cursor, end, span, maxWindows, passes - 1);
      PlanLeft(CursorAfter(cursor, end, span, maxWindows, passes - 1), end, span, maxWindows);
      FromFrom(plan, Allowed(maxWindows, passes - 1), maxWindows);
    }
  }

  /** Honest passes fetch the one-pass plan piece by piece, and have reached the end exactly when their
      budgets together cover it. */
  lemma BackfillReachesTheEnd(cursor: int, end: int, span: int, maxWindows: nat, passes: nat)
    requires span > 0 && maxWindows > 0
    ensures FetchWindows(CursorAfter(cursor, end, span, maxWindows, passes), end, span)
            == From(FetchWindows(cursor, end, span), passes * maxWindows)
    ensures CursorAfter(cursor, end, span, maxWindows, passes) >= end <==> |FetchWindows(cursor, end, span)| <= passes * maxWindows
  {
    AllowedIsProduct(maxWindows, passes);
    PlanAfterPasses(cursor, end, span, maxWindows, passes);
  }
}

module Bootstrap {
  import opened Optional
  import opened Grid
  import opened Windows
  import opened Gaps
  import opened Repair
  import opened Discovery
  import opened Backfill

  datatype BootstrapStatus = Backfilled | BootstrapIncomplete | LowerBoundUnresolved | RequestRefused

  datatype BootstrapResult = BootstrapResult(
    status: BootstrapStatus, target: Option<int>, bound: Option<LowerBound>, backfill: Option<BackfillResult>)
  {
    function TotalWindows(): nat
    {
      (if bound.Some? then Used(bound.value) else 0) + (if backfill.Some? then backfill.value.attempted else 0)
    }
  }

  class BootstrapFullStreamHistory {
    const lower: ResolveHistoricalLowerBound
    const history: BackfillStreamHistory

    ghost predicate Valid()
      reads this, lower, history
    {
      lower.Valid() && history.Valid() && lower.step == history.step
    }

    constructor (lower: ResolveHistoricalLowerBound, history: BackfillStreamHistory)
      requires lower.Valid() && history.Valid() && lower.step == history.step
      ensures Valid() && this.lower == lower && this.history == history
    {
      this.lower := lower;
      this.history := history;
    }

    /** Find the lower bound, then backfill up to the last closed bar with what is left of the budget. */
    method Execute(maxWindows: int, now: int, later: int, metadata: LaunchAnswer, probe: LowerBoundProbe, importer: Importer)
      returns (result: BootstrapResult, ghost asked: seq<TimeWindow>)
      requires Valid() && maxWindows > 0 && StaysInside(probe, lower.step)
      modifies lower, history
      ensures Valid()
      ensures |asked| == lower.probes - old(lower.probes) && |asked| <= maxWindows
      ensures old(lower.earliest).None? && lower.launch.Some? ==>
                (lower.State(), asked) == Pass(old(lower.State()), CeilToGrid(lower.launch.value, lower.step),
                                               LastClosedOpenTime(now, lower.step) + lower.step, lower.span, maxWindows, probe, old(lower.probes))
      ensures result.status != LowerBoundUnresolved ==> result.TotalWindows() == |asked| + history.requests - old(history.requests) <= maxWindows
      ensures result.status == LowerBoundUnresolved <==> lower.launch.None? || LastRaised(asked, lower.probes, probe)
      ensures result.status == BootstrapIncomplete <==>
                && lower.launch.Some? && !LastRaised(asked, lower.probes, probe)
                && (lower.earliest.None? || |asked| == maxWindows)
      ensures lower.launch.Some? && !LastRaised(asked, lower.probes, probe) && lower.earliest.Some? ==>
                && result.target.Some? && LastClosedBy(result.target.value, later, lower.step)
                && (result.status == RequestRefused <==> |asked| < maxWindows && result.target.value < lower.earliest.value)
                && (result.status == Backfilled <==> |asked| < maxWindows && lower.earliest.value <= result.target.value)
      ensures result.backfill.Some? <==> result.status == Backfilled
      ensures result.status != Backfilled ==> history.stored == old(history.stored) && history.requests == old(history.requests)
      ensures result.status == Backfilled ==>
                BackfilledFrom(lower.earliest.value, result.target.value + lower.step, maxWindows - |asked|, importer, old(history.requests),
                               old(history.stored), old(history.latest), result.backfill.value)
      ensures lower.launch == if old(lower.earliest).None? && old(lower.launch).None? && metadata.LaunchAnswered? then metadata.launch
                              else old(lower.launch)
    {
      var bound;
      bound, asked := lower.Execute(maxWindows, now, metadata, probe);
      if bound.Unavailable? {
        return BootstrapResult(LowerBoundUnresolved, None, None, None), asked;
      }
      if bound.Unresolved? {
        return BootstrapResult(BootstrapIncomplete, None, Some(bound), None), asked;
      }
      result := BackfillTo(bound, maxWindows, later, importer);
    }

    /** A found bound: backfill up to the last closed bar with what the discovery left of the budget. */
    method BackfillTo(bound: LowerBound, maxWindows: int, later: int, importer: Importer) returns (result: BootstrapResult)
      requires Valid() && bound.Resolved? && Used(bound) <= maxWindows && OnGrid(bound.openTime, lower.step)
      modifies history
      ensures Valid()
      ensures result.bound == Some(bound) && result.target.Some? && LastClosedBy(result.target.value, later, lower.step)
      ensures result.status == BootstrapIncomplete <==> Used(bound) == maxWindows
      ensures result.status == RequestRefused <==> Used(bound) < maxWindows && result.target.value < bound.openTime
      ensures result.status == Backfilled <==> Used(bound) < maxWindows && bound.openTime <= result.target.value
      ensures result.backfill.Some? <==> result.status == Backfilled
      ensures result.status != Backfilled ==> history.stored == old(history.stored) && history.requests == old(history.requests)
      ensures result.status == Backfilled ==>
                BackfilledFrom(bound.openTime, result.target.value + lower.step, maxWindows - Used(bound), importer, old(history.requests),
                               old(history.stored), old(history.latest), result.backfill.value)
    {
      var step := lower.step;
      var target := LastClosedOpenTime(later, step);
      LastClosedExactly(target, later, step);
      var remaining := maxWindows - Used(bound);
      if remaining <= 0 {
        return BootstrapResult(BootstrapIncomplete, Some(target), Some(bound), None);
      }
      var request := BackfillRequest(bound.openTime, target + step, remaining, true);
      ClosedWindow(bound.openTime, target, step);
      if !request.Valid(step) {
        return BootstrapResult(RequestRefused, Some(target), Some(bound), None);
      }
      var backfill := BackfillRange(request, importer);
      result := BootstrapResult(Backfilled, Some(target), Some(bound), Some(backfill));
    }

    method BackfillRange(request: BackfillRequest, importer: Importer) returns (result: BackfillResult)
      requires history.Valid() && request.Valid(history.step) && request.resume
      modifies history
      ensures history.Valid()
      ensures BackfilledFrom(request.start, request.end, request.maxWindows, importer, old(history.requests), old(history.stored),
                             old(history.latest), result)
    {
      result := history.Execute(request, importer);
      if Honest(importer, history.step) {
        HonestEndIsComplete(request, old(history.stored), old(history.latest), history.stored, history.latest, history.step, history.span);
      }
    }

    /** What a backfill from a bar to another did: it fetched the windows that cut everything from the
        first bar, or from the one after the latest stored when that is later, in order and as many as
        allowed, unless the source failed. An honest source has then delivered all of them, and every bar
        is stored from there on if the end was reached: from the first bar on, if nothing was stored. */
    ghost predicate BackfilledFrom(first: int, end: int, budget: int, importer: Importer, requests: nat,
                                   before: set<int>, latest: Option<int>, result: BackfillResult)
      requires history.step > 0 && history.span > 0
      reads history
    {
      var start := if latest.None? || latest.value + history.step <= first then first else latest.value + history.step;
      var plan := FetchWindows(start, end, history.span);
      && |result.results| <= |plan| && WindowsOf(result.results) == plan[..|result.results|]
      && before <= history.stored && history.stored - before <= GridPoints(start, end, history.step)
      && |history.stored| == |before| + Committed(result.results)
      && history.requests == requests + result.attempted
      && (result.failure.None? ==> result.attempted == |result.results| == Min(budget, |plan|))
      && (result.failure.Some? ==>
            && |result.results| < Min(budget, |plan|) && result.attempted == |result.results| + 1
            && importer(requests + |result.results|, plan[|result.results|]) == ImportFailed(result.failure.value)
            && !result.reachedEnd && result.next == plan[|result.results|].start)
      && (result.failure.None? ==> (result.reachedEnd <==> history.latest.Some? && history.latest.value + history.step >= end))
      && (Honest(importer, history.step) ==>
            && result.failure.None? && history.stored == before + PointsOf(plan[..result.attempted], history.step)
            && (result.reachedEnd <==> |plan| <= budget)
            && (result.reachedEnd ==> GridPoints(start, end, history.step) <= history.stored)
            && (result.reachedEnd && before == {} ==> GridPoints(first, end, history.step) <= history.stored))
    }
  }

  lemma ClosedWindow(first: int, target: int, step: int)
    requires step > 0 && OnGrid(first, step) && OnGrid(target, step)
    ensures OnGrid(target + step, step) && (first < target + step <==> first <= target)
  {
    NextOnGrid(target, step);
    if first > target {
      GridSpacing(target, first, step);
    }
  }
}
