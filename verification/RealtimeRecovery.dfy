// One bounded recovery attempt over both tracks
// (src/market_data_service/application/realtime/recovery_plan.py, recovery_types.py, recovery.py,
//  recovery_open_interest.py).

module RealtimeRecovery {
  import opened Optional
  import opened Grid
  import opened Windows
  import opened Gaps
  import opened Continuity
  import opened Repair

  // ---- The window of a fresh attempt ----

  /** From the suspected bar (or the bar after the durable latest), not before known history, up to the
      bar still open; one re-checked bar when that would be empty. */
  function DeriveWindow(latest: Option<int>, earliest: Option<int>, hint: Option<int>, now: int, step: int): Option<TimeWindow>
    requires step > 0
  {
    if latest.None? then None else
      var end := AlignToGrid(now, step);
      var afterLatest := latest.value + step;
      var hinted := if hint.None? then afterLatest else Min(afterLatest, hint.value);
      var start := if earliest.Some? then Max(hinted, earliest.value) else hinted;
      Some(if start >= end then TimeWindow(latest.value, latest.value + step) else TimeWindow(start, end))
  }

  /** The window always ends at the bar still open. It starts at the hinted bar, or the one after the
      durable latest when that is earlier or nothing is hinted, but not before known history; and at the
      last closed bar, to check it again, when that would leave nothing. */
  lemma DerivedWindowExactly(latest: int, earliest: Option<int>, hint: Option<int>, now: int, step: int, closed: int)
    requires step > 0 && OnGrid(latest, step) && latest + step <= now && LastClosedBy(closed, now, step)
    requires earliest.Some? ==> earliest.value <= latest
    ensures var window := DeriveWindow(Some(latest), earliest, hint, now, step).value;
            && window.end == closed + step
            && (latest < closed || (hint.Some? && hint.value < closed + step) ==>
                  && window.start <= latest + step
                  && (hint.Some? && (earliest.None? || earliest.value <= hint.value) ==> window.start <= hint.value)
                  && (earliest.Some? ==> earliest.value <= window.start)
                  && (window.start == latest + step || hint == Some(window.start) || earliest == Some(window.start)))
            && (latest == closed && (hint.None? || hint.value >= closed + step) ==> window.start == closed)
    ensures DeriveWindow(None, earliest, hint, now, step) == None
  {
    NextOnGrid(latest, step);
    AlignIsGreatest(latest + step, now, step);
    LastClosedExactly(closed, now, step);
  }

  /** A hint bounded by the lower frontier gives a non-empty window that starts no later than the bar
      after that frontier. The frontier may have moved on since the hint was made. */
  lemma HintedWindowCoversHole(latest: int, earliest: Option<int>, hint: int, frontier: int, now: int, step: int)
    requires step > 0 && OnGrid(latest, step) && latest + step <= now
    requires frontier <= latest && (earliest.Some? ==> earliest.value <= frontier)
    requires hint <= frontier + step
    ensures var window := DeriveWindow(Some(latest), earliest, Some(hint), now, step).value;
            window.Valid() && window.start <= frontier + step
  {
    NextOnGrid(latest, step);
    AlignIsGreatest(latest + step, now, step);
  }

  /** The window is on the grid unless the hint itself is off it and decides the start: an off-grid
      hint inside the stored range, which only a rejected observation can bring. */
  lemma HintedWindowAlignedExactlyWhen(latest: int, earliest: Option<int>, hint: int, now: int, step: int)
    requires step > 0 && OnGrid(latest, step) && latest + step <= now
    requires earliest.Some? ==> OnGrid(earliest.value, step) && earliest.value <= latest
    ensures DeriveWindow(Some(latest), earliest, Some(hint), now, step).value.Aligned(step)
            <==> OnGrid(hint, step) || hint > latest + step || (earliest.Some? && hint < earliest.value)
  {
    NextOnGrid(latest, step);
    AlignIsGreatest(latest + step, now, step);
  }

  /** Without a hint the window starts after the durable latest candle alone. It reaches back to the
      bar after the lower frontier exactly when that candle is not beyond the frontier (by one bar,
      when the latest closed bar is re-checked). */
  predicate UnhintedCovers(latest: int, frontier: int, now: int, step: int)
    requires step > 0
  {
    if latest + step < AlignToGrid(now, step) then latest <= frontier else latest <= frontier + step
  }

  lemma UnhintedWindowCoversExactlyWhen(latest: int, earliest: Option<int>, frontier: int, now: int, step: int)
    requires step > 0 && OnGrid(latest, step) && latest + step <= now
    requires earliest.Some? ==> earliest.value <= latest
    ensures DeriveWindow(Some(latest), earliest, None, now, step).value.start <= frontier + step
            <==> UnhintedCovers(latest, frontier, now, step)
  {
    NextOnGrid(latest, step);
    AlignIsGreatest(latest + step, now, step);
  }

  // ---- Attempt results ----

  datatype RecoveryClass = Restored | IncompleteRecovery | RecoverableFailure | FatalFailure

  /** What the repairs of one attempt did. */
  datatype Work = Work(committed: nat, corrected: nat, marker: Option<ProgressMarker>)

  const NO_WORK := Work(0, 0, None)

  datatype RecoveryResult = RecoveryResult(
    classification: RecoveryClass,
    window: Option<TimeWindow>,
    next: Option<TimeWindow>,
    restoredThrough: Option<int>,
    work: Work)
  {
    predicate MadeProgress() { next.Some? || work.committed > 0 || work.corrected > 0 }
  }

  function AttemptFailed(window: Option<TimeWindow>, recoverable: bool, work: Work): RecoveryResult
  {
    RecoveryResult(if recoverable then RecoverableFailure else FatalFailure, window, None, None, work)
  }

  function AttemptIncomplete(window: Option<TimeWindow>, work: Work): RecoveryResult
  {
    RecoveryResult(IncompleteRecovery, window, None, None, work)
  }

  /** Both tracks proven over the window: restored, unless another bar closed meanwhile. */
  function AttemptProven(window: TimeWindow, currentEnd: int, step: int, work: Work): RecoveryResult
  {
    if currentEnd > window.end then
      RecoveryResult(IncompleteRecovery, Some(window), Some(TimeWindow(window.end, currentEnd)), None, work)
    else
      RecoveryResult(Restored, Some(window), None, Some(window.end - step), work)
  }

  /** Complete over a window that still ends at the open bar: restored through its last bar. Otherwise
      the attempt is incomplete, and what closed since is the next window. */
  lemma ProvenAttemptSays(window: TimeWindow, now: int, step: int, work: Work, closed: int)
    requires step > 0 && LastClosedBy(closed, now, step)
    ensures var result := AttemptProven(window, AlignToGrid(now, step), step, work);
            && result.work == work && result.window == Some(window)
            && (window.end >= closed + step ==>
                  result.classification == Restored && result.restoredThrough == Some(window.end - step) && result.next.None?)
            && (window.end < closed + step ==>
                  result.classification == IncompleteRecovery && result.restoredThrough.None?
                  && result.next == Some(TimeWindow(window.end, closed + step)))
  {
    LastClosedExactly(closed, now, step);
  }

  function WorkOf(candles: RepairResult, openInterest: Option<RepairResult>, step: int): Work
    requires step > 0
  {
    var more := if openInterest.Some? then openInterest.value.results else [];
    Work(Committed(candles.results) + Committed(more),
         CorrectedBars(candles.results) + CorrectedBars(more),
         Some(candles.Marker(step)))
  }

  class RealtimeRecoveryCoordinator {
    const candles: RepairStreamGaps
    const openInterest: RepairStreamGaps
    const flagged: bool

    ghost predicate Valid()
    {
      && candles.Configured() && openInterest.Configured()
      && candles.step == openInterest.step && candles != openInterest
    }

    constructor (candles: RepairStreamGaps, openInterest: RepairStreamGaps, flagged: bool)
      requires candles.Configured() && openInterest.Configured()
      requires candles.step == openInterest.step && candles != openInterest
      ensures Valid() && this.candles == candles && this.openInterest == openInterest && this.flagged == flagged
    {
      this.candles := candles;
      this.openInterest := openInterest;
      this.flagged := flagged;
    }

    /** Repair the candles, then the open interest of a flagged stream, over one window; restored only
        when both are complete and the window still ends at the current bar. */
    method Execute(hint: Option<int>, carried: Option<TimeWindow>, maxWindows: int, latest: Option<int>, earliest: Option<int>,
                   plannedAt: int, finishedAt: int, candleSource: Importer, openInterestSource: Importer)
      returns (result: RecoveryResult)
      requires Valid() && maxWindows > 0 && (carried.Some? ==> carried.value.Valid())
      requires latest.Some? ==> OnGrid(latest.value, candles.step)
      modifies candles, openInterest
      ensures old(candles.stored) <= candles.stored && old(openInterest.stored) <= openInterest.stored
      ensures old(candles.requests) <= candles.requests && old(openInterest.requests) <= openInterest.requests
      ensures !flagged ==> openInterest.stored == old(openInterest.stored) && openInterest.requests == old(openInterest.requests)
      ensures |candles.stored| - |old(candles.stored)| + |openInterest.stored| - |old(openInterest.stored)| == result.work.committed
      ensures var window := if carried.Some? then carried else DeriveWindow(latest, earliest, hint, plannedAt, candles.step);
              && (window.None? ==> result == AttemptIncomplete(None, NO_WORK))
              && (window.Some? && !window.value.Aligned(candles.step) ==> result == AttemptFailed(None, false, NO_WORK))
              && (window.Some? && window.value.Aligned(candles.step) ==>
                    && result.window == window
                    && (result.classification == Restored || result.next.Some? <==>
                          result == AttemptProven(window.value, AlignToGrid(finishedAt, candles.step), candles.step, result.work))
                    && (result.classification == Restored || result.next.Some? <==>
                          && GridPoints(window.value.start, window.value.end, candles.step) <= candles.stored
                          && (flagged ==> GridPoints(window.value.start, window.value.end, candles.step) <= openInterest.stored))
                    && (Honest(candleSource, candles.step) && Honest(openInterestSource, candles.step) ==>
                          result.classification == Restored || result.classification == IncompleteRecovery)
                    && (result.classification == FatalFailure <==>
                          candles.FailedSince(candleSource, old(candles.stored), old(candles.requests), window.value, false)
                          || openInterest.FailedSince(openInterestSource, old(openInterest.stored), old(openInterest.requests), window.value, false))
                    && (result.classification == RecoverableFailure <==>
                          candles.FailedSince(candleSource, old(candles.stored), old(candles.requests), window.value, true)
                          || openInterest.FailedSince(openInterestSource, old(openInterest.stored), old(openInterest.requests), window.value, true)))
    {
      var step := candles.step;
      var window := if carried.Some? then carried else DeriveWindow(latest, earliest, hint, plannedAt, step);
      if window.None? {
        return AttemptIncomplete(None, NO_WORK);
      }
      if !window.value.Aligned(step) {
        return AttemptFailed(None, false, NO_WORK);
      }
      result := RepairBoth(window.value, maxWindows, finishedAt, candleSource, openInterestSource);
    }

    /** Both repairs over an aligned window. */
    method RepairBoth(window: TimeWindow, maxWindows: int, finishedAt: int, candleSource: Importer, openInterestSource: Importer)
      returns (result: RecoveryResult)
      requires Valid() && maxWindows > 0 && window.Valid() && window.Aligned(candles.step)
      modifies candles, openInterest
      ensures old(candles.stored) <= candles.stored && old(openInterest.stored) <= openInterest.stored
      ensures old(candles.requests) <= candles.requests && old(openInterest.requests) <= openInterest.requests
      ensures !flagged ==> openInterest.stored == old(openInterest.stored) && openInterest.requests == old(openInterest.requests)
      ensures |candles.stored| - |old(candles.stored)| + |openInterest.stored| - |old(openInterest.stored)| == result.work.committed
      ensures result.window == Some(window)
      ensures result.classification == Restored || result.next.Some? <==>
                result == AttemptProven(window, AlignToGrid(finishedAt, candles.step), candles.step, result.work)
      ensures result.classification == Restored || result.next.Some? <==>
                && GridPoints(window.start, window.end, candles.step) <= candles.stored
                && (flagged ==> GridPoints(window.start, window.end, candles.step) <= openInterest.stored)
      ensures Honest(candleSource, candles.step) && Honest(openInterestSource, candles.step) ==>
                result.classification == Restored || result.classification == IncompleteRecovery
      ensures result.classification == FatalFailure <==>
                candles.FailedSince(candleSource, old(candles.stored), old(candles.requests), window, false)
                || openInterest.FailedSince(openInterestSource, old(openInterest.stored), old(openInterest.requests), window, false)
      ensures result.classification == RecoverableFailure <==>
                candles.FailedSince(candleSource, old(candles.stored), old(candles.requests), window, true)
                || openInterest.FailedSince(openInterestSource, old(openInterest.stored), old(openInterest.requests), window, true)
    {
      var step := candles.step;
      var request := RepairRequest(window.start, window.end, maxWindows);
      var repair := candles.Execute(request, candleSource);
      if repair.status == Failed {
        return AttemptFailed(Some(window), repair.recoverable, WorkOf(repair, None, step));
      }
      if repair.status == Incomplete {
        return AttemptIncomplete(Some(window), WorkOf(repair, None, step));
      }
      var second: Option<RepairResult> := None;
      if flagged {
        var more := openInterest.Execute(request, openInterestSource);
        second := Some(more);
        if more.status == Failed {
          return AttemptFailed(Some(window), more.recoverable, WorkOf(repair, second, step));
        }
        if more.status == Incomplete {
          return AttemptIncomplete(Some(window), WorkOf(repair, second, step));
        }
      }
      return AttemptProven(window, AlignToGrid(finishedAt, step), step, WorkOf(repair, second, step));
    }
  }
}
