// The two-track realtime continuity protocol as a step system: live commits, REST and prefetch
// stores, disconnects, stale checks, and recovery attempts whose parts interleave with all of it
// (src/market_data_service/application/realtime/supervisor.py, supervisor_state.py, recovery.py,
//  recovery_plan.py, src/market_data_service/runtime/realtime_recovery_worker.py, realtime.py,
//  open_interest_publication.py, open_interest_prefetch.py).

module ContinuityProtocol {
  import opened Optional
  import opened Grid
  import opened Windows
  import opened Streams
  import opened Repair
  import opened RealtimeFacts
  import opened RealtimeRecovery
  import opened RecoveryIntents

  /** Where a running attempt stands; signals and live points may arrive between any two phases. */
  datatype Phase =
    | Planned(carried: Option<TimeWindow>)
    | Windowed(window: TimeWindow)
    | CandlesDone(window: TimeWindow)
    | BothDone(window: TimeWindow)
    | Finished(result: RecoveryResult)

  datatype Attempt = Attempt(signal: Signal, revision: nat, phase: Phase)

  /** One admitted stream: both stored tracks, the durable latest candle, the supervisor's facts, the
      worker's intent and running attempt. The anchor is the bar both tracks were proven from at
      admission; episode and staleBars record the signals merged so far and the bars STALE was raised for. */
  datatype Admitted = Admitted(
    anchor: int,
    earliest: Option<int>,
    candles: set<int>,
    openInterest: set<int>,
    latest: int,
    facts: Facts,
    intent: Option<Intent>,
    attempt: Option<Attempt>,
    episode: seq<Signal>,
    staleBars: seq<int>)

  datatype StreamEvent =
    | CandleStored(openTime: int)
    | OpenInterestStored(openTime: int)
    | OutcomeObserved(openTime: int, outcome: Outcome)
    | OpenInterestObserved(openTime: int)
    | StaleChecked
    | ConnectionLost
    | Stopped
    | SubscriptionConfirmed(afterDisconnect: bool)
    | StartupSignalled
    | LiveCommitMarked
    | AttemptBegun
    | WindowChosen
    | CandlesRepaired(status: RepairStatus, recoverable: bool, work: Work)
    | OpenInterestRepaired(status: RepairStatus, recoverable: bool, work: Work)
    | AttemptConcluded(work: Work)
    | ResultRecorded(loopNow: real)

  predicate Unbroken(track: set<int>, start: int, until: int, step: int)
    requires step > 0
  {
    GridPoints(start, until, step) <= track
  }

  /** Every bar of [start, until) is stored in every required track. */
  predicate BothUnbroken(sw: Admitted, start: int, until: int, step: int)
    requires step > 0
  {
    Unbroken(sw.candles, start, until, step)
    && (sw.facts.openInterestRequired ==> Unbroken(sw.openInterest, start, until, step))
  }

  predicate Accepted(outcome: Outcome) { outcome != RejectedOutcome && outcome != FailedOutcome }

  /** When an event can happen. A store holds aligned bars, candles only of closed bars; an accepted
      outcome or an observed open interest point is of a stored bar; a startup signal is raised only for
      a subscribed stream that is not restored; a repair is complete only if its audit finds the window
      continuous in its own track at that moment. */
  predicate Enabled(sw: Admitted, e: StreamEvent, key: StreamKey, now: int)
  {
    var step := key.Step();
    match e
    case CandleStored(t) => 0 <= t && OnGrid(t, step) && t + step <= now
    case OpenInterestStored(t) => 0 <= t && OnGrid(t, step)
    case OutcomeObserved(t, outcome) => Accepted(outcome) ==> t in sw.candles
    case OpenInterestObserved(t) => t in sw.openInterest
    case StartupSignalled => sw.facts.subscriptionActive && !sw.facts.recoveryRestored
    case AttemptBegun => sw.intent.Some? && sw.attempt.None?
    case WindowChosen => sw.attempt.Some? && sw.attempt.value.phase.Planned?
    case CandlesRepaired(status, _, _) =>
      && sw.attempt.Some? && sw.attempt.value.phase.Windowed?
      && (status == RepairStatus.Complete ==>
            Unbroken(sw.candles, sw.attempt.value.phase.window.start, sw.attempt.value.phase.window.end, step))
    case OpenInterestRepaired(status, _, _) =>
      && sw.attempt.Some? && sw.attempt.value.phase.CandlesDone? && sw.facts.openInterestRequired
      && (status == RepairStatus.Complete ==>
            Unbroken(sw.openInterest, sw.attempt.value.phase.window.start, sw.attempt.value.phase.window.end, step))
    case AttemptConcluded(_) =>
      && sw.attempt.Some?
      && (sw.attempt.value.phase.BothDone? || (sw.attempt.value.phase.CandlesDone? && !sw.facts.openInterestRequired))
    case ResultRecorded(_) => sw.attempt.Some? && sw.attempt.value.phase.Finished?
    case _ => true
  }

  function Merge(sw: Admitted, s: Signal): Admitted
  {
    sw.(intent := Some(if sw.intent.Some? then Absorb(sw.intent.value, s) else FromSignal(s)),
        episode := if sw.intent.Some? then sw.episode + [s] else [s])
  }

  function Deliver(sw: Admitted, signals: seq<Signal>): Admitted
    decreases |signals|
  {
    if signals == [] then sw else Deliver(Merge(sw, signals[0]), signals[1..])
  }

  /** Admission: a subscribed stream nobody recovers yet gets a startup signal. */
  function Admit(sw: Admitted, key: StreamKey, now: int): Admitted
  {
    if sw.facts.subscriptionActive && !sw.facts.recoveryPending then Merge(sw, Signal(key, StartupReconciliation, now, None))
    else sw
  }

  function React(sw: Admitted, reaction: (Facts, seq<Signal>)): Admitted
  {
    Deliver(sw.(facts := reaction.0), reaction.1)
  }

  function At(sw: Admitted, phase: Phase): Admitted
    requires sw.attempt.Some?
  {
    sw.(attempt := Some(sw.attempt.value.(phase := phase)))
  }

  function AfterRepair(sw: Admitted, window: TimeWindow, status: RepairStatus, recoverable: bool, work: Work, done: Phase): Admitted
    requires sw.attempt.Some?
  {
    match status
    case Failed => At(sw, Finished(AttemptFailed(Some(window), recoverable, work)))
    case Incomplete => At(sw, Finished(AttemptIncomplete(Some(window), work)))
    case Complete => At(sw, done)
  }

  function StreamStep(sw: Admitted, e: StreamEvent, key: StreamKey, now: int, grace: nat, policy: RetryPolicy): Admitted
    requires Enabled(sw, e, key, now)
  {
    match e
    case CandleStored(t) => sw.(candles := sw.candles + {t}, latest := Max(sw.latest, t))
    case OpenInterestStored(t) => sw.(openInterest := sw.openInterest + {t})
    case OutcomeObserved(t, outcome) => React(sw, ObserveOutcome(sw.facts, key, t, outcome, now))
    case OpenInterestObserved(t) => React(sw, ObserveOpenInterest(sw.facts, key, t, now))
    case StaleChecked =>
      var next := React(sw, DetectStale(sw.facts, key, now, grace));
      if RaisesStale(sw.facts, key, now, grace) then next.(staleBars := sw.staleBars + [ExpectedOpen(key, now, grace)]) else next
    case ConnectionLost => sw.(facts := MarkDisconnected(sw.facts))
    case Stopped => sw.(facts := MarkStopped(sw.facts))
    case SubscriptionConfirmed(after) => React(sw, Confirm(sw.facts, key, now, after))
    case StartupSignalled => Merge(sw, Signal(key, StartupReconciliation, now, None))
    case LiveCommitMarked => if sw.intent.Some? then sw.(intent := Some(sw.intent.value.(retryNeeded := true))) else sw
    case AttemptBegun =>
      sw.(attempt := Some(Attempt(sw.intent.value.RequestSignal(), sw.intent.value.revision, Planned(sw.intent.value.window))))
    case WindowChosen =>
      var attempt := sw.attempt.value;
      var window := if attempt.phase.carried.Some? then attempt.phase.carried
                    else DeriveWindow(Some(sw.latest), sw.earliest, attempt.signal.start, now, key.Step());
      At(sw, Windowed(window.value))
    case CandlesRepaired(status, recoverable, work) =>
      var window := sw.attempt.value.phase.window;
      if !window.Aligned(key.Step()) then At(sw, Finished(AttemptFailed(None, false, NO_WORK)))
      else AfterRepair(sw, window, status, recoverable, work, CandlesDone(window))
    case OpenInterestRepaired(status, recoverable, work) =>
      var window := sw.attempt.value.phase.window;
      AfterRepair(sw, window, status, recoverable, work, BothDone(window))
    case AttemptConcluded(work) =>
      At(sw, Finished(AttemptProven(sw.attempt.value.phase.window, AlignToGrid(now, key.Step()), key.Step(), work)))
    case ResultRecorded(loopNow) => RecordResult(sw, now, loopNow, policy)
  }

  function RecordResult(sw: Admitted, now: int, loopNow: real, policy: RetryPolicy): Admitted
    requires sw.attempt.Some? && sw.attempt.value.phase.Finished?
  {
    var attempt := sw.attempt.value;
    var result := attempt.phase.result;
    if sw.intent.None? then sw.(attempt := None) else
      var (after, stays) := AfterAttempt(sw.intent.value, attempt.revision, result, policy, loopNow);
      sw.(facts := RecordRecoveryResult(sw.facts, ReportsRestored(sw.intent.value, attempt.revision, result),
                                        result.classification == FatalFailure, now, result.restoredThrough),
          intent := if stays then Some(after) else None,
          episode := if stays then sw.episode else [],
          attempt := None)
  }

  // ---- The invariant ----

  /** A frontier is a bar of the grid, and from the anchor through it the track has no hole. */
  predicate FrontierOk(track: set<int>, frontier: Option<int>, anchor: int, step: int)
    requires step > 0
  {
    frontier.Some? && OnGrid(frontier.value, step) && anchor <= frontier.value
    && Unbroken(track, anchor, frontier.value + step, step)
  }

  predicate FactsOk(sw: Admitted, step: int)
    requires step > 0
  {
    && FrontierOk(sw.candles, sw.facts.candleFrontier, sw.anchor, step)
    && (sw.facts.openInterestRequired ==> FrontierOk(sw.openInterest, sw.facts.openInterestFrontier, sw.anchor, step))
  }

  ghost predicate StoreOk(sw: Admitted, step: int, now: int)
    requires step > 0
  {
    && 0 <= sw.anchor && OnGrid(sw.anchor, step)
    && (sw.earliest.Some? ==> OnGrid(sw.earliest.value, step) && sw.earliest.value <= sw.anchor)
    && sw.latest in sw.candles
    && (forall t :: t in sw.candles ==> 0 <= t <= sw.latest && OnGrid(t, step) && t + step <= now)
    && (forall t :: t in sw.openInterest ==> 0 <= t && OnGrid(t, step))
  }

  function Lower(sw: Admitted): int
    requires sw.facts.Frontier().Some?
  {
    sw.facts.Frontier().value
  }

  /** The first bar the episode asks for, not before known history. */
  function EpisodeStart(earliest: Option<int>, hint: int): int
  {
    if earliest.Some? then Max(hint, earliest.value) else hint
  }

  /** Everything before a window's start is already there: from the anchor, and from the first bar the
      episode asks for. */
  predicate CursorOk(sw: Admitted, window: TimeWindow, hint: Option<int>, step: int)
    requires step > 0
  {
    && window.Valid()
    && BothUnbroken(sw, sw.anchor, window.start, step)
    && (hint.Some? ==> BothUnbroken(sw, EpisodeStart(sw.earliest, hint.value), window.start, step))
  }

  predicate HintOk(sw: Admitted, hint: Option<int>, step: int)
  {
    sw.facts.Frontier().Some? && (hint.Some? ==> hint.value <= Lower(sw) + step)
  }

  ghost predicate IntentOk(sw: Admitted, step: int)
    requires step > 0
  {
    sw.intent.Some? ==>
      && HintOk(sw, sw.intent.value.earliest, step)
      && (sw.intent.value.window.Some? ==> CursorOk(sw, sw.intent.value.window.value, sw.intent.value.earliest, step)
                                           && sw.intent.value.window.value.Aligned(step))
      && MeetsAll(sw.intent.value.earliest, sw.intent.value.urgent, sw.episode)
  }

  predicate ResultOk(sw: Admitted, result: RecoveryResult, hint: Option<int>, step: int)
    requires step > 0
  {
    && (result.classification == IncompleteRecovery ==>
          && (result.window.Some? ==> result.window.value.Aligned(step) && CursorOk(sw, result.window.value, hint, step))
          && (result.next.Some? ==> result.next.value.Aligned(step) && CursorOk(sw, result.next.value, hint, step)))
    && (result.classification == Restored ==>
          && result.restoredThrough.Some? && OnGrid(result.restoredThrough.value, step)
          && BothUnbroken(sw, sw.anchor, result.restoredThrough.value + step, step)
          && (hint.Some? ==> BothUnbroken(sw, EpisodeStart(sw.earliest, hint.value), result.restoredThrough.value + step, step)))
  }

  predicate PhaseOk(sw: Admitted, phase: Phase, hint: Option<int>, step: int)
    requires step > 0
  {
    match phase
    case Planned(carried) => carried.Some? ==> carried.value.Aligned(step) && CursorOk(sw, carried.value, hint, step)
    case Windowed(w) => CursorOk(sw, w, hint, step)
    case CandlesDone(w) => w.Aligned(step) && CursorOk(sw, w, hint, step) && Unbroken(sw.candles, w.start, w.end, step)
    case BothDone(w) => w.Aligned(step) && CursorOk(sw, w, hint, step) && BothUnbroken(sw, w.start, w.end, step)
    case Finished(result) => ResultOk(sw, result, hint, step)
  }

  /** An attempt belongs to the intent; an unchanged revision means an unchanged requirement, and a
      changed one has dropped the cursor. */
  predicate AttemptOk(sw: Admitted, step: int)
    requires step > 0
  {
    sw.attempt.Some? ==>
      && sw.intent.Some?
      && sw.attempt.value.revision <= sw.intent.value.revision
      && (sw.attempt.value.revision == sw.intent.value.revision ==> sw.attempt.value.signal.start == sw.intent.value.earliest)
      && (sw.attempt.value.revision != sw.intent.value.revision ==> sw.intent.value.window.None?)
      && HintOk(sw, sw.attempt.value.signal.start, step)
      && PhaseOk(sw, sw.attempt.value.phase, sw.attempt.value.signal.start, step)
  }

  /** A stream that is failed, waits for a recovery or is not restored is not announced. */
  predicate HeldBack(f: Facts)
  {
    f.fatal || f.recoveryPending || !f.recoveryRestored
  }

  predicate EpisodeOk(sw: Admitted)
  {
    sw.intent.Some? ==> HeldBack(sw.facts)
  }

  ghost predicate Increasing(bars: seq<int>)
  {
    forall i, j :: 0 <= i < j < |bars| ==> bars[i] < bars[j]
  }

  /** The last bar STALE was raised for is checked, or still pending, or the stream has failed. */
  predicate LastStaleSettled(bars: seq<int>, f: Facts)
  {
    bars != [] ==>
      var last := bars[|bars| - 1];
      || (f.lastChecked.Some? && last <= f.lastChecked.value)
      || f.fatal
      || (f.recoveryPending && f.pendingExpected.Some? && last <= f.pendingExpected.value)
  }

  ghost predicate StaleOk(sw: Admitted)
  {
    Increasing(sw.staleBars) && LastStaleSettled(sw.staleBars, sw.facts)
  }

  ghost predicate Inv(sw: Admitted, key: StreamKey, now: int)
  {
    var step := key.Step();
    StoreOk(sw, step, now) && FactsOk(sw, step) && IntentOk(sw, step) && AttemptOk(sw, step) && StaleOk(sw) && EpisodeOk(sw)
  }

  /** The one assumption on a run: a window derived without any hint finds the durable latest candle
      not beyond the lower frontier. Supervisor-made signals always carry a hint. */
  predicate UnhintedAssumption(sw: Admitted, e: StreamEvent, key: StreamKey, now: int)
    requires Enabled(sw, e, key, now)
  {
    e.WindowChosen? && sw.attempt.value.phase.carried.None? && sw.attempt.value.signal.start.None? && sw.facts.Frontier().Some? ==>
      UnhintedCovers(sw.latest, Lower(sw), now, key.Step())
  }
}
