// Where the continuity protocol stops holding, and the exact guard of each case
// (src/market_data_service/application/realtime/recovery_plan.py, supervisor.py, recovery.py,
//  src/market_data_service/runtime/realtime.py).

module ContinuityLimits {
  import opened Optional
  import opened Grid
  import opened Windows
  import opened Streams
  import opened Repair
  import opened RealtimeFacts
  import opened RealtimeRecovery
  import opened RecoveryIntents
  import opened ContinuityProtocol
  import opened ContinuitySafety
  import opened ContinuityRuns

  // ---- A startup signal with the candles ahead of the open interest ----

  const UNSUBSCRIBED := Facts(ExpectedStatus, false, Some(0), Some(0), true, None, None, false, false, None, false, None)

  /** What a startup signal opens: an intent that names no bar. */
  function StartupIntent(key: StreamKey, now: int): Intent
  {
    FromSignal(Signal(key, StartupReconciliation, now, None))
  }

  function StartupAttempt(key: StreamKey, now: int, phase: Phase): Attempt
  {
    Attempt(Signal(key, StartupReconciliation, now, None), 0, phase)
  }

  /** The run: a stream with its first bar in both tracks is admitted and subscribed, and gets its
      startup signal. Its second candle commits live, the open interest of that bar does not arrive.
      The attempt begins after the third bar has closed. */
  function StartupEvents(key: StreamKey): seq<Event>
  {
    var step := key.Step();
    [StreamAdmitted(key, FirstBar()), Confirmed({key}), On(key, StartupSignalled), Tick(2 * step),
     On(key, CandleStored(step)), On(key, OutcomeObserved(step, CommittedOutcome)), Tick(3 * step)]
    + AttemptEvents(key)
  }

  /** Begun there, its window starts after the latest candle, and both repairs of it complete. */
  function AttemptEvents(key: StreamKey): seq<Event>
  {
    var bar := 2 * key.Step();
    [On(key, AttemptBegun), On(key, WindowChosen), On(key, CandleStored(bar)), On(key, OpenInterestStored(bar)),
     On(key, CandlesRepaired(RepairStatus.Complete, true, NO_WORK)),
     On(key, OpenInterestRepaired(RepairStatus.Complete, true, NO_WORK)),
     On(key, AttemptConcluded(NO_WORK)), On(key, ResultRecorded(0.0))]
  }

  function FirstBar(): Admitted
  {
    Admitted(0, Some(0), {0}, {0}, 0, UNSUBSCRIBED, None, None, [], [])
  }

  /** Signalled, and with the second candle committed. */
  function CandlesAhead(key: StreamKey): Admitted
  {
    var step := key.Step();
    FirstBar().(candles := {0, step}, latest := step,
                facts := UNSUBSCRIBED.(status := LiveStatus, subscriptionActive := true, candleFrontier := Some(step)),
                intent := Some(StartupIntent(key, step)),
                episode := [Signal(key, StartupReconciliation, step, None)])
  }

  function WorldOf(key: StreamKey, now: int, sw: Admitted): World { World(now, false, map[key := sw]) }

  lemma FewBars(step: int)
    requires step > 0
    ensures OnGrid(0, step) && OnGrid(step, step) && OnGrid(2 * step, step) && OnGrid(3 * step, step)
    ensures GridPoints(0, step, step) == {0} && GridPoints(0, 2 * step, step) == {0, step}
    ensures GridPoints(2 * step, 3 * step, step) == {2 * step}
  {
    NextOnGrid(0, step);
    NextOnGrid(step, step);
    NextOnGrid(2 * step, step);
    GridPointsSplitFirst(0, step, step);
    GridPointsSplitFirst(0, 2 * step, step);
    GridPointsSplitFirst(step, 2 * step, step);
    GridPointsSplitFirst(2 * step, 3 * step, step);
  }

  /** One step of a run whose next world is known. */
  lemma RunStep(w: World, e: Event, rest: seq<Event>, settings: Settings, next: World)
    requires CanHappen(w, e) && Next(w, e, settings) == next && Run(next, rest, settings)
    ensures Run(w, [e] + rest, settings) && After(w, [e] + rest, settings) == After(next, rest, settings)
  {
    assert ([e] + rest)[0] == e && ([e] + rest)[1..] == rest;
  }

  lemma FirstBarIsSafe(key: StreamKey)
    ensures Inv(FirstBar(), key, key.Step())
  {
    FewBars(key.Step());
  }

  lemma OnStep(key: StreamKey, now: int, sw: Admitted, event: StreamEvent, after: Admitted, rest: seq<Event>, settings: Settings)
    requires PerStream(event) && Enabled(sw, event, key, now)
    requires StreamStep(sw, event, key, now, settings.grace, settings.policy) == after
    requires Run(WorldOf(key, now, after), rest, settings)
    ensures var events := [On(key, event)] + rest;
            && Run(WorldOf(key, now, sw), events, settings)
            && After(WorldOf(key, now, sw), events, settings) == After(WorldOf(key, now, after), rest, settings)
  {
    var w := WorldOf(key, now, sw);
    assert Next(w, On(key, event), settings) == WorldOf(key, now, after);
    RunStep(w, On(key, event), rest, settings, WorldOf(key, now, after));
  }

  lemma TickStep(key: StreamKey, now: int, later: int, sw: Admitted, rest: seq<Event>, settings: Settings)
    requires now <= later && Run(WorldOf(key, later, sw), rest, settings)
    ensures var events := [Tick(later)] + rest;
            && Run(WorldOf(key, now, sw), events, settings)
            && After(WorldOf(key, now, sw), events, settings) == After(WorldOf(key, later, sw), rest, settings)
  {
    RunStep(WorldOf(key, now, sw), Tick(later), rest, settings, WorldOf(key, later, sw));
  }

  // ---- The stages of the run ----

  function InAttempt(key: StreamKey, phase: Phase): Admitted
  {
    CandlesAhead(key).(attempt := Some(StartupAttempt(key, key.Step(), phase)))
  }

  function TailStored(key: StreamKey, phase: Phase): Admitted
  {
    var step := key.Step();
    InAttempt(key, phase).(candles := {0, step, 2 * step}, openInterest := {0, 2 * step}, latest := 2 * step)
  }

  function Tail(key: StreamKey): TimeWindow { TimeWindow(2 * key.Step(), 3 * key.Step()) }

  function Ended(key: StreamKey): Admitted
  {
    TailStored(key, Planned(None)).(
      intent := None, attempt := None, episode := [],
      facts := RecordRecoveryResult(CandlesAhead(key).facts, true, false, 3 * key.Step(), Some(2 * key.Step())))
  }

  /** The events from the i-th on can happen from a state, and lead to the end of the run. */
  ghost predicate LeadsToEnd(key: StreamKey, now: int, sw: Admitted, events: seq<Event>, i: nat, settings: Settings)
    requires i <= |events|
  {
    && Run(WorldOf(key, now, sw), events[i..], settings)
    && After(WorldOf(key, now, sw), events[i..], settings) == WorldOf(key, 3 * key.Step(), Ended(key))
  }

  lemma LeadsBack(key: StreamKey, now: int, sw: Admitted, event: StreamEvent, after: Admitted, events: seq<Event>, i: nat, settings: Settings)
    requires i < |events| && events[i] == On(key, event) && PerStream(event) && Enabled(sw, event, key, now)
    requires StreamStep(sw, event, key, now, settings.grace, settings.policy) == after
    requires LeadsToEnd(key, now, after, events, i + 1, settings)
    ensures LeadsToEnd(key, now, sw, events, i, settings)
  {
    OnStep(key, now, sw, event, after, events[i + 1..], settings);
    assert events[i..] == [events[i]] + events[i + 1..];
  }

  lemma ConclusionLeads(key: StreamKey, settings: Settings)
    ensures LeadsToEnd(key, 3 * key.Step(), TailStored(key, BothDone(Tail(key))), AttemptEvents(key), 6, settings)
  {
    var step, now, window, events := key.Step(), 3 * key.Step(), Tail(key), AttemptEvents(key);
    var proven := AttemptProven(window, now, step, NO_WORK);
    FewBars(step);
    AlignIsGreatest(now, now, step);
    assert events[8..] == [];
    LeadsBack(key, now, TailStored(key, Finished(proven)), ResultRecorded(0.0), Ended(key), events, 7, settings);
    LeadsBack(key, now, TailStored(key, BothDone(window)), AttemptConcluded(NO_WORK), TailStored(key, Finished(proven)), events, 6, settings);
  }

  lemma RepairsLead(key: StreamKey, settings: Settings)
    ensures LeadsToEnd(key, 3 * key.Step(), TailStored(key, Windowed(Tail(key))), AttemptEvents(key), 4, settings)
  {
    var now, window, events := 3 * key.Step(), Tail(key), AttemptEvents(key);
    FewBars(key.Step());
    ConclusionLeads(key, settings);
    LeadsBack(key, now, TailStored(key, CandlesDone(window)), OpenInterestRepaired(RepairStatus.Complete, true, NO_WORK),
              TailStored(key, BothDone(window)), events, 5, settings);
    LeadsBack(key, now, TailStored(key, Windowed(window)), CandlesRepaired(RepairStatus.Complete, true, NO_WORK),
              TailStored(key, CandlesDone(window)), events, 4, settings);
  }

  lemma StoresLead(key: StreamKey, settings: Settings)
    ensures LeadsToEnd(key, 3 * key.Step(), InAttempt(key, Windowed(Tail(key))), AttemptEvents(key), 2, settings)
  {
    var step, now, window, events := key.Step(), 3 * key.Step(), Tail(key), AttemptEvents(key);
    FewBars(step);
    RepairsLead(key, settings);
    var partly := InAttempt(key, Windowed(window)).(candles := {0, step, 2 * step}, latest := 2 * step);
    LeadsBack(key, now, partly, OpenInterestStored(2 * step), TailStored(key, Windowed(window)), events, 3, settings);
    LeadsBack(key, now, InAttempt(key, Windowed(window)), CandleStored(2 * step), partly, events, 2, settings);
  }

  /** The attempt, from the moment the third bar has closed. Its window is chosen where the assumption
      fails. */
  lemma AttemptLeads(key: StreamKey, settings: Settings)
    ensures LeadsToEnd(key, 3 * key.Step(), CandlesAhead(key), AttemptEvents(key), 0, settings)
    ensures !UnhintedCovers(CandlesAhead(key).latest, Lower(CandlesAhead(key)), 3 * key.Step(), key.Step())
  {
    var step, now, window, events := key.Step(), 3 * key.Step(), Tail(key), AttemptEvents(key);
    FewBars(step);
    AlignIsGreatest(now, now, step);
    StoresLead(key, settings);
    LeadsBack(key, now, InAttempt(key, Planned(None)), WindowChosen, InAttempt(key, Windowed(window)), events, 1, settings);
    LeadsBack(key, now, CandlesAhead(key), AttemptBegun, InAttempt(key, Planned(None)), events, 0, settings);
  }

  // ---- From admission ----

  function Subscribed(key: StreamKey): Admitted
  {
    FirstBar().(facts := UNSUBSCRIBED.(status := SubscribedStatus, subscriptionActive := true))
  }

  function Signalled(key: StreamKey): Admitted
  {
    Subscribed(key).(intent := Some(StartupIntent(key, key.Step())),
                     episode := [Signal(key, StartupReconciliation, key.Step(), None)])
  }

  lemma LiveCandleLeads(key: StreamKey, settings: Settings)
    ensures LeadsToEnd(key, 2 * key.Step(), Signalled(key), StartupEvents(key), 4, settings)
  {
    var step, events := key.Step(), StartupEvents(key);
    FewBars(step);
    AttemptLeads(key, settings);
    assert events[7..] == AttemptEvents(key) == AttemptEvents(key)[0..];
    TickStep(key, 2 * step, 3 * step, CandlesAhead(key), events[7..], settings);
    assert events[6..] == [events[6]] + events[7..];
    var stored := Signalled(key).(candles := {0, step}, latest := step);
    LeadsBack(key, 2 * step, stored, OutcomeObserved(step, CommittedOutcome), CandlesAhead(key), events, 5, settings);
    LeadsBack(key, 2 * step, Signalled(key), CandleStored(step), stored, events, 4, settings);
  }

  lemma SignalLeads(key: StreamKey, settings: Settings)
    ensures LeadsToEnd(key, key.Step(), Subscribed(key), StartupEvents(key), 2, settings)
  {
    var step, events := key.Step(), StartupEvents(key);
    LiveCandleLeads(key, settings);
    TickStep(key, step, 2 * step, Signalled(key), events[4..], settings);
    assert events[3..] == [events[3]] + events[4..];
    LeadsBack(key, step, Subscribed(key), StartupSignalled, Signalled(key), events, 2, settings);
  }

  /** Every event of this run can happen, from the admission of a stream proven in both tracks on, yet
      it ends announcing a bar past a hole: the startup signal names no bar, and when its window is
      derived the durable latest candle is beyond the lower frontier. */
  lemma StartupRunPublishesPastAHole(key: StreamKey, settings: Settings)
    requires settings.grace == 0
    ensures var start := World(key.Step(), false, map[]);
            var events := StartupEvents(key);
            && Safe(start) && Run(start, events, settings) && key in After(start, events, settings).streams
            && var later := After(start, events, settings);
               && AsOfNow(later.streams[key].facts, key, later.now, 0).PublishedThrough(2 * key.Step())
               && !BothUnbroken(later.streams[key], 0, 3 * key.Step(), key.Step())
  {
    var step, events := key.Step(), StartupEvents(key);
    var start := World(step, false, map[]);
    FewBars(step);
    SignalLeads(key, settings);
    RunStep(WorldOf(key, step, FirstBar()), events[1], events[2..], settings, WorldOf(key, step, Subscribed(key)));
    FirstBarIsSafe(key);
    assert events[1..] == [events[1]] + events[2..];
    RunStep(start, events[0], events[1..], settings, WorldOf(key, step, FirstBar()));
    assert events == [events[0]] + events[1..];
    EndAnnounces(key);
  }

  lemma EndAnnounces(key: StreamKey)
    ensures AsOfNow(Ended(key).facts, key, 3 * key.Step(), 0).PublishedThrough(2 * key.Step())
    ensures !BothUnbroken(Ended(key), 0, 3 * key.Step(), key.Step())
  {
    var step := key.Step();
    FewBars(step);
    AlignIsGreatest(3 * step, 3 * step, step);
    assert step in GridPoints(0, 3 * step, step) && step !in Ended(key).openInterest;
  }

  // ---- A rejected observation off the grid ----

  /** What a rejected observation starts, up to the window its attempt chooses. */
  function AfterRejection(sw: Admitted, openTime: int, key: StreamKey, now: int, grace: nat, policy: RetryPolicy): Admitted
    requires sw.intent.None? && sw.attempt.None? && sw.facts.Frontier().Some?
  {
    var signalled := StreamStep(sw, OutcomeObserved(openTime, RejectedOutcome), key, now, grace, policy);
    if signalled.intent.None? || signalled.attempt.Some? then signalled else
    var begun := StreamStep(signalled, AttemptBegun, key, now, grace, policy);
    StreamStep(begun, WindowChosen, key, now, grace, policy)
  }

  /** The observation asks for a bar that is not one, inside known history and before the bar the
      frontier already asks for. */
  predicate AsksOffGrid(sw: Admitted, openTime: int, step: int)
    requires step > 0 && sw.facts.Frontier().Some?
  {
    !OnGrid(openTime, step) && openTime < Lower(sw) + step && (sw.earliest.Some? ==> sw.earliest.value < openTime)
  }

  /** The attempt asks for the observed bar, or for the one after the lower frontier if that is earlier. */
  lemma RejectionAsks(sw: Admitted, openTime: int, key: StreamKey, now: int, grace: nat, policy: RetryPolicy)
    requires sw.intent.None? && sw.attempt.None? && sw.facts.Frontier().Some?
    ensures var after := StreamStep(sw, OutcomeObserved(openTime, RejectedOutcome), key, now, grace, policy);
            && after.intent.Some? && after.attempt.None? && after.intent.value.window.None? && after.intent.value.revision == 0
            && after.intent.value.earliest
               == Some(if openTime == 0 then Lower(sw) + key.Step() else Min(openTime, Lower(sw) + key.Step()))
            && after.latest == sw.latest && after.earliest == sw.earliest
            && after.candles == sw.candles && after.openInterest == sw.openInterest
  {
    var reaction := ObserveOutcome(sw.facts, key, openTime, RejectedOutcome, now);
    assert Deliver(sw.(facts := reaction.0), reaction.1) == Merge(sw.(facts := reaction.0), reaction.1[0]);
  }

  lemma RejectionWindow(sw: Admitted, openTime: int, key: StreamKey, now: int, grace: nat, policy: RetryPolicy)
    requires sw.intent.None? && sw.attempt.None? && sw.facts.Frontier().Some?
    ensures var after := AfterRejection(sw, openTime, key, now, grace, policy);
            && after.attempt.Some? && after.attempt.value.revision == 0 && after.intent.Some? && after.intent.value.revision == 0
            && after.attempt.value.phase
               == Windowed(DeriveWindow(Some(sw.latest), sw.earliest,
                                        Some(if openTime == 0 then Lower(sw) + key.Step() else Min(openTime, Lower(sw) + key.Step())),
                                        now, key.Step()).value)
            && after.candles == sw.candles && after.openInterest == sw.openInterest
  {
    RejectionAsks(sw, openTime, key, now, grace, policy);
  }

  lemma RejectionHint(sw: Admitted, openTime: int, hint: int, key: StreamKey, now: int)
    requires Inv(sw, key, now)
    requires hint == if openTime == 0 then Lower(sw) + key.Step() else Min(openTime, Lower(sw) + key.Step())
    ensures !DeriveWindow(Some(sw.latest), sw.earliest, Some(hint), now, key.Step()).value.Aligned(key.Step())
            <==> AsksOffGrid(sw, openTime, key.Step())
  {
    var step := key.Step();
    FrontierWithinLatest(sw, key, now);
    NextOnGrid(Lower(sw), step);
    HintedWindowAlignedExactlyWhen(sw.latest, sw.earliest, hint, now, step);
  }

  lemma OffGridWindowEndsStream(sw: Admitted, repair: StreamEvent, loopNow: real, key: StreamKey, now: int, grace: nat, policy: RetryPolicy)
    requires repair.CandlesRepaired? && Enabled(sw, repair, key, now) && sw.intent.Some?
    requires !sw.attempt.value.phase.window.Aligned(key.Step())
    ensures var failed := StreamStep(StreamStep(sw, repair, key, now, grace, policy), ResultRecorded(loopNow), key, now, grace, policy);
            failed.facts.fatal && failed.intent.None? && failed.candles == sw.candles && failed.openInterest == sw.openInterest
  {
    assert StreamStep(sw, repair, key, now, grace, policy) == At(sw, Finished(AttemptFailed(None, false, NO_WORK)));
  }

  /** Recovery after a rejected observation keeps to the grid exactly when the observation does not ask
      off it; otherwise the attempt fails without trying any repair, and the stream with it. */
  lemma RejectionEndsStreamExactlyWhen(sw: Admitted, openTime: int, key: StreamKey, now: int, grace: nat, policy: RetryPolicy,
                                       status: RepairStatus, recoverable: bool, work: Work, loopNow: real)
    requires Inv(sw, key, now) && sw.intent.None? && sw.attempt.None?
    ensures var after := AfterRejection(sw, openTime, key, now, grace, policy);
            && after.attempt.Some? && after.attempt.value.phase.Windowed? && after.intent.Some?
            && (!after.attempt.value.phase.window.Aligned(key.Step()) <==> AsksOffGrid(sw, openTime, key.Step()))
    ensures var after := AfterRejection(sw, openTime, key, now, grace, policy);
            var repair := CandlesRepaired(status, recoverable, work);
            Enabled(after, repair, key, now) && AsksOffGrid(sw, openTime, key.Step()) ==>
              var failed := StreamStep(StreamStep(after, repair, key, now, grace, policy), ResultRecorded(loopNow), key, now, grace, policy);
              failed.facts.fatal && failed.intent.None? && failed.candles == sw.candles && failed.openInterest == sw.openInterest
  {
    var step := key.Step();
    var hint := if openTime == 0 then Lower(sw) + step else Min(openTime, Lower(sw) + step);
    RejectionWindow(sw, openTime, key, now, grace, policy);
    RejectionHint(sw, openTime, hint, key, now);
    var after := AfterRejection(sw, openTime, key, now, grace, policy);
    var repair := CandlesRepaired(status, recoverable, work);
    if Enabled(after, repair, key, now) && AsksOffGrid(sw, openTime, step) {
      OffGridWindowEndsStream(after, repair, loopNow, key, now, grace, policy);
    }
  }
}
