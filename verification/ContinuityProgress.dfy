// What the continuity protocol gets done: how episodes open, move on and end
// (src/market_data_service/application/realtime/supervisor.py, recovery.py,
//  src/market_data_service/runtime/realtime.py, realtime_recovery_worker.py).

module ContinuityProgress {
  import opened Optional
  import opened Grid
  import opened Windows
  import opened Streams
  import opened Repair
  import opened RealtimeFacts
  import opened RealtimeRecovery
  import opened RecoveryIntents
  import opened ContinuityProtocol
  import opened ContinuityRuns

  // ---- An undisturbed attempt ----

  /** One attempt that finds both tracks complete and meets no other event of its stream; bars may close
      while it runs. */
  function Undisturbed(key: StreamKey, flagged: bool, finishedAt: int, work: Work, loopNow: real): seq<Event>
  {
    [On(key, AttemptBegun), On(key, WindowChosen)] + Repairs(key, flagged, work) + Ending(key, finishedAt, work, loopNow)
  }

  function Repairs(key: StreamKey, flagged: bool, work: Work): seq<Event>
  {
    [On(key, CandlesRepaired(RepairStatus.Complete, false, work))]
    + if flagged then [On(key, OpenInterestRepaired(RepairStatus.Complete, false, work))] else []
  }

  function Ending(key: StreamKey, finishedAt: int, work: Work, loopNow: real): seq<Event>
  {
    [Tick(finishedAt), On(key, AttemptConcluded(work)), On(key, ResultRecorded(loopNow))]
  }

  lemma Unrolled(w: World, e: Event, rest: seq<Event>, settings: Settings)
    requires Run(w, [e] + rest, settings)
    ensures CanHappen(w, e) && Run(Next(w, e, settings), rest, settings)
    ensures After(w, [e] + rest, settings) == After(Next(w, e, settings), rest, settings)
  {
    assert ([e] + rest)[1..] == rest;
  }

  lemma Stepped(w: World, key: StreamKey, e: StreamEvent, rest: seq<Event>, settings: Settings)
    returns (next: World)
    requires Run(w, [On(key, e)] + rest, settings)
    ensures key in w.streams && Enabled(w.streams[key], e, key, w.now)
    ensures key in next.streams && next.now == w.now
    ensures next.streams[key] == StreamStep(w.streams[key], e, key, w.now, settings.grace, settings.policy)
    ensures Run(next, rest, settings) && After(w, [On(key, e)] + rest, settings) == After(next, rest, settings)
  {
    Unrolled(w, On(key, e), rest, settings);
    next := Next(w, On(key, e), settings);
  }

  /** The window an attempt of a stream works on. */
  predicate WorksOn(sw: Admitted, window: TimeWindow, key: StreamKey, now: int)
  {
    sw.intent.Some? &&
    Some(window) == if sw.intent.value.window.Some? then sw.intent.value.window
                    else DeriveWindow(Some(sw.latest), sw.earliest, sw.intent.value.earliest, now, key.Step())
  }

  /** The stream once both its tracks are found complete over the window. */
  predicate ProvenOver(sw: Admitted, later: Admitted, window: TimeWindow, step: int)
    requires step > 0
  {
    && sw.intent.Some? && window.Aligned(step)
    && later == sw.(attempt := later.attempt) && later.attempt.Some?
    && later.attempt.value.revision == sw.intent.value.revision
    && later.attempt.value.phase == (if sw.facts.openInterestRequired then BothDone(window) else CandlesDone(window))
  }

  predicate WindowedOn(sw: Admitted, later: Admitted, window: TimeWindow)
  {
    && sw.intent.Some? && later == sw.(attempt := later.attempt) && later.attempt.Some?
    && later.attempt.value.revision == sw.intent.value.revision && later.attempt.value.phase == Windowed(window)
  }

  lemma ToWindowed(w: World, key: StreamKey, window: TimeWindow, rest: seq<Event>, settings: Settings)
    returns (later: World)
    requires key in w.streams && WorksOn(w.streams[key], window, key, w.now)
    requires Run(w, [On(key, AttemptBegun)] + ([On(key, WindowChosen)] + rest), settings)
    ensures key in later.streams && later.now == w.now && WindowedOn(w.streams[key], later.streams[key], window)
    ensures Run(later, rest, settings)
    ensures After(later, rest, settings) == After(w, [On(key, AttemptBegun)] + ([On(key, WindowChosen)] + rest), settings)
  {
    later := Stepped(w, key, AttemptBegun, [On(key, WindowChosen)] + rest, settings);
    later := Stepped(later, key, WindowChosen, rest, settings);
  }

  /** Both repairs find their track complete, one after the other. */
  lemma ToRepaired(w: World, sw: Admitted, key: StreamKey, window: TimeWindow, work: Work, ending: seq<Event>, settings: Settings)
    returns (later: World)
    requires key in w.streams && WindowedOn(sw, w.streams[key], window) && |ending| > 1 && ending[0].Tick?
    requires Run(w, Repairs(key, sw.facts.openInterestRequired, work) + ending, settings)
    requires ending[1].On? && ending[1].key == key && ending[1].event.AttemptConcluded?
    ensures key in later.streams && later.now == w.now && ProvenOver(sw, later.streams[key], window, key.Step())
    ensures Run(later, ending, settings)
    ensures After(later, ending, settings) == After(w, Repairs(key, sw.facts.openInterestRequired, work) + ending, settings)
  {
    var flagged := sw.facts.openInterestRequired;
    var first, second := CandlesRepaired(RepairStatus.Complete, false, work), OpenInterestRepaired(RepairStatus.Complete, false, work);
    var tail := (if flagged then [On(key, second)] else []) + ending;
    assert Repairs(key, flagged, work) + ending == [On(key, first)] + tail;
    later := Stepped(w, key, first, tail, settings);
    if flagged {
      assert tail == [On(key, second)] + ending;
      later := Stepped(later, key, second, ending, settings);
    } else {
      assert tail == ending;
      Concludable(later, ending, settings, key);
    }
  }

  /** An attempt is concluded after a tick only where it could be before. */
  lemma Concludable(w: World, ending: seq<Event>, settings: Settings, key: StreamKey)
    requires |ending| > 1 && ending[0].Tick? && ending[1].On? && ending[1].key == key && ending[1].event.AttemptConcluded?
    requires Run(w, ending, settings)
    ensures key in w.streams && Enabled(w.streams[key], ending[1].event, key, ending[0].now)
  {
    assert ending == [ending[0]] + ending[1..] && ending[1..] == [ending[1]] + ending[2..];
    Unrolled(w, ending[0], ending[1..], settings);
    Unrolled(Next(w, ending[0], settings), ending[1], ending[2..], settings);
  }

  lemma ToProven(w: World, key: StreamKey, window: TimeWindow, finishedAt: int, work: Work, loopNow: real, settings: Settings)
    returns (later: World)
    requires key in w.streams && WorksOn(w.streams[key], window, key, w.now)
    requires Run(w, Undisturbed(key, w.streams[key].facts.openInterestRequired, finishedAt, work, loopNow), settings)
    ensures key in later.streams && later.now == w.now && ProvenOver(w.streams[key], later.streams[key], window, key.Step())
    ensures Run(later, Ending(key, finishedAt, work, loopNow), settings)
    ensures After(later, Ending(key, finishedAt, work, loopNow), settings)
            == After(w, Undisturbed(key, w.streams[key].facts.openInterestRequired, finishedAt, work, loopNow), settings)
  {
    var flagged := w.streams[key].facts.openInterestRequired;
    var rest := Repairs(key, flagged, work) + Ending(key, finishedAt, work, loopNow);
    assert Undisturbed(key, flagged, finishedAt, work, loopNow) == [On(key, AttemptBegun)] + ([On(key, WindowChosen)] + rest);
    later := ToWindowed(w, key, window, rest, settings);
    later := ToRepaired(later, w.streams[key], key, window, work, Ending(key, finishedAt, work, loopNow), settings);
  }

  lemma AfterTick(w: World, key: StreamKey, finishedAt: int, work: Work, loopNow: real, settings: Settings)
    requires Run(w, Ending(key, finishedAt, work, loopNow), settings)
    ensures key in w.streams
    ensures Enabled(w.streams[key], AttemptConcluded(work), key, finishedAt)
    ensures var concluded := StreamStep(w.streams[key], AttemptConcluded(work), key, finishedAt, settings.grace, settings.policy);
            && Enabled(concluded, ResultRecorded(loopNow), key, finishedAt)
            && key in After(w, Ending(key, finishedAt, work, loopNow), settings).streams
            && After(w, Ending(key, finishedAt, work, loopNow), settings).now == finishedAt
            && After(w, Ending(key, finishedAt, work, loopNow), settings).streams[key]
               == RecordResult(concluded, finishedAt, loopNow, settings.policy)
  {
    var conclude, record := On(key, AttemptConcluded(work)), On(key, ResultRecorded(loopNow));
    assert Ending(key, finishedAt, work, loopNow) == [Tick(finishedAt)] + ([conclude] + ([record] + []));
    Unrolled(w, Tick(finishedAt), [conclude] + ([record] + []), settings);
    var ticked := Next(w, Tick(finishedAt), settings);
    Unrolled(ticked, conclude, [record] + [], settings);
    Unrolled(Next(ticked, conclude, settings), record, [], settings);
  }

  predicate FrontiersNotNegative(f: Facts)
  {
    && (f.candleFrontier.Some? ==> f.candleFrontier.value >= 0)
    && (f.openInterestFrontier.Some? ==> f.openInterestFrontier.value >= 0)
  }

  /** An undisturbed attempt that proved its window up to the bar still open ends the episode as restored,
      with every required track through the last closed bar. When bars closed meanwhile it carries exactly
      those: the next window starts where the proven one ended and ends at the open bar, and is due at
      once. */
  lemma UndisturbedAttemptMovesOn(w: World, key: StreamKey, window: TimeWindow, finishedAt: int, work: Work, loopNow: real,
                                  settings: Settings, closed: int)
    requires key in w.streams && WorksOn(w.streams[key], window, key, w.now) && FrontiersNotNegative(w.streams[key].facts)
    requires Run(w, Undisturbed(key, w.streams[key].facts.openInterestRequired, finishedAt, work, loopNow), settings)
    requires LastClosedBy(closed, finishedAt, key.Step())
    ensures var before := w.streams[key];
            var events := Undisturbed(key, before.facts.openInterestRequired, finishedAt, work, loopNow);
            var step := key.Step();
            && key in After(w, events, settings).streams && After(w, events, settings).now == finishedAt
            && var after := After(w, events, settings).streams[key];
            && after.candles == before.candles && after.openInterest == before.openInterest && after.attempt.None?
            && after.facts.openInterestRequired == before.facts.openInterestRequired
            && (window.end >= closed + step ==>
                  && after.intent.None? && !after.facts.recoveryPending && after.facts.recoveryRestored
                  && TracksReach(after.facts, window.end - step))
            && (window.end < closed + step ==>
                  && after.intent == Some(before.intent.value.(window := Some(TimeWindow(window.end, closed + step)), marker := work.marker,
                                                               attempts := 0, dueAt := 0.0,
                                                               retryNeeded := before.intent.value.retryNeeded || work.committed > 0))
                  && after.facts.recoveryPending && !after.facts.recoveryRestored
                  && after.facts.candleFrontier == before.facts.candleFrontier
                  && after.facts.openInterestFrontier == before.facts.openInterestFrontier)
  {
    var before := w.streams[key];
    var proven := ToProven(w, key, window, finishedAt, work, loopNow, settings);
    AfterTick(proven, key, finishedAt, work, loopNow, settings);
    ProvenAttemptSays(window, finishedAt, key.Step(), work, closed);
    Concluding(before, proven.streams[key], window, key, finishedAt, work, loopNow, settings);
  }

  lemma Concluding(before: Admitted, proven: Admitted, window: TimeWindow, key: StreamKey, finishedAt: int, work: Work, loopNow: real,
                   settings: Settings)
    requires ProvenOver(before, proven, window, key.Step()) && FrontiersNotNegative(before.facts)
    requires Enabled(proven, AttemptConcluded(work), key, finishedAt)
    ensures var result := AttemptProven(window, AlignToGrid(finishedAt, key.Step()), key.Step(), work);
            var after := RecordResult(StreamStep(proven, AttemptConcluded(work), key, finishedAt, settings.grace, settings.policy),
                                      finishedAt, loopNow, settings.policy);
            && after.candles == before.candles && after.openInterest == before.openInterest && after.attempt.None?
            && after.facts.openInterestRequired == before.facts.openInterestRequired
            && (result.classification == Restored ==>
                  && after.intent.None? && !after.facts.recoveryPending && after.facts.recoveryRestored
                  && TracksReach(after.facts, result.restoredThrough.value))
            && (result.classification == IncompleteRecovery ==>
                  && after.intent == Some(before.intent.value.(window := result.next, marker := work.marker, attempts := 0, dueAt := 0.0,
                                                               retryNeeded := before.intent.value.retryNeeded || work.committed > 0))
                  && after.facts.recoveryPending && !after.facts.recoveryRestored
                  && after.facts.candleFrontier == before.facts.candleFrontier
                  && after.facts.openInterestFrontier == before.facts.openInterestFrontier)
  {
    var result := AttemptProven(window, AlignToGrid(finishedAt, key.Step()), key.Step(), work);
    AfterAttemptSays(before.intent.value, before.intent.value.revision, result, settings.policy, loopNow);
  }

  /** When an attempt was overtaken by bars that closed, the next one over what it carries, with no bar
      closing meanwhile, ends the episode as restored through the last closed bar. */
  lemma NextAttemptEndsTheEpisode(w: World, key: StreamKey, window: TimeWindow, finishedAt: int, work: Work, loopNow: real,
                                  laterAt: int, laterWork: Work, laterLoop: real, settings: Settings, closed: int)
    requires key in w.streams && WorksOn(w.streams[key], window, key, w.now) && FrontiersNotNegative(w.streams[key].facts)
    requires Run(w, Undisturbed(key, w.streams[key].facts.openInterestRequired, finishedAt, work, loopNow), settings)
    requires LastClosedBy(closed, finishedAt, key.Step()) && LastClosedBy(closed, laterAt, key.Step()) && window.end < closed + key.Step()
    requires var flagged := w.streams[key].facts.openInterestRequired;
             Run(After(w, Undisturbed(key, flagged, finishedAt, work, loopNow), settings),
                 Undisturbed(key, flagged, laterAt, laterWork, laterLoop), settings)
    ensures var flagged := w.streams[key].facts.openInterestRequired;
            var overtaken := After(w, Undisturbed(key, flagged, finishedAt, work, loopNow), settings);
            var later := After(overtaken, Undisturbed(key, flagged, laterAt, laterWork, laterLoop), settings);
            && key in later.streams
            && var sw := later.streams[key];
            && sw.intent.None? && !sw.facts.recoveryPending && sw.facts.recoveryRestored && TracksReach(sw.facts, closed)
  {
    var flagged := w.streams[key].facts.openInterestRequired;
    UndisturbedAttemptMovesOn(w, key, window, finishedAt, work, loopNow, settings, closed);
    var overtaken := After(w, Undisturbed(key, flagged, finishedAt, work, loopNow), settings);
    UndisturbedAttemptMovesOn(overtaken, key, TimeWindow(window.end, closed + key.Step()), laterAt, laterWork, laterLoop, settings, closed);
  }

  // ---- An attempt that does not prove its window ----

  /** A repair of either track that did not complete decides the attempt. Unless the requirement changed
      meanwhile: a failure that cannot be tried again ends the episode and the stream; one that can keeps
      the cursor; and an incomplete repair carries the same window. */
  lemma UnfinishedRepairSays(sw: Admitted, e: StreamEvent, key: StreamKey, now: int, recordedAt: int, loopNow: real, settings: Settings)
    requires Enabled(sw, e, key, now) && (e.CandlesRepaired? || e.OpenInterestRepaired?)
    requires e.status != RepairStatus.Complete && sw.attempt.value.phase.window.Aligned(key.Step())
    requires sw.intent.Some? && sw.intent.value.revision == sw.attempt.value.revision
    ensures var repaired := StreamStep(sw, e, key, now, settings.grace, settings.policy);
            && Enabled(repaired, ResultRecorded(loopNow), key, recordedAt)
            && var after := RecordResult(repaired, recordedAt, loopNow, settings.policy);
            && after.facts.candleFrontier == sw.facts.candleFrontier && after.facts.openInterestFrontier == sw.facts.openInterestFrontier
            && !after.facts.recoveryRestored && after.attempt.None?
            && (e.status == RepairStatus.Failed && !e.recoverable ==> after.intent.None? && after.facts.fatal && !after.facts.recoveryPending)
            && (e.status == RepairStatus.Failed && e.recoverable ==>
                  && after.intent.Some? && after.intent.value.window == sw.intent.value.window
                  && after.intent.value.attempts == sw.intent.value.attempts + 1 && after.facts == sw.facts.(
                       status := RecoveryRequiredStatus, recoveryPending := true, recoveryRestored := false, recoveryCompletedAt := None))
            && (e.status == RepairStatus.Incomplete ==>
                  && after.intent.Some? && after.intent.value.window == Some(sw.attempt.value.phase.window) && after.facts.recoveryPending
                  && after.intent.value.marker == e.work.marker)
  {
    var result := StreamStep(sw, e, key, now, settings.grace, settings.policy).attempt.value.phase.result;
    AfterAttemptSays(sw.intent.value, sw.attempt.value.revision, result, settings.policy, loopNow);
  }

  // ---- How episodes open ----

  /** An intent that asks, urgently, for no later than the bar after proof. */
  predicate AsksUrgently(sw: Admitted, step: int)
    requires step > 0
  {
    && sw.intent.Some? && sw.intent.value.urgent
    && (sw.facts.Frontier().Some? ==> sw.intent.value.earliest.Some? && sw.intent.value.earliest.value <= sw.facts.Frontier().value + step)
  }

  lemma MergedUrgently(sw: Admitted, s: Signal)
    requires s.reason != Stale
    ensures var after := Deliver(sw, [s]);
            && after == sw.(intent := after.intent, episode := after.episode)
            && after.intent.Some? && after.intent.value.urgent
            && (s.start.Some? ==> after.intent.value.earliest.Some? && after.intent.value.earliest.value <= s.start.value)
  {
    assert Deliver(sw, [s]) == Merge(sw, s);
  }

  /** The first confirmation after a disconnect makes every confirmed stream subscribed, not restored and
      waiting for a recovery, with an urgent intent that reaches back to its proof; any other stream, and
      any intent at a confirmation without a disconnect before, stays as it was. */
  lemma ConfirmationRecovers(w: World, topics: set<StreamKey>, settings: Settings, key: StreamKey)
    requires key in w.streams
    ensures var next := Next(w, Confirmed(topics), settings);
            && !next.disconnected && key in next.streams
            && var before, after := w.streams[key], next.streams[key];
            && (key !in topics ==> after == before)
            && (key in topics ==> after.facts.subscriptionActive && after.facts.Frontier() == before.facts.Frontier())
            && (key in topics && w.disconnected ==>
                  after.facts.recoveryPending && !after.facts.recoveryRestored && AsksUrgently(after, key.Step()))
            && (key in topics && !w.disconnected ==> after == before.(facts := before.facts.(status := SubscribedStatus, subscriptionActive := true)))
  {
    var before := w.streams[key];
    if key in topics && w.disconnected {
      var (facts, signals) := Confirm(before.facts, key, w.now, true);
      ReconnectSignal(before.facts, key, w.now);
      assert signals == [signals[0]];
      MergedUrgently(before.(facts := facts), signals[0]);
    }
  }

  lemma ReconnectSignal(f: Facts, key: StreamKey, now: int)
    ensures var (facts, signals) := Confirm(f, key, now, true);
            && |signals| == 1 && signals[0].reason == Disconnected && facts.Frontier() == f.Frontier()
            && (f.Frontier().Some? ==> signals[0].start.Some? && signals[0].start.value <= f.Frontier().value + key.Step())
  {
  }

  /** A disconnect unsubscribes every stream, and is remembered until the next confirmation. */
  lemma {:induction false} DisconnectIsRemembered(w: World, events: seq<Event>, settings: Settings)
    requires Run(w, events, settings) && w.disconnected && forall e :: e in events ==> !e.Confirmed?
    ensures After(w, events, settings).disconnected
    decreases |events|
  {
    if events != [] {
      assert events[0] in events;
      DisconnectIsRemembered(Next(w, events[0], settings), events[1..], settings);
    }
  }

  lemma DisconnectUnsubscribes(w: World, settings: Settings, key: StreamKey)
    requires key in w.streams
    ensures var next := Next(w, Disconnect, settings);
            && next.disconnected && key in next.streams
            && next.streams[key] == w.streams[key].(facts := w.streams[key].facts.(
                 status := DisconnectedStatus, subscriptionActive := false, recoveryRestored := false))
  {
  }

  /** A stale check opens work for exactly the streams overdue at the last bar closed a grace period ago,
      and records that bar; no other stream changes. */
  lemma StaleCheckSays(w: World, settings: Settings, key: StreamKey, bar: int)
    requires key in w.streams && LastClosedBy(bar, w.now - settings.grace, key.Step())
    ensures var next := Next(w, StaleCheck, settings);
            && key in next.streams
            && var before, after := w.streams[key], next.streams[key];
            && (!Overdue(before.facts, bar) ==> after == before)
            && (Overdue(before.facts, bar) ==>
                  && after.staleBars == before.staleBars + [bar] && after.facts.pendingExpected == Some(bar)
                  && after.facts.recoveryPending && !after.facts.recoveryRestored && after.intent.Some?
                  && after.facts.Frontier() == before.facts.Frontier())
  {
    var before := w.streams[key];
    StaleExactlyWhen(before.facts, key, w.now, settings.grace, bar);
    ExpectedExactly(key, w.now, settings.grace, bar);
    var (facts, signals) := DetectStale(before.facts, key, w.now, settings.grace);
    if signals != [] {
      assert Deliver(before.(facts := facts), signals) == Merge(before.(facts := facts), signals[0]);
    }
  }

  /** A stream is admitted with an urgent intent of its own exactly when it is subscribed and nobody is
      about to recover it. */
  lemma AdmissionSays(w: World, key: StreamKey, sw: Admitted, settings: Settings)
    requires CanHappen(w, StreamAdmitted(key, sw))
    ensures var after := Next(w, StreamAdmitted(key, sw), settings).streams[key];
            && after == sw.(intent := after.intent, episode := after.episode)
            && (after.intent.Some? <==> sw.facts.subscriptionActive && !sw.facts.recoveryPending)
            && (after.intent.Some? ==>
                  && after.intent.value.reason == StartupReconciliation && after.intent.value.urgent
                  && after.intent.value.earliest.None? && after.intent.value.window.None? && after.intent.value.dueAt == 0.0)
  {
  }

  // ---- Live bars ----

  /** Storing and then observing the bar after a proven frontier moves the frontier onto it and asks for
      nothing; observing a bar past that leaves the frontier and opens an urgent episode. */
  lemma LiveBarExtendsProof(sw: Admitted, openTime: int, outcome: Outcome, key: StreamKey, now: int, settings: Settings, frontier: int)
    requires Enabled(sw, CandleStored(openTime), key, now) && Accepted(outcome)
    requires sw.facts.candleFrontier == Some(frontier) && 0 <= frontier && OnGrid(frontier, key.Step())
    ensures var stored := StreamStep(sw, CandleStored(openTime), key, now, settings.grace, settings.policy);
            var step := key.Step();
            && stored.candles == sw.candles + {openTime} && sw.latest <= stored.latest && openTime <= stored.latest
            && Enabled(stored, OutcomeObserved(openTime, outcome), key, now)
            && var after := StreamStep(stored, OutcomeObserved(openTime, outcome), key, now, settings.grace, settings.policy);
            && after.candles == stored.candles
            && (openTime == frontier + step ==> after.intent == sw.intent && after.facts.candleFrontier == Some(openTime))
            && (openTime <= frontier ==> after.intent == sw.intent && after.facts.candleFrontier == Some(frontier))
            && (openTime > frontier + step ==>
                  && after.facts.candleFrontier == Some(frontier) && after.facts.recoveryPending
                  && after.intent.Some? && after.intent.value.urgent
                  && after.intent.value.earliest.Some? && after.intent.value.earliest.value <= frontier + step)
  {
    var stored := StreamStep(sw, CandleStored(openTime), key, now, settings.grace, settings.policy);
    LiveCandleSays(sw.facts, key, openTime, outcome, now, frontier);
    var (facts, signals) := ObserveOutcome(sw.facts, key, openTime, outcome, now);
    if signals != [] {
      assert signals == [signals[0]];
      MergedUrgently(stored.(facts := facts), signals[0]);
    }
  }
}
