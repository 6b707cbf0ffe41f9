// Episodes: what holds while a recovery intent is open, and whether a pending recovery always has one
// (src/market_data_service/runtime/realtime.py, realtime_recovery_worker.py,
//  src/market_data_service/application/realtime/supervisor.py, supervisor_types.py).

module ContinuityEpisodes {
  import opened Optional
  import opened Grid
  import opened Streams
  import opened Repair
  import opened RealtimeFacts
  import opened RealtimeRecovery
  import opened RecoveryIntents
  import opened ContinuityProtocol
  import opened ContinuityRuns

  // ---- One event ----

  /** A pending recovery is somebody's work, unless the stream has failed. */
  predicate Attended(sw: Admitted)
  {
    sw.facts.recoveryPending ==> sw.intent.Some? || sw.facts.fatal
  }

  lemma Delivered(sw: Admitted, signals: seq<Signal>)
    requires |signals| <= 1
    ensures Deliver(sw, signals).facts == sw.facts && Deliver(sw, signals).attempt == sw.attempt
    ensures Deliver(sw, signals).intent.Some? <==> sw.intent.Some? || signals != []
  {
    if signals != [] {
      assert Deliver(sw, signals) == Merge(sw, signals[0]);
    }
  }

  /** The supervisor's reaction to an event, if the event is one it reacts to. */
  function Reaction(sw: Admitted, e: StreamEvent, key: StreamKey, now: int, grace: nat): (Facts, seq<Signal>)
  {
    match e
    case OutcomeObserved(t, outcome) => ObserveOutcome(sw.facts, key, t, outcome, now)
    case OpenInterestObserved(t) => ObserveOpenInterest(sw.facts, key, t, now)
    case StaleChecked => DetectStale(sw.facts, key, now, grace)
    case SubscriptionConfirmed(after) => Confirm(sw.facts, key, now, after)
    case ConnectionLost => (MarkDisconnected(sw.facts), [])
    case Stopped => (MarkStopped(sw.facts), [])
    case _ => (sw.facts, [])
  }

  predicate Reacts(e: StreamEvent)
  {
    e.OutcomeObserved? || e.OpenInterestObserved? || e.StaleChecked? || e.SubscriptionConfirmed? || e.ConnectionLost? || e.Stopped?
  }

  lemma StepReacts(sw: Admitted, e: StreamEvent, key: StreamKey, now: int, grace: nat, policy: RetryPolicy)
    requires Enabled(sw, e, key, now) && Reacts(e)
    ensures var (facts, signals) := Reaction(sw, e, key, now, grace);
            var after := StreamStep(sw, e, key, now, grace, policy);
            && after.facts == facts && after.attempt == sw.attempt
            && (after.intent.Some? <==> sw.intent.Some? || signals != [])
  {
    var (facts, signals) := Reaction(sw, e, key, now, grace);
    Delivered(sw.(facts := facts), signals);
  }

  /** A signal always comes with a pending recovery, and a recovery becomes pending only with a signal. */
  lemma SignalsComeWithPending(sw: Admitted, e: StreamEvent, key: StreamKey, now: int, grace: nat)
    ensures var (facts, signals) := Reaction(sw, e, key, now, grace);
            && (signals != [] ==> facts.recoveryPending)
            && (facts.recoveryPending ==> sw.facts.recoveryPending || signals != [])
            && (HeldBack(sw.facts) ==> HeldBack(facts)) && (sw.facts.fatal ==> facts.fatal)
  {
  }

  lemma RecordedEpisode(sw: Admitted, loopNow: real, key: StreamKey, now: int, policy: RetryPolicy)
    requires Enabled(sw, ResultRecorded(loopNow), key, now)
    ensures var after := RecordResult(sw, now, loopNow, policy);
            && (EpisodeOk(sw) ==> EpisodeOk(after)) && (Attended(sw) ==> Attended(after))
  {
  }

  /** An open episode holds the stream back, and a pending recovery keeps somebody at work, whatever
      happens. */
  lemma EpisodeStep(sw: Admitted, e: StreamEvent, key: StreamKey, now: int, grace: nat, policy: RetryPolicy)
    requires Enabled(sw, e, key, now)
    ensures var after := StreamStep(sw, e, key, now, grace, policy);
            && (EpisodeOk(sw) ==> EpisodeOk(after)) && (Attended(sw) ==> Attended(after))
  {
    if Reacts(e) {
      StepReacts(sw, e, key, now, grace, policy);
      SignalsComeWithPending(sw, e, key, now, grace);
    } else if e.ResultRecorded? {
      RecordedEpisode(sw, e.loopNow, key, now, policy);
    } else {
      OtherEvents(sw, e, key, now, grace, policy);
    }
  }

  lemma OtherEvents(sw: Admitted, e: StreamEvent, key: StreamKey, now: int, grace: nat, policy: RetryPolicy)
    requires Enabled(sw, e, key, now) && !Reacts(e) && !e.ResultRecorded?
    ensures var after := StreamStep(sw, e, key, now, grace, policy);
            && after.facts == sw.facts
            && (after.intent.Some? <==> sw.intent.Some? || e.StartupSignalled?)
  {
  }

  // ---- Runs ----

  predicate EpisodesOk(w: World) { forall key :: key in w.streams ==> EpisodeOk(w.streams[key]) }

  predicate AllAttended(w: World) { forall key :: key in w.streams ==> Attended(w.streams[key]) }

  lemma AdmitEpisode(sw: Admitted, key: StreamKey, now: int)
    requires sw.intent.None? && !sw.facts.recoveryRestored
    ensures EpisodeOk(Admit(sw, key, now)) && StatusOk(Admit(sw, key, now))
    ensures Attended(Admit(sw, key, now)) <==> !sw.facts.recoveryPending || sw.facts.fatal
  {
  }

  lemma NextEpisodes(w: World, e: Event, settings: Settings)
    requires CanHappen(w, e)
    ensures EpisodesOk(w) ==> EpisodesOk(Next(w, e, settings))
    ensures AllAttended(w) ==> (AllAttended(Next(w, e, settings)) <==> BringsAttended(e))
  {
    var next := Next(w, e, settings);
    forall key | key in w.streams
      ensures key in next.streams
      ensures (EpisodeOk(w.streams[key]) ==> EpisodeOk(next.streams[key])) && (Attended(w.streams[key]) ==> Attended(next.streams[key]))
    {
      StreamEpisode(w, e, settings, key);
    }
    if e.StreamAdmitted? {
      AdmitEpisode(e.stream, e.key, w.now);
      assert next.streams[e.key] == Admit(e.stream, e.key, w.now);
    }
  }

  lemma StreamEpisode(w: World, e: Event, settings: Settings, key: StreamKey)
    requires CanHappen(w, e) && key in w.streams
    ensures var next := Next(w, e, settings);
            && key in next.streams
            && (EpisodeOk(w.streams[key]) ==> EpisodeOk(next.streams[key])) && (Attended(w.streams[key]) ==> Attended(next.streams[key]))
  {
    var sw := w.streams[key];
    match e
    case On(at, event) =>
      if at == key {
        EpisodeStep(sw, event, key, w.now, settings.grace, settings.policy);
      }
    case Disconnect => EpisodeStep(sw, ConnectionLost, key, w.now, settings.grace, settings.policy);
    case Shutdown => EpisodeStep(sw, Stopped, key, w.now, settings.grace, settings.policy);
    case StaleCheck => EpisodeStep(sw, StaleChecked, key, w.now, settings.grace, settings.policy);
    case Confirmed(topics) =>
      EpisodeStep(sw, SubscriptionConfirmed(w.disconnected), key, w.now, settings.grace, settings.policy);
    case _ =>
  }

  lemma {:induction false} EpisodesStayOk(w: World, events: seq<Event>, settings: Settings)
    requires EpisodesOk(w) && Run(w, events, settings)
    ensures EpisodesOk(After(w, events, settings))
    decreases |events|
  {
    if events != [] {
      NextEpisodes(w, events[0], settings);
      EpisodesStayOk(Next(w, events[0], settings), events[1..], settings);
    }
  }

  /** No bar is announced, and no stream is data-ready, while its recovery episode is open, in any run. */
  lemma NothingAnnouncedDuringEpisode(w: World, events: seq<Event>, settings: Settings, key: StreamKey, openTime: int)
    requires EpisodesOk(w) && Run(w, events, settings) && key in After(w, events, settings).streams
    requires After(w, events, settings).streams[key].intent.Some?
    ensures var later := After(w, events, settings);
            var facts := AsOfNow(later.streams[key].facts, key, later.now, settings.grace);
            !facts.DataReady() && !facts.PublishedThrough(openTime)
  {
    EpisodesStayOk(w, events, settings);
    assert EpisodeOk(After(w, events, settings).streams[key]);
  }

  // ---- The status ----

  predicate CutOff(status: Status) { status == DisconnectedStatus || status == StaleStatus || status == RecoveryRequiredStatus }

  /** A stream whose status says it was cut off is not settled. */
  predicate StatusOk(sw: Admitted) { CutOff(sw.facts.status) ==> !Settled(sw.facts) }

  lemma StatusStep(sw: Admitted, e: StreamEvent, key: StreamKey, now: int, grace: nat, policy: RetryPolicy)
    requires Enabled(sw, e, key, now) && StatusOk(sw)
    ensures StatusOk(StreamStep(sw, e, key, now, grace, policy))
  {
    if Reacts(e) {
      StepReacts(sw, e, key, now, grace, policy);
    } else if !e.ResultRecorded? {
      OtherEvents(sw, e, key, now, grace, policy);
    }
  }

  predicate StatusesOk(w: World) { forall key :: key in w.streams ==> StatusOk(w.streams[key]) }

  lemma StreamStatus(w: World, e: Event, settings: Settings, key: StreamKey)
    requires CanHappen(w, e) && key in w.streams && StatusOk(w.streams[key])
    ensures key in Next(w, e, settings).streams && StatusOk(Next(w, e, settings).streams[key])
  {
    var sw := w.streams[key];
    match e
    case On(at, event) =>
      if at == key {
        StatusStep(sw, event, key, w.now, settings.grace, settings.policy);
      }
    case Disconnect => StatusStep(sw, ConnectionLost, key, w.now, settings.grace, settings.policy);
    case Shutdown => StatusStep(sw, Stopped, key, w.now, settings.grace, settings.policy);
    case StaleCheck => StatusStep(sw, StaleChecked, key, w.now, settings.grace, settings.policy);
    case Confirmed(topics) =>
      StatusStep(sw, SubscriptionConfirmed(w.disconnected), key, w.now, settings.grace, settings.policy);
    case _ =>
  }

  lemma NextStatuses(w: World, e: Event, settings: Settings)
    requires CanHappen(w, e) && StatusesOk(w)
    ensures StatusesOk(Next(w, e, settings))
  {
    var next := Next(w, e, settings);
    forall key | key in w.streams
      ensures key in next.streams && StatusOk(next.streams[key])
    {
      StreamStatus(w, e, settings, key);
    }
    if e.StreamAdmitted? {
      AdmitEpisode(e.stream, e.key, w.now);
      assert next.streams[e.key] == Admit(e.stream, e.key, w.now);
    }
  }

  /** In every run a stream whose status says disconnected, stale or in need of recovery is not settled,
      so it is never data-ready. */
  lemma {:induction false} CutOffStreamsAreNotReady(w: World, events: seq<Event>, settings: Settings)
    requires StatusesOk(w) && Run(w, events, settings)
    ensures StatusesOk(After(w, events, settings))
    decreases |events|
  {
    if events != [] {
      NextStatuses(w, events[0], settings);
      CutOffStreamsAreNotReady(Next(w, events[0], settings), events[1..], settings);
    }
  }

  // ---- Whether a pending recovery always has an intent ----

  /** A stream is admitted with no pending recovery, or failed. */
  predicate BringsAttended(e: Event)
  {
    e.StreamAdmitted? ==> !e.stream.facts.recoveryPending || e.stream.facts.fatal
  }

  ghost predicate AlwaysAttended(w: World, events: seq<Event>, settings: Settings)
    requires Run(w, events, settings)
    decreases |events|
  {
    AllAttended(w) && (events != [] ==> AlwaysAttended(Next(w, events[0], settings), events[1..], settings))
  }

  /** In every state of a run each pending recovery has an open intent, exactly when no stream is
      admitted with a recovery already pending. */
  lemma {:induction false} AttendedExactlyWhenAdmittedRested(w: World, events: seq<Event>, settings: Settings)
    requires Run(w, events, settings) && AllAttended(w)
    ensures AlwaysAttended(w, events, settings) <==> forall e :: e in events ==> BringsAttended(e)
    decreases |events|
  {
    if events != [] {
      var next := Next(w, events[0], settings);
      NextEpisodes(w, events[0], settings);
      assert forall e :: e in events <==> e == events[0] || e in events[1..];
      if BringsAttended(events[0]) {
        AttendedExactlyWhenAdmittedRested(next, events[1..], settings);
      }
    }
  }

  /** The events that put somebody to work on an unattended stream, or end it. A stale check is not one. */
  predicate WakesUp(sw: Admitted, e: StreamEvent, step: int)
  {
    match e
    case OutcomeObserved(t, outcome) =>
      !Accepted(outcome) || (sw.facts.candleFrontier.Some? && t > sw.facts.candleFrontier.value + step)
    case OpenInterestObserved(t) => sw.facts.openInterestFrontier.Some? && t > sw.facts.openInterestFrontier.value + step
    case SubscriptionConfirmed(after) => after
    case StartupSignalled => true
    case _ => false
  }

  /** A stream admitted with a recovery pending waits, stale checks included, until one of those events
      comes: nobody recovers it before. */
  lemma UnattendedExactlyUntilWoken(sw: Admitted, e: StreamEvent, key: StreamKey, now: int, grace: nat, policy: RetryPolicy)
    requires Enabled(sw, e, key, now) && !Attended(sw) && sw.attempt.None?
    ensures Attended(StreamStep(sw, e, key, now, grace, policy)) <==> WakesUp(sw, e, key.Step())
  {
    if Reacts(e) {
      StepReacts(sw, e, key, now, grace, policy);
    } else {
      OtherEvents(sw, e, key, now, grace, policy);
    }
  }

  /** How it comes about: a stale check before admission leaves the recovery pending, its signal is
      dropped, and admission raises none. */
  lemma StaleBeforeAdmissionIsUnattended(sw: Admitted, key: StreamKey, now: int, grace: nat)
    requires sw.intent.None? && RaisesStale(sw.facts, key, now, grace)
    ensures var checked := sw.(facts := DetectStale(sw.facts, key, now, grace).0);
            !Attended(Admit(checked, key, now)) && Admit(checked, key, now).intent.None?
  {
  }

  /** Such a stream exists: one bar stored, subscribed, and two bars late. */
  lemma LateStreamIsStaleBeforeAdmission(key: StreamKey, now: int)
    requires now == 3 * key.Step()
    ensures var facts := Facts(SubscribedStatus, true, Some(0), None, false, None, None, false, false, None, false, None);
            var sw := Admitted(0, Some(0), {0}, {}, 0, facts, None, None, [], []);
            Inv(sw, key, now) && RaisesStale(facts, key, now, 0)
  {
    var step := key.Step();
    NextOnGrid(0, step);
    NextOnGrid(step, step);
    NextOnGrid(2 * step, step);
    AlignIsGreatest(now, now, step);
    assert OnGrid(0, step);
    forall t | 0 <= t < step && OnGrid(t, step)
      ensures t == 0
    {
      if t > 0 {
        GridSpacing(0, t, step);
      }
    }
  }
}
