// Whole runs of the continuity protocol over any number of streams, and what they guarantee
// (src/market_data_service/application/realtime/supervisor.py, supervisor_types.py,
//  src/market_data_service/runtime/realtime.py, realtime_recovery_worker.py, open_interest_publication.py).

module ContinuityRuns {
  import opened Optional
  import opened Grid
  import opened Windows
  import opened Streams
  import opened Repair
  import opened RealtimeFacts
  import opened RealtimeRecovery
  import opened RecoveryIntents
  import opened ContinuityProtocol
  import opened ContinuitySafety

  datatype World = World(now: int, disconnected: bool, streams: map<StreamKey, Admitted>)

  datatype Event =
    | Tick(now: int)
    | StreamAdmitted(key: StreamKey, stream: Admitted)
    | On(key: StreamKey, event: StreamEvent)
    | Disconnect
    | Shutdown
    | Confirmed(topics: set<StreamKey>)
    | StaleCheck

  datatype Settings = Settings(grace: nat, policy: RetryPolicy)

  /** Transport events and the stale check concern all streams at once. */
  predicate PerStream(e: StreamEvent)
  {
    !e.ConnectionLost? && !e.Stopped? && !e.SubscriptionConfirmed? && !e.StaleChecked?
  }

  ghost predicate CanHappen(w: World, e: Event)
  {
    match e
    case Tick(now) => w.now <= now
    case StreamAdmitted(key, sw) =>
      && key !in w.streams && Inv(sw, key, w.now) && sw.intent.None? && sw.attempt.None? && sw.staleBars == []
      && !sw.facts.recoveryRestored
    case On(key, event) => key in w.streams && PerStream(event) && Enabled(w.streams[key], event, key, w.now)
    case _ => true
  }

  /** The assumption of a step: an unhinted window is derived only where it reaches back to the hole. */
  ghost predicate Assumed(w: World, e: Event)
    requires CanHappen(w, e)
  {
    e.On? ==> UnhintedAssumption(w.streams[e.key], e.event, e.key, w.now)
  }

  function All(w: World, e: StreamEvent, settings: Settings): map<StreamKey, Admitted>
    requires e.ConnectionLost? || e.Stopped? || e.StaleChecked?
  {
    map key | key in w.streams :: StreamStep(w.streams[key], e, key, w.now, settings.grace, settings.policy)
  }

  ghost function Next(w: World, e: Event, settings: Settings): World
    requires CanHappen(w, e)
  {
    match e
    case Tick(now) => w.(now := now)
    case StreamAdmitted(key, sw) => w.(streams := w.streams[key := Admit(sw, key, w.now)])
    case On(key, event) =>
      w.(streams := w.streams[key := StreamStep(w.streams[key], event, key, w.now, settings.grace, settings.policy)])
    case Disconnect => w.(disconnected := true, streams := All(w, ConnectionLost, settings))
    case Shutdown => w.(streams := All(w, Stopped, settings))
    case StaleCheck => w.(streams := All(w, StaleChecked, settings))
    case Confirmed(topics) =>
      w.(disconnected := false,
         streams := map key | key in w.streams ::
           if key in topics then
             StreamStep(w.streams[key], SubscriptionConfirmed(w.disconnected), key, w.now, settings.grace, settings.policy)
           else w.streams[key])
  }

  ghost predicate Run(w: World, events: seq<Event>, settings: Settings)
    decreases |events|
  {
    events != [] ==> CanHappen(w, events[0]) && Run(Next(w, events[0], settings), events[1..], settings)
  }

  /** Every step of the run meets the assumption. */
  ghost predicate Hinted(w: World, events: seq<Event>, settings: Settings)
    requires Run(w, events, settings)
    decreases |events|
  {
    events != [] ==> Assumed(w, events[0]) && Hinted(Next(w, events[0], settings), events[1..], settings)
  }

  ghost function After(w: World, events: seq<Event>, settings: Settings): World
    requires Run(w, events, settings)
    decreases |events|
  {
    if events == [] then w else After(Next(w, events[0], settings), events[1..], settings)
  }

  ghost predicate Safe(w: World)
  {
    forall key :: key in w.streams ==> Inv(w.streams[key], key, w.now)
  }

  /** No stream disappears, loses a stored bar or moves a frontier back. */
  ghost predicate Extends(w: World, later: World)
  {
    w.now <= later.now && forall key :: key in w.streams ==> key in later.streams && Grown(w.streams[key], later.streams[key])
  }

  lemma LaterClock(sw: Admitted, key: StreamKey, now: int, later: int)
    requires Inv(sw, key, now) && now <= later
    ensures Inv(sw, key, later)
  {
  }

  lemma TickKeeps(w: World, now: int, settings: Settings)
    requires Safe(w) && w.now <= now
    ensures var next := Next(w, Tick(now), settings); Safe(next) && Extends(w, next)
  {
    forall key | key in w.streams
      ensures Inv(w.streams[key], key, now)
    {
      LaterClock(w.streams[key], key, w.now, now);
    }
  }

  lemma OnKeeps(w: World, key: StreamKey, event: StreamEvent, settings: Settings)
    requires Safe(w) && CanHappen(w, On(key, event)) && Assumed(w, On(key, event))
    ensures var next := Next(w, On(key, event), settings); Safe(next) && Extends(w, next)
  {
    var after := StreamStep(w.streams[key], event, key, w.now, settings.grace, settings.policy);
    StepKeeps(w.streams[key], event, key, w.now, settings.grace, settings.policy);
    OneReplaced(w, key, after);
  }

  lemma NothingMoves(sw: Admitted, key: StreamKey, now: int)
    requires Inv(sw, key, now)
    ensures Grown(sw, sw)
  {
  }

  lemma OneReplaced(w: World, key: StreamKey, after: Admitted)
    requires Safe(w) && Inv(after, key, w.now) && (key in w.streams ==> Grown(w.streams[key], after))
    ensures var next := w.(streams := w.streams[key := after]); Safe(next) && Extends(w, next)
  {
    forall k | k in w.streams && k != key
      ensures Grown(w.streams[k], w.streams[k])
    {
      NothingMoves(w.streams[k], k, w.now);
    }
  }

  /** An event of all streams, or of some, that keeps each of them. */
  lemma EachKept(w: World, next: World)
    requires next.now == w.now && next.streams.Keys == w.streams.Keys
    requires forall key :: key in w.streams ==> Inv(next.streams[key], key, w.now) && Grown(w.streams[key], next.streams[key])
    ensures Safe(next) && Extends(w, next)
  {
  }

  lemma AllKeep(w: World, e: StreamEvent, settings: Settings, next: World)
    requires Safe(w) && (e.ConnectionLost? || e.Stopped? || e.StaleChecked?)
    requires next.now == w.now && next.streams == All(w, e, settings)
    ensures Safe(next) && Extends(w, next)
  {
    forall key | key in w.streams
      ensures Inv(next.streams[key], key, w.now) && Grown(w.streams[key], next.streams[key])
    {
      StepKeeps(w.streams[key], e, key, w.now, settings.grace, settings.policy);
    }
    EachKept(w, next);
  }

  lemma ConfirmedKeeps(w: World, topics: set<StreamKey>, settings: Settings)
    requires Safe(w)
    ensures var next := Next(w, Confirmed(topics), settings); Safe(next) && Extends(w, next)
  {
    var next := Next(w, Confirmed(topics), settings);
    forall key | key in w.streams
      ensures Inv(next.streams[key], key, w.now) && Grown(w.streams[key], next.streams[key])
    {
      if key in topics {
        StepKeeps(w.streams[key], SubscriptionConfirmed(w.disconnected), key, w.now, settings.grace, settings.policy);
      }
    }
    EachKept(w, next);
  }

  lemma AdmitKeeps(w: World, key: StreamKey, sw: Admitted, settings: Settings)
    requires Safe(w) && CanHappen(w, StreamAdmitted(key, sw))
    ensures var next := Next(w, StreamAdmitted(key, sw), settings); Safe(next) && Extends(w, next)
  {
    if sw.facts.subscriptionActive && !sw.facts.recoveryPending {
      StartupKeeps(sw, key, w.now);
    }
    OneReplaced(w, key, Admit(sw, key, w.now));
  }

  lemma NextKeeps(w: World, e: Event, settings: Settings)
    requires Safe(w) && CanHappen(w, e) && Assumed(w, e)
    ensures Safe(Next(w, e, settings)) && Extends(w, Next(w, e, settings))
  {
    match e
    case Tick(now) => TickKeeps(w, now, settings);
    case StreamAdmitted(key, sw) => AdmitKeeps(w, key, sw, settings);
    case On(key, event) => OnKeeps(w, key, event, settings);
    case Disconnect => AllKeep(w, ConnectionLost, settings, Next(w, e, settings));
    case Shutdown => AllKeep(w, Stopped, settings, Next(w, e, settings));
    case StaleCheck => AllKeep(w, StaleChecked, settings, Next(w, e, settings));
    case Confirmed(topics) => ConfirmedKeeps(w, topics, settings);
  }

  lemma ExtendsFurther(w: World, next: World, later: World)
    requires Extends(w, next) && Extends(next, later)
    ensures Extends(w, later)
  {
    forall key | key in w.streams
      ensures key in later.streams && Grown(w.streams[key], later.streams[key])
    {
      assert key in next.streams;
    }
  }

  lemma ExtendsItself(w: World)
    requires Safe(w)
    ensures Extends(w, w)
  {
    forall key | key in w.streams
      ensures Grown(w.streams[key], w.streams[key])
    {
      NothingMoves(w.streams[key], key, w.now);
    }
  }

  /** Over every run the invariant holds and nothing proven is taken back. */
  lemma {:induction false} RunsAreSafe(w: World, events: seq<Event>, settings: Settings)
    requires Safe(w) && Run(w, events, settings) && Hinted(w, events, settings)
    ensures Safe(After(w, events, settings)) && Extends(w, After(w, events, settings))
    decreases |events|
  {
    if events == [] {
      ExtendsItself(w);
    } else {
      var next := Next(w, events[0], settings);
      NextKeeps(w, events[0], settings);
      RunsAreSafe(next, events[1..], settings);
      ExtendsFurther(w, next, After(next, events[1..], settings));
    }
  }

  // ---- What a run guarantees ----

  /** Frontier soundness and monotonicity: in every state a run reaches, each required track holds
      every bar from the anchor through its frontier, and neither track's frontier is lower than at the
      start. */
  lemma FrontiersAreProven(w: World, events: seq<Event>, settings: Settings, key: StreamKey)
    requires Safe(w) && Run(w, events, settings) && Hinted(w, events, settings) && key in After(w, events, settings).streams
    ensures var sw := After(w, events, settings).streams[key];
            && sw.facts.candleFrontier.Some? && OnGrid(sw.facts.candleFrontier.value, key.Step())
            && GridPoints(sw.anchor, sw.facts.candleFrontier.value + key.Step(), key.Step()) <= sw.candles
            && (sw.facts.openInterestRequired ==>
                  && sw.facts.openInterestFrontier.Some? && OnGrid(sw.facts.openInterestFrontier.value, key.Step())
                  && GridPoints(sw.anchor, sw.facts.openInterestFrontier.value + key.Step(), key.Step()) <= sw.openInterest)
            && (key in w.streams ==>
                  && NotLower(w.streams[key].facts.candleFrontier, sw.facts.candleFrontier)
                  && (sw.facts.openInterestRequired ==>
                        NotLower(w.streams[key].facts.openInterestFrontier, sw.facts.openInterestFrontier)))
  {
    RunsAreSafe(w, events, settings);
  }

  /** Carried cursor: whenever an intent holds a window, every bar from the first one any signal of the
      episode asked for up to that window is stored in every required track, and what the episode asks
      for starts no later than the bar after the lower frontier. */
  lemma CarriedCursorIsProven(w: World, events: seq<Event>, settings: Settings, key: StreamKey, i: nat)
    requires Safe(w) && Run(w, events, settings) && Hinted(w, events, settings) && key in After(w, events, settings).streams
    requires var sw := After(w, events, settings).streams[key];
             sw.intent.Some? && sw.intent.value.window.Some? && i < |sw.episode| && sw.episode[i].start.Some?
    ensures var sw := After(w, events, settings).streams[key];
            var window := sw.intent.value.window.value;
            && BothUnbroken(sw, sw.anchor, window.start, key.Step())
            && BothUnbroken(sw, EpisodeStart(sw.earliest, sw.episode[i].start.value), window.start, key.Step())
            && HintOk(sw, sw.intent.value.earliest, key.Step())
            && sw.intent.value.earliest.Some? && sw.intent.value.earliest.value <= sw.episode[i].start.value
  {
    RunsAreSafe(w, events, settings);
  }

  /** An episode that ends as restored leaves no hole from the earliest hint of all its signals through
      the restored bar, in either required track. */
  lemma RestoredEpisodeIsProven(sw: Admitted, loopNow: real, key: StreamKey, now: int, i: nat)
    requires Inv(sw, key, now) && Enabled(sw, ResultRecorded(loopNow), key, now)
    requires ReportsRestored(sw.intent.value, sw.attempt.value.revision, sw.attempt.value.phase.result)
    requires i < |sw.episode| && sw.episode[i].start.Some?
    ensures var through := sw.attempt.value.phase.result.restoredThrough.value;
            BothUnbroken(sw, EpisodeStart(sw.earliest, sw.episode[i].start.value), through + key.Step(), key.Step())
  {
  }

  /** An attempt during which a signal changed the requirement moves no frontier and leaves the intent
      in place, without a cursor, unless it failed fatally. */
  lemma ChangedRequirementIsKept(sw: Admitted, loopNow: real, key: StreamKey, now: int, policy: RetryPolicy)
    requires Inv(sw, key, now) && Enabled(sw, ResultRecorded(loopNow), key, now)
    requires sw.intent.value.revision != sw.attempt.value.revision
    requires sw.attempt.value.phase.result.classification != FatalFailure
    ensures var after := RecordResult(sw, now, loopNow, policy);
            && after.facts.candleFrontier == sw.facts.candleFrontier
            && after.facts.openInterestFrontier == sw.facts.openInterestFrontier
            && after.facts.recoveryPending && after.intent.Some?
            && after.intent.value.earliest == sw.intent.value.earliest && after.intent.value.window.None?
  {
  }

  /** Publication safety: a bar is announced only when both tracks are stored without a hole from the
      anchor through that bar and through the last bar closed a grace period ago, on an active
      subscription, with no recovery pending and no failure. */
  lemma PublishedBarIsProven(w: World, events: seq<Event>, settings: Settings, key: StreamKey, openTime: int, bar: int)
    requires Safe(w) && Run(w, events, settings) && Hinted(w, events, settings) && key in After(w, events, settings).streams
    requires LastClosedBy(bar, After(w, events, settings).now - settings.grace, key.Step())
    requires var later := After(w, events, settings);
             AsOfNow(later.streams[key].facts, key, later.now, settings.grace).PublishedThrough(openTime)
    ensures var sw := After(w, events, settings).streams[key];
            var until := Max(openTime, bar) + key.Step();
            && GridPoints(sw.anchor, until, key.Step()) <= sw.candles
            && (sw.facts.openInterestRequired ==> GridPoints(sw.anchor, until, key.Step()) <= sw.openInterest)
            && sw.facts.subscriptionActive && sw.facts.recoveryRestored && !sw.facts.recoveryPending && !sw.facts.fatal
  {
    RunsAreSafe(w, events, settings);
    var later := After(w, events, settings);
    var sw := later.streams[key];
    AnnouncedExactlyWhen(sw.facts, key, later.now, settings.grace, bar, openTime);
    BothUpTo(sw, Max(openTime, bar) + key.Step(), key.Step());
  }

  /** Stale signals never repeat: the bars one stream raised STALE for are strictly increasing. */
  lemma StaleBarsIncrease(w: World, events: seq<Event>, settings: Settings, key: StreamKey)
    requires Safe(w) && Run(w, events, settings) && Hinted(w, events, settings) && key in After(w, events, settings).streams
    ensures Increasing(After(w, events, settings).streams[key].staleBars)
  {
    RunsAreSafe(w, events, settings);
  }

  // ---- Failure is final ----

  lemma DeliverKeepsFacts(sw: Admitted, signals: seq<Signal>)
    ensures Deliver(sw, signals).facts == sw.facts
    decreases |signals|
  {
    if signals != [] {
      DeliverKeepsFacts(Merge(sw, signals[0]), signals[1..]);
    }
  }

  lemma FatalStays(sw: Admitted, e: StreamEvent, key: StreamKey, now: int, grace: nat, policy: RetryPolicy)
    requires Enabled(sw, e, key, now) && sw.facts.fatal
    ensures StreamStep(sw, e, key, now, grace, policy).facts.fatal
  {
    match e
    case OutcomeObserved(t, outcome) =>
      var reaction := ObserveOutcome(sw.facts, key, t, outcome, now);
      DeliverKeepsFacts(sw.(facts := reaction.0), reaction.1);
    case OpenInterestObserved(t) =>
      var reaction := ObserveOpenInterest(sw.facts, key, t, now);
      DeliverKeepsFacts(sw.(facts := reaction.0), reaction.1);
    case StaleChecked =>
      var reaction := DetectStale(sw.facts, key, now, grace);
      DeliverKeepsFacts(sw.(facts := reaction.0), reaction.1);
    case SubscriptionConfirmed(after) =>
      var reaction := Confirm(sw.facts, key, now, after);
      DeliverKeepsFacts(sw.(facts := reaction.0), reaction.1);
    case _ =>
  }

  /** A stream that failed is never published again, in any run. */
  lemma {:induction false} FailedStreamStaysSilent(w: World, events: seq<Event>, settings: Settings, key: StreamKey, openTime: int)
    requires Run(w, events, settings) && key in w.streams && w.streams[key].facts.fatal
    ensures var later := After(w, events, settings);
            && key in later.streams && later.streams[key].facts.fatal
            && !AsOfNow(later.streams[key].facts, key, later.now, settings.grace).PublishedThrough(openTime)
    decreases |events|
  {
    if events != [] {
      var e := events[0];
      match e {
        case On(at, event) =>
          if at == key {
            FatalStays(w.streams[key], event, key, w.now, settings.grace, settings.policy);
          }
        case Disconnect => FatalStays(w.streams[key], ConnectionLost, key, w.now, settings.grace, settings.policy);
        case Shutdown => FatalStays(w.streams[key], Stopped, key, w.now, settings.grace, settings.policy);
        case StaleCheck => FatalStays(w.streams[key], StaleChecked, key, w.now, settings.grace, settings.policy);
        case Confirmed(topics) =>
          FatalStays(w.streams[key], SubscriptionConfirmed(w.disconnected), key, w.now, settings.grace, settings.policy);
        case _ =>
      }
      FailedStreamStaysSilent(Next(w, e, settings), events[1..], settings, key, openTime);
    }
  }

  // ---- Admission ----

  /** A stream enters a run in a safe state when reconciliation proved both tracks up to the frontiers
      it hands over; the anchor is then the later of the two lower bounds. */
  lemma ReconciledStreamIsSafe(key: StreamKey, now: int, lower: int, openInterestLower: int, candles: set<int>, openInterest: set<int>,
                               latest: int, openInterestLatest: int, flagged: bool)
    requires 0 <= lower && OnGrid(lower, key.Step()) && 0 <= openInterestLower && OnGrid(openInterestLower, key.Step())
    requires latest in candles && lower <= latest
    requires forall t :: t in candles ==> 0 <= t <= latest && OnGrid(t, key.Step()) && t + key.Step() <= now
    requires forall t :: t in openInterest ==> 0 <= t && OnGrid(t, key.Step())
    requires GridPoints(lower, latest + key.Step(), key.Step()) <= candles
    requires flagged ==>
               && Max(lower, openInterestLower) <= latest && Max(lower, openInterestLower) <= openInterestLatest
               && OnGrid(openInterestLatest, key.Step())
               && GridPoints(openInterestLower, openInterestLatest + key.Step(), key.Step()) <= openInterest
    ensures var anchor := if flagged then Max(lower, openInterestLower) else lower;
            var facts := Facts(ExpectedStatus, false, Some(latest), if flagged then Some(openInterestLatest) else None, flagged,
                               None, None, false, false, None, false, None);
            Inv(Admitted(anchor, Some(lower), candles, openInterest, latest, facts, None, None, [], []), key, now)
  {
  }
}
