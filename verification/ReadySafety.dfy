// The durable lifecycle joined to the continuity protocol: a stream called ready has no hole
// (src/market_data_service/runtime/realtime.py, realtime_lifecycle.py,
//  src/market_data_service/application/realtime/supervisor_types.py).

module ReadySafety {
  import opened Optional
  import opened Grid
  import opened Windows
  import opened Streams
  import opened RealtimeFacts
  import opened ContinuityProtocol
  import opened ContinuitySafety
  import opened ContinuityRuns
  import opened ContinuityEpisodes
  import L = Lifecycle
  import C = LifecycleRuns

  /** What a lifecycle synchronization projects of an admitted stream. */
  function Projected(w: World, key: StreamKey, grace: nat): Facts
    requires key in w.streams
  {
    AsOfNow(w.streams[key].facts, key, w.now, grace)
  }

  lemma CurrentIsUnbroken(sw: Admitted, key: StreamKey, now: int, grace: nat)
    requires Inv(sw, key, now) && AsOfNow(sw.facts, key, now, grace).DataReady()
    ensures BothUnbroken(sw, sw.anchor, ExpectedOpen(key, now, grace) + key.Step(), key.Step())
  {
    BothUpTo(sw, ExpectedOpen(key, now, grace) + key.Step(), key.Step());
  }

  /** In every state a run reaches: where synchronization would enter ready, both required tracks are
      stored without a hole from the anchor through the last bar closed a grace period ago, and no
      episode is open. */
  lemma ReadyIsEnteredOnProvenData(w: World, events: seq<Event>, settings: Settings, key: StreamKey, s: L.StreamState, bar: int)
    requires Safe(w) && Run(w, events, settings) && Hinted(w, events, settings) && key in After(w, events, settings).streams
    requires LastClosedBy(bar, After(w, events, settings).now - settings.grace, key.Step())
    requires L.Ready in L.SyncPath(s, Projected(After(w, events, settings), key, settings.grace), true)
    ensures var sw := After(w, events, settings).streams[key];
            && GridPoints(sw.anchor, bar + key.Step(), key.Step()) <= sw.candles
            && (sw.facts.openInterestRequired ==> GridPoints(sw.anchor, bar + key.Step(), key.Step()) <= sw.openInterest)
            && sw.intent.None?
  {
    RunsAreSafe(w, events, settings);
    var later := After(w, events, settings);
    ExpectedExactly(key, later.now, settings.grace, bar);
    CurrentIsUnbroken(later.streams[key], key, later.now, settings.grace);
  }

  // ---- Both machines together ----

  /** The protocol, the durable rows, and for each stream the bar that was expected when its row last
      became ready. */
  datatype Service = Service(world: World, rows: map<StreamKey, L.StreamState>, readyThrough: map<StreamKey, int>)

  /** An event of the protocol, a call of a recorder that does not project, or a synchronization. A
      disconnect is projected into every row before anything else happens. */
  datatype Occurrence =
    | Moved(event: Event)
    | Called(stream: StreamKey, call: C.Call)
    | Synchronized(stream: StreamKey)

  ghost predicate Possible(v: Service, o: Occurrence)
  {
    match o
    case Moved(event) => CanHappen(v.world, event) && Assumed(v.world, event)
    case Called(stream, call) => stream in v.rows && !call.Project?
    case Synchronized(stream) => stream in v.rows
  }

  function AllSynchronized(rows: map<StreamKey, L.StreamState>, w: World, grace: nat): map<StreamKey, L.StreamState>
  {
    map stream | stream in rows ::
      if stream in w.streams then L.End(rows[stream], L.SyncPath(rows[stream], Projected(w, stream, grace), true)) else rows[stream]
  }

  ghost function Then(v: Service, o: Occurrence, settings: Settings): Service
    requires Possible(v, o)
  {
    match o
    case Moved(event) =>
      var next := Next(v.world, event, settings);
      if event.Disconnect? then Service(next, AllSynchronized(v.rows, next, settings.grace), v.readyThrough) else v.(world := next)
    case Called(stream, call) => v.(rows := v.rows[stream := L.End(v.rows[stream], C.CallPath(v.rows[stream], call))])
    case Synchronized(stream) =>
      if stream !in v.world.streams then v else
        var path := L.SyncPath(v.rows[stream], Projected(v.world, stream, settings.grace), true);
        v.(rows := v.rows[stream := L.End(v.rows[stream], path)],
           readyThrough := if L.Ready in path then v.readyThrough[stream := LastClosedOpenTime(v.world.now - settings.grace, stream.Step())]
                           else v.readyThrough)
  }

  ghost predicate Runs(v: Service, occurrences: seq<Occurrence>, settings: Settings)
    decreases |occurrences|
  {
    occurrences != [] ==> Possible(v, occurrences[0]) && Runs(Then(v, occurrences[0], settings), occurrences[1..], settings)
  }

  ghost function Finally(v: Service, occurrences: seq<Occurrence>, settings: Settings): Service
    requires Runs(v, occurrences, settings)
    decreases |occurrences|
  {
    if occurrences == [] then v else Finally(Then(v, occurrences[0], settings), occurrences[1..], settings)
  }

  /** A ready row is backed by both tracks, through the bar expected when it became ready. */
  predicate Backed(v: Service, key: StreamKey)
  {
    key in v.rows && v.rows[key] == L.Ready ==>
      && key in v.world.streams && key in v.readyThrough
      && BothUnbroken(v.world.streams[key], v.world.streams[key].anchor, v.readyThrough[key] + key.Step(), key.Step())
      && Reasoned(v.world.streams[key].facts)
  }

  /** Why a row may still say ready: its stream is restored, or what comes next takes the row back. */
  predicate Reasoned(f: Facts) { f.recoveryRestored || f.recoveryPending || f.fatal }

  ghost predicate ReadyIsBacked(v: Service)
  {
    Safe(v.world) && EpisodesOk(v.world) && StatusesOk(v.world) && forall key :: Backed(v, key)
  }

  lemma GrownStaysBacked(sw: Admitted, later: Admitted, until: int, step: int)
    requires step > 0 && Grown(sw, later) && BothUnbroken(sw, sw.anchor, until, step)
    ensures BothUnbroken(later, later.anchor, until, step)
  {
  }

  lemma StepStaysReasoned(sw: Admitted, e: StreamEvent, key: StreamKey, now: int, settings: Settings)
    requires Enabled(sw, e, key, now) && !e.ConnectionLost? && Reasoned(sw.facts)
    ensures Reasoned(StreamStep(sw, e, key, now, settings.grace, settings.policy).facts)
  {
    if Reacts(e) {
      StepReacts(sw, e, key, now, settings.grace, settings.policy);
    } else if !e.ResultRecorded? {
      OtherEvents(sw, e, key, now, settings.grace, settings.policy);
    }
  }

  lemma MovedStaysReasoned(w: World, event: Event, settings: Settings, key: StreamKey)
    requires CanHappen(w, event) && !event.Disconnect? && key in w.streams && Reasoned(w.streams[key].facts)
    ensures key in Next(w, event, settings).streams && Reasoned(Next(w, event, settings).streams[key].facts)
  {
    var sw := w.streams[key];
    match event
    case On(at, e) =>
      if at == key {
        StepStaysReasoned(sw, e, key, w.now, settings);
      }
    case Shutdown => StepStaysReasoned(sw, Stopped, key, w.now, settings);
    case StaleCheck => StepStaysReasoned(sw, StaleChecked, key, w.now, settings);
    case Confirmed(topics) => StepStaysReasoned(sw, SubscriptionConfirmed(w.disconnected), key, w.now, settings);
    case _ =>
  }

  /** No stream is settled after a disconnect, so no row is ready. */
  lemma DisconnectTakesReadyBack(v: Service, settings: Settings, key: StreamKey)
    requires key in v.rows && key in v.world.streams
    ensures Then(v, Moved(Disconnect), settings).rows[key] != L.Ready
  {
    var next := Next(v.world, Disconnect, settings);
    assert next.streams[key].facts == MarkDisconnected(v.world.streams[key].facts);
    L.SyncPathSays(v.rows[key], Projected(next, key, settings.grace), true);
  }

  lemma DisconnectKeepsOne(v: Service, settings: Settings, key: StreamKey)
    requires Backed(v, key)
    ensures Backed(Then(v, Moved(Disconnect), settings), key)
  {
    if key in v.rows && key in v.world.streams {
      DisconnectTakesReadyBack(v, settings, key);
    }
  }

  lemma MovedKeepsOne(v: Service, event: Event, settings: Settings, key: StreamKey)
    requires CanHappen(v.world, event) && Assumed(v.world, event) && !event.Disconnect?
    requires Backed(v, key) && Extends(v.world, Next(v.world, event, settings))
    ensures Backed(Then(v, Moved(event), settings), key)
  {
    if key in v.rows && v.rows[key] == L.Ready {
      var sw, later := v.world.streams[key], Next(v.world, event, settings).streams[key];
      GrownStaysBacked(sw, later, v.readyThrough[key] + key.Step(), key.Step());
      MovedStaysReasoned(v.world, event, settings, key);
    }
  }

  lemma MovedKeepsBacked(v: Service, event: Event, settings: Settings)
    requires ReadyIsBacked(v) && Possible(v, Moved(event))
    ensures ReadyIsBacked(Then(v, Moved(event), settings))
  {
    NextKeeps(v.world, event, settings);
    NextEpisodes(v.world, event, settings);
    NextStatuses(v.world, event, settings);
    forall key
      ensures Backed(Then(v, Moved(event), settings), key)
    {
      assert Backed(v, key);
      if event.Disconnect? {
        DisconnectKeepsOne(v, settings, key);
      } else {
        MovedKeepsOne(v, event, settings, key);
      }
    }
  }

  lemma EntersReadyBacked(sw: Admitted, key: StreamKey, now: int, grace: nat)
    requires Inv(sw, key, now) && AsOfNow(sw.facts, key, now, grace).DataReady()
    ensures BothUnbroken(sw, sw.anchor, LastClosedOpenTime(now - grace, key.Step()) + key.Step(), key.Step()) && Reasoned(sw.facts)
  {
    CurrentIsUnbroken(sw, key, now, grace);
    ExpectedExactly(key, now, grace, LastClosedOpenTime(now - grace, key.Step()));
  }

  /** A synchronized row is ready only on data proven now, or because it was ready before. */
  lemma SynchronizedReady(s: L.StreamState, sw: Admitted, key: StreamKey, now: int, grace: nat)
    requires Inv(sw, key, now)
    ensures var path := L.SyncPath(s, AsOfNow(sw.facts, key, now, grace), true);
            && (L.Ready in path ==>
                  && BothUnbroken(sw, sw.anchor, LastClosedOpenTime(now - grace, key.Step()) + key.Step(), key.Step())
                  && Reasoned(sw.facts))
            && (L.End(s, path) == L.Ready ==> s == L.Ready || L.Ready in path)
  {
    var facts := AsOfNow(sw.facts, key, now, grace);
    C.ReadyOnlyWhenDataReady(s, C.Project(facts, true));
    if L.Ready in L.SyncPath(s, facts, true) {
      EntersReadyBacked(sw, key, now, grace);
    }
  }

  lemma SynchronizedKeepsOne(v: Service, stream: StreamKey, settings: Settings)
    requires Backed(v, stream) && stream in v.rows
    requires stream in v.world.streams ==> Inv(v.world.streams[stream], stream, v.world.now)
    ensures Backed(Then(v, Synchronized(stream), settings), stream)
  {
    if stream in v.world.streams {
      SynchronizedReady(v.rows[stream], v.world.streams[stream], stream, v.world.now, settings.grace);
    }
  }

  lemma SynchronizedKeepsBacked(v: Service, stream: StreamKey, settings: Settings)
    requires ReadyIsBacked(v) && Possible(v, Synchronized(stream))
    ensures ReadyIsBacked(Then(v, Synchronized(stream), settings))
  {
    var next := Then(v, Synchronized(stream), settings);
    assert Backed(v, stream);
    SynchronizedKeepsOne(v, stream, settings);
    forall key
      ensures Backed(next, key)
    {
      assert Backed(v, key);
    }
  }

  lemma CalledKeepsBacked(v: Service, stream: StreamKey, call: C.Call, settings: Settings)
    requires ReadyIsBacked(v) && Possible(v, Called(stream, call))
    ensures ReadyIsBacked(Then(v, Called(stream, call), settings))
  {
    var next := Then(v, Called(stream, call), settings);
    C.ReadyOnlyWhenDataReady(v.rows[stream], call);
    forall key
      ensures Backed(next, key)
    {
      assert Backed(v, key);
    }
  }

  /** Over every run of the whole service, a stream whose durable row says ready has both required
      tracks stored without a hole, from its anchor through the last bar that had closed, a grace period
      before, when it became ready. */
  lemma {:induction false} ReadyStreamsHaveNoHole(v: Service, occurrences: seq<Occurrence>, settings: Settings)
    requires ReadyIsBacked(v) && Runs(v, occurrences, settings)
    ensures ReadyIsBacked(Finally(v, occurrences, settings))
    decreases |occurrences|
  {
    if occurrences != [] {
      match occurrences[0] {
        case Moved(event) => MovedKeepsBacked(v, event, settings);
        case Called(stream, call) => CalledKeepsBacked(v, stream, call, settings);
        case Synchronized(stream) => SynchronizedKeepsBacked(v, stream, settings);
      }
      ReadyStreamsHaveNoHole(Then(v, occurrences[0], settings), occurrences[1..], settings);
    }
  }

  /** After any run of the service, right after a synchronization: a row that says ready belongs to a stream
      that is restored, has no open episode, no recovery pending and no failure, whose status does not say
      it was cut off, and whose tracks have reached the last bar closed a grace period ago. A row of a
      stream as far as that and settled is ready unless it still has to be audited; a failed stream's row
      is failed. */
  lemma SynchronizedRowsTellTheTruth(v: Service, occurrences: seq<Occurrence>, stream: StreamKey, settings: Settings, bar: int)
    requires ReadyIsBacked(v) && Runs(v, occurrences, settings)
    requires var u := Finally(v, occurrences, settings); stream in u.rows && stream in u.world.streams
    requires LastClosedBy(bar, Finally(v, occurrences, settings).world.now - settings.grace, stream.Step())
    ensures var before := Finally(v, occurrences, settings);
            var after := Then(before, Synchronized(stream), settings);
            var sw := after.world.streams[stream];
            && (after.rows[stream] == L.Ready ==>
                  && sw.intent.None? && sw.facts.recoveryRestored && !sw.facts.recoveryPending && !sw.facts.fatal
                  && !CutOff(sw.facts.status) && TracksReach(sw.facts, bar))
            && (Settled(sw.facts) && TracksReach(sw.facts, bar) && before.rows[stream] in {L.Degraded, L.Connecting, L.Ready} ==>
                  after.rows[stream] == L.Ready)
            && (sw.facts.fatal ==> after.rows[stream] == L.Failed)
  {
    ReadyStreamsHaveNoHole(v, occurrences, settings);
    var before := Finally(v, occurrences, settings);
    ExpectedExactly(stream, before.world.now, settings.grace, bar);
    L.SyncPathSays(before.rows[stream], Projected(before.world, stream, settings.grace), true);
    assert Backed(before, stream) && EpisodeOk(before.world.streams[stream]) && StatusOk(before.world.streams[stream]);
  }

  /** What a synchronization tells the lifecycle while an episode is open is never data-ready, so a
      recovery attempt only ever meets quiet projections. */
  lemma OpenEpisodesAreQuiet(w: World, events: seq<Event>, settings: Settings, key: StreamKey)
    requires EpisodesOk(w) && Run(w, events, settings) && key in After(w, events, settings).streams
    requires After(w, events, settings).streams[key].intent.Some?
    ensures C.Quiet([C.Project(Projected(After(w, events, settings), key, settings.grace), true)])
  {
    NothingAnnouncedDuringEpisode(w, events, settings, key, 0);
  }
}
