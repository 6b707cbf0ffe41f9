// Fetching a bar's open interest shortly after it opens, with bounded attempts
// (src/market_data_service/runtime/open_interest_prefetch.py).

module Prefetch {
  import opened Optional
  import opened Grid
  import opened Streams

  /** A bar state is that of one stream and one bar; it is replaced when the next bar opens, while an
      attempt still running keeps the one it was started for. */
  datatype Bar = Bar(stream: StreamKey, open: int)

  datatype BarState = BarState(nextAt: int, stored: bool, inFlight: bool, attempts: nat)

  /** Delay and retry in whole milliseconds: a retry below one is truncated to zero. */
  datatype Config = Config(delay: nat, retry: nat, slots: nat)

  /** The whole scheduler: the bar each stream is at, all bar states, the attempts waiting for a slot
      and those running, and when attempts were started for each bar. */
  datatype Schedule = Schedule(
    clock: int,
    current: map<StreamKey, int>,
    bars: map<Bar, BarState>,
    waiting: multiset<Bar>,
    running: multiset<Bar>,
    launched: map<Bar, seq<int>>)

  datatype Answer = PointStored | NotPublishedYet | AppendRaised

  // ---- One step of each kind ----

  /** The state of the bar open now, new if the stream was at another bar. */
  function StateFor(current: map<StreamKey, int>, bars: map<Bar, BarState>, bar: Bar, c: Config): BarState
  {
    if bar.stream in current && current[bar.stream] == bar.open && bar in bars then bars[bar]
    else BarState(bar.open + c.delay, false, false, 0)
  }

  predicate Due(s: BarState, now: int, eligible: bool)
  {
    !s.stored && !s.inFlight && now >= s.nextAt && eligible
  }

  /** One stream's part of a tick. */
  function Considered(p: Schedule, stream: StreamKey, now: int, eligible: bool, c: Config): Schedule
  {
    var bar := Bar(stream, AlignToGrid(now, stream.Step()));
    var s := StateFor(p.current, p.bars, bar, c);
    var times := if bar in p.launched then p.launched[bar] else [];
    var here := p.(clock := now, current := p.current[stream := bar.open]);
    if Due(s, now, eligible) then
      here.(bars := p.bars[bar := s.(inFlight := true, nextAt := now + c.retry)],
            waiting := p.waiting + multiset{bar}, launched := p.launched[bar := times + [now]])
    else
      here.(bars := p.bars[bar := s], launched := p.launched[bar := times])
  }

  function Ticked(p: Schedule, streams: seq<StreamKey>, now: int, eligible: set<StreamKey>, c: Config): Schedule
    decreases |streams|
  {
    if streams == [] then p
    else Ticked(Considered(p, streams[0], now, streams[0] in eligible, c), streams[1..], now, eligible, c)
  }

  /** A bar belongs to publication once it has closed. */
  predicate Starts(p: Schedule, bar: Bar, now: int, eligible: bool)
    requires bar in p.bars
  {
    !p.bars[bar].stored && now < bar.open + bar.stream.Step() && eligible
  }

  /** A waiting attempt gets a slot and re-checks its bar before the request. */
  function SlotTaken(p: Schedule, bar: Bar, now: int, eligible: bool): Schedule
    requires bar in p.bars && bar in p.waiting
  {
    var s := p.bars[bar];
    if Starts(p, bar, now, eligible) then
      p.(clock := now, waiting := p.waiting - multiset{bar}, running := p.running + multiset{bar},
         bars := p.bars[bar := s.(attempts := s.attempts + 1)])
    else
      p.(clock := now, waiting := p.waiting - multiset{bar}, bars := p.bars[bar := s.(inFlight := false)])
  }

  /** A slot given counts one attempt and runs it, or gives the bar up for now; it starts nothing new. */
  lemma SlotTakenSays(p: Schedule, bar: Bar, now: int, eligible: bool)
    requires bar in p.bars && bar in p.waiting
    ensures var next := SlotTaken(p, bar, now, eligible);
            var begun := eligible && !p.bars[bar].stored && now < bar.open + bar.stream.Step();
            && next.waiting == p.waiting - multiset{bar} && next.launched == p.launched
            && next.running == (if begun then p.running + multiset{bar} else p.running)
            && next.bars == p.bars[bar := if begun then p.bars[bar].(attempts := p.bars[bar].attempts + 1) else p.bars[bar].(inFlight := false)]
  {
  }

  function AppendDone(p: Schedule, bar: Bar, answer: Answer): Schedule
    requires bar in p.bars && bar in p.running
  {
    var s := p.bars[bar];
    p.(running := p.running - multiset{bar}, bars := p.bars[bar := s.(stored := s.stored || answer == PointStored, inFlight := false)])
  }

  // ---- The scheduler ----

  class OpenInterestPrefetch {
    const streams: seq<StreamKey>
    const config: Config
    var clock: int
    var current: map<StreamKey, int>
    var bars: map<Bar, BarState>
    var waiting: multiset<Bar>
    var running: multiset<Bar>
    ghost var launched: map<Bar, seq<int>>

    ghost function State(): Schedule
      reads this
    {
      Schedule(clock, current, bars, waiting, running, launched)
    }

    constructor (streams: seq<StreamKey>, config: Config, clock: int)
      ensures State() == Empty(clock) && this.streams == streams && this.config == config
    {
      this.streams, this.config, this.clock := streams, config, clock;
      current, bars, waiting, running, launched := map[], map[], multiset{}, multiset{}, map[];
    }

    /** Start the attempts that are due now, one per stream at a time. */
    method Tick(now: int, eligible: set<StreamKey>)
      modifies this
      ensures State() == Ticked(old(State()), streams, now, eligible, config)
    {
      var i := 0;
      while i < |streams|
        invariant i <= |streams|
        invariant Ticked(State(), streams[i..], now, eligible, config) == Ticked(old(State()), streams, now, eligible, config)
      {
        ghost var before := State();
        assert streams[i..][0] == streams[i] && streams[i..][1..] == streams[i + 1..];
        Consider(streams[i], now, streams[i] in eligible);
        i := i + 1;
      }
    }

    method Consider(stream: StreamKey, now: int, eligible: bool)
      modifies this
      ensures State() == Considered(old(State()), stream, now, eligible, config)
    {
      var bar := Bar(stream, AlignToGrid(now, stream.Step()));
      var state := StateFor(current, bars, bar, config);
      ghost var times := if bar in launched then launched[bar] else [];
      clock, current := now, current[stream := bar.open];
      if Due(state, now, eligible) {
        bars := bars[bar := state.(inFlight := true, nextAt := now + config.retry)];
        waiting := waiting + multiset{bar};
        launched := launched[bar := times + [now]];
      } else {
        bars := bars[bar := state];
        launched := launched[bar := times];
      }
    }

    /** Take a slot for a waiting attempt; it runs only if its bar is still open and still wanted. */
    method BeginAttempt(bar: Bar, now: int, eligible: bool) returns (begun: bool)
      requires bar in bars && bar in waiting
      modifies this
      ensures State() == SlotTaken(old(State()), bar, now, eligible)
      ensures begun <==> eligible && !old(bars[bar].stored) && now < bar.open + bar.stream.Step()
    {
      var state := bars[bar];
      ghost var starts := Starts(State(), bar, now, eligible);
      assert starts <==> !(state.stored || now >= bar.open + bar.stream.Step() || !eligible);
      clock := now;
      waiting := waiting - multiset{bar};
      if state.stored || now >= bar.open + bar.stream.Step() || !eligible {
        bars := bars[bar := state.(inFlight := false)];
        return false;
      }
      running := running + multiset{bar};
      bars := bars[bar := state.(attempts := state.attempts + 1)];
      return true;
    }

    method FinishAttempt(bar: Bar, answer: Answer)
      requires bar in bars && bar in running
      modifies this
      ensures State() == AppendDone(old(State()), bar, answer)
      ensures bar in bars && !bars[bar].inFlight && (bars[bar].stored <==> old(bars[bar].stored) || answer == PointStored)
      ensures bars[bar].nextAt == old(bars[bar].nextAt) && running == old(running) - multiset{bar} && launched == old(launched)
    {
      running := running - multiset{bar};
      bars := bars[bar := bars[bar].(stored := bars[bar].stored || answer == PointStored, inFlight := false)];
    }
  }

  function Empty(clock: int): Schedule
  {
    Schedule(clock, map[], map[], multiset{}, multiset{}, map[])
  }

  // ---- What every step keeps ----

  /** Attempts for a bar start inside it, not before its delay, and at least a retry apart. */
  ghost predicate Spaced(times: seq<int>, nextAt: int, bar: Bar, c: Config)
  {
    && (forall i :: 0 <= i < |times| ==> bar.open + c.delay <= times[i] < bar.open + bar.stream.Step())
    && (forall i :: 0 < i < |times| ==> times[i - 1] + c.retry <= times[i])
    && nextAt == if times == [] then bar.open + c.delay else times[|times| - 1] + c.retry
  }

  predicate OneAttempt(p: Schedule, bar: Bar)
  {
    p.waiting[bar] + p.running[bar] == if bar in p.bars && p.bars[bar].inFlight then 1 else 0
  }

  ghost predicate BarOk(p: Schedule, bar: Bar, c: Config)
  {
    bar in p.bars ==>
      && bar.stream in p.current && bar.open <= p.current[bar.stream]
      && bar in p.launched && Spaced(p.launched[bar], p.bars[bar].nextAt, bar, c)
      && p.bars[bar].attempts + p.waiting[bar] <= |p.launched[bar]|
  }

  predicate StreamOk(p: Schedule, stream: StreamKey)
  {
    stream in p.current ==>
      Bar(stream, p.current[stream]) in p.bars && OnGrid(p.current[stream], stream.Step()) && p.current[stream] <= p.clock
  }

  ghost predicate Valid(p: Schedule, c: Config)
  {
    && |p.running| <= c.slots && p.launched.Keys == p.bars.Keys
    && (forall bar :: OneAttempt(p, bar))
    && (forall bar :: BarOk(p, bar, c))
    && (forall stream :: StreamOk(p, stream))
  }

  /** The bar a tick looks at: known exactly when its stream is already there. */
  lemma OpenBar(p: Schedule, stream: StreamKey, now: int, c: Config)
    requires Valid(p, c) && p.clock <= now
    ensures var bar := Bar(stream, AlignToGrid(now, stream.Step()));
            && (bar in p.bars <==> stream in p.current && p.current[stream] == bar.open)
            && (stream in p.current ==> p.current[stream] <= bar.open)
  {
    var bar := Bar(stream, AlignToGrid(now, stream.Step()));
    assert StreamOk(p, stream) && BarOk(p, bar, c);
    if stream in p.current {
      AlignIsGreatest(p.current[stream], now, stream.Step());
    }
  }

  lemma ConsideredBar(p: Schedule, stream: StreamKey, now: int, eligible: bool, c: Config)
    requires Valid(p, c) && p.clock <= now
    ensures var next := Considered(p, stream, now, eligible, c);
            var bar := Bar(stream, AlignToGrid(now, stream.Step()));
            OneAttempt(next, bar) && BarOk(next, bar, c) && StreamOk(next, stream)
  {
    var bar := Bar(stream, AlignToGrid(now, stream.Step()));
    OpenBar(p, stream, now, c);
    assert BarOk(p, bar, c) && OneAttempt(p, bar);
  }

  lemma ConsideredOthers(p: Schedule, stream: StreamKey, now: int, eligible: bool, c: Config, b: Bar)
    requires Valid(p, c) && p.clock <= now && b != Bar(stream, AlignToGrid(now, stream.Step()))
    ensures OneAttempt(Considered(p, stream, now, eligible, c), b) && BarOk(Considered(p, stream, now, eligible, c), b, c)
  {
    OpenBar(p, stream, now, c);
    assert BarOk(p, b, c) && OneAttempt(p, b);
  }

  lemma ConsideredKeeps(p: Schedule, stream: StreamKey, now: int, eligible: bool, c: Config)
    requires Valid(p, c) && p.clock <= now
    ensures Valid(Considered(p, stream, now, eligible, c), c)
  {
    var next := Considered(p, stream, now, eligible, c);
    ConsideredBar(p, stream, now, eligible, c);
    forall b
      ensures OneAttempt(next, b) && BarOk(next, b, c)
    {
      if b != Bar(stream, AlignToGrid(now, stream.Step())) {
        ConsideredOthers(p, stream, now, eligible, c, b);
      }
    }
    forall s
      ensures StreamOk(next, s)
    {
      assert StreamOk(p, s);
    }
  }

  lemma TickedKeeps(p: Schedule, streams: seq<StreamKey>, now: int, eligible: set<StreamKey>, c: Config)
    requires Valid(p, c) && p.clock <= now
    ensures Valid(Ticked(p, streams, now, eligible, c), c) && p.clock <= Ticked(p, streams, now, eligible, c).clock <= now
    decreases |streams|
  {
    if streams != [] {
      ConsideredKeeps(p, streams[0], now, streams[0] in eligible, c);
      TickedKeeps(Considered(p, streams[0], now, streams[0] in eligible, c), streams[1..], now, eligible, c);
    }
  }

  lemma SlotTakenKeeps(p: Schedule, bar: Bar, now: int, eligible: bool, c: Config)
    requires Valid(p, c) && p.clock <= now && bar in p.bars && bar in p.waiting && |p.running| < c.slots
    ensures Valid(SlotTaken(p, bar, now, eligible), c)
  {
    var next := SlotTaken(p, bar, now, eligible);
    assert OneAttempt(p, bar) && BarOk(p, bar, c);
    forall b
      ensures OneAttempt(next, b) && BarOk(next, b, c)
    {
      assert OneAttempt(p, b) && BarOk(p, b, c);
    }
    forall s
      ensures StreamOk(next, s)
    {
      assert StreamOk(p, s);
    }
  }

  lemma AppendDoneKeeps(p: Schedule, bar: Bar, answer: Answer, c: Config)
    requires Valid(p, c) && bar in p.bars && bar in p.running
    ensures Valid(AppendDone(p, bar, answer), c)
  {
    var next := AppendDone(p, bar, answer);
    assert OneAttempt(p, bar) && BarOk(p, bar, c);
    forall b
      ensures OneAttempt(next, b) && BarOk(next, b, c)
    {
      assert OneAttempt(p, b) && BarOk(p, b, c);
    }
    forall s
      ensures StreamOk(next, s)
    {
      assert StreamOk(p, s);
    }
  }

  // ---- When an attempt is started ----

  function Launches(p: Schedule, bar: Bar): seq<int> { if bar in p.launched then p.launched[bar] else [] }

  predicate PointThere(p: Schedule, bar: Bar) { bar in p.bars && p.bars[bar].stored }

  lemma BarOpenAt(now: int, bar: Bar)
    requires OnGrid(bar.open, bar.stream.Step()) && bar.open <= now < bar.open + bar.stream.Step()
    ensures AlignToGrid(now, bar.stream.Step()) == bar.open
  {
    var step := bar.stream.Step();
    AlignIsGreatest(bar.open, now, step);
    if bar.open < AlignToGrid(now, step) {
      GridSpacing(bar.open, AlignToGrid(now, step), step);
    }
  }

  /** Looking at a stream starts an attempt for the bar open now exactly when the stream is wanted, the
      point is not there, no attempt for the bar is waiting or running, and the delay has passed or a
      retry since the last start. No other bar is touched. */
  lemma StartsExactlyWhen(p: Schedule, stream: StreamKey, now: int, eligible: bool, c: Config, open: int)
    requires Valid(p, c) && p.clock <= now && OnGrid(open, stream.Step()) && open <= now < open + stream.Step()
    ensures var next := Considered(p, stream, now, eligible, c);
            var bar := Bar(stream, open);
            var times := Launches(p, bar);
            var starts := && eligible && !PointThere(p, bar) && p.waiting[bar] + p.running[bar] == 0
                          && now >= (if times == [] then open + c.delay else times[|times| - 1] + c.retry);
            && Launches(next, bar) == (if starts then times + [now] else times)
            && next.waiting == (if starts then p.waiting + multiset{bar} else p.waiting) && next.running == p.running
            && PointThere(next, bar) == PointThere(p, bar)
            && forall b :: b != bar ==> Launches(next, b) == Launches(p, b) && PointThere(next, b) == PointThere(p, b)
  {
    var bar := Bar(stream, open);
    BarOpenAt(now, bar);
    OpenBar(p, stream, now, c);
    assert BarOk(p, bar, c) && OneAttempt(p, bar);
  }

  // ---- Whole runs ----

  datatype Event =
    | Tick(now: int, eligible: set<StreamKey>)
    | SlotFreed(bar: Bar, now: int, wanted: bool)
    | Answered(bar: Bar, answer: Answer)

  /** The clock does not move back; a slot is given to a waiting attempt, and an answer comes to a
      running one. */
  predicate CanHappen(p: Schedule, e: Event, c: Config)
  {
    match e
    case Tick(now, _) => p.clock <= now
    case SlotFreed(bar, now, _) => p.clock <= now && bar in p.bars && bar in p.waiting && |p.running| < c.slots
    case Answered(bar, _) => bar in p.bars && bar in p.running
  }

  function Next(p: Schedule, e: Event, streams: seq<StreamKey>, c: Config): Schedule
    requires CanHappen(p, e, c)
  {
    match e
    case Tick(now, eligible) => Ticked(p, streams, now, eligible, c)
    case SlotFreed(bar, now, eligible) => SlotTaken(p, bar, now, eligible)
    case Answered(bar, answer) => AppendDone(p, bar, answer)
  }

  predicate Run(p: Schedule, events: seq<Event>, streams: seq<StreamKey>, c: Config)
    decreases |events|
  {
    events != [] ==> CanHappen(p, events[0], c) && Run(Next(p, events[0], streams, c), events[1..], streams, c)
  }

  function After(p: Schedule, events: seq<Event>, streams: seq<StreamKey>, c: Config): Schedule
    requires Run(p, events, streams, c)
    decreases |events|
  {
    if events == [] then p else After(Next(p, events[0], streams, c), events[1..], streams, c)
  }

  lemma NextKeeps(p: Schedule, e: Event, streams: seq<StreamKey>, c: Config)
    requires Valid(p, c) && CanHappen(p, e, c)
    ensures Valid(Next(p, e, streams, c), c)
  {
    match e
    case Tick(now, eligible) => TickedKeeps(p, streams, now, eligible, c);
    case SlotFreed(bar, now, eligible) => SlotTakenKeeps(p, bar, now, eligible, c);
    case Answered(bar, answer) => AppendDoneKeeps(p, bar, answer, c);
  }

  lemma {:induction false} RunsKeep(p: Schedule, events: seq<Event>, streams: seq<StreamKey>, c: Config)
    requires Valid(p, c) && Run(p, events, streams, c)
    ensures Valid(After(p, events, streams, c), c)
    decreases |events|
  {
    if events != [] {
      NextKeeps(p, events[0], streams, c);
      RunsKeep(Next(p, events[0], streams, c), events[1..], streams, c);
    }
  }

  // ---- A stored point ends the work ----

  /** The point of a bar is there and nothing for it is under way. */
  predicate AtRest(p: Schedule, bar: Bar) { PointThere(p, bar) && p.waiting[bar] + p.running[bar] == 0 }

  lemma TickedPoint(p: Schedule, streams: seq<StreamKey>, now: int, eligible: set<StreamKey>, c: Config, bar: Bar)
    requires Valid(p, c) && p.clock <= now
    ensures var next := Ticked(p, streams, now, eligible, c);
            && PointThere(next, bar) == PointThere(p, bar)
            && (AtRest(p, bar) ==> AtRest(next, bar) && Launches(next, bar) == Launches(p, bar))
    decreases |streams|
  {
    if streams != [] {
      StartsExactlyWhen(p, streams[0], now, streams[0] in eligible, c, AlignToGrid(now, streams[0].Step()));
      ConsideredKeeps(p, streams[0], now, streams[0] in eligible, c);
      TickedPoint(Considered(p, streams[0], now, streams[0] in eligible, c), streams[1..], now, eligible, c, bar);
    }
  }

  lemma SlotTakenPoint(p: Schedule, at: Bar, now: int, eligible: bool, bar: Bar)
    requires at in p.bars && at in p.waiting
    ensures var next := SlotTaken(p, at, now, eligible);
            && PointThere(next, bar) == PointThere(p, bar)
            && (AtRest(p, bar) ==> AtRest(next, bar) && Launches(next, bar) == Launches(p, bar))
  {
  }

  lemma AppendDonePoint(p: Schedule, at: Bar, answer: Answer, c: Config, bar: Bar)
    requires Valid(p, c) && at in p.bars && at in p.running
    ensures var next := AppendDone(p, at, answer);
            && (PointThere(next, bar) <==> PointThere(p, bar) || (at == bar && answer == PointStored))
            && (AtRest(p, bar) ==> AtRest(next, bar) && Launches(next, bar) == Launches(p, bar))
            && (at == bar && answer == PointStored ==> AtRest(next, bar))
  {
    assert OneAttempt(p, at);
  }

  lemma NextPoint(p: Schedule, e: Event, streams: seq<StreamKey>, c: Config, bar: Bar)
    requires Valid(p, c) && CanHappen(p, e, c)
    ensures var next := Next(p, e, streams, c);
            && (PointThere(next, bar) <==> PointThere(p, bar) || e == Answered(bar, PointStored))
            && (AtRest(p, bar) ==> AtRest(next, bar) && Launches(next, bar) == Launches(p, bar))
            && (e == Answered(bar, PointStored) ==> AtRest(next, bar))
  {
    match e
    case Tick(now, eligible) => TickedPoint(p, streams, now, eligible, c, bar);
    case SlotFreed(at, now, eligible) => SlotTakenPoint(p, at, now, eligible, bar);
    case Answered(at, answer) => AppendDonePoint(p, at, answer, c, bar);
  }

  /** In any run a bar's point is there exactly if it was before or an append answered so. */
  lemma {:induction false} PointThereExactlyWhenAnswered(p: Schedule, events: seq<Event>, streams: seq<StreamKey>, c: Config, bar: Bar)
    requires Valid(p, c) && Run(p, events, streams, c)
    ensures PointThere(After(p, events, streams, c), bar) <==> PointThere(p, bar) || Answered(bar, PointStored) in events
    decreases |events|
  {
    if events != [] {
      NextPoint(p, events[0], streams, c, bar);
      NextKeeps(p, events[0], streams, c);
      PointThereExactlyWhenAnswered(Next(p, events[0], streams, c), events[1..], streams, c, bar);
    }
  }

  lemma {:induction false} NothingStartsAtRest(p: Schedule, events: seq<Event>, streams: seq<StreamKey>, c: Config, bar: Bar)
    requires Valid(p, c) && Run(p, events, streams, c) && AtRest(p, bar)
    ensures var later := After(p, events, streams, c); AtRest(later, bar) && Launches(later, bar) == Launches(p, bar)
    decreases |events|
  {
    if events != [] {
      NextPoint(p, events[0], streams, c, bar);
      NextKeeps(p, events[0], streams, c);
      NothingStartsAtRest(Next(p, events[0], streams, c), events[1..], streams, c, bar);
    }
  }

  /** Once an append has stored a bar's point, no run starts, queues or runs another attempt for it. */
  lemma StoredPointEndsAttempts(p: Schedule, bar: Bar, events: seq<Event>, streams: seq<StreamKey>, c: Config)
    requires Valid(p, c) && CanHappen(p, Answered(bar, PointStored), c)
    requires Run(AppendDone(p, bar, PointStored), events, streams, c)
    ensures var later := After(AppendDone(p, bar, PointStored), events, streams, c);
            && Launches(later, bar) == Launches(p, bar) && later.waiting[bar] == 0 && later.running[bar] == 0 && PointThere(later, bar)
  {
    NextPoint(p, Answered(bar, PointStored), streams, c, bar);
    NextKeeps(p, Answered(bar, PointStored), streams, c);
    NothingStartsAtRest(AppendDone(p, bar, PointStored), events, streams, c, bar);
  }

  /** Attempts a bar can see: one after the delay, then one per retry until the bar closes. */
  function MostAttempts(step: int, c: Config): nat
    requires c.retry > 0
  {
    if c.delay >= step then 0 else (step - 1 - c.delay) / c.retry + 1
  }

  lemma {:induction false} SpacedLength(times: seq<int>, nextAt: int, bar: Bar, c: Config)
    requires c.retry > 0 && Spaced(times, nextAt, bar, c) && times != []
    ensures (|times| - 1) * c.retry <= times[|times| - 1] - bar.open - c.delay
  {
    var front := times[..|times| - 1];
    if front != [] {
      SpacedLength(front, front[|front| - 1] + c.retry, bar, c);
      OneMore(|front| - 1, c.retry);
    }
  }

  lemma MoreBars(a: int, b: int, k: int)
    requires a >= b && k > 0
    ensures a * k >= b * k
  {
    assert (a - b) * k >= 0;
  }

  lemma AtMost(n: nat, span: int, retry: int)
    requires retry > 0 && span >= 0 && n * retry <= span
    ensures n <= span / retry
  {
    var q, r := span / retry, span % retry;
    assert span == q * retry + r && (q + 1) * retry == q * retry + retry;
    if n > q {
      MoreBars(n, q + 1, retry);
    }
  }

  lemma SpacedBound(times: seq<int>, nextAt: int, bar: Bar, c: Config)
    requires c.retry > 0 && Spaced(times, nextAt, bar, c)
    ensures |times| <= MostAttempts(bar.stream.Step(), c)
  {
    if times != [] {
      SpacedLength(times, nextAt, bar, c);
      AtMost(|times| - 1, bar.stream.Step() - 1 - c.delay, c.retry);
    }
  }

  /** Over every run of the scheduler: attempts for a bar are started inside it, one at a time, no
      earlier than the delay and a retry apart, and no more appends run than there are slots. */
  lemma AttemptsAreSpaced(clock: int, events: seq<Event>, streams: seq<StreamKey>, c: Config, bar: Bar)
    requires Run(Empty(clock), events, streams, c) && bar in After(Empty(clock), events, streams, c).bars
    ensures var p := After(Empty(clock), events, streams, c);
            && bar in p.launched && Spaced(p.launched[bar], p.bars[bar].nextAt, bar, c)
            && p.bars[bar].attempts <= |p.launched[bar]|
            && p.waiting[bar] + p.running[bar] <= 1
            && |p.running| <= c.slots
  {
    RunsKeep(Empty(clock), events, streams, c);
    var p := After(Empty(clock), events, streams, c);
    assert BarOk(p, bar, c) && OneAttempt(p, bar);
  }

  /** With a retry of at least a millisecond, a bar sees at most the computed number of attempts. */
  lemma AttemptsAreBounded(clock: int, events: seq<Event>, streams: seq<StreamKey>, c: Config, bar: Bar)
    requires c.retry > 0 && Run(Empty(clock), events, streams, c)
    requires bar in After(Empty(clock), events, streams, c).bars
    ensures var p := After(Empty(clock), events, streams, c);
            bar in p.launched && |p.launched[bar]| <= MostAttempts(bar.stream.Step(), c)
  {
    AttemptsAreSpaced(clock, events, streams, c, bar);
    var p := After(Empty(clock), events, streams, c);
    SpacedBound(p.launched[bar], p.bars[bar].nextAt, bar, c);
  }

  // ---- As many attempts as the times allow ----

  lemma Fits(i: nat, span: int, retry: int)
    requires retry > 0 && span >= 0 && i <= span / retry
    ensures i * retry <= span
  {
    var q, r := span / retry, span % retry;
    assert span == q * retry + r;
    MoreBars(q, i, retry);
  }

  lemma OneMore(i: int, retry: int)
    ensures (i + 1) * retry == i * retry + retry
  {
  }

  function PacedAt(i: nat, bar: Bar, c: Config): int { bar.open + c.delay + i * c.retry }

  function Paced(n: nat, bar: Bar, c: Config): (times: seq<int>)
    ensures |times| == n
  {
    seq(n, i requires 0 <= i < n => PacedAt(i, bar, c))
  }

  lemma PacedMore(n: nat, bar: Bar, c: Config)
    ensures Paced(n + 1, bar, c) == Paced(n, bar, c) + [PacedAt(n, bar, c)]
    ensures PacedAt(n + 1, bar, c) == PacedAt(n, bar, c) + c.retry
  {
    OneMore(n, c.retry);
  }

  /** One attempt: started when due, given a slot at once, and answered that the point is not there. */
  function Round(i: nat, bar: Bar, c: Config): seq<Event>
  {
    var now := PacedAt(i, bar, c);
    [Tick(now, {bar.stream}), SlotFreed(bar, now, true), Answered(bar, NotPublishedYet)]
  }

  function Rounds(i: nat, n: nat, bar: Bar, c: Config): seq<Event>
    requires i <= n
    decreases n - i
  {
    if i == n then [] else Round(i, bar, c) + Rounds(i + 1, n, bar, c)
  }

  /** After the first attempts, with the next one due. */
  predicate AtRound(p: Schedule, i: nat, bar: Bar, c: Config)
  {
    && p.clock <= PacedAt(i, bar, c) && p.waiting == multiset{} && p.running == multiset{}
    && (i == 0 ==> p == Empty(p.clock))
    && (i > 0 ==>
          && bar.stream in p.current && p.current[bar.stream] == bar.open
          && bar in p.bars && p.bars[bar] == BarState(PacedAt(i, bar, c), false, false, i)
          && bar in p.launched && p.launched[bar] == Paced(i, bar, c))
  }

  lemma RoundTicks(p: Schedule, i: nat, bar: Bar, c: Config)
    requires AtRound(p, i, bar, c) && OnGrid(bar.open, bar.stream.Step())
    requires PacedAt(i, bar, c) < bar.open + bar.stream.Step()
    ensures var now := PacedAt(i, bar, c);
            var ticked := Ticked(p, [bar.stream], now, {bar.stream}, c);
            && ticked.clock == now && ticked.waiting == multiset{bar} && ticked.running == multiset{}
            && bar.stream in ticked.current && ticked.current[bar.stream] == bar.open
            && bar in ticked.bars && ticked.bars[bar] == BarState(PacedAt(i + 1, bar, c), false, true, i)
            && bar in ticked.launched && ticked.launched[bar] == Paced(i + 1, bar, c)
  {
    var now := PacedAt(i, bar, c);
    MoreBarsOrNone(i, c.retry);
    BarOpenAt(now, bar);
    PacedMore(i, bar, c);
    assert [bar.stream][1..] == [];
    assert Ticked(p, [bar.stream], now, {bar.stream}, c) == Considered(p, bar.stream, now, true, c);
    if i == 0 {
      assert Paced(0, bar, c) == [];
    }
  }

  lemma MoreBarsOrNone(i: nat, retry: nat)
    ensures i * retry >= 0
  {
  }

  lemma OneRound(p: Schedule, i: nat, bar: Bar, c: Config, rest: seq<Event>) returns (next: Schedule)
    requires AtRound(p, i, bar, c) && OnGrid(bar.open, bar.stream.Step()) && c.slots > 0
    requires PacedAt(i, bar, c) < bar.open + bar.stream.Step()
    ensures AtRound(next, i + 1, bar, c)
    ensures Run(next, rest, [bar.stream], c) ==>
              && Run(p, Round(i, bar, c) + rest, [bar.stream], c)
              && After(p, Round(i, bar, c) + rest, [bar.stream], c) == After(next, rest, [bar.stream], c)
  {
    var now := PacedAt(i, bar, c);
    RoundTicks(p, i, bar, c);
    PacedMore(i, bar, c);
    var ticked := Ticked(p, [bar.stream], now, {bar.stream}, c);
    var taken := SlotTaken(ticked, bar, now, true);
    next := AppendDone(taken, bar, NotPublishedYet);
    if Run(next, rest, [bar.stream], c) {
      var answered := [Answered(bar, NotPublishedYet)] + rest;
      var freed := [SlotFreed(bar, now, true)] + answered;
      RunStep(taken, Answered(bar, NotPublishedYet), rest, [bar.stream], c, next);
      RunStep(ticked, SlotFreed(bar, now, true), answered, [bar.stream], c, taken);
      RunStep(p, Tick(now, {bar.stream}), freed, [bar.stream], c, ticked);
      assert Round(i, bar, c) + rest == [Tick(now, {bar.stream})] + freed;
    }
  }

  lemma RunStep(p: Schedule, e: Event, rest: seq<Event>, streams: seq<StreamKey>, c: Config, next: Schedule)
    requires CanHappen(p, e, c) && Next(p, e, streams, c) == next && Run(next, rest, streams, c)
    ensures Run(p, [e] + rest, streams, c) && After(p, [e] + rest, streams, c) == After(next, rest, streams, c)
  {
    assert ([e] + rest)[0] == e && ([e] + rest)[1..] == rest;
  }

  /** Any number of attempts whose times all lie inside the bar can happen. */
  lemma {:induction false} RoundsRun(p: Schedule, i: nat, n: nat, bar: Bar, c: Config)
    requires i <= n && AtRound(p, i, bar, c) && OnGrid(bar.open, bar.stream.Step()) && c.slots > 0
    requires forall j :: i <= j < n ==> PacedAt(j, bar, c) < bar.open + bar.stream.Step()
    ensures Run(p, Rounds(i, n, bar, c), [bar.stream], c)
    ensures AtRound(After(p, Rounds(i, n, bar, c), [bar.stream], c), n, bar, c)
    decreases n - i
  {
    if i < n {
      var next := OneRound(p, i, bar, c, Rounds(i + 1, n, bar, c));
      RoundsRun(next, i + 1, n, bar, c);
    }
  }

  /** The bound is reached: a run of the scheduler starts that many attempts for one bar. */
  lemma BoundIsReached(bar: Bar, c: Config)
    requires c.retry > 0 && c.slots > 0 && OnGrid(bar.open, bar.stream.Step()) && c.delay < bar.stream.Step()
    ensures var n := MostAttempts(bar.stream.Step(), c);
            var events := Rounds(0, n, bar, c);
            && Run(Empty(bar.open), events, [bar.stream], c)
            && var p := After(Empty(bar.open), events, [bar.stream], c);
               bar in p.launched && bar in p.bars && |p.launched[bar]| == n == p.bars[bar].attempts
  {
    var step := bar.stream.Step();
    var n := MostAttempts(step, c);
    forall j | 0 <= j < n
      ensures PacedAt(j, bar, c) < bar.open + step
    {
      Fits(j, step - 1 - c.delay, c.retry);
    }
    RoundsRun(Empty(bar.open), 0, n, bar, c);
  }

  /** Without a retry pause there is no bound: any number of attempts fits into one instant. */
  lemma NoPauseNoBound(bar: Bar, c: Config, n: nat)
    requires c.retry == 0 && c.slots > 0 && OnGrid(bar.open, bar.stream.Step()) && c.delay < bar.stream.Step() && n > 0
    ensures var events := Rounds(0, n, bar, c);
            && Run(Empty(bar.open), events, [bar.stream], c)
            && var p := After(Empty(bar.open), events, [bar.stream], c);
               bar in p.launched && bar in p.bars && |p.launched[bar]| == n == p.bars[bar].attempts
  {
    forall j: nat
      ensures PacedAt(j, bar, c) < bar.open + bar.stream.Step()
    {
      assert j * c.retry == 0;
    }
    RoundsRun(Empty(bar.open), 0, n, bar, c);
  }

  ghost predicate Within(bound: nat, clock: int, events: seq<Event>, streams: seq<StreamKey>, c: Config, bar: Bar)
  {
    Run(Empty(clock), events, streams, c) && bar in After(Empty(clock), events, streams, c).launched ==>
      |After(Empty(clock), events, streams, c).launched[bar]| <= bound
  }

  ghost predicate Bounds(bound: nat, stream: StreamKey, c: Config)
  {
    forall clock, events, streams, open :: Within(bound, clock, events, streams, c, Bar(stream, open))
  }

  /** Some number bounds the attempts of every bar in every run exactly when the retry is at least a
      millisecond or the delay leaves no time in the bar. */
  lemma BoundedExactlyWhenPaced(stream: StreamKey, c: Config)
    requires c.slots > 0
    ensures (exists bound: nat :: Bounds(bound, stream, c)) <==> c.retry > 0 || c.delay >= stream.Step()
  {
    if c.retry > 0 || c.delay >= stream.Step() {
      var bound := if c.retry > 0 then MostAttempts(stream.Step(), c) else 0;
      forall clock, events, streams, open
        ensures Within(bound, clock, events, streams, c, Bar(stream, open))
      {
        var bar := Bar(stream, open);
        if Run(Empty(clock), events, streams, c) && bar in After(Empty(clock), events, streams, c).launched {
          RunsKeep(Empty(clock), events, streams, c);
          AttemptsAreSpaced(clock, events, streams, c, bar);
          if c.retry > 0 {
            AttemptsAreBounded(clock, events, streams, c, bar);
          }
        }
      }
      assert Bounds(bound, stream, c);
    } else {
      forall bound: nat
        ensures !Bounds(bound, stream, c)
      {
        var bar := Bar(stream, 0);
        NoPauseNoBound(bar, c, bound + 1);
        assert !Within(bound, 0, Rounds(0, bound + 1, bar, c), [stream], c, bar);
      }
    }
  }
}
