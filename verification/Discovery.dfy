// Bounded, resumable discovery of a stream's first available bar
// (src/market_data_service/application/lower_bound.py, lower_bound_state.py, lower_bound_probe.py).

module Discovery {
  import opened Optional
  import opened Grid
  import opened Windows
  import opened Gaps
  import opened Streams
  import Ingest

  // ---- The probe of one window ----

  /** What probing a window comes to: nothing there, the earliest valid bar, or an exception. */
  datatype Answer = Nothing | Earliest(openTime: int) | ProbeFailed(recoverable: bool)

  /** The n-th probe of a run, for a window. Nothing is assumed of it unless said. */
  type LowerBoundProbe = (nat, TimeWindow) -> Answer

  predicate Candidate(c: Ingest.ObservedCandle, stream: StreamKey, window: TimeWindow)
  {
    c.stream == stream && window.Contains(c.openTime) && Ingest.IsValid(c)
  }

  function Lowest(candles: seq<Ingest.ObservedCandle>, stream: StreamKey, window: TimeWindow): (lowest: Option<int>)
    ensures lowest.None? <==> forall i :: 0 <= i < |candles| ==> !Candidate(candles[i], stream, window)
    ensures lowest.Some? ==>
              && (exists i :: 0 <= i < |candles| && Candidate(candles[i], stream, window) && candles[i].openTime == lowest.value)
              && (forall i :: 0 <= i < |candles| && Candidate(candles[i], stream, window) ==> lowest.value <= candles[i].openTime)
  {
    if candles == [] then None else
      var last := candles[|candles| - 1];
      var before := Lowest(candles[..|candles| - 1], stream, window);
      assert forall i :: 0 <= i < |candles| - 1 ==> candles[..|candles| - 1][i] == candles[i];
      if !Candidate(last, stream, window) then before
      else if before.None? || last.openTime <= before.value then Some(last.openTime)
      else before
  }

  /** Observations without a valid one among them are an error, not an empty window. */
  function EarliestValid(candles: seq<Ingest.ObservedCandle>, stream: StreamKey, window: TimeWindow): (answer: Answer)
    ensures answer == Nothing <==> candles == []
    ensures answer.Earliest? ==>
              && window.Contains(answer.openTime) && OnGrid(answer.openTime, stream.Step())
              && (forall i :: 0 <= i < |candles| && Candidate(candles[i], stream, window) ==> answer.openTime <= candles[i].openTime)
              && (exists i :: 0 <= i < |candles| && Candidate(candles[i], stream, window) && candles[i].openTime == answer.openTime)
    ensures answer == ProbeFailed(false) <==> candles != [] && forall i :: 0 <= i < |candles| ==> !Candidate(candles[i], stream, window)
  {
    var lowest := Lowest(candles, stream, window);
    if lowest.Some? then Earliest(lowest.value)
    else if candles != [] then ProbeFailed(false)
    else Nothing
  }

  /** A probe that names only bars of the window it was asked about. */
  ghost predicate StaysInside(probe: LowerBoundProbe, step: int)
    requires step > 0
  {
    forall n, w :: probe(n, w).Earliest? ==> w.Contains(probe(n, w).openTime) && OnGrid(probe(n, w).openTime, step)
  }

  /** Source and clock do not change between probes. */
  ghost predicate Fixed(probe: LowerBoundProbe)
  {
    forall n, m, w :: probe(n, w) == probe(m, w)
  }

  // ---- Durable progress ----

  /** Either the bound is known, or the next bar to search is (absent before the first probe). */
  datatype Progress = Progress(earliest: Option<int>, cursor: Option<int>)

  function SearchStart(p: Progress, launchStart: int): int
  {
    if p.cursor.None? then launchStart else Max(launchStart, p.cursor.value)
  }

  function FirstWindow(start: int, end: int, span: int): TimeWindow { TimeWindow(start, Min(start + span, end)) }

  /** The windows asked about, and the progress they leave. */
  function Search(p: Progress, start: int, end: int, span: int, budget: nat, probe: LowerBoundProbe, n: nat): (r: (Progress, seq<TimeWindow>))
    requires span > 0
    decreases budget
  {
    if start >= end || budget == 0 then (p, []) else
      var window := FirstWindow(start, end, span);
      match probe(n, window)
      case ProbeFailed(_) => (p, [window])
      case Earliest(t) => (Progress(Some(t), None), [window])
      case Nothing =>
        var rest := Search(Progress(None, Some(window.end)), window.end, end, span, budget - 1, probe, n + 1);
        (rest.0, [window] + rest.1)
  }

  /** One bounded pass. A known bound is answered from the cache. */
  function Pass(p: Progress, launchStart: int, end: int, span: int, budget: nat, probe: LowerBoundProbe, n: nat): (r: (Progress, seq<TimeWindow>))
    requires span > 0
  {
    if p.earliest.Some? then (p, []) else Search(p, SearchStart(p, launchStart), end, span, budget, probe, n)
  }

  /** Windows that follow each other from start to end without a hole. */
  ghost predicate Chain(windows: seq<TimeWindow>, start: int, end: int)
  {
    && (windows == [] ==> start == end)
    && (windows != [] ==> windows[0].start == start && windows[|windows| - 1].end == end)
    && (forall i :: 0 <= i < |windows| ==> windows[i].Valid())
    && (forall i :: 0 < i < |windows| ==> windows[i].start == windows[i - 1].end)
  }

  lemma ChainAppend(windows: seq<TimeWindow>, start: int, window: TimeWindow)
    requires Chain(windows, start, window.start) && window.Valid()
    ensures Chain(windows + [window], start, window.end)
  {
    var all := windows + [window];
    assert forall i :: 0 <= i < |windows| ==> all[i] == windows[i];
  }

  // ---- The search ----

  datatype Reason = NothingSearchable | BudgetExhausted | NothingReturned

  datatype LowerBound =
    | Refused
    | Unavailable(recoverable: bool)
    | Resolved(searchStart: int, openTime: int, cached: bool, used: nat)
    | Unresolved(reason: Reason, searchStart: int, used: nat, next: Option<int>)

  /** The metadata source's answer about an instrument's launch, asked only while it is unknown. */
  datatype LaunchAnswer = LaunchRaised(recoverable: bool) | LaunchAnswered(launch: Option<int>)

  function Used(bound: LowerBound): nat
  {
    if bound.Resolved? || bound.Unresolved? then bound.used else 0
  }

  ghost predicate LastRaised(asked: seq<TimeWindow>, probes: nat, probe: LowerBoundProbe)
  {
    asked != [] && probes > 0 && probe(probes - 1, asked[|asked| - 1]).ProbeFailed?
  }

  class ResolveHistoricalLowerBound {
    const step: int
    const span: int
    var launch: Option<int>
    var earliest: Option<int>
    var cursor: Option<int>
    var probes: nat
    ghost var emptied: seq<TimeWindow>
    ghost var hit: Option<TimeWindow>

    ghost predicate Configured()
    {
      step > 0 && span > 0 && OnGrid(span, step)
    }

    function State(): Progress
      reads this
    {
      Progress(earliest, cursor)
    }

    /** Either the bound is known, no cursor is left, and every window before the one it was found in
        was probed empty; or every window from the launch up to the cursor was. */
    ghost predicate Valid()
      reads this
    {
      && Configured()
      && (earliest.Some? ==> cursor.None? && OnGrid(earliest.value, step))
      && (cursor.Some? ==> launch.Some? && OnGrid(cursor.value, step))
      && (earliest.Some? && launch.Some? ==>
            hit.Some? && Chain(emptied, CeilToGrid(launch.value, step), hit.value.start) && hit.value.Contains(earliest.value))
      && (earliest.None? && launch.Some? ==>
            Chain(emptied, CeilToGrid(launch.value, step), SearchStart(State(), CeilToGrid(launch.value, step))))
      && (launch.None? && earliest.None? ==> emptied == [])
    }

    constructor (step: int, maxPoints: int, launch: Option<int>)
      requires step > 0 && maxPoints > 0
      ensures Valid() && this.launch == launch && State() == Progress(None, None) && this.step == step && span == step * maxPoints
    {
      SpanPositive(step, maxPoints);
      ShiftOnGrid(0, maxPoints, step);
      assert 0 + maxPoints * step == step * maxPoints;
      this.step := step;
      this.span := step * maxPoints;
      this.launch := launch;
      this.earliest := None;
      this.cursor := None;
      this.probes := 0;
      this.emptied := [];
      this.hit := None;
    }

    /** Move the cursor; refused once the bound is known. */
    method AdvanceDiscovery(next: int) returns (moved: bool)
      modifies `cursor
      ensures moved <==> earliest.None?
      ensures cursor == if moved then Some(next) else old(cursor)
    {
      if earliest.Some? {
        return false;
      }
      cursor := Some(next);
      return true;
    }

    method Resolve(openTime: int)
      modifies `earliest, `cursor
      ensures State() == Progress(Some(openTime), None)
    {
      earliest := Some(openTime);
      cursor := None;
    }

    /** One bounded pass over the windows from the launch or the cursor to the last closed bar. */
    method Execute(maxWindows: int, now: int, metadata: LaunchAnswer, probe: LowerBoundProbe) returns (bound: LowerBound, ghost asked: seq<TimeWindow>)
      requires Valid() && StaysInside(probe, step)
      modifies this
      ensures Valid()
      ensures bound.Refused? <==> maxWindows <= 0
      ensures bound.Refused? || old(earliest).Some? ==> State() == old(State()) && asked == [] && launch == old(launch)
      ensures !bound.Refused? && old(earliest).None? ==> 
                launch == if old(launch).None? && metadata.LaunchAnswered? then metadata.launch else old(launch)
      ensures !bound.Refused? && old(earliest).None? && launch.Some? ==>
                (State(), asked) == Pass(old(State()), CeilToGrid(launch.value, step), LastClosedOpenTime(now, step) + step, span,
                                         maxWindows, probe, old(probes))
      ensures !bound.Refused? && launch.None? ==> bound.Unavailable? && State() == old(State()) && asked == []
      ensures probes == old(probes) + |asked| && |asked| <= Max(maxWindows, 0)
      ensures bound.Resolved? || bound.Unresolved? ==> Used(bound) == |asked|
      ensures bound.Resolved? ==> earliest == Some(bound.openTime) && (bound.cached <==> old(earliest).Some?)
      ensures bound.Unresolved? ==> earliest.None? && (bound.next == cursor || (bound.reason == NothingSearchable && |asked| == 0))
      ensures bound.Unresolved? ==> UnresolvedAt(bound, LastClosedOpenTime(now, step) + step, maxWindows, asked)
      ensures earliest.Some? ==> bound.Resolved? || launch.None? || maxWindows <= 0
      ensures bound.Unavailable? <==> maxWindows > 0 && (launch.None? || LastRaised(asked, probes, probe))
      ensures bound.Unavailable? && launch.Some? ==> bound.recoverable == probe(probes - 1, asked[|asked| - 1]).recoverable
      ensures bound.Unavailable? && launch.None? ==>
                bound.recoverable == (old(earliest).None? && metadata.LaunchRaised? && metadata.recoverable)
    {
      asked := [];
      if maxWindows <= 0 {
        return Refused, asked;
      }
      if earliest.Some? {
        if launch.None? {
          return Unavailable(false), asked;
        }
        return Resolved(CeilToGrid(launch.value, step), earliest.value, true, 0), asked;
      }
      if launch.None? {
        if metadata.LaunchRaised? {
          return Unavailable(metadata.recoverable), asked;
        }
        launch := metadata.launch;
        if launch.None? {
          return Unavailable(false), asked;
        }
      }
      bound, asked := SearchFromCursor(LastClosedOpenTime(now, step) + step, maxWindows, probe);
    }

    /** Why a bound was not found: nothing has closed yet, every window up to the end was empty, or the
        budget ran out before the end, with the next search starting where this one stopped. */
    ghost predicate UnresolvedAt(bound: LowerBound, searchEnd: int, maxWindows: int, asked: seq<TimeWindow>)
      requires bound.Unresolved?
      reads this
    {
      && bound.next.Some?
      && (bound.reason == NothingSearchable ==> asked == [] && bound.next == Some(bound.searchStart) && bound.searchStart >= searchEnd)
      && (bound.reason == NothingReturned ==> asked != [] && bound.next == cursor == Some(searchEnd) && bound.searchStart < searchEnd)
      && (bound.reason == BudgetExhausted ==>
            asked != [] && |asked| == maxWindows && bound.next == cursor && bound.searchStart < cursor.value < searchEnd)
    }

    /** The search of a stream whose launch is known and whose bound is not. */
    method SearchFromCursor(searchEnd: int, maxWindows: nat, probe: LowerBoundProbe) returns (bound: LowerBound, ghost asked: seq<TimeWindow>)
      requires Valid() && StaysInside(probe, step) && earliest.None? && launch.Some? && maxWindows > 0
      requires OnGrid(searchEnd - step, step)
      modifies `earliest, `cursor, `probes, `emptied, `hit
      ensures Valid()
      ensures (State(), asked) == Pass(old(State()), CeilToGrid(launch.value, step), searchEnd, span, maxWindows, probe, old(probes))
      ensures probes == old(probes) + |asked| && |asked| <= maxWindows
      ensures !bound.Refused? && (earliest.Some? <==> bound.Resolved?)
      ensures bound.Resolved? || bound.Unresolved? ==> Used(bound) == |asked|
      ensures bound.Resolved? ==> earliest == Some(bound.openTime) && !bound.cached
      ensures bound.Unresolved? ==> bound.next == cursor || (bound.reason == NothingSearchable && |asked| == 0)
      ensures bound.Unresolved? ==> UnresolvedAt(bound, searchEnd, maxWindows, asked)
      ensures bound.Unavailable? <==> LastRaised(asked, probes, probe)
      ensures bound.Unavailable? ==> bound.recoverable == probe(probes - 1, asked[|asked| - 1]).recoverable
    {
      asked := [];
      var searchStart := SearchStart(State(), CeilToGrid(launch.value, step));
      NextOnGrid(searchEnd - step, step);
      if searchStart >= searchEnd {
        return Unresolved(NothingSearchable, searchStart, 0, Some(searchStart)), asked;
      }
      bound, asked := SearchWindows(searchStart, searchEnd, maxWindows, probe);
    }

    /** Probe one window and record what it says. */
    method ProbeWindow(window: TimeWindow, probe: LowerBoundProbe) returns (answer: Answer)
      requires Valid() && StaysInside(probe, step) && earliest.None? && launch.Some?
      requires window.Valid() && window.start == SearchStart(State(), CeilToGrid(launch.value, step)) && OnGrid(window.end, step)
      modifies `earliest, `cursor, `probes, `emptied, `hit
      ensures Valid() && probes == old(probes) + 1 && answer == probe(old(probes), window)
      ensures answer.ProbeFailed? ==> State() == old(State())
      ensures answer == Nothing ==> State() == Progress(None, Some(window.end)) && window.end == SearchStart(State(), CeilToGrid(launch.value, step))
      ensures answer.Earliest? ==> State() == Progress(Some(answer.openTime), None)
    {
      answer := probe(probes, window);
      probes := probes + 1;
      if answer.Nothing? {
        ChainAppend(emptied, CeilToGrid(launch.value, step), window);
        var moved := AdvanceDiscovery(window.end);
        emptied := emptied + [window];
      } else if answer.Earliest? {
        Resolve(answer.openTime);
        hit := Some(window);
      }
    }

    method SearchWindows(searchStart: int, searchEnd: int, maxWindows: nat, probe: LowerBoundProbe) returns (bound: LowerBound, ghost asked: seq<TimeWindow>)
      requires Valid() && StaysInside(probe, step) && earliest.None? && launch.Some? && maxWindows > 0
      requires searchStart < searchEnd && OnGrid(searchEnd, step)
      requires searchStart == SearchStart(State(), CeilToGrid(launch.value, step))
      modifies `earliest, `cursor, `probes, `emptied, `hit
      ensures Valid()
      ensures (State(), asked) == Search(old(State()), searchStart, searchEnd, span, maxWindows, probe, old(probes))
      ensures probes == old(probes) + |asked| && |asked| <= maxWindows
      ensures earliest.Some? ==> bound == Resolved(searchStart, earliest.value, false, |asked|)
      ensures earliest.None? ==>
                bound.Unavailable? || bound == Unresolved(NothingReturned, searchStart, |asked|, cursor)
                || (bound == Unresolved(BudgetExhausted, searchStart, |asked|, cursor) && |asked| == maxWindows)
      ensures bound.Unavailable? <==> LastRaised(asked, probes, probe)
      ensures bound.Unresolved? ==> UnresolvedAt(bound, searchEnd, maxWindows, asked)
      ensures bound.Unavailable? ==> bound.recoverable == probe(probes - 1, asked[|asked| - 1]).recoverable
    {
      var empty, answer, last;
      empty, answer, last, asked := SearchFetched(searchStart, searchEnd, maxWindows, probe);
      bound :=
        match answer
        case ProbeFailed(recoverable) => Unavailable(recoverable)
        case Earliest(openTime) => Resolved(searchStart, openTime, false, empty + 1)
        case Nothing => Unresolved(if last then NothingReturned else BudgetExhausted, searchStart, empty, cursor);
    }

    /** Cut the search range into windows and probe them: how many were empty, the last answer, and
        whether none is left. */
    method SearchFetched(searchStart: int, searchEnd: int, maxWindows: nat, probe: LowerBoundProbe)
      returns (empty: nat, answer: Answer, last: bool, ghost asked: seq<TimeWindow>)
      requires Valid() && StaysInside(probe, step) && earliest.None? && launch.Some? && maxWindows > 0
      requires searchStart < searchEnd && OnGrid(searchEnd, step)
      requires searchStart == SearchStart(State(), CeilToGrid(launch.value, step))
      modifies `earliest, `cursor, `probes, `emptied, `hit
      ensures Valid()
      ensures (State(), asked) == Search(old(State()), searchStart, searchEnd, span, maxWindows, probe, old(probes))
      ensures probes == old(probes) + |asked| && |asked| == empty + (if answer == Nothing then 0 else 1) && 0 < |asked| <= maxWindows
      ensures answer == probe(probes - 1, asked[|asked| - 1])
      ensures answer == Nothing ==>
                && earliest.None? && cursor.Some? && searchStart < cursor.value <= searchEnd
                && (last <==> cursor.value == searchEnd) && (!last ==> empty == maxWindows)
      ensures answer.Earliest? ==> earliest == Some(answer.openTime)
      ensures answer.ProbeFailed? ==> earliest.None?
    {
      empty, answer, last := ProbeFetched(searchStart, searchEnd, maxWindows, probe);
      ghost var windows := FetchWindows(searchStart, searchEnd, span);
      SearchOutcome(old(State()), searchStart, searchEnd, span, maxWindows, empty, answer, probe, old(probes));
      asked := windows[..if answer.Nothing? then empty else empty + 1];
    }

    method ProbeFetched(searchStart: int, searchEnd: int, budget: nat, probe: LowerBoundProbe)
      returns (empty: nat, answer: Answer, last: bool)
      requires Valid() && StaysInside(probe, step) && earliest.None? && launch.Some?
      requires searchStart < searchEnd && OnGrid(searchEnd, step)
      requires searchStart == SearchStart(State(), CeilToGrid(launch.value, step))
      modifies `earliest, `cursor, `probes, `emptied, `hit
      ensures var windows := FetchWindows(searchStart, searchEnd, span);
              && Valid() && empty <= budget && empty <= |windows| && (last <==> empty == |windows|)
              && (forall i :: 0 <= i < empty ==> probe(old(probes) + i, windows[i]) == Nothing)
              && (answer == Nothing ==> empty == budget || empty == |windows|)
              && (answer != Nothing ==> empty < budget && empty < |windows| && answer == probe(old(probes) + empty, windows[empty]))
              && State() == (if answer.Earliest? then Progress(Some(answer.openTime), None) else AfterEmpty(old(State()), windows, empty))
              && probes == old(probes) + empty + if answer == Nothing then 0 else 1
    {
      var windows := CutWindows(Gap(searchStart, searchEnd), span);
      FetchedWindows(searchStart, searchEnd, span, step);
      empty, answer := ProbeWhileEmpty(windows, budget, probe);
      last := empty == |windows|;
    }

    /** Probe window after window until one is not empty, the budget is spent, or none is left. */
    method ProbeWhileEmpty(windows: seq<TimeWindow>, budget: nat, probe: LowerBoundProbe) returns (empty: nat, answer: Answer)
      requires Valid() && StaysInside(probe, step) && earliest.None? && launch.Some?
      requires windows != [] && windows[0].start == SearchStart(State(), CeilToGrid(launch.value, step))
      requires forall i :: 0 <= i < |windows| ==> windows[i].Valid() && OnGrid(windows[i].end, step)
      requires forall i :: 0 < i < |windows| ==> windows[i].start == windows[i - 1].end
      modifies `earliest, `cursor, `probes, `emptied, `hit
      ensures Valid() && empty <= budget && empty <= |windows|
      ensures forall i :: 0 <= i < empty ==> probe(old(probes) + i, windows[i]) == Nothing
      ensures answer == Nothing ==> empty == budget || empty == |windows|
      ensures answer != Nothing ==> empty < budget && empty < |windows| && answer == probe(old(probes) + empty, windows[empty])
      ensures State() == if answer.Earliest? then Progress(Some(answer.openTime), None) else AfterEmpty(old(State()), windows, empty)
      ensures probes == old(probes) + empty + if answer == Nothing then 0 else 1
    {
      empty, answer := 0, Nothing;
      while answer == Nothing && empty < |windows| && empty < budget
        invariant Valid() && empty <= |windows| && empty <= budget
        invariant forall i :: 0 <= i < empty ==> probe(old(probes) + i, windows[i]) == Nothing
        invariant answer != Nothing ==> empty < budget && empty < |windows| && answer == probe(old(probes) + empty, windows[empty])
        invariant State() == if answer.Earliest? then Progress(Some(answer.openTime), None) else AfterEmpty(old(State()), windows, empty)
        invariant probes == old(probes) + empty + if answer == Nothing then 0 else 1
        invariant answer == Nothing && empty < |windows| ==>
                    earliest.None? && windows[empty].start == SearchStart(State(), CeilToGrid(launch.value, step))
        decreases answer == Nothing, |windows| - empty
      {
        answer := ProbeWindow(windows[empty], probe);
        if answer == Nothing {
          empty := empty + 1;
        }
      }
    }
  }

  lemma FetchedWindows(start: int, end: int, span: int, step: int)
    requires span > 0 && step > 0 && start < end && OnGrid(start, step) && OnGrid(end, step) && OnGrid(span, step)
    ensures var windows := FetchWindows(start, end, span);
            && windows != [] && windows[0].start == start
            && (forall i :: 0 <= i < |windows| ==> windows[i].Valid() && OnGrid(windows[i].end, step))
            && (forall i :: 0 < i < |windows| ==> windows[i].start == windows[i - 1].end)
  {
    var maxPoints := span / step;
    assert span == step * maxPoints;
    PositiveFactor(maxPoints, step);
    FetchWindowsTile(start, end, step, maxPoints);
  }

  /** How far the first windows of a plan reach: to its end exactly when they are all of them. */
  lemma {:induction false} WindowsReach(start: int, end: int, span: int, used: nat)
    requires span > 0 && 0 < used <= |FetchWindows(start, end, span)|
    ensures var reached := FetchWindows(start, end, span)[used - 1].end;
            start < reached <= end && (reached == end <==> used == |FetchWindows(start, end, span)|)
    decreases used
  {
    var next := Min(start + span, end);
    assert FetchWindows(start, end, span) == [TimeWindow(start, next)] + FetchWindows(next, end, span);
    if used > 1 {
      WindowsReach(next, end, span, used - 1);
    }
  }

  /** What a search leaves when it stopped after some empty windows with an answer. */
  lemma SearchOutcome(p: Progress, start: int, end: int, span: int, budget: nat, empty: nat, answer: Answer, probe: LowerBoundProbe, n: nat)
    requires span > 0 && start < end && 0 < budget && empty <= budget && empty <= |FetchWindows(start, end, span)|
    requires forall i :: 0 <= i < empty ==> probe(n + i, FetchWindows(start, end, span)[i]) == Nothing
    requires var windows := FetchWindows(start, end, span);
             if answer == Nothing then empty == budget || empty == |windows|
             else empty < budget && empty < |windows| && answer == probe(n + empty, windows[empty])
    ensures var windows := FetchWindows(start, end, span);
            var asked := windows[..if answer.Nothing? then empty else empty + 1];
            && Search(p, start, end, span, budget, probe, n)
               == (if answer.Earliest? then Progress(Some(answer.openTime), None) else AfterEmpty(p, windows, empty), asked)
            && asked != [] && answer == probe(n + |asked| - 1, asked[|asked| - 1])
            && (answer == Nothing ==> start < windows[empty - 1].end <= end && (windows[empty - 1].end == end <==> empty == |windows|))
  {
    SearchStopsAt(p, start, end, span, budget, empty, probe, n);
    if answer.Nothing? {
      assert probe(n + (empty - 1), FetchWindows(start, end, span)[empty - 1]) == Nothing;
      WindowsReach(start, end, span, empty);
    }
  }

  lemma PositiveFactor(bars: int, step: int)
    requires step > 0
    ensures bars <= 0 ==> step * bars <= 0
  {
    if bars <= 0 {
      assert step * -bars >= 0;
    }
  }

  /** The progress after the first windows turned out empty. */
  function AfterEmpty(p: Progress, windows: seq<TimeWindow>, used: nat): Progress
    requires used <= |windows|
  {
    if used == 0 then p else Progress(None, Some(windows[used - 1].end))
  }

  /** Where a search stops: at the budget, at the end, or at the first window that is not empty. */
  lemma {:induction false} SearchStopsAt(p: Progress, start: int, end: int, span: int, budget: nat, used: nat, probe: LowerBoundProbe, n: nat)
    requires span > 0 && used <= budget && used <= |FetchWindows(start, end, span)|
    requires forall i :: 0 <= i < used ==> probe(n + i, FetchWindows(start, end, span)[i]) == Nothing
    ensures var windows := FetchWindows(start, end, span);
            var found := Search(p, start, end, span, budget, probe, n);
            && (used == budget || used == |windows| ==> found == (AfterEmpty(p, windows, used), windows[..used]))
            && (used < budget && used < |windows| ==>
                  && (probe(n + used, windows[used]).ProbeFailed? ==> found == (AfterEmpty(p, windows, used), windows[..used + 1]))
                  && (probe(n + used, windows[used]).Earliest? ==>
                        found == (Progress(Some(probe(n + used, windows[used]).openTime), None), windows[..used + 1])))
    decreases used
  {
    var windows := FetchWindows(start, end, span);
    if used == 0 {
      if start < end {
        assert windows[..1] == [FirstWindow(start, end, span)];
      }
    } else {
      var window := FirstWindow(start, end, span);
      var rest := FetchWindows(window.end, end, span);
      assert windows == [window] + rest && probe(n + 0, windows[0]) == Nothing;
      forall i | 0 <= i < used - 1
        ensures probe(n + 1 + i, rest[i]) == Nothing
      {
        assert probe(n + (i + 1), windows[i + 1]) == Nothing;
      }
      SearchStopsAt(Progress(None, Some(window.end)), window.end, end, span, budget - 1, used - 1, probe, n + 1);
      assert windows[..used] == [window] + rest[..used - 1];
      if used < |windows| {
        assert windows[..used + 1] == [window] + rest[..used];
      }
    }
  }

  // ---- Several passes are one ----

  /** The search asks for the fetch windows in order, and stops within the budget. */
  lemma {:induction false} SearchAsksInOrder(p: Progress, start: int, end: int, span: int, budget: nat, probe: LowerBoundProbe, n: nat)
    requires span > 0 && p.earliest.None?
    ensures var (q, asked) := Search(p, start, end, span, budget, probe, n);
            && |asked| <= budget && |asked| <= |FetchWindows(start, end, span)|
            && asked == FetchWindows(start, end, span)[..|asked|]
            && (forall i :: 0 <= i < |asked| - 1 ==> probe(n + i, asked[i]) == Nothing)
            && (q.earliest.Some? <==> asked != [] && probe(n + |asked| - 1, asked[|asked| - 1]).Earliest?)
    decreases budget
  {
    if start < end && budget > 0 {
      var window := FirstWindow(start, end, span);
      if probe(n, window).Nothing? {
        SearchAsksInOrder(Progress(None, Some(window.end)), window.end, end, span, budget - 1, probe, n + 1);
        var rest := Search(Progress(None, Some(window.end)), window.end, end, span, budget - 1, probe, n + 1).1;
        var asked := [window] + rest;
        assert FetchWindows(start, end, span) == [window] + FetchWindows(window.end, end, span);
        assert forall i :: 0 < i < |asked| ==> asked[i] == rest[i - 1];
        forall i | 0 <= i < |asked| - 1
          ensures probe(n + i, asked[i]) == Nothing
        {
          if i > 0 {
            assert probe(n + 1 + (i - 1), rest[i - 1]) == Nothing;
          }
        }
      }
    }
  }

  lemma {:induction false} SearchFixed(p: Progress, start: int, end: int, span: int, budget: nat, probe: LowerBoundProbe, n: nat, m: nat)
    requires span > 0 && Fixed(probe)
    ensures Search(p, start, end, span, budget, probe, n) == Search(p, start, end, span, budget, probe, m)
    decreases budget
  {
    if start < end && budget > 0 {
      var window := FirstWindow(start, end, span);
      assert probe(n, window) == probe(m, window);
      SearchFixed(Progress(None, Some(window.end)), window.end, end, span, budget - 1, probe, n + 1, m + 1);
    }
  }

  /** The last window asked about raised, so the pass ended without moving past it. */
  predicate Raised(asked: seq<TimeWindow>, probe: LowerBoundProbe)
  {
    asked != [] && probe(0, asked[|asked| - 1]).ProbeFailed?
  }

  /** With a fixed source the search is one answer followed by the search from there. */
  lemma SearchStep(p: Progress, start: int, end: int, span: int, budget: nat, probe: LowerBoundProbe)
    requires span > 0 && Fixed(probe) && start < end && budget > 0 && probe(0, FirstWindow(start, end, span)).Nothing?
    ensures var window := FirstWindow(start, end, span);
            var rest := Search(Progress(None, Some(window.end)), window.end, end, span, budget - 1, probe, 0);
            Search(p, start, end, span, budget, probe, 0) == (rest.0, [window] + rest.1)
  {
    var window := FirstWindow(start, end, span);
    SearchFixed(Progress(None, Some(window.end)), window.end, end, span, budget - 1, probe, 0, 1);
  }

  /** Searching on from where a bounded search stopped is the longer search: the same progress, and
      unless the source raised the same windows. */
  lemma {:induction false} SearchResumes(p: Progress, launchStart: int, start: int, end: int, span: int, first: nat, second: nat, probe: LowerBoundProbe)
    requires span > 0 && Fixed(probe) && p.earliest.None? && first > 0
    requires launchStart <= start && start == SearchStart(p, launchStart)
    requires !Raised(Search(p, start, end, span, first, probe, 0).1, probe)
    ensures var begun := Search(p, start, end, span, first, probe, 0);
            var done := Pass(begun.0, launchStart, end, span, second, probe, 0);
            Search(p, start, end, span, first + second, probe, 0) == (done.0, begun.1 + done.1)
    decreases first
  {
    if start < end {
      var window := FirstWindow(start, end, span);
      assert [window] + [] == [window];
      if probe(0, window).Nothing? {
        var next := Progress(None, Some(window.end));
        SearchStep(p, start, end, span, first, probe);
        SearchStep(p, start, end, span, first + second, probe);
        if first == 1 {
          assert [window] + Search(next, window.end, end, span, 0, probe, 0).1 == [window];
          assert SearchStart(next, launchStart) == window.end;
        } else {
          var rest := Search(next, window.end, end, span, first - 1, probe, 0);
          assert rest.1 != [] ==> ([window] + rest.1)[|rest.1|] == rest.1[|rest.1| - 1];
          SearchResumes(next, launchStart, window.end, end, span, first - 1, second, probe);
          assert [window] + (rest.1 + Pass(rest.0, launchStart, end, span, second, probe, 0).1)
                 == [window] + rest.1 + Pass(rest.0, launchStart, end, span, second, probe, 0).1;
        }
      }
    } else {
      assert Search(p, start, end, span, first, probe, 0) == (p, []) && Search(p, start, end, span, first + second, probe, 0) == (p, []);
      assert Pass(p, launchStart, end, span, second, probe, 0) == (p, []);
      var nothing: seq<TimeWindow> := [];
      assert nothing + nothing == nothing;
    }
  }

  /** A search that raised stops the longer one at the same window, and asks for it again when resumed. */
  lemma {:induction false} SearchRaisesAgain(p: Progress, launchStart: int, start: int, end: int, span: int, first: nat, second: nat, probe: LowerBoundProbe)
    requires span > 0 && Fixed(probe) && p.earliest.None? && first > 0
    requires launchStart <= start && start == SearchStart(p, launchStart)
    requires Raised(Search(p, start, end, span, first, probe, 0).1, probe)
    ensures var begun := Search(p, start, end, span, first, probe, 0);
            && Search(p, start, end, span, first + second, probe, 0) == begun
            && begun.0.earliest.None?
            && (second > 0 ==> Pass(begun.0, launchStart, end, span, second, probe, 0) == (begun.0, [begun.1[|begun.1| - 1]]))
    decreases first
  {
    var window := FirstWindow(start, end, span);
    if probe(0, window).Nothing? {
      var next := Progress(None, Some(window.end));
      SearchStep(p, start, end, span, first, probe);
      SearchStep(p, start, end, span, first + second, probe);
      var rest := Search(next, window.end, end, span, first - 1, probe, 0);
      assert rest.1 != [] ==> ([window] + rest.1)[|rest.1|] == rest.1[|rest.1| - 1];
      SearchRaisesAgain(next, launchStart, window.end, end, span, first - 1, second, probe);
    }
  }

  function Total(budgets: seq<nat>): nat
  {
    if budgets == [] then 0 else budgets[0] + Total(budgets[1..])
  }

  /** Several passes, one after another. */
  function Passes(p: Progress, launchStart: int, end: int, span: int, budgets: seq<nat>, probe: LowerBoundProbe): (r: (Progress, seq<TimeWindow>))
    requires span > 0
    decreases |budgets|
  {
    if budgets == [] then (p, []) else
      var first := Pass(p, launchStart, end, span, budgets[0], probe, 0);
      var rest := Passes(first.0, launchStart, end, span, budgets[1..], probe);
      (rest.0, first.1 + rest.1)
  }

  lemma {:induction false} ResolvedPassesAskNothing(p: Progress, launchStart: int, end: int, span: int, budgets: seq<nat>, probe: LowerBoundProbe)
    requires span > 0 && p.earliest.Some?
    ensures Passes(p, launchStart, end, span, budgets, probe) == (p, [])
    decreases |budgets|
  {
    if budgets != [] {
      assert Pass(p, launchStart, end, span, budgets[0], probe, 0).1 + [] == [];
      ResolvedPassesAskNothing(p, launchStart, end, span, budgets[1..], probe);
    }
  }

  /** Splitting a budget changes nothing: with a fixed source and clock, any number of bounded passes
      leaves the progress of one pass with the summed budget, and asks about the same windows in the
      same order unless the source raises. */
  lemma {:induction false} PassesAreOnePass(p: Progress, launchStart: int, end: int, span: int, budgets: seq<nat>, probe: LowerBoundProbe)
    requires span > 0 && Fixed(probe) && forall i :: 0 <= i < |budgets| ==> budgets[i] > 0
    ensures var many := Passes(p, launchStart, end, span, budgets, probe);
            var one := Pass(p, launchStart, end, span, Total(budgets), probe, 0);
            many.0 == one.0 && (!Raised(one.1, probe) ==> many.1 == one.1)
    decreases |budgets|
  {
    if p.earliest.Some? {
      ResolvedPassesAskNothing(p, launchStart, end, span, budgets, probe);
    } else if budgets != [] {
      var start := SearchStart(p, launchStart);
      var begun := Search(p, start, end, span, budgets[0], probe, 0);
      assert begun == Pass(p, launchStart, end, span, budgets[0], probe, 0);
      PassesAreOnePass(begun.0, launchStart, end, span, budgets[1..], probe);
      if Raised(begun.1, probe) {
        SearchRaisesAgain(p, launchStart, start, end, span, budgets[0], Total(budgets[1..]), probe);
      } else {
        SearchResumes(p, launchStart, start, end, span, budgets[0], Total(budgets[1..]), probe);
        LastOfBoth(begun.1, Pass(begun.0, launchStart, end, span, Total(budgets[1..]), probe, 0).1, probe);
      }
    }
  }

  lemma LastOfBoth(first: seq<TimeWindow>, second: seq<TimeWindow>, probe: LowerBoundProbe)
    ensures second != [] ==> (Raised(first + second, probe) <==> Raised(second, probe))
  {
    if second != [] {
      assert (first + second)[|first| + |second| - 1] == second[|second| - 1];
    }
  }

  // ---- The candle probe ----

  /** What the historical source returns for the n-th request. */
  datatype Fetched = FetchFailed(recoverable: bool) | Fetched(candles: seq<Ingest.ObservedCandle>)

  type CandleSource = (nat, TimeWindow) -> Fetched

  function CandleProbe(source: CandleSource, stream: StreamKey): LowerBoundProbe
  {
    (n: nat, w: TimeWindow) =>
      match source(n, w) case FetchFailed(recoverable) => ProbeFailed(recoverable) case Fetched(candles) => EarliestValid(candles, stream, w)
  }

  /** Whatever the source returns, the candle probe names only bars of the window it was asked about. */
  lemma CandleProbeStaysInside(source: CandleSource, stream: StreamKey)
    ensures StaysInside(CandleProbe(source, stream), stream.Step())
  {
    var probe := CandleProbe(source, stream);
    forall n, w | probe(n, w).Earliest?
      ensures w.Contains(probe(n, w).openTime) && OnGrid(probe(n, w).openTime, stream.Step())
    {
      assert probe(n, w) == EarliestValid(source(n, w).candles, stream, w);
    }
  }
}
