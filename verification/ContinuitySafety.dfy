// Every event of the continuity protocol keeps its invariant.

module ContinuitySafety {
  import opened Optional
  import opened Grid
  import opened Windows
  import opened Streams
  import opened Repair
  import opened RealtimeFacts
  import opened RealtimeRecovery
  import opened RecoveryIntents
  import opened ContinuityProtocol

  // ---- Growing: more stored bars, frontiers not lower ----

  predicate NotLower(frontier: Option<int>, later: Option<int>)
  {
    frontier.Some? && later.Some? && frontier.value <= later.value
  }

  /** The later state has the same requirement, at least the bars, and each frontier at least as far. */
  predicate Grown(sw: Admitted, later: Admitted)
  {
    && later.anchor == sw.anchor && later.earliest == sw.earliest
    && sw.candles <= later.candles && sw.openInterest <= later.openInterest
    && later.facts.openInterestRequired == sw.facts.openInterestRequired
    && NotLower(sw.facts.candleFrontier, later.facts.candleFrontier)
    && (sw.facts.openInterestRequired ==> NotLower(sw.facts.openInterestFrontier, later.facts.openInterestFrontier))
    && sw.facts.Frontier().Some? && later.facts.Frontier().Some? && Lower(sw) <= Lower(later)
  }

  lemma CursorCarries(sw: Admitted, later: Admitted, window: TimeWindow, hint: Option<int>, step: int)
    requires step > 0 && Grown(sw, later) && CursorOk(sw, window, hint, step)
    ensures CursorOk(later, window, hint, step)
  {
  }

  lemma PhaseCarries(sw: Admitted, later: Admitted, phase: Phase, hint: Option<int>, step: int)
    requires step > 0 && Grown(sw, later) && PhaseOk(sw, phase, hint, step)
    ensures PhaseOk(later, phase, hint, step)
  {
    match phase
    case Planned(carried) =>
    case Windowed(w) =>
    case CandlesDone(w) =>
    case BothDone(w) =>
    case Finished(result) =>
  }

  lemma IntentCarries(sw: Admitted, later: Admitted, step: int)
    requires step > 0 && Grown(sw, later) && later.intent == sw.intent && later.episode == sw.episode
    requires IntentOk(sw, step)
    ensures IntentOk(later, step)
  {
    if sw.intent.Some? && sw.intent.value.window.Some? {
      CursorCarries(sw, later, sw.intent.value.window.value, sw.intent.value.earliest, step);
    }
  }

  lemma AttemptCarries(sw: Admitted, later: Admitted, step: int)
    requires step > 0 && Grown(sw, later) && later.intent == sw.intent && later.attempt == sw.attempt
    requires AttemptOk(sw, step)
    ensures AttemptOk(later, step)
  {
    if sw.attempt.Some? {
      PhaseCarries(sw, later, sw.attempt.value.phase, sw.attempt.value.signal.start, step);
    }
  }

  // ---- Signals ----

  /** Merging a signal that starts within reach of the frontier keeps intent and attempt sound: the
      requirement it changes drops the cursor, and the running attempt no longer matches. */
  lemma MergeKeeps(sw: Admitted, s: Signal, step: int)
    requires step > 0 && IntentOk(sw, step) && AttemptOk(sw, step) && HintOk(sw, s.start, step)
    ensures IntentOk(Merge(sw, s), step) && AttemptOk(Merge(sw, s), step)
  {
    var after := Merge(sw, s);
    if sw.intent.Some? {
      AbsorbMeets(sw.intent.value, sw.episode, s);
      RevisionTracksRequirement(sw.intent.value, s);
      if after.intent.value.window.Some? {
        assert after.intent.value == sw.intent.value;
        CursorCarries(sw, after, sw.intent.value.window.value, sw.intent.value.earliest, step);
      }
    } else {
      FromSignalMeets(s);
    }
    if sw.attempt.Some? {
      PhaseCarries(sw, after, sw.attempt.value.phase, sw.attempt.value.signal.start, step);
    }
  }

  /** New facts whose frontiers hold and did not move back, with signals bounded by them. */
  lemma ReactKeeps(sw: Admitted, reaction: (Facts, seq<Signal>), key: StreamKey, now: int)
    requires Inv(sw, key, now)
    requires FactsOk(sw.(facts := reaction.0), key.Step()) && Grown(sw, sw.(facts := reaction.0))
    requires (HeldBack(sw.facts) || reaction.1 != []) ==> HeldBack(reaction.0)
    requires |reaction.1| <= 1 && forall s :: s in reaction.1 ==> HintOk(sw.(facts := reaction.0), s.start, key.Step())
    ensures var after := React(sw, reaction);
            var step := key.Step();
            && StoreOk(after, step, now) && FactsOk(after, step) && IntentOk(after, step) && AttemptOk(after, step)
            && EpisodeOk(after) && after.facts == reaction.0 && after.staleBars == sw.staleBars
            && Grown(sw, after)
  {
    var step := key.Step();
    var next := sw.(facts := reaction.0);
    IntentCarries(sw, next, step);
    AttemptCarries(sw, next, step);
    if reaction.1 != [] {
      assert reaction.1[0] in reaction.1;
      MergeKeeps(next, reaction.1[0], step);
      assert reaction.1[1..] == [];
      assert Deliver(next, reaction.1) == Merge(next, reaction.1[0]);
    }
  }

  // ---- Frontiers ----

  lemma ExtendKeeps(track: set<int>, frontier: int, openTime: int, anchor: int, step: int)
    requires step > 0 && 0 <= anchor && FrontierOk(track, Some(frontier), anchor, step)
    requires openTime in track && 0 <= openTime && OnGrid(openTime, step)
    ensures FrontierOk(track, Some(ExtendFrontier(Some(frontier), openTime, step)), anchor, step)
    ensures ExtendFrontier(Some(frontier), openTime, step) >= frontier
  {
    ExtendsOnlyByTheNextBar(frontier, openTime, step);
    if openTime == frontier + step {
      NextOnGrid(frontier, step);
      forall t | t in GridPoints(anchor, openTime + step, step)
        ensures t in track
      {
        if frontier + step < t {
          GridSpacing(openTime, t, step);
        } else if frontier < t {
          GridSpacing(frontier, t, step);
        } else {
          assert t in GridPoints(anchor, frontier + step, step);
        }
      }
    }
  }

  lemma AdvanceKeeps(track: set<int>, frontier: int, through: int, anchor: int, step: int)
    requires step > 0 && 0 <= anchor && FrontierOk(track, Some(frontier), anchor, step)
    requires OnGrid(through, step) && Unbroken(track, anchor, through + step, step)
    ensures FrontierOk(track, AdvanceFrontier(Some(frontier), Some(through)), anchor, step)
    ensures AdvanceFrontier(Some(frontier), Some(through)).value >= frontier
    ensures AdvanceFrontier(Some(frontier), Some(through)).value >= 0
  {
  }

  // ---- Observations ----

  lemma OutcomeKeeps(sw: Admitted, openTime: int, outcome: Outcome, key: StreamKey, now: int)
    requires Inv(sw, key, now) && (Accepted(outcome) ==> openTime in sw.candles)
    ensures var after := React(sw, ObserveOutcome(sw.facts, key, openTime, outcome, now));
            Inv(after, key, now) && Grown(sw, after)
  {
    var step := key.Step();
    var f := sw.facts;
    var reaction := ObserveOutcome(f, key, openTime, outcome, now);
    if Accepted(outcome) {
      ExtendKeeps(sw.candles, f.candleFrontier.value, openTime, sw.anchor, step);
    }
    ReactKeeps(sw, reaction, key, now);
  }

  lemma OpenInterestKeeps(sw: Admitted, openTime: int, key: StreamKey, now: int)
    requires Inv(sw, key, now) && openTime in sw.openInterest
    ensures var after := React(sw, ObserveOpenInterest(sw.facts, key, openTime, now));
            Inv(after, key, now) && Grown(sw, after)
  {
    var step := key.Step();
    var f := sw.facts;
    var reaction := ObserveOpenInterest(f, key, openTime, now);
    if f.openInterestRequired {
      ExtendKeeps(sw.openInterest, f.openInterestFrontier.value, openTime, sw.anchor, step);
    }
    ReactKeeps(sw, reaction, key, now);
  }

  lemma ConfirmKeeps(sw: Admitted, afterDisconnect: bool, key: StreamKey, now: int)
    requires Inv(sw, key, now)
    ensures var after := React(sw, Confirm(sw.facts, key, now, afterDisconnect));
            Inv(after, key, now) && Grown(sw, after)
  {
    ReactKeeps(sw, Confirm(sw.facts, key, now, afterDisconnect), key, now);
  }

  lemma StaleKeeps(sw: Admitted, key: StreamKey, now: int, grace: nat, policy: RetryPolicy)
    requires Inv(sw, key, now)
    ensures var after := StreamStep(sw, StaleChecked, key, now, grace, policy);
            Inv(after, key, now) && Grown(sw, after)
  {
    var reaction := DetectStale(sw.facts, key, now, grace);
    ReactKeeps(sw, reaction, key, now);
    var next := React(sw, reaction);
    if RaisesStale(sw.facts, key, now, grace) {
      var bar := ExpectedOpen(key, now, grace);
      var after := next.(staleBars := sw.staleBars + [bar]);
      StaleAppend(sw, bar);
      OtherBars(next, after, key, now);
    }
  }

  lemma StaleAppend(sw: Admitted, bar: int)
    requires StaleOk(sw) && !sw.facts.recoveryPending && !sw.facts.fatal
    requires sw.facts.lastChecked.None? || bar > sw.facts.lastChecked.value
    ensures Increasing(sw.staleBars + [bar])
  {
    forall i, j | 0 <= i < j < |sw.staleBars| + 1
      ensures (sw.staleBars + [bar])[i] < (sw.staleBars + [bar])[j]
    {
      if j == |sw.staleBars| && i < |sw.staleBars| - 1 {
        assert sw.staleBars[i] < sw.staleBars[|sw.staleBars| - 1];
      }
    }
  }

  /** The record of stale bars takes no part in the rest of the invariant. */
  lemma OtherBars(sw: Admitted, after: Admitted, key: StreamKey, now: int)
    requires after == sw.(staleBars := after.staleBars) && sw.facts.Frontier().Some?
    requires var step := key.Step();
             StoreOk(sw, step, now) && FactsOk(sw, step) && IntentOk(sw, step) && AttemptOk(sw, step) && EpisodeOk(sw)
    requires StaleOk(after)
    ensures Inv(after, key, now) && Grown(sw, after)
  {
    IntentCarries(sw, after, key.Step());
    AttemptCarries(sw, after, key.Step());
  }

  // ---- Stores ----

  lemma CandleStoredKeeps(sw: Admitted, openTime: int, key: StreamKey, now: int, grace: nat, policy: RetryPolicy)
    requires Inv(sw, key, now) && Enabled(sw, CandleStored(openTime), key, now)
    ensures var after := StreamStep(sw, CandleStored(openTime), key, now, grace, policy);
            Inv(after, key, now) && Grown(sw, after)
  {
    var after := StreamStep(sw, CandleStored(openTime), key, now, grace, policy);
    IntentCarries(sw, after, key.Step());
    AttemptCarries(sw, after, key.Step());
  }

  lemma OpenInterestStoredKeeps(sw: Admitted, openTime: int, key: StreamKey, now: int, grace: nat, policy: RetryPolicy)
    requires Inv(sw, key, now) && Enabled(sw, OpenInterestStored(openTime), key, now)
    ensures var after := StreamStep(sw, OpenInterestStored(openTime), key, now, grace, policy);
            Inv(after, key, now) && Grown(sw, after)
  {
    var after := StreamStep(sw, OpenInterestStored(openTime), key, now, grace, policy);
    IntentCarries(sw, after, key.Step());
    AttemptCarries(sw, after, key.Step());
  }

  // ---- Transport ----

  lemma TransportKeeps(sw: Admitted, f: Facts, key: StreamKey, now: int)
    requires Inv(sw, key, now) && (f == MarkDisconnected(sw.facts) || f == MarkStopped(sw.facts))
    ensures Inv(sw.(facts := f), key, now) && Grown(sw, sw.(facts := f))
  {
    IntentCarries(sw, sw.(facts := f), key.Step());
    AttemptCarries(sw, sw.(facts := f), key.Step());
  }

  // ---- A recovery attempt ----

  /** Only the phase of the running attempt changes. */
  lemma PhaseKeeps(sw: Admitted, phase: Phase, key: StreamKey, now: int)
    requires Inv(sw, key, now) && sw.attempt.Some?
    requires PhaseOk(sw, phase, sw.attempt.value.signal.start, key.Step())
    ensures Inv(At(sw, phase), key, now) && Grown(sw, At(sw, phase))
  {
    var after := At(sw, phase);
    IntentCarries(sw, after, key.Step());
    PhaseCarries(sw, after, phase, sw.attempt.value.signal.start, key.Step());
  }

  lemma BeginKeeps(sw: Admitted, key: StreamKey, now: int, grace: nat, policy: RetryPolicy)
    requires Inv(sw, key, now) && Enabled(sw, AttemptBegun, key, now)
    ensures var after := StreamStep(sw, AttemptBegun, key, now, grace, policy);
            Inv(after, key, now) && Grown(sw, after)
  {
    var after := StreamStep(sw, AttemptBegun, key, now, grace, policy);
    IntentCarries(sw, after, key.Step());
  }

  /** Bars up to the later of two proven ends. */
  lemma BothUpTo(sw: Admitted, until: int, step: int)
    requires step > 0 && FactsOk(sw, step) && until <= Lower(sw) + step
    ensures BothUnbroken(sw, sw.anchor, until, step)
  {
  }

  /** A freshly derived window starts where everything before is already proven, hinted or not, also
      when it is the one re-checked bar. */
  lemma DerivedCursor(sw: Admitted, hint: Option<int>, key: StreamKey, now: int)
    requires Inv(sw, key, now) && HintOk(sw, hint, key.Step())
    requires hint.None? ==> UnhintedCovers(sw.latest, Lower(sw), now, key.Step())
    ensures CursorOk(sw, DeriveWindow(Some(sw.latest), sw.earliest, hint, now, key.Step()).value, hint, key.Step())
  {
    var step := key.Step();
    var window := DeriveWindow(Some(sw.latest), sw.earliest, hint, now, step).value;
    FrontierWithinLatest(sw, key, now);
    DerivedStart(sw.latest, sw.earliest, hint, Lower(sw), now, step);
    BothUpTo(sw, window.start, step);
    if hint.Some? {
      assert GridPoints(EpisodeStart(sw.earliest, hint.value), window.start, step) == {};
    }
  }

  lemma DerivedStart(latest: int, earliest: Option<int>, hint: Option<int>, frontier: int, now: int, step: int)
    requires step > 0 && OnGrid(latest, step) && latest + step <= now && frontier <= latest
    requires earliest.Some? ==> earliest.value <= frontier
    requires if hint.Some? then hint.value <= frontier + step else UnhintedCovers(latest, frontier, now, step)
    ensures var window := DeriveWindow(Some(latest), earliest, hint, now, step).value;
            && window.Valid() && window.start <= frontier + step
            && (hint.Some? ==> window.start <= EpisodeStart(earliest, hint.value))
  {
    NextOnGrid(latest, step);
    AlignIsGreatest(latest + step, now, step);
    if hint.Some? {
      HintedWindowCoversHole(latest, earliest, hint.value, frontier, now, step);
    } else {
      UnhintedWindowCoversExactlyWhen(latest, earliest, frontier, now, step);
    }
  }

  lemma FrontierWithinLatest(sw: Admitted, key: StreamKey, now: int)
    requires Inv(sw, key, now)
    ensures sw.anchor <= Lower(sw) <= sw.latest
  {
    var f := sw.facts.candleFrontier.value;
    assert f in GridPoints(sw.anchor, f + key.Step(), key.Step());
  }

  lemma WindowChosenKeeps(sw: Admitted, key: StreamKey, now: int, grace: nat, policy: RetryPolicy)
    requires Inv(sw, key, now) && Enabled(sw, WindowChosen, key, now) && UnhintedAssumption(sw, WindowChosen, key, now)
    ensures var after := StreamStep(sw, WindowChosen, key, now, grace, policy);
            Inv(after, key, now) && Grown(sw, after)
  {
    var attempt := sw.attempt.value;
    if attempt.phase.carried.None? {
      DerivedCursor(sw, attempt.signal.start, key, now);
      PhaseKeeps(sw, Windowed(DeriveWindow(Some(sw.latest), sw.earliest, attempt.signal.start, now, key.Step()).value), key, now);
    } else {
      PhaseKeeps(sw, Windowed(attempt.phase.carried.value), key, now);
    }
  }

  lemma CandlesRepairedKeeps(sw: Admitted, e: StreamEvent, key: StreamKey, now: int, grace: nat, policy: RetryPolicy)
    requires Inv(sw, key, now) && e.CandlesRepaired? && Enabled(sw, e, key, now)
    ensures var after := StreamStep(sw, e, key, now, grace, policy);
            Inv(after, key, now) && Grown(sw, after)
  {
    var window := sw.attempt.value.phase.window;
    if !window.Aligned(key.Step()) {
      PhaseKeeps(sw, Finished(AttemptFailed(None, false, NO_WORK)), key, now);
    } else {
      RepairKeeps(sw, window, e.status, e.recoverable, e.work, CandlesDone(window), key, now);
    }
  }

  lemma RepairKeeps(sw: Admitted, window: TimeWindow, status: RepairStatus, recoverable: bool, work: Work, done: Phase,
                    key: StreamKey, now: int)
    requires Inv(sw, key, now) && sw.attempt.Some?
    requires window.Aligned(key.Step()) && CursorOk(sw, window, sw.attempt.value.signal.start, key.Step())
    requires status == RepairStatus.Complete ==> PhaseOk(sw, done, sw.attempt.value.signal.start, key.Step())
    ensures var after := AfterRepair(sw, window, status, recoverable, work, done);
            Inv(after, key, now) && Grown(sw, after)
  {
    match status
    case Failed => PhaseKeeps(sw, Finished(AttemptFailed(Some(window), recoverable, work)), key, now);
    case Incomplete => PhaseKeeps(sw, Finished(AttemptIncomplete(Some(window), work)), key, now);
    case Complete => PhaseKeeps(sw, done, key, now);
  }

  lemma OpenInterestRepairedKeeps(sw: Admitted, e: StreamEvent, key: StreamKey, now: int, grace: nat, policy: RetryPolicy)
    requires Inv(sw, key, now) && e.OpenInterestRepaired? && Enabled(sw, e, key, now)
    ensures var after := StreamStep(sw, e, key, now, grace, policy);
            Inv(after, key, now) && Grown(sw, after)
  {
    var window := sw.attempt.value.phase.window;
    RepairKeeps(sw, window, e.status, e.recoverable, e.work, BothDone(window), key, now);
  }

  /** Two proven stretches that meet are one. */
  lemma BothJoin(sw: Admitted, start: int, middle: int, end: int, step: int)
    requires step > 0 && BothUnbroken(sw, start, middle, step) && BothUnbroken(sw, middle, end, step)
    ensures BothUnbroken(sw, start, end, step)
  {
    assert GridPoints(start, end, step) <= GridPoints(start, middle, step) + GridPoints(middle, end, step);
  }

  lemma ConcludedKeeps(sw: Admitted, e: StreamEvent, key: StreamKey, now: int, grace: nat, policy: RetryPolicy)
    requires Inv(sw, key, now) && e.AttemptConcluded? && Enabled(sw, e, key, now)
    ensures var after := StreamStep(sw, e, key, now, grace, policy);
            Inv(after, key, now) && Grown(sw, after)
  {
    var step := key.Step();
    var window, hint := sw.attempt.value.phase.window, sw.attempt.value.signal.start;
    var currentEnd := AlignToGrid(now, step);
    BothJoin(sw, sw.anchor, window.start, window.end, step);
    if hint.Some? {
      BothJoin(sw, EpisodeStart(sw.earliest, hint.value), window.start, window.end, step);
    }
    PreviousOnGrid(window.end, step);
    PhaseKeeps(sw, Finished(AttemptProven(window, currentEnd, step, e.work)), key, now);
  }

  // ---- Recording the result ----

  lemma RecordKeeps(sw: Admitted, loopNow: real, key: StreamKey, now: int, policy: RetryPolicy)
    requires Inv(sw, key, now) && sw.attempt.Some? && sw.attempt.value.phase.Finished?
    ensures var after := RecordResult(sw, now, loopNow, policy);
            Inv(after, key, now) && Grown(sw, after)
  {
    var step := key.Step();
    var attempt := sw.attempt.value;
    var result := attempt.phase.result;
    var restored := ReportsRestored(sw.intent.value, attempt.revision, result);
    var fatal := result.classification == FatalFailure;
    var facts := RecordRecoveryResult(sw.facts, restored, fatal, now, result.restoredThrough);
    var after := RecordResult(sw, now, loopNow, policy);
    if restored {
      RestoredFrontiers(sw, result.restoredThrough.value, now, step);
    }
    assert FactsOk(after, step) && Grown(sw, after);
    RecordStale(sw.staleBars, sw.facts, restored, fatal, now, result.restoredThrough);
    RecordIntent(sw, after, result, policy, loopNow, step);
  }

  lemma RestoredFrontiers(sw: Admitted, through: int, now: int, step: int)
    requires step > 0 && FactsOk(sw, step) && 0 <= sw.anchor && OnGrid(through, step)
    requires BothUnbroken(sw, sw.anchor, through + step, step)
    ensures var f := RecordRecoveryResult(sw.facts, true, false, now, Some(through));
            && FactsOk(sw.(facts := f), step) && f.Frontier().Some? && Lower(sw) <= f.Frontier().value
  {
    AdvanceKeeps(sw.candles, sw.facts.candleFrontier.value, through, sw.anchor, step);
    if sw.facts.openInterestRequired {
      AdvanceKeeps(sw.openInterest, sw.facts.openInterestFrontier.value, through, sw.anchor, step);
    }
  }

  lemma RecordStale(bars: seq<int>, f: Facts, restored: bool, fatal: bool, now: int, through: Option<int>)
    requires LastStaleSettled(bars, f)
    ensures LastStaleSettled(bars, RecordRecoveryResult(f, restored, fatal, now, through))
  {
  }

  lemma RecordIntent(sw: Admitted, after: Admitted, result: RecoveryResult, policy: RetryPolicy, loopNow: real, step: int)
    requires step > 0 && IntentOk(sw, step) && AttemptOk(sw, step) && Grown(sw, after)
    requires sw.attempt.Some? && sw.attempt.value.phase == Finished(result)
    requires var (next, stays) := AfterAttempt(sw.intent.value, sw.attempt.value.revision, result, policy, loopNow);
             after.intent == (if stays then Some(next) else None) && (stays ==> after.episode == sw.episode)
    ensures IntentOk(after, step)
  {
    if after.intent.Some? {
      var before, next := sw.intent.value, after.intent.value;
      assert next.earliest == before.earliest && next.urgent == before.urgent;
      if next.window.Some? {
        if next.window == before.window {
          CursorCarries(sw, after, before.window.value, before.earliest, step);
        } else {
          assert sw.attempt.value.revision == before.revision && result.classification == IncompleteRecovery;
          PhaseCarries(sw, after, Finished(result), before.earliest, step);
        }
      }
    }
  }

  // ---- All events ----

  lemma StepKeeps(sw: Admitted, e: StreamEvent, key: StreamKey, now: int, grace: nat, policy: RetryPolicy)
    requires Inv(sw, key, now) && Enabled(sw, e, key, now) && UnhintedAssumption(sw, e, key, now)
    ensures var after := StreamStep(sw, e, key, now, grace, policy);
            Inv(after, key, now) && Grown(sw, after)
  {
    match e
    case CandleStored(t) => CandleStoredKeeps(sw, t, key, now, grace, policy);
    case OpenInterestStored(t) => OpenInterestStoredKeeps(sw, t, key, now, grace, policy);
    case OutcomeObserved(t, outcome) => OutcomeKeeps(sw, t, outcome, key, now);
    case OpenInterestObserved(t) => OpenInterestKeeps(sw, t, key, now);
    case StaleChecked => StaleKeeps(sw, key, now, grace, policy);
    case ConnectionLost => TransportKeeps(sw, MarkDisconnected(sw.facts), key, now);
    case Stopped => TransportKeeps(sw, MarkStopped(sw.facts), key, now);
    case SubscriptionConfirmed(afterDisconnect) => ConfirmKeeps(sw, afterDisconnect, key, now);
    case StartupSignalled => StartupKeeps(sw, key, now);
    case LiveCommitMarked => MarkKeeps(sw, key, now, grace, policy);
    case AttemptBegun => BeginKeeps(sw, key, now, grace, policy);
    case WindowChosen => WindowChosenKeeps(sw, key, now, grace, policy);
    case CandlesRepaired(_, _, _) => CandlesRepairedKeeps(sw, e, key, now, grace, policy);
    case OpenInterestRepaired(_, _, _) => OpenInterestRepairedKeeps(sw, e, key, now, grace, policy);
    case AttemptConcluded(_) => ConcludedKeeps(sw, e, key, now, grace, policy);
    case ResultRecorded(loopNow) => RecordKeeps(sw, loopNow, key, now, policy);
  }

  lemma StartupKeeps(sw: Admitted, key: StreamKey, now: int)
    requires Inv(sw, key, now) && HeldBack(sw.facts)
    ensures var after := Merge(sw, Signal(key, StartupReconciliation, now, None));
            Inv(after, key, now) && Grown(sw, after)
  {
    MergeKeeps(sw, Signal(key, StartupReconciliation, now, None), key.Step());
  }

  lemma MarkKeeps(sw: Admitted, key: StreamKey, now: int, grace: nat, policy: RetryPolicy)
    requires Inv(sw, key, now)
    ensures var after := StreamStep(sw, LiveCommitMarked, key, now, grace, policy);
            Inv(after, key, now) && Grown(sw, after)
  {
    var after := StreamStep(sw, LiveCommitMarked, key, now, grace, policy);
    if sw.intent.Some? {
      if sw.intent.value.window.Some? {
        CursorCarries(sw, after, sw.intent.value.window.value, sw.intent.value.earliest, key.Step());
      }
      if sw.attempt.Some? {
        PhaseCarries(sw, after, sw.attempt.value.phase, sw.attempt.value.signal.start, key.Step());
      }
    }
  }
}
