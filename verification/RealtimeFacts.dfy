// Realtime supervision facts and their updates
// (src/market_data_service/application/realtime/frontier.py, supervisor_types.py, supervisor_state.py,
//  events.py, outcomes.py).

module RealtimeFacts {
  import opened Optional
  import opened Grid
  import opened Streams

  datatype RecoveryReason = StartupReconciliation | Disconnected | Stale | SequenceDiscontinuity | RejectedObservation

  /** A request to recover one stream, with the bar it should start from when one is suspected. */
  datatype Signal = Signal(stream: StreamKey, reason: RecoveryReason, detectedAt: int, start: Option<int>)

  datatype Outcome = CommittedOutcome | DuplicateOutcome | CorrectedOutcome | RejectedOutcome | FailedOutcome

  datatype Status = ExpectedStatus | SubscribedStatus | LiveStatus | StaleStatus | DisconnectedStatus
                  | RecoveryRequiredStatus | FailedStatus | StoppedStatus

  /** What the supervisor knows of one stream; a frontier is the last bar of proven continuity. */
  datatype Facts = Facts(
    status: Status,
    subscriptionActive: bool,
    candleFrontier: Option<int>,
    openInterestFrontier: Option<int>,
    openInterestRequired: bool,
    lastChecked: Option<int>,
    pendingExpected: Option<int>,
    recoveryPending: bool,
    recoveryRestored: bool,
    recoveryCompletedAt: Option<int>,
    fatal: bool,
    expected: Option<int>)
  {
    /** The lower frontier of the required tracks. */
    function Frontier(): Option<int>
    {
      if !openInterestRequired then candleFrontier
      else if candleFrontier.None? || openInterestFrontier.None? then None
      else Some(Min(candleFrontier.value, openInterestFrontier.value))
    }

    predicate Current()
    {
      expected.Some? && Frontier().Some? && Frontier().value >= expected.value
    }

    predicate DataReady()
    {
      subscriptionActive && recoveryRestored && !recoveryPending && !fatal && Current()
    }

    predicate PublishedThrough(openTime: int)
    {
      DataReady() && Frontier().Some? && Frontier().value >= openTime
    }
  }

  /** The source reads an absent value and zero alike before falling back. */
  function OrElse(value: Option<int>, fallback: int): int
  {
    if value.None? || value.value == 0 then fallback else value.value
  }

  // ---- Frontier arithmetic ----

  function ExtendFrontier(previous: Option<int>, openTime: int, step: int): int
  {
    if previous.Some? && openTime > previous.value + step then previous.value
    else Max(OrElse(previous, openTime), openTime)
  }

  function AdvanceFrontier(current: Option<int>, restoredThrough: Option<int>): Option<int>
  {
    if current.None? then restoredThrough
    else Some(Max(current.value, OrElse(restoredThrough, current.value)))
  }

  /** A live point moves a proven frontier by at most one bar, and only onto the very next one. */
  lemma ExtendsOnlyByTheNextBar(previous: int, openTime: int, step: int)
    requires step > 0 && OnGrid(previous, step) && OnGrid(openTime, step) && previous >= 0 && openTime >= 0
    ensures ExtendFrontier(Some(previous), openTime, step) == if openTime == previous + step then previous + step else previous
  {
    NextOnGrid(previous, step);
    if previous < openTime {
      GridSpacing(previous, openTime, step);
    }
  }

  /** A restored frontier never moves back, whatever the attempt reports. */
  lemma AdvanceTakesTheLater(current: int, restoredThrough: int)
    requires current >= 0 && restoredThrough >= 0
    ensures AdvanceFrontier(Some(current), Some(restoredThrough)) == Some(Max(current, restoredThrough))
  {
  }

  // ---- Updates ----

  function RecordSuccess(f: Facts, openTime: int, step: int): Facts
  {
    f.(status := LiveStatus, candleFrontier := Some(ExtendFrontier(f.candleFrontier, openTime, step)))
  }

  function RecordRejected(f: Facts): Facts
  {
    f.(status := RecoveryRequiredStatus, recoveryPending := true, recoveryRestored := false)
  }

  function RecordFailed(f: Facts): Facts
  {
    f.(status := FailedStatus, fatal := true)
  }

  function RequireRecovery(f: Facts, status: Status, expectedBar: Option<int>): Facts
  {
    f.(status := status, recoveryPending := true, recoveryRestored := false,
       pendingExpected := if expectedBar.Some? then expectedBar else f.pendingExpected)
  }

  /** The bar marked as checked is the one expected when the signal was raised. */
  function CommitChecked(f: Facts): Option<int>
  {
    if f.pendingExpected.None? then f.lastChecked
    else if f.lastChecked.None? then f.pendingExpected
    else Some(Max(f.lastChecked.value, f.pendingExpected.value))
  }

  function RecordRecoveryResult(f: Facts, restored: bool, fatal: bool, completedAt: int, restoredThrough: Option<int>): Facts
  {
    if fatal then
      f.(status := FailedStatus, recoveryPending := false, recoveryRestored := false, fatal := true)
    else
      f.(status := if restored && f.subscriptionActive then SubscribedStatus else RecoveryRequiredStatus,
         recoveryPending := !restored,
         recoveryRestored := restored,
         recoveryCompletedAt := if restored then Some(completedAt) else None,
         lastChecked := if restored then CommitChecked(f) else f.lastChecked,
         pendingExpected := if restored then None else f.pendingExpected,
         candleFrontier := if restored then Some(OrElse(AdvanceFrontier(f.candleFrontier, restoredThrough), 0)) else f.candleFrontier,
         openInterestFrontier := if restored && f.openInterestRequired then AdvanceFrontier(f.openInterestFrontier, restoredThrough)
                                 else f.openInterestFrontier)
  }

  function MarkDisconnected(f: Facts): Facts
  {
    f.(status := DisconnectedStatus, subscriptionActive := false, recoveryRestored := false)
  }

  function MarkStopped(f: Facts): Facts
  {
    f.(status := StoppedStatus, subscriptionActive := false)
  }

  function Subscribe(f: Facts): Facts
  {
    f.(status := SubscribedStatus, subscriptionActive := true)
  }

  // ---- Reactions: the new facts and the signals raised ----

  /** A signal starts no later than the bar after proven continuity of every track. */
  function SignalFor(f: Facts, stream: StreamKey, reason: RecoveryReason, now: int, suspected: Option<int>): Signal
  {
    var start :=
      if f.Frontier().Some? then
        var provenNext := f.Frontier().value + stream.Step();
        Some(Min(OrElse(suspected, provenNext), provenNext))
      else suspected;
    Signal(stream, reason, now, start)
  }

  function ObserveOutcome(f: Facts, stream: StreamKey, openTime: int, outcome: Outcome, now: int): (Facts, seq<Signal>)
  {
    match outcome
    case FailedOutcome => (RecordFailed(f), [])
    case RejectedOutcome =>
      var g := RecordRejected(f);
      (g, [SignalFor(g, stream, RejectedObservation, now, Some(openTime))])
    case _ =>
      var g := RecordSuccess(f, openTime, stream.Step());
      if f.candleFrontier.Some? && openTime > f.candleFrontier.value + stream.Step() then
        var h := RequireRecovery(g, RecoveryRequiredStatus, None);
        (h, [SignalFor(h, stream, SequenceDiscontinuity, now, Some(f.candleFrontier.value + stream.Step()))])
      else (g, [])
  }

  function ObserveOpenInterest(f: Facts, stream: StreamKey, openTime: int, now: int): (Facts, seq<Signal>)
  {
    var g := f.(openInterestFrontier := Some(ExtendFrontier(f.openInterestFrontier, openTime, stream.Step())));
    if f.openInterestFrontier.Some? && openTime > f.openInterestFrontier.value + stream.Step() then
      var h := RequireRecovery(g, RecoveryRequiredStatus, None);
      (h, [SignalFor(h, stream, SequenceDiscontinuity, now, Some(f.openInterestFrontier.value + stream.Step()))])
    else (g, [])
  }

  /** The bar that must be there by now: the last one closed a grace period ago. */
  function ExpectedOpen(stream: StreamKey, now: int, grace: int): (bar: int)
    ensures LastClosedBy(bar, now - grace, stream.Step())
  {
    PreviousOnGrid(AlignToGrid(now - grace, stream.Step()), stream.Step());
    AlignToGrid(now - grace, stream.Step()) - stream.Step()
  }

  function AsOfNow(f: Facts, stream: StreamKey, now: int, grace: int): Facts
  {
    f.(expected := Some(ExpectedOpen(stream, now, grace)))
  }

  /** The expected bar is missing, nobody is working on it, and it was not checked before. */
  predicate RaisesStale(f: Facts, stream: StreamKey, now: int, grace: int)
  {
    && f.subscriptionActive && !f.recoveryPending && !f.fatal
    && f.Frontier().Some? && f.Frontier().value < ExpectedOpen(stream, now, grace)
    && (f.lastChecked.None? || ExpectedOpen(stream, now, grace) > f.lastChecked.value)
  }

  function DetectStale(f: Facts, stream: StreamKey, now: int, grace: int): (Facts, seq<Signal>)
  {
    if RaisesStale(f, stream, now, grace) then
      var g := RequireRecovery(f, StaleStatus, Some(ExpectedOpen(stream, now, grace)));
      (g, [SignalFor(g, stream, Stale, now, Some(f.Frontier().value + stream.Step()))])
    else (f, [])
  }

  function Confirm(f: Facts, stream: StreamKey, now: int, afterDisconnect: bool): (Facts, seq<Signal>)
  {
    var g := Subscribe(f);
    if afterDisconnect then
      var h := RequireRecovery(g, RecoveryRequiredStatus, None);
      (h, [SignalFor(h, stream, Disconnected, now, None)])
    else (g, [])
  }

  /** Every supervisor signal for a stream with a frontier starts no later than the bar after it. */
  lemma SignalStartBounded(f: Facts, stream: StreamKey, reason: RecoveryReason, now: int, suspected: Option<int>)
    requires f.Frontier().Some?
    ensures SignalFor(f, stream, reason, now, suspected).start.Some?
    ensures SignalFor(f, stream, reason, now, suspected).start.value <= f.Frontier().value + stream.Step()
  {
  }

  // ---- What the updates mean, field by field ----

  predicate Reaches(frontier: Option<int>, bar: int) { frontier.Some? && frontier.value >= bar }

  /** Every required track has come as far as a bar. */
  predicate TracksReach(f: Facts, bar: int)
  {
    Reaches(f.candleFrontier, bar) && (f.openInterestRequired ==> Reaches(f.openInterestFrontier, bar))
  }

  predicate TracksKnown(f: Facts)
  {
    f.candleFrontier.Some? && (f.openInterestRequired ==> f.openInterestFrontier.Some?)
  }

  predicate Settled(f: Facts)
  {
    f.subscriptionActive && f.recoveryRestored && !f.recoveryPending && !f.fatal
  }

  lemma ExpectedExactly(stream: StreamKey, now: int, grace: int, bar: int)
    requires LastClosedBy(bar, now - grace, stream.Step())
    ensures ExpectedOpen(stream, now, grace) == bar
  {
    LastClosedExactly(bar, now - grace, stream.Step());
    LastClosedExactly(ExpectedOpen(stream, now, grace), now - grace, stream.Step());
  }

  /** A stream is data-ready exactly when it is settled and every required track has reached the last
      bar closed a grace period ago. */
  lemma DataReadyExactlyWhen(f: Facts, stream: StreamKey, now: int, grace: int, bar: int)
    requires LastClosedBy(bar, now - grace, stream.Step())
    ensures AsOfNow(f, stream, now, grace).DataReady() <==> Settled(f) && TracksReach(f, bar)
  {
    ExpectedExactly(stream, now, grace, bar);
  }

  /** A bar can be announced exactly when, besides, every required track has reached it. */
  lemma AnnouncedExactlyWhen(f: Facts, stream: StreamKey, now: int, grace: int, bar: int, openTime: int)
    requires LastClosedBy(bar, now - grace, stream.Step())
    ensures AsOfNow(f, stream, now, grace).PublishedThrough(openTime)
            <==> Settled(f) && TracksReach(f, bar) && TracksReach(f, openTime)
  {
    ExpectedExactly(stream, now, grace, bar);
  }

  /** The bar after the least frontier of the required tracks. */
  predicate AfterProof(f: Facts, step: int, bar: int)
  {
    && TracksReach(f, bar - step)
    && (f.candleFrontier == Some(bar - step) || (f.openInterestRequired && f.openInterestFrontier == Some(bar - step)))
  }

  /** A signal starts at the suspected bar or the bar after proof, whichever is earlier; without proof
      at the suspected one. */
  lemma SignalStartsExactly(f: Facts, stream: StreamKey, reason: RecoveryReason, now: int, suspected: Option<int>, next: int)
    ensures var s := SignalFor(f, stream, reason, now, suspected); s.stream == stream && s.reason == reason && s.detectedAt == now
    ensures !TracksKnown(f) ==> SignalFor(f, stream, reason, now, suspected).start == suspected
    ensures AfterProof(f, stream.Step(), next) ==>
              SignalFor(f, stream, reason, now, suspected).start
              == if suspected.None? || suspected.value == 0 || suspected.value > next then Some(next) else suspected
  {
  }

  /** A subscribed, unfailed stream nobody is recovering whose known tracks have not all reached a bar
      that was not checked before. */
  predicate Overdue(f: Facts, bar: int)
  {
    && f.subscriptionActive && !f.recoveryPending && !f.fatal && TracksKnown(f) && !TracksReach(f, bar)
    && (f.lastChecked.None? || f.lastChecked.value < bar)
  }

  /** STALE is raised exactly for a stream overdue at the last bar closed a grace period ago, from the
      bar after proof. */
  lemma StaleExactlyWhen(f: Facts, stream: StreamKey, now: int, grace: int, bar: int)
    requires LastClosedBy(bar, now - grace, stream.Step())
    ensures var (after, signals) := DetectStale(f, stream, now, grace);
            && (signals != [] <==> Overdue(f, bar))
            && (signals == [] ==> after == f)
            && (signals != [] ==>
                  && |signals| == 1 && signals[0].reason == Stale && signals[0].stream == stream && signals[0].start.Some?
                  && AfterProof(f, stream.Step(), signals[0].start.value)
                  && after == f.(status := StaleStatus, recoveryPending := true, recoveryRestored := false, pendingExpected := Some(bar)))
  {
    ExpectedExactly(stream, now, grace, bar);
  }

  /** A live point that is the very next bar moves its frontier there and asks for nothing; an older one
      leaves it; one past a hole leaves it too, and makes a recovery pending with one urgent signal. */
  lemma LiveCandleSays(f: Facts, stream: StreamKey, openTime: int, outcome: Outcome, now: int, previous: int)
    requires outcome != RejectedOutcome && outcome != FailedOutcome
    requires f.candleFrontier == Some(previous) && previous >= 0 && OnGrid(previous, stream.Step())
    requires openTime >= 0 && OnGrid(openTime, stream.Step())
    ensures var (after, signals) := ObserveOutcome(f, stream, openTime, outcome, now);
            var step := stream.Step();
            && (openTime == previous + step ==>
                  signals == [] && after == f.(status := LiveStatus, candleFrontier := Some(previous + step)))
            && (openTime <= previous ==> signals == [] && after == f.(status := LiveStatus))
            && (openTime > previous + step ==>
                  && after == f.(status := RecoveryRequiredStatus, recoveryPending := true, recoveryRestored := false)
                  && |signals| == 1 && signals[0].stream == stream && signals[0].reason == SequenceDiscontinuity
                  && signals[0].start.Some? && signals[0].start.value <= previous + step)
  {
    ExtendsOnlyByTheNextBar(previous, openTime, stream.Step());
  }

  lemma LiveOpenInterestSays(f: Facts, stream: StreamKey, openTime: int, now: int, previous: int)
    requires f.openInterestFrontier == Some(previous) && previous >= 0 && OnGrid(previous, stream.Step())
    requires openTime >= 0 && OnGrid(openTime, stream.Step())
    ensures var (after, signals) := ObserveOpenInterest(f, stream, openTime, now);
            var step := stream.Step();
            && (openTime == previous + step ==> signals == [] && after == f.(openInterestFrontier := Some(previous + step)))
            && (openTime <= previous ==> signals == [] && after == f)
            && (openTime > previous + step ==>
                  && after == f.(status := RecoveryRequiredStatus, recoveryPending := true, recoveryRestored := false)
                  && |signals| == 1 && signals[0].stream == stream && signals[0].reason == SequenceDiscontinuity)
  {
    ExtendsOnlyByTheNextBar(previous, openTime, stream.Step());
  }

  /** The first point of a track is where its proof starts. */
  lemma FirstPointSays(f: Facts, stream: StreamKey, openTime: int, outcome: Outcome, now: int)
    ensures f.candleFrontier.None? && outcome != RejectedOutcome && outcome != FailedOutcome ==>
              ObserveOutcome(f, stream, openTime, outcome, now) == (f.(status := LiveStatus, candleFrontier := Some(openTime)), [])
    ensures f.openInterestFrontier.None? ==>
              ObserveOpenInterest(f, stream, openTime, now) == (f.(openInterestFrontier := Some(openTime)), [])
  {
  }

  /** A failed outcome ends the stream and asks for nothing; a rejected one moves no frontier and asks,
      urgently, for the bar it was about or the one after proof. */
  lemma BadOutcomesSay(f: Facts, stream: StreamKey, openTime: int, now: int, next: int)
    ensures ObserveOutcome(f, stream, openTime, FailedOutcome, now) == (f.(status := FailedStatus, fatal := true), [])
    ensures var (after, signals) := ObserveOutcome(f, stream, openTime, RejectedOutcome, now);
            && after == f.(status := RecoveryRequiredStatus, recoveryPending := true, recoveryRestored := false)
            && |signals| == 1 && signals[0].stream == stream && signals[0].reason == RejectedObservation
            && (AfterProof(f, stream.Step(), next) ==>
                  signals[0].start == if openTime == 0 || openTime > next then Some(next) else Some(openTime))
  {
    SignalStartsExactly(RecordRejected(f), stream, RejectedObservation, now, Some(openTime), next);
  }

  /** A confirmation subscribes; after a disconnect it also makes a recovery pending from the bar after
      proof, with one urgent signal. */
  lemma ConfirmationSays(f: Facts, stream: StreamKey, now: int, next: int)
    ensures Confirm(f, stream, now, false) == (f.(status := SubscribedStatus, subscriptionActive := true), [])
    ensures var (after, signals) := Confirm(f, stream, now, true);
            && after == f.(status := RecoveryRequiredStatus, subscriptionActive := true, recoveryPending := true, recoveryRestored := false)
            && |signals| == 1 && signals[0].stream == stream && signals[0].reason == Disconnected
            && (AfterProof(f, stream.Step(), next) ==> signals[0].start == Some(next))
  {
  }

  /** The later of two bars, one of which may be unknown. */
  predicate IsLater(later: Option<int>, a: Option<int>, b: Option<int>)
  {
    && (later.None? <==> a.None? && b.None?)
    && (later.Some? ==> (later == a || later == b) && (a.Some? ==> a.value <= later.value) && (b.Some? ==> b.value <= later.value))
  }

  /** A result that is neither restored nor fatal leaves the recovery pending and everything else; a
      restored one brings each required track to the later of its frontier and the restored bar, marks
      exactly the bar recorded at signal time, and settles a subscribed stream; a fatal one ends it. */
  lemma RecoveryResultSays(f: Facts, restored: bool, completedAt: int, through: int)
    requires (f.candleFrontier.Some? ==> f.candleFrontier.value >= 0) && (f.openInterestFrontier.Some? ==> f.openInterestFrontier.value >= 0)
    requires through >= 0
    ensures RecordRecoveryResult(f, restored, true, completedAt, Some(through))
            == f.(status := FailedStatus, recoveryPending := false, recoveryRestored := false, fatal := true)
    ensures RecordRecoveryResult(f, false, false, completedAt, Some(through))
            == f.(status := RecoveryRequiredStatus, recoveryPending := true, recoveryRestored := false, recoveryCompletedAt := None)
    ensures var after := RecordRecoveryResult(f, true, false, completedAt, Some(through));
            && IsLater(after.candleFrontier, f.candleFrontier, Some(through))
            && IsLater(after.openInterestFrontier, f.openInterestFrontier, if f.openInterestRequired then Some(through) else None)
            && IsLater(after.lastChecked, f.lastChecked, f.pendingExpected) && after.pendingExpected.None?
            && !after.recoveryPending && after.recoveryRestored && after.recoveryCompletedAt == Some(completedAt)
            && after.status == (if f.subscriptionActive then SubscribedStatus else RecoveryRequiredStatus)
            && after.subscriptionActive == f.subscriptionActive && after.fatal == f.fatal
            && after.openInterestRequired == f.openInterestRequired
  {
  }
}
