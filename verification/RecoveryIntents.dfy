// One recovery intent per stream and its pass through the worker
// (src/market_data_service/runtime/realtime_recovery_intent.py, realtime_recovery_worker.py).

module RecoveryIntents {
  import opened Optional
  import opened Grid
  import opened Windows
  import opened Streams
  import opened Repair
  import opened RealtimeFacts
  import opened RealtimeRecovery

  predicate IsBackground(signal: Signal) { signal.reason == Stale }

  /** The value of an intent: what must be reconciled, and the execution cursor of its revision. */
  datatype Intent = Intent(
    stream: StreamKey,
    reason: RecoveryReason,
    detectedAt: int,
    earliest: Option<int>,
    urgent: bool,
    revision: nat,
    dueAt: real,
    attempts: nat,
    window: Option<TimeWindow>,
    marker: Option<ProgressMarker>,
    retryNeeded: bool,
    notifyOpen: Option<int>)
  {
    function RequestSignal(): Signal { Signal(stream, reason, detectedAt, earliest) }
  }

  function FromSignal(s: Signal): Intent
  {
    Intent(s.stream, s.reason, s.detectedAt, s.start, !IsBackground(s), 0, 0.0, 0, None, None, false, None)
  }

  predicate Earlier(intent: Intent, s: Signal)
  {
    s.start.Some? && (intent.earliest.None? || s.start.value < intent.earliest.value)
  }

  predicate Escalates(intent: Intent, s: Signal) { !IsBackground(s) && !intent.urgent }

  /** A signal changes the requirement when it starts earlier or makes the intent urgent; a change
      counts a revision and drops the cursor and the backoff. */
  function Absorb(intent: Intent, s: Signal): Intent
  {
    var earliest := if Earlier(intent, s) then s.start else intent.earliest;
    var reason := if Escalates(intent, s) then s.reason else intent.reason;
    if Earlier(intent, s) || Escalates(intent, s) then
      intent.(earliest := earliest, reason := reason, urgent := intent.urgent || Escalates(intent, s),
              revision := intent.revision + 1, dueAt := 0.0, attempts := 0, window := None, marker := None)
    else intent
  }

  // ---- Merging a whole episode ----

  function AbsorbAll(signals: seq<Signal>): Intent
    requires signals != []
  {
    if |signals| == 1 then FromSignal(signals[0])
    else Absorb(AbsorbAll(signals[..|signals| - 1]), signals[|signals| - 1])
  }

  /** The requirement of an episode, said over its signals: the start is the least of all hints, and
      it is urgent exactly when some signal was not a stale one. */
  ghost predicate MeetsAll(earliest: Option<int>, urgent: bool, signals: seq<Signal>)
  {
    && (earliest.None? <==> forall i :: 0 <= i < |signals| ==> signals[i].start.None?)
    && (earliest.Some? ==>
          && (forall i :: 0 <= i < |signals| && signals[i].start.Some? ==> earliest.value <= signals[i].start.value)
          && (exists i :: 0 <= i < |signals| && signals[i].start == earliest))
    && (urgent <==> exists i :: 0 <= i < |signals| && signals[i].reason != Stale)
  }

  /** A new intent asks for what its one signal says, at once and with nothing carried. */
  lemma FromSignalMeets(s: Signal)
    ensures MeetsAll(FromSignal(s).earliest, FromSignal(s).urgent, [s])
    ensures var intent := FromSignal(s);
            && intent.stream == s.stream && intent.reason == s.reason && intent.detectedAt == s.detectedAt
            && intent.dueAt == 0.0 && intent.attempts == 0 && intent.window.None? && intent.marker.None?
            && !intent.retryNeeded && intent.notifyOpen.None?
  {
    assert [s][0] == s;
  }

  lemma AbsorbMeets(intent: Intent, signals: seq<Signal>, s: Signal)
    requires MeetsAll(intent.earliest, intent.urgent, signals)
    ensures MeetsAll(Absorb(intent, s).earliest, Absorb(intent, s).urgent, signals + [s])
  {
    var all, n := signals + [s], |signals|;
    var after := Absorb(intent, s);
    assert all[n] == s && forall i :: 0 <= i < n ==> all[i] == signals[i];
    if intent.earliest.Some? {
      var i :| 0 <= i < n && signals[i].start == intent.earliest;
      assert all[i].start == intent.earliest;
    }
    if intent.urgent {
      var i :| 0 <= i < n && signals[i].reason != Stale;
      assert all[i].reason != Stale;
    }
  }

  /** Merging keeps exactly the requirement of the whole episode, in any number of signals. */
  lemma {:induction false} AbsorbAllMeets(signals: seq<Signal>)
    requires signals != []
    ensures MeetsAll(AbsorbAll(signals).earliest, AbsorbAll(signals).urgent, signals)
  {
    var front, last := signals[..|signals| - 1], signals[|signals| - 1];
    assert signals == front + [last];
    if front == [] {
      FromSignalMeets(last);
      assert signals == [last];
    } else {
      AbsorbAllMeets(front);
      AbsorbMeets(AbsorbAll(front), front, last);
    }
  }

  /** The revision moves exactly when start or urgency does, so an unchanged revision means an
      unchanged requirement; and whenever it moves, cursor and backoff are gone. The reason is replaced
      only by one that makes the intent urgent, and the rest of the intent stays. */
  lemma RevisionTracksRequirement(intent: Intent, s: Signal)
    ensures var after := Absorb(intent, s);
            && (after.revision == intent.revision <==> after == intent)
            && (after.revision == intent.revision <==> after.earliest == intent.earliest && after.urgent == intent.urgent)
            && (after.revision != intent.revision ==> after.revision == intent.revision + 1 && after.window.None? && after.marker.None?)
            && (after.revision != intent.revision ==> after.dueAt == 0.0 && after.attempts == 0)
            && after.reason == (if !intent.urgent && s.reason != Stale then s.reason else intent.reason)
            && after.stream == intent.stream && after.detectedAt == intent.detectedAt
            && after.retryNeeded == intent.retryNeeded && after.notifyOpen == intent.notifyOpen
            && (after.earliest.Some? && intent.earliest.Some? ==> after.earliest.value <= intent.earliest.value)
            && (intent.urgent ==> after.urgent)
  {
  }

  // ---- After an attempt ----

  /** Retry timing: doubling for urgent work, two fixed pauses for background work. */
  datatype RetryPolicy = RetryPolicy(baseBackoff: real, maxBackoff: real, staleFirst: real, staleNext: real)

  function Doubled(base: real, times: nat): real { if times == 0 then base else 2.0 * Doubled(base, times - 1) }

  function RetryDelay(intent: Intent, policy: RetryPolicy): real
  {
    if intent.urgent then
      var backoff := Doubled(policy.baseBackoff, intent.attempts);
      if backoff <= policy.maxBackoff then backoff else policy.maxBackoff
    else if intent.attempts == 0 then policy.staleFirst
    else policy.staleNext
  }

  function Delayed(intent: Intent, policy: RetryPolicy, now: real): Intent
  {
    var delay := RetryDelay(intent, policy);
    intent.(attempts := intent.attempts + 1, dueAt := if delay == 0.0 then 0.0 else now + delay)
  }

  /** The episode after one attempt: the intent as it stands, and whether it stays. */
  function AfterAttempt(intent: Intent, startedRevision: nat, result: RecoveryResult, policy: RetryPolicy, now: real): (Intent, bool)
  {
    var marked := if result.work.committed > 0 then intent.(retryNeeded := true) else intent;
    if result.classification == FatalFailure then (marked, false)
    else if intent.revision != startedRevision then (marked, true)
    else if result.classification == Restored then
      (if marked.retryNeeded then marked.(notifyOpen := result.restoredThrough) else marked, false)
    else if result.classification == IncompleteRecovery then
      var moved := marked.(window := if result.next.Some? then result.next else result.window,
                           marker := result.work.marker);
      var progressed := result.MadeProgress() || (marked.marker.Some? && result.work.marker != marked.marker);
      (if progressed then moved.(attempts := 0, dueAt := 0.0) else Delayed(moved, policy, now), true)
    else (Delayed(marked, policy, now), true)
  }

  /** Whether the supervisor is told of a restoration. */
  predicate ReportsRestored(intent: Intent, startedRevision: nat, result: RecoveryResult)
  {
    result.classification == Restored && intent.revision == startedRevision
  }

  /** The result was a step forward: a window proven, bars stored or corrected, or another marker. */
  predicate SteppedForward(before: Intent, result: RecoveryResult)
  {
    || result.next.Some? || result.work.committed > 0 || result.work.corrected > 0
    || (before.marker.Some? && before.marker != result.work.marker)
  }

  /** What an attempt leaves of its episode. Only a fatal failure and an unchanged restored attempt end
      it. An unchanged incomplete attempt carries what is left to do: the bars closed since its window
      was proven, or else that window again, and it is due at once after a step forward. An attempt that
      can be tried again keeps its cursor. Without a step forward the next one is delayed. */
  lemma AfterAttemptSays(before: Intent, startedRevision: nat, result: RecoveryResult, policy: RetryPolicy, now: real)
    ensures var (after, stays) := AfterAttempt(before, startedRevision, result, policy, now);
            var same := before.revision == startedRevision;
            var kind := result.classification;
            && (stays <==> kind != FatalFailure && !(same && kind == Restored))
            && after.stream == before.stream && after.earliest == before.earliest && after.urgent == before.urgent
            && after.reason == before.reason && after.detectedAt == before.detectedAt && after.revision == before.revision
            && after.retryNeeded == (before.retryNeeded || result.work.committed > 0)
            && after.notifyOpen == (if same && kind == Restored && after.retryNeeded then result.restoredThrough else before.notifyOpen)
            && (same && kind == IncompleteRecovery ==>
                  && after.window == (if result.next.Some? then result.next else result.window)
                  && after.marker == result.work.marker)
            && (!same || kind != IncompleteRecovery ==> after.window == before.window && after.marker == before.marker)
            && (stays && !same ==> after.attempts == before.attempts && after.dueAt == before.dueAt)
            && (stays && same && kind == IncompleteRecovery && SteppedForward(before, result) ==> after.attempts == 0 && after.dueAt == 0.0)
            && (stays && same && (kind == RecoverableFailure || !SteppedForward(before, result)) ==>
                  && after.attempts == before.attempts + 1
                  && after.dueAt == (if RetryDelay(before, policy) == 0.0 then 0.0 else now + RetryDelay(before, policy)))
  {
  }

  /** An attempt during which the requirement changed never reports a restoration, and ends the
      episode only by a fatal failure. */
  lemma ChangedAttemptNeverRestores(intent: Intent, startedRevision: nat, result: RecoveryResult, policy: RetryPolicy, now: real)
    requires intent.revision != startedRevision
    ensures !ReportsRestored(intent, startedRevision, result)
    ensures AfterAttempt(intent, startedRevision, result, policy, now).1 <==> result.classification != FatalFailure
    ensures AfterAttempt(intent, startedRevision, result, policy, now).0
            == intent.(retryNeeded := intent.retryNeeded || result.work.committed > 0)
  {
  }

  lemma {:induction false} DoublingGrows(base: real, times: nat)
    requires base > 0.0
    ensures Doubled(base, times) >= base && Doubled(base, times + 1) == 2.0 * Doubled(base, times)
  {
    if times > 0 {
      DoublingGrows(base, times - 1);
    }
  }

  /** The retry times: urgent work starts at the base pause and doubles it up to the cap, background
      work pauses for one fixed time and then always for another. */
  lemma RetryDelaySays(intent: Intent, policy: RetryPolicy)
    requires 0.0 < policy.baseBackoff && 0.0 <= policy.maxBackoff
    ensures var delay := RetryDelay(intent, policy);
            var longer := RetryDelay(intent.(attempts := intent.attempts + 1), policy);
            && (intent.urgent && intent.attempts == 0 ==> delay == LesserOf(policy.baseBackoff, policy.maxBackoff))
            && (intent.urgent ==> longer == LesserOf(2.0 * delay, policy.maxBackoff))
            && (!intent.urgent && intent.attempts == 0 ==> delay == policy.staleFirst)
            && (!intent.urgent ==> longer == policy.staleNext)
  {
    DoublingGrows(policy.baseBackoff, intent.attempts);
  }

  function LesserOf(a: real, b: real): real { if a <= b then a else b }

  /** An urgent intent that makes no progress waits longer each time, never less than the base and
      never more than the cap. */
  lemma UrgentDelayBounds(intent: Intent, policy: RetryPolicy)
    requires intent.urgent && 0.0 < policy.baseBackoff <= policy.maxBackoff
    ensures policy.baseBackoff <= RetryDelay(intent, policy) <= policy.maxBackoff
    ensures RetryDelay(intent, policy) <= RetryDelay(intent.(attempts := intent.attempts + 1), policy)
  {
    DoublingGrows(policy.baseBackoff, intent.attempts);
    DoublingGrows(policy.baseBackoff, intent.attempts + 1);
  }
}
