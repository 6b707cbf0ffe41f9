// The in-memory supervisor (src/market_data_service/application/realtime/supervisor.py) and the
// publication gate on top of it (src/market_data_service/runtime/open_interest_publication.py).

module Supervision {
  import opened Optional
  import opened Grid
  import opened Streams
  import opened RealtimeFacts

  /** Both frontiers, and what is known of recovery, as before. */
  predicate KeepsProof(before: Facts, after: Facts)
  {
    && after.candleFrontier == before.candleFrontier && after.openInterestFrontier == before.openInterestFrontier
    && after.openInterestRequired == before.openInterestRequired
    && after.recoveryPending == before.recoveryPending && after.pendingExpected == before.pendingExpected
    && after.lastChecked == before.lastChecked && after.fatal == before.fatal
  }

  /** Not behind, for a frontier that is set. */
  predicate NotBehind(frontier: Option<int>, after: Option<int>)
  {
    frontier.Some? && frontier.value >= 0 ==> after.Some? && frontier.value <= after.value
  }

  /** Settled, and every required track has reached both the bar and the last one due. */
  predicate Announceable(f: Facts, due: int, openTime: int)
  {
    Settled(f) && TracksReach(f, due) && TracksReach(f, openTime)
  }

  predicate Signalled(signals: seq<Signal>, stream: StreamKey)
  {
    exists i :: 0 <= i < |signals| && signals[i].stream == stream
  }

  class RealtimeSupervisor {
    const streams: seq<StreamKey>
    const grace: nat
    var facts: map<StreamKey, Facts>
    var disconnected: bool

    ghost predicate Valid()
      reads this
    {
      && (forall s :: s in streams <==> s in facts)
      && (forall i, j :: 0 <= i < j < |streams| ==> streams[i] != streams[j])
    }

    /** Streams named in the open interest table are the flagged ones. */
    constructor (streams: seq<StreamKey>, grace: nat, latest: map<StreamKey, Option<int>>, openInterest: map<StreamKey, Option<int>>)
      requires streams != [] && forall i, j :: 0 <= i < j < |streams| ==> streams[i] != streams[j]
      ensures Valid() && this.streams == streams && this.grace == grace && !disconnected
      ensures forall s :: s in streams ==>
                facts[s] == Facts(ExpectedStatus, false, if s in latest then latest[s] else None,
                                  if s in openInterest then openInterest[s] else None, s in openInterest,
                                  None, None, false, false, None, false, None)
    {
      this.streams := streams;
      this.grace := grace;
      disconnected := false;
      facts := map s | s in streams ::
        Facts(ExpectedStatus, false, if s in latest then latest[s] else None,
              if s in openInterest then openInterest[s] else None, s in openInterest,
              None, None, false, false, None, false, None);
    }

    method OnOutcome(stream: StreamKey, openTime: int, outcome: Outcome, now: int) returns (signals: seq<Signal>)
      requires Valid() && stream in facts
      modifies this`facts
      ensures Valid()
      ensures facts == old(facts)[stream := ObserveOutcome(old(facts[stream]), stream, openTime, outcome, now).0]
      ensures signals == ObserveOutcome(old(facts[stream]), stream, openTime, outcome, now).1
      ensures var before := old(facts[stream]).candleFrontier;
              outcome != RejectedOutcome && outcome != FailedOutcome && before.Some? && openTime > before.value + stream.Step() ==>
                && facts[stream].candleFrontier == before && facts[stream].recoveryPending
                && |signals| == 1 && signals[0].start.Some? && signals[0].start.value <= before.value + stream.Step()
    {
      if outcome == FailedOutcome {
        facts := facts[stream := RecordFailed(facts[stream])];
        return [];
      }
      if outcome == RejectedOutcome {
        facts := facts[stream := RecordRejected(facts[stream])];
        return [SignalFor(facts[stream], stream, RejectedObservation, now, Some(openTime))];
      }
      var previous := facts[stream].candleFrontier;
      facts := facts[stream := RecordSuccess(facts[stream], openTime, stream.Step())];
      if previous.Some? && openTime > previous.value + stream.Step() {
        facts := facts[stream := RequireRecovery(facts[stream], RecoveryRequiredStatus, None)];
        return [SignalFor(facts[stream], stream, SequenceDiscontinuity, now, Some(previous.value + stream.Step()))];
      }
      return [];
    }

    method OnOpenInterest(stream: StreamKey, openTime: int, now: int) returns (signals: seq<Signal>)
      requires Valid() && stream in facts
      modifies this`facts
      ensures Valid()
      ensures facts == old(facts)[stream := ObserveOpenInterest(old(facts[stream]), stream, openTime, now).0]
      ensures signals == ObserveOpenInterest(old(facts[stream]), stream, openTime, now).1
      ensures var before := old(facts[stream]).openInterestFrontier;
              before.Some? && openTime > before.value + stream.Step() ==>
                && facts[stream].openInterestFrontier == before && facts[stream].recoveryPending && |signals| == 1
    {
      var previous := facts[stream].openInterestFrontier;
      facts := facts[stream := facts[stream].(openInterestFrontier := Some(ExtendFrontier(previous, openTime, stream.Step())))];
      if previous.Some? && openTime > previous.value + stream.Step() {
        facts := facts[stream := RequireRecovery(facts[stream], RecoveryRequiredStatus, None)];
        return [SignalFor(facts[stream], stream, SequenceDiscontinuity, now, Some(previous.value + stream.Step()))];
      }
      return [];
    }

    method OnDisconnected()
      requires Valid()
      modifies this
      ensures Valid() && disconnected
      ensures facts == map s | s in old(facts) :: MarkDisconnected(old(facts)[s])
      ensures forall s :: s in facts ==> s in old(facts) && KeepsProof(old(facts)[s], facts[s])
      ensures forall s, now :: s in facts ==> !AsOfNow(facts[s], s, now, grace).DataReady()
    {
      disconnected := true;
      facts := map s | s in facts :: MarkDisconnected(facts[s]);
    }

    method OnStopped()
      requires Valid()
      modifies this`facts
      ensures Valid()
      ensures facts == map s | s in old(facts) :: MarkStopped(old(facts)[s])
      ensures forall s :: s in facts ==> s in old(facts) && KeepsProof(old(facts)[s], facts[s])
      ensures forall s, now :: s in facts ==> !AsOfNow(facts[s], s, now, grace).DataReady()
    {
      facts := map s | s in facts :: MarkStopped(facts[s]);
    }

    /** Signals the first streams of a confirmation raise, topic by topic. */
    static function Confirmations(before: map<StreamKey, Facts>, topics: seq<StreamKey>, now: int, afterDisconnect: bool):
      (map<StreamKey, Facts>, seq<Signal>)
      requires forall s :: s in topics ==> s in before
      ensures Confirmations(before, topics, now, afterDisconnect).0.Keys == before.Keys
    {
      if topics == [] then (before, []) else
        var (sofar, signals) := Confirmations(before, topics[..|topics| - 1], now, afterDisconnect);
        var s := topics[|topics| - 1];
        var (after, raised) := Confirm(sofar[s], s, now, afterDisconnect);
        (sofar[s := after], signals + raised)
    }

    /** A confirmation after a disconnect asks every confirmed stream to recover, once. */
    method OnSubscriptionsConfirmed(topics: seq<StreamKey>, now: int) returns (signals: seq<Signal>)
      requires Valid() && forall s :: s in topics ==> s in facts
      modifies this
      ensures Valid() && !disconnected
      ensures (facts, signals) == Confirmations(old(facts), topics, now, old(disconnected))
      ensures |signals| == if old(disconnected) then |topics| else 0
      ensures forall i :: 0 <= i < |signals| ==> signals[i].stream == topics[i] && signals[i].reason == Disconnected
      ensures facts.Keys == old(facts).Keys
      ensures forall s :: s in topics ==> s in facts && facts[s].subscriptionActive && (old(disconnected) ==> facts[s].recoveryPending)
      ensures forall s :: s in facts && s !in topics ==> facts[s] == old(facts)[s]
    {
      var restoredAfterDisconnect := disconnected;
      disconnected := false;
      signals := [];
      for i := 0 to |topics|
        invariant Valid() && !disconnected && facts.Keys == old(facts).Keys
        invariant (facts, signals) == Confirmations(old(facts), topics[..i], now, restoredAfterDisconnect)
      {
        assert topics[..i + 1][..i] == topics[..i];
        var raised := ConfirmStream(topics[i], now, restoredAfterDisconnect);
        signals := signals + raised;
      }
      assert topics[..|topics|] == topics;
      ConfirmationsSay(old(facts), topics, now, restoredAfterDisconnect);
    }

    /** Every confirmed stream is subscribed, and after a disconnect pending with one signal of its own;
        no other stream changes. */
    static lemma {:induction false} ConfirmationsSay(before: map<StreamKey, Facts>, topics: seq<StreamKey>, now: int, afterDisconnect: bool)
      requires forall s :: s in topics ==> s in before
      ensures var (facts, signals) := Confirmations(before, topics, now, afterDisconnect);
              && facts.Keys == before.Keys
              && |signals| == (if afterDisconnect then |topics| else 0)
              && (forall i :: 0 <= i < |signals| ==> signals[i].stream == topics[i] && signals[i].reason == Disconnected)
              && (forall s :: s in topics ==> s in facts && facts[s].subscriptionActive && (afterDisconnect ==> facts[s].recoveryPending))
              && (forall s :: s in before && s !in topics ==> facts[s] == before[s])
      decreases |topics|
    {
      if topics != [] {
        var front, last := topics[..|topics| - 1], topics[|topics| - 1];
        assert topics == front + [last];
        ConfirmationsSay(before, front, now, afterDisconnect);
        var sofar := Confirmations(before, front, now, afterDisconnect);
        ConfirmationSays(sofar.0[last], last, now, 0);
      }
    }

    method ConfirmStream(stream: StreamKey, now: int, afterDisconnect: bool) returns (raised: seq<Signal>)
      requires Valid() && stream in facts
      modifies this`facts
      ensures Valid()
      ensures facts == old(facts)[stream := Confirm(old(facts[stream]), stream, now, afterDisconnect).0]
      ensures raised == Confirm(old(facts[stream]), stream, now, afterDisconnect).1
    {
      facts := facts[stream := Subscribe(facts[stream])];
      if afterDisconnect {
        facts := facts[stream := RequireRecovery(facts[stream], RecoveryRequiredStatus, None)];
        return [SignalFor(facts[stream], stream, Disconnected, now, None)];
      }
      return [];
    }

    static function StaleSignals(before: map<StreamKey, Facts>, streams: seq<StreamKey>, now: int, grace: nat): seq<Signal>
      requires forall s :: s in streams ==> s in before
    {
      if streams == [] then [] else
        var s := streams[|streams| - 1];
        StaleSignals(before, streams[..|streams| - 1], now, grace) + DetectStale(before[s], s, now, grace).1
    }

    method CheckStream(stream: StreamKey, now: int) returns (raised: seq<Signal>)
      requires Valid() && stream in facts
      modifies this`facts
      ensures Valid()
      ensures facts == old(facts)[stream := DetectStale(old(facts[stream]), stream, now, grace).0]
      ensures raised == DetectStale(old(facts[stream]), stream, now, grace).1
    {
      var known := facts[stream];
      if RaisesStale(known, stream, now, grace) {
        facts := facts[stream := RequireRecovery(known, StaleStatus, Some(ExpectedOpen(stream, now, grace)))];
        return [SignalFor(facts[stream], stream, Stale, now, Some(known.Frontier().value + stream.Step()))];
      }
      return [];
    }

    /** Check every stream once, in the configured order. */
    method OnStaleCheck(now: int) returns (signals: seq<Signal>)
      requires Valid()
      modifies this`facts
      ensures Valid()
      ensures facts == map s | s in old(facts) :: DetectStale(old(facts)[s], s, now, grace).0
      ensures signals == StaleSignals(old(facts), streams, now, grace)
      ensures forall s, bar :: s in old(facts) && LastClosedBy(bar, now - grace, s.Step()) ==>
                (Signalled(signals, s) <==> Overdue(old(facts)[s], bar))
      ensures forall i :: 0 <= i < |signals| ==> signals[i].reason == Stale
    {
      ghost var before := facts;
      ghost var after := map s | s in facts :: DetectStale(facts[s], s, now, grace).0;
      signals := [];
      for i := 0 to |streams|
        invariant Valid() && facts.Keys == before.Keys
        invariant forall j :: 0 <= j < i ==> facts[streams[j]] == after[streams[j]]
        invariant forall j :: i <= j < |streams| ==> facts[streams[j]] == before[streams[j]]
        invariant signals == StaleSignals(before, streams[..i], now, grace)
      {
        StaleSignalsAppend(before, streams, i, now, grace);
        var raised := CheckStream(streams[i], now);
        signals := signals + raised;
      }
      assert streams[..|streams|] == streams;
      forall s | s in before
        ensures facts[s] == after[s]
      {
        var j :| 0 <= j < |streams| && streams[j] == s;
      }
      OverdueAreSignalled(before, streams, now, grace);
    }

    static lemma OverdueAreSignalled(before: map<StreamKey, Facts>, streams: seq<StreamKey>, now: int, grace: nat)
      requires forall s :: s in streams <==> s in before
      ensures var signals := StaleSignals(before, streams, now, grace);
              && (forall s, bar :: s in before && LastClosedBy(bar, now - grace, s.Step()) ==>
                    (Signalled(signals, s) <==> Overdue(before[s], bar)))
              && (forall i :: 0 <= i < |signals| ==> signals[i].reason == Stale)
    {
      forall s, bar | s in before && LastClosedBy(bar, now - grace, s.Step())
        ensures Signalled(StaleSignals(before, streams, now, grace), s) <==> Overdue(before[s], bar)
      {
        StaleExactlyWhen(before[s], s, now, grace, bar);
        StaleSignalsSay(before, streams, now, grace, s);
      }
      StaleSignalsAreStale(before, streams, now, grace);
    }

    static lemma {:induction false} StaleSignalsSay(before: map<StreamKey, Facts>, streams: seq<StreamKey>, now: int, grace: nat, stream: StreamKey)
      requires stream in before && forall s :: s in streams ==> s in before
      ensures Signalled(StaleSignals(before, streams, now, grace), stream)
              <==> stream in streams && DetectStale(before[stream], stream, now, grace).1 != []
      decreases |streams|
    {
      if streams != [] {
        var front, last := streams[..|streams| - 1], streams[|streams| - 1];
        var sofar, raised := StaleSignals(before, front, now, grace), DetectStale(before[last], last, now, grace).1;
        assert streams == front + [last];
        StaleSignalsSay(before, front, now, grace, stream);
        SignalledByEither(sofar, raised, stream);
        assert Signalled(raised, stream) <==> last == stream && raised != [] by {
          assert raised != [] ==> raised[0].stream == last && |raised| == 1;
        }
      }
    }

    static lemma SignalledByEither(a: seq<Signal>, b: seq<Signal>, stream: StreamKey)
      ensures Signalled(a + b, stream) <==> Signalled(a, stream) || Signalled(b, stream)
    {
      var all := a + b;
      if Signalled(a, stream) {
        var i :| 0 <= i < |a| && a[i].stream == stream;
        assert all[i] == a[i];
      }
      if Signalled(b, stream) {
        var i :| 0 <= i < |b| && b[i].stream == stream;
        assert all[|a| + i] == b[i];
      }
    }

    static lemma {:induction false} StaleSignalsAreStale(before: map<StreamKey, Facts>, streams: seq<StreamKey>, now: int, grace: nat)
      requires forall s :: s in streams ==> s in before
      ensures forall i :: 0 <= i < |StaleSignals(before, streams, now, grace)| ==> StaleSignals(before, streams, now, grace)[i].reason == Stale
      decreases |streams|
    {
      if streams != [] {
        StaleSignalsAreStale(before, streams[..|streams| - 1], now, grace);
      }
    }

    static lemma StaleSignalsAppend(before: map<StreamKey, Facts>, streams: seq<StreamKey>, i: nat, now: int, grace: nat)
      requires i < |streams| && forall s :: s in streams ==> s in before
      ensures StaleSignals(before, streams[..i + 1], now, grace)
              == StaleSignals(before, streams[..i], now, grace) + DetectStale(before[streams[i]], streams[i], now, grace).1
    {
      assert streams[..i + 1][..i] == streams[..i];
    }

    method OnRecoveryResult(stream: StreamKey, restored: bool, fatal: bool, now: int, restoredThrough: Option<int>)
      requires Valid() && stream in facts
      modifies this`facts
      ensures Valid()
      ensures facts == old(facts)[stream := RecordRecoveryResult(old(facts[stream]), restored, fatal, now, restoredThrough)]
      ensures var before, after := old(facts[stream]), facts[stream];
              && (!restored || fatal ==>
                    && after.candleFrontier == before.candleFrontier && after.openInterestFrontier == before.openInterestFrontier
                    && after.lastChecked == before.lastChecked && !after.DataReady())
              && (fatal ==> after.fatal)
              && (!fatal ==> (after.recoveryPending <==> !restored) && after.fatal == before.fatal)
              && (restored && !fatal && restoredThrough.Some? && restoredThrough.value >= 0 ==>
                    && NotBehind(before.candleFrontier, after.candleFrontier) && NotBehind(before.openInterestFrontier, after.openInterestFrontier)
                    && (before.candleFrontier.Some? && before.candleFrontier.value >= 0 ==> after.candleFrontier.value >= restoredThrough.value)
                    && (before.openInterestRequired && before.openInterestFrontier.Some? && before.openInterestFrontier.value >= 0 ==>
                          after.openInterestFrontier.value >= restoredThrough.value))
              && (restored && !fatal && before.pendingExpected.Some? ==>
                    after.pendingExpected.None? && after.lastChecked.Some? && after.lastChecked.value >= before.pendingExpected.value)
    {
      facts := facts[stream := RecordRecoveryResult(facts[stream], restored, fatal, now, restoredThrough)];
    }

    /** Hand a stream over with the frontiers reconciliation proved. */
    method Synchronize(stream: StreamKey, latest: int, openInterestLatest: Option<int>)
      requires Valid() && stream in facts
      modifies this`facts
      ensures Valid()
      ensures facts.Keys == old(facts).Keys && forall s :: s in facts && s != stream ==> facts[s] == old(facts)[s]
      ensures facts[stream].candleFrontier == Some(Max(OrElse(old(facts[stream]).candleFrontier, latest), latest))
      ensures openInterestLatest.None? ==> facts[stream].openInterestFrontier == old(facts[stream]).openInterestFrontier
      ensures openInterestLatest.Some? ==>
                facts[stream].openInterestFrontier
                == Some(Max(OrElse(old(facts[stream]).openInterestFrontier, openInterestLatest.value), openInterestLatest.value))
    {
      var known := facts[stream];
      if openInterestLatest.Some? {
        known := known.(openInterestFrontier :=
          Some(Max(OrElse(known.openInterestFrontier, openInterestLatest.value), openInterestLatest.value)));
      }
      facts := facts[stream := known.(candleFrontier := Some(Max(OrElse(known.candleFrontier, latest), latest)))];
    }
  }

  /** Before a committed bar is announced: take in its open interest, then announce it only when the
      stream is data-ready through it. Streams without the flag pass. */
  method PreparePublication(supervisor: RealtimeSupervisor, flagged: set<StreamKey>, stream: StreamKey, openTime: int,
                            appended: bool, now: int) returns (publish: bool, signals: seq<Signal>)
    requires supervisor.Valid() && (stream in flagged ==> stream in supervisor.facts)
    modifies supervisor`facts
    ensures supervisor.Valid()
    ensures stream !in flagged ==> publish && signals == [] && supervisor.facts == old(supervisor.facts)
    ensures stream in flagged && appended ==>
              && supervisor.facts == old(supervisor.facts)[stream := ObserveOpenInterest(old(supervisor.facts[stream]), stream, openTime, now).0]
              && signals == ObserveOpenInterest(old(supervisor.facts[stream]), stream, openTime, now).1
    ensures stream in flagged && !appended ==> supervisor.facts == old(supervisor.facts) && signals == []
    ensures stream in flagged ==>
              (publish <==> AsOfNow(supervisor.facts[stream], stream, now, supervisor.grace).PublishedThrough(openTime))
    ensures stream in flagged ==>
              forall bar :: LastClosedBy(bar, now - supervisor.grace, stream.Step()) ==>
                (publish <==> Announceable(supervisor.facts[stream], bar, openTime))
  {
    if stream !in flagged {
      return true, [];
    }
    signals := [];
    if appended {
      signals := supervisor.OnOpenInterest(stream, openTime, now);
    }
    publish := AsOfNow(supervisor.facts[stream], stream, now, supervisor.grace).PublishedThrough(openTime);
    forall bar | LastClosedBy(bar, now - supervisor.grace, stream.Step())
      ensures publish <==> Announceable(supervisor.facts[stream], bar, openTime)
    {
      AnnouncedExactlyWhen(supervisor.facts[stream], stream, now, supervisor.grace, bar, openTime);
    }
  }
}
