// The worker that owns recovery intents
// (src/market_data_service/runtime/realtime_recovery_worker.py, realtime_recovery_intent.py).

module RecoveryWorkers {
  import opened Optional
  import opened Windows
  import opened Streams
  import opened Repair
  import opened RealtimeFacts
  import opened RealtimeRecovery
  import opened RecoveryIntents

  /** The mutable intent shared by the worker's table and its queue. */
  class RecoveryIntent {
    const stream: StreamKey
    var reason: RecoveryReason
    var detectedAt: int
    var earliest: Option<int>
    var urgent: bool
    var revision: nat
    var dueAt: real
    var attempts: nat
    var window: Option<TimeWindow>
    var marker: Option<ProgressMarker>
    var retryNeeded: bool
    var notifyOpen: Option<int>

    function View(): Intent
      reads this
    {
      Intent(stream, reason, detectedAt, earliest, urgent, revision, dueAt, attempts, window, marker, retryNeeded, notifyOpen)
    }

    constructor (s: Signal)
      ensures View() == FromSignal(s)
    {
      stream, reason, detectedAt, earliest := s.stream, s.reason, s.detectedAt, s.start;
      urgent := !IsBackground(s);
      revision, dueAt, attempts := 0, 0.0, 0;
      window, marker, retryNeeded, notifyOpen := None, None, false, None;
    }

    method AbsorbSignal(s: Signal) returns (changed: bool)
      modifies this
      ensures View() == Absorb(old(View()), s)
      ensures changed <==> View() != old(View())
    {
      changed := false;
      if s.start.Some? && (earliest.None? || s.start.value < earliest.value) {
        earliest := s.start;
        changed := true;
      }
      if !IsBackground(s) && !urgent {
        urgent := true;
        reason := s.reason;
        changed := true;
      }
      if changed {
        revision := revision + 1;
        Restart();
      }
    }

    /** Drop the cursor and the backoff of the previous requirement. */
    method Restart()
      modifies this`dueAt, this`attempts, this`window, this`marker
      ensures dueAt == 0.0 && attempts == 0 && window.None? && marker.None?
    {
      dueAt, attempts, window, marker := 0.0, 0, None, None;
    }

    method Become(next: Intent)
      requires next.stream == stream
      modifies this
      ensures View() == next
    {
      reason, detectedAt, earliest, urgent := next.reason, next.detectedAt, next.earliest, next.urgent;
      revision, dueAt, attempts := next.revision, next.dueAt, next.attempts;
      window, marker, retryNeeded, notifyOpen := next.window, next.marker, next.retryNeeded, next.notifyOpen;
    }
  }

  /** One intent per stream; each waits in the queue exactly once, unless it is being executed. */
  ghost predicate Consistent(queue: seq<RecoveryIntent>, intents: map<StreamKey, RecoveryIntent>, running: RecoveryIntent?)
  {
    && (forall s :: s in intents ==> intents[s].stream == s)
    && (forall i :: 0 <= i < |queue| ==> queue[i].stream in intents && intents[queue[i].stream] == queue[i])
    && (forall i, j :: 0 <= i < j < |queue| ==> queue[i] != queue[j])
    && (running != null ==> running.stream in intents && intents[running.stream] == running && running !in queue)
    && (forall s :: s in intents ==> intents[s] in queue || intents[s] == running)
  }

  lemma TakenHead(queue: seq<RecoveryIntent>, intents: map<StreamKey, RecoveryIntent>)
    requires Consistent(queue, intents, null) && queue != []
    ensures Consistent(queue[1..], intents, queue[0])
    ensures Consistent(queue[1..] + [queue[0]], intents, null)
  {
    assert queue == [queue[0]] + queue[1..];
  }

  lemma GivenBack(queue: seq<RecoveryIntent>, intents: map<StreamKey, RecoveryIntent>, running: RecoveryIntent)
    requires Consistent(queue, intents, running)
    ensures Consistent(queue + [running], intents, null)
    ensures Consistent(queue, intents - {running.stream}, null)
  {
    forall i | 0 <= i < |queue|
      ensures queue[i].stream != running.stream
    {
      assert queue[i] in queue;
    }
  }

  class RecoveryWorker {
    const policy: RetryPolicy
    var intents: map<StreamKey, RecoveryIntent>
    var queue: seq<RecoveryIntent>
    var running: RecoveryIntent?
    var startedRevision: nat

    ghost predicate Valid()
      reads this
    {
      Consistent(queue, intents, running)
    }

    ghost function Objects(): set<RecoveryIntent>
      reads this
    {
      set s | s in intents :: intents[s]
    }

    ghost function Views(): map<StreamKey, Intent>
      reads this, Objects()
    {
      map s | s in intents :: intents[s].View()
    }

    constructor (policy: RetryPolicy)
      ensures Valid() && intents == map[] && queue == [] && running == null && this.policy == policy
    {
      this.policy := policy;
      intents, queue, running, startedRevision := map[], [], null, 0;
    }

    /** Merge a signal into its stream's intent, or open one at the end of the queue. */
    method Enqueue(s: Signal)
      requires Valid()
      modifies this, Objects()
      ensures Valid() && running == old(running) && startedRevision == old(startedRevision)
      ensures Views() == old(Views())[s.stream := if s.stream in old(intents) then Absorb(old(Views())[s.stream], s) else FromSignal(s)]
      ensures s.stream in old(intents) ==> intents == old(intents) && queue == old(queue)
      ensures s.stream !in old(intents) ==> |queue| == |old(queue)| + 1 && queue[..|queue| - 1] == old(queue)
    {
      if s.stream in intents {
        var intent := intents[s.stream];
        var changed := intent.AbsorbSignal(s);
        assert forall t :: t in intents && t != s.stream ==> intents[t] != intent;
      } else {
        var intent := new RecoveryIntent(s);
        intents := intents[s.stream := intent];
        queue := queue + [intent];
      }
    }

    /** A WebSocket commit during an episode asks for a notification when it ends. */
    method MarkLiveCommit(stream: StreamKey)
      requires Valid()
      modifies Objects()
      ensures Valid()
      ensures stream !in intents ==> Views() == old(Views())
      ensures stream in intents ==> Views() == old(Views())[stream := old(Views())[stream].(retryNeeded := true)]
    {
      if stream in intents {
        intents[stream].retryNeeded := true;
        assert forall t :: t in intents && t != stream ==> intents[t] != intents[stream];
      }
    }

    /** Take the head of the queue; one that is not due yet goes to the end. */
    method Take(now: real) returns (taken: bool)
      requires Valid() && running == null && queue != []
      modifies this`queue, this`running, this`startedRevision
      ensures Valid() && Views() == old(Views())
      ensures taken <==> old(queue[0].dueAt) <= now
      ensures taken ==> running == old(queue[0]) && queue == old(queue[1..]) && startedRevision == running.revision
      ensures !taken ==> running == null && queue == old(queue[1..]) + [old(queue[0])]
    {
      var intent := queue[0];
      TakenHead(queue, intents);
      if intent.dueAt > now {
        queue := queue[1..] + [intent];
        return false;
      }
      queue := queue[1..];
      running, startedRevision := intent, intent.revision;
      return true;
    }

    /** Take in the result of the running attempt: the intent goes back to the queue or is gone, and a
        notification is due when an episode that needs one has ended. */
    method Finish(result: RecoveryResult, now: real, stopping: bool) returns (restored: bool, notify: Option<int>)
      requires Valid() && running != null
      modifies this, running
      ensures Valid() && running == null
      ensures var before := old(Views())[old(running.stream)];
              var (after, stays) := AfterAttempt(before, old(startedRevision), result, policy, now);
              && restored == ReportsRestored(before, old(startedRevision), result)
              && Views() == (if stays && !stopping then old(Views())[before.stream := after] else old(Views()) - {before.stream})
              && queue == (if stays && !stopping then old(queue) + [old(running)] else old(queue))
              && notify == (if stays then None else after.notifyOpen)
      ensures restored <==> old(running.revision) == old(startedRevision) && result.classification == Restored
      ensures old(running.stream) in intents <==> !stopping && !restored && result.classification != FatalFailure
      ensures restored ==>
                notify == if old(running.retryNeeded) || result.work.committed > 0 then result.restoredThrough else old(running.notifyOpen)
      ensures old(running.stream) in intents ==>
                var before, kept := old(Views())[old(running.stream)], Views()[old(running.stream)];
                && kept.earliest == before.earliest && kept.urgent == before.urgent && kept.revision == before.revision
                && (before.revision != old(startedRevision) || result.classification != IncompleteRecovery ==> kept.window == before.window)
                && (before.revision == old(startedRevision) && result.classification == IncompleteRecovery ==>
                      kept.window == (if result.next.Some? then result.next else result.window))
                && (before.revision == old(startedRevision) && result.next.Some? && result.classification == IncompleteRecovery ==>
                      kept.attempts == 0 && kept.dueAt == 0.0)
    {
      AfterAttemptSays(running.View(), startedRevision, result, policy, now);
      var before := running.View();
      assert before == Views()[running.stream];
      restored := ReportsRestored(before, startedRevision, result);
      var (after, stays) := AfterAttempt(before, startedRevision, result, policy, now);
      notify := if stays then None else after.notifyOpen;
      if stays && !stopping {
        PutBack(after);
      } else {
        Retire(after);
      }
    }

    method PutBack(after: Intent)
      requires Valid() && running != null && after.stream == running.stream
      modifies this`queue, this`running, running
      ensures Valid() && running == null
      ensures Views() == old(Views())[after.stream := after]
      ensures queue == old(queue) + [old(running)]
    {
      GivenBack(queue, intents, running);
      ghost var views := Views();
      assert forall t :: t in intents && t != running.stream ==> intents[t] != running;
      running.Become(after);
      assert Views() == views[after.stream := after];
      queue, running := queue + [running], null;
    }

    method Retire(after: Intent)
      requires Valid() && running != null && after.stream == running.stream
      modifies this`intents, this`running, running
      ensures Valid() && running == null
      ensures Views() == old(Views()) - {after.stream}
      ensures queue == old(queue)
    {
      GivenBack(queue, intents, running);
      assert forall t :: t in intents && t != running.stream ==> intents[t] != running;
      running.Become(after);
      intents, running := intents - {running.stream}, null;
    }
  }
}
