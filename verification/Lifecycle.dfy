// The persisted lifecycle of one stream and the recorders that drive it
// (src/market_data_service/domain/stream_state.py, runtime/lifecycle.py, application/repair_state.py,
//  application/realtime/recovery_state.py, runtime/realtime_lifecycle.py).

module Lifecycle {
  import opened Optional
  import opened Grid
  import RealtimeFacts

  datatype StreamState = Uninitialized | Bootstrapping | Auditing | Repairing | Connecting | Ready | Degraded | Failed

  function AllowedFrom(state: StreamState): set<StreamState>
  {
    match state
    case Uninitialized => {Bootstrapping, Failed}
    case Bootstrapping => {Auditing, Degraded, Failed}
    case Auditing => {Repairing, Connecting, Degraded, Failed}
    case Repairing => {Auditing, Degraded, Failed}
    case Connecting => {StreamState.Ready, Degraded, Failed}
    case Ready => {Degraded, Failed}
    case Degraded => {Bootstrapping, Auditing, Connecting, Failed}
    case Failed => {Uninitialized, Auditing}
  }

  predicate CanTransition(current: StreamState, target: StreamState)
  {
    target in AllowedFrom(current)
  }

  /** The table read from its targets: who may enter each state. */
  lemma EnteredExactlyFrom(current: StreamState)
    ensures CanTransition(current, Uninitialized) <==> current == Failed
    ensures CanTransition(current, Bootstrapping) <==> current == Uninitialized || current == Degraded
    ensures CanTransition(current, Auditing) <==> current in {Bootstrapping, Repairing, Degraded, Failed}
    ensures CanTransition(current, Repairing) <==> current == Auditing
    ensures CanTransition(current, Connecting) <==> current == Auditing || current == Degraded
    ensures CanTransition(current, StreamState.Ready) <==> current == Connecting
    ensures CanTransition(current, Degraded) <==> current in {Bootstrapping, Auditing, Repairing, Connecting, StreamState.Ready}
    ensures CanTransition(current, Failed) <==> current != Failed
  {
  }

  ghost predicate LegalPath(states: seq<StreamState>)
  {
    forall i :: 0 < i < |states| ==> CanTransition(states[i - 1], states[i])
  }

  function Last(states: seq<StreamState>): StreamState
    requires states != []
  {
    states[|states| - 1]
  }

  /** The state after taking a path from a state. */
  function End(state: StreamState, path: seq<StreamState>): StreamState
  {
    if path == [] then state else Last(path)
  }

  lemma PathsJoin(first: seq<StreamState>, second: seq<StreamState>)
    requires first != [] && LegalPath(first) && LegalPath([Last(first)] + second)
    ensures LegalPath(first + second) && Last(first + second) == End(Last(first), second)
  {
    var all, tail := first + second, [Last(first)] + second;
    forall i | 0 < i < |all|
      ensures CanTransition(all[i - 1], all[i])
    {
      if i >= |first| {
        assert all[i] == tail[i - |first| + 1] && all[i - 1] == tail[i - |first|];
      }
    }
  }

  // ---- The stored row ----

  /** One stream's durable row. The history records every state it was given; refused counts the
      transitions the table forbade. */
  class StreamRow {
    var state: StreamState
    var error: Option<string>
    var changedAt: int
    var updatedAt: int
    ghost var history: seq<StreamState>
    ghost var refused: nat

    ghost predicate Valid()
      reads this
    {
      history != [] && state == Last(history) && LegalPath(history) && changedAt <= updatedAt
    }

    constructor (state: StreamState)
      ensures Valid() && this.state == state && history == [state] && refused == 0
    {
      this.state := state;
      this.error := None;
      this.changedAt := 0;
      this.updatedAt := 0;
      this.history := [state];
      this.refused := 0;
    }

    /** Change the state if the table allows it and the time does not move back; an error is kept only
        by a stream that degrades or fails. */
    method Transition(target: StreamState, changeTime: int, reason: Option<string>) returns (ok: bool)
      requires Valid()
      modifies this
      ensures Valid()
      ensures ok <==> CanTransition(old(state), target) && changeTime >= old(updatedAt)
      ensures ok ==> history == old(history) + [target] && refused == old(refused) && changedAt == updatedAt == changeTime
      ensures ok ==> error == if target == Degraded || target == Failed then reason else None
      ensures !ok ==> history == old(history) && refused == old(refused) + 1 && error == old(error)
                      && changedAt == old(changedAt) && updatedAt == old(updatedAt)
    {
      if target == state || !CanTransition(state, target) || changeTime < updatedAt {
        refused := refused + 1;
        return false;
      }
      state := target;
      error := if target == Degraded || target == Failed then reason else None;
      updatedAt := changeTime;
      changedAt := changeTime;
      history := history + [target];
      return true;
    }

    /** What the recorders do: a clock behind the row counts as the row's own time, so only the table
        can refuse. */
    method TransitionAt(target: StreamState, now: int, reason: Option<string>) returns (ok: bool)
      requires Valid()
      modifies this
      ensures Valid() && updatedAt >= old(updatedAt)
      ensures ok <==> CanTransition(old(state), target)
      ensures if ok then history == old(history) + [target] && refused == old(refused)
              else history == old(history) && refused == old(refused) + 1
      ensures ok ==> error == if target == Degraded || target == Failed then reason else None
    {
      ok := Transition(target, Max(now, updatedAt), reason);
    }

    /** The table forbade a transition: nothing changed. */
    twostate predicate Refused()
      reads this
    {
      Valid() && history == old(history) && refused == old(refused) + 1
    }

    /** What the recorders do: take this path, refused nowhere. */
    twostate predicate Took(path: seq<StreamState>)
      reads this
    {
      Valid() && history == old(history) + path && refused == old(refused) && updatedAt >= old(updatedAt)
    }
  }

  // ---- The runtime's own recorder ----

  function PreparePath(s: StreamState): seq<StreamState>
  {
    match s
    case Bootstrapping => []
    case Failed => [Uninitialized, Bootstrapping]
    case Uninitialized => [Bootstrapping]
    case Degraded => [Bootstrapping]
    case _ => [Degraded, Bootstrapping]
  }

  /** The step to one state, none when already there. */
  function StepTo(s: StreamState, target: StreamState): seq<StreamState>
  {
    if s == target then [] else [target]
  }

  class RuntimeLifecycleRecorder {
    const row: StreamRow

    constructor (row: StreamRow)
      ensures this.row == row
    {
      this.row := row;
    }

    /** From any persisted state into bootstrapping, through legal states only. */
    method PrepareForBootstrap(now: int)
      requires row.Valid()
      modifies row
      ensures row.Took(PreparePath(old(row.state))) && row.state == Bootstrapping
    {
      if row.state == Bootstrapping {
        return;
      }
      var ok;
      if row.state == Failed {
        ok := row.TransitionAt(Uninitialized, now, None);
      } else if row.state != Uninitialized && row.state != Degraded {
        ok := row.TransitionAt(Degraded, now, Some("startup_reconciliation_required"));
      }
      ok := row.TransitionAt(Bootstrapping, now, None);
    }

    /** Refused, without touching the row, from where auditing cannot be entered. */
    method MarkAuditing(now: int) returns (ok: bool)
      requires row.Valid()
      modifies row
      ensures ok <==> old(row.state) !in {Uninitialized, Connecting, StreamState.Ready}
      ensures row.Took(if ok then StepTo(old(row.state), Auditing) else []) && row.state == (if ok then Auditing else old(row.state))
    {
      if row.state == Auditing {
        return true;
      }
      if row.state in {Repairing, Failed, Degraded, Bootstrapping} {
        ok := row.TransitionAt(Auditing, now, None);
        return;
      }
      return false;
    }

    method MarkConnecting(now: int) returns (ok: bool)
      requires row.Valid()
      modifies row
      ensures ok <==> old(row.state) in {Auditing, Degraded, Connecting}
      ensures if ok then row.Took(StepTo(old(row.state), Connecting)) && row.state == Connecting else row.Refused()
    {
      if row.state == Connecting {
        return true;
      }
      ok := row.TransitionAt(Connecting, now, None);
    }

    method MarkReady(now: int) returns (ok: bool)
      requires row.Valid()
      modifies row
      ensures ok <==> old(row.state) in {Connecting, StreamState.Ready}
      ensures if ok then row.Took(StepTo(old(row.state), StreamState.Ready)) && row.state == StreamState.Ready else row.Refused()
    {
      if row.state == StreamState.Ready {
        return true;
      }
      ok := row.TransitionAt(StreamState.Ready, now, None);
    }

    method MarkDegraded(now: int, reason: string) returns (ok: bool)
      requires row.Valid()
      modifies row
      ensures ok <==> old(row.state) !in {Uninitialized, Failed}
      ensures if ok then row.Took(StepTo(old(row.state), Degraded)) && row.state == Degraded else row.Refused()
    {
      if row.state == Degraded {
        return true;
      }
      ok := row.TransitionAt(Degraded, now, Some(reason));
    }

    /** Every stream can fail. */
    method MarkFailed(now: int, reason: string)
      requires row.Valid()
      modifies row
      ensures row.Took(StepTo(old(row.state), Failed)) && row.state == Failed
    {
      if row.state != Failed {
        var ok := row.TransitionAt(Failed, now, Some(reason));
      }
    }

    /** Project what realtime knows of an admitted stream into its durable state. Afterwards a failed
        stream is failed, one that is up to date and settled is ready if it could be, and one that is
        behind, being recovered or cut off is neither ready nor connecting. Nothing else changes. */
    method Synchronize(facts: RealtimeFacts.Facts, admitted: bool, now: int)
      requires row.Valid()
      modifies row
      ensures row.Took(SyncPath(old(row.state), facts, admitted))
      ensures !admitted ==> row.history == old(row.history)
      ensures admitted && facts.fatal ==> row.state == Failed
      ensures admitted && UpToDate(facts) && old(row.state) in {Degraded, Connecting, StreamState.Ready} ==> row.state == StreamState.Ready
      ensures admitted && Lagging(facts) ==> row.state != StreamState.Ready && row.state != Connecting
      ensures admitted && Lagging(facts) && !facts.fatal ==>
                row.state == if old(row.state) == Connecting || old(row.state) == StreamState.Ready then Degraded else old(row.state)
      ensures !facts.fatal && !UpToDate(facts) && !Lagging(facts) ==> row.history == old(row.history)
      ensures !facts.fatal && old(row.state) !in {Degraded, Connecting, StreamState.Ready} ==> row.history == old(row.history)
    {
      SyncPathSays(row.state, facts, admitted);
      if !admitted {
        return;
      }
      if facts.fatal && row.state != Failed {
        MarkFailed(now, "fatal");
      } else if facts.DataReady() {
        var ok;
        if row.state == Degraded {
          ok := MarkConnecting(now);
        }
        if row.state == Connecting {
          ok := MarkReady(now);
        }
      } else if NotCurrent(facts) && row.state in {Connecting, StreamState.Ready} {
        var ok := MarkDegraded(now, "stale");
      }
    }
  }

  predicate NotCurrent(facts: RealtimeFacts.Facts)
  {
    || facts.recoveryPending || !facts.Current()
    || facts.status in {RealtimeFacts.DisconnectedStatus, RealtimeFacts.StaleStatus, RealtimeFacts.RecoveryRequiredStatus}
  }

  /** The bar expected is known and every required track has reached it. */
  predicate Caught(facts: RealtimeFacts.Facts)
  {
    facts.expected.Some? && RealtimeFacts.TracksReach(facts, facts.expected.value)
  }

  predicate UpToDate(facts: RealtimeFacts.Facts) { Caught(facts) && RealtimeFacts.Settled(facts) }

  predicate CutOff(status: RealtimeFacts.Status)
  {
    status == RealtimeFacts.DisconnectedStatus || status == RealtimeFacts.StaleStatus || status == RealtimeFacts.RecoveryRequiredStatus
  }

  /** A recovery is pending, a required track is behind, or the status of a stream that is not up to date
      says that it was cut off. */
  predicate Lagging(facts: RealtimeFacts.Facts)
  {
    facts.recoveryPending || !Caught(facts) || (CutOff(facts.status) && !RealtimeFacts.Settled(facts))
  }

  /** What a synchronization makes of each state, said of the facts alone. */
  lemma SyncPathSays(s: StreamState, facts: RealtimeFacts.Facts, admitted: bool)
    ensures var after := End(s, SyncPath(s, facts, admitted));
            && (!admitted ==> SyncPath(s, facts, admitted) == [])
            && (admitted && facts.fatal ==> after == Failed)
            && (admitted && UpToDate(facts) ==>
                  after == if s in {Degraded, Connecting, StreamState.Ready} then StreamState.Ready else s)
            && (admitted && Lagging(facts) && !facts.fatal ==> after == if s in {Connecting, StreamState.Ready} then Degraded else s)
            && (!facts.fatal && !UpToDate(facts) && !Lagging(facts) ==> SyncPath(s, facts, admitted) == [])
            && (!facts.fatal && s !in {Degraded, Connecting, StreamState.Ready} ==> SyncPath(s, facts, admitted) == [])
  {
    assert facts.DataReady() <==> UpToDate(facts);
    assert facts.Current() <==> Caught(facts);
  }

  function SyncPath(s: StreamState, facts: RealtimeFacts.Facts, admitted: bool): seq<StreamState>
  {
    if !admitted then []
    else if facts.fatal && s != Failed then [Failed]
    else if facts.DataReady() then
      if s == Degraded then [Connecting, StreamState.Ready] else if s == Connecting then [StreamState.Ready] else []
    else if NotCurrent(facts) && (s == Connecting || s == StreamState.Ready) then [Degraded]
    else []
  }

  // ---- The recorder of a gap repair ----

  /** How a repair went, as far as the lifecycle sees it. */
  datatype RepairRun = AlreadyContinuous | BecameContinuous | LeftGaps | SourceBroke(recoverable: bool)

  function FailureState(recoverable: bool): StreamState { if recoverable then Degraded else Failed }

  function RepairPath(run: RepairRun): seq<StreamState>
  {
    match run
    case AlreadyContinuous => []
    case SourceBroke(recoverable) => [Repairing, FailureState(recoverable)]
    case _ => [Repairing, Auditing]
  }

  class RepairStateRecorder {
    const row: StreamRow

    constructor (row: StreamRow)
      ensures this.row == row
    {
      this.row := row;
    }

    /** A repair starts from auditing; refused from states no repair may start in. */
    method EnsureAuditing(now: int) returns (ok: bool)
      requires row.Valid()
      modifies row
      ensures ok <==> old(row.state) in {Auditing, Repairing, Degraded, Failed}
      ensures row.Took(if ok then StepTo(old(row.state), Auditing) else [])
    {
      if row.state == Auditing {
        return true;
      }
      if row.state !in {Repairing, Degraded, Failed} {
        return false;
      }
      ok := row.TransitionAt(Auditing, now, None);
    }

    method TransitionToRepairing(now: int) returns (ok: bool)
      requires row.Valid()
      modifies row
      ensures ok <==> old(row.state) == Auditing
      ensures if ok then row.Took([Repairing]) else row.Refused()
    {
      ok := row.TransitionAt(Repairing, now, None);
    }

    method TransitionRepairingToAuditing(now: int)
      requires row.Valid()
      modifies row
      ensures row.Took(if old(row.state) == Repairing then [Auditing] else [])
    {
      if row.state == Repairing {
        var ok := row.TransitionAt(Auditing, now, None);
      }
    }

    /** A failure that has no legal transition is only noted on the row. */
    method RecordFailure(recoverable: bool, code: string, now: int)
      requires row.Valid()
      modifies row
      ensures row.Took(if CanTransition(old(row.state), FailureState(recoverable)) then [FailureState(recoverable)] else [])
      ensures row.error == Some(code)
      ensures !recoverable ==> row.state == Failed
      ensures recoverable ==> row.state == if old(row.state) in {Uninitialized, Failed} then old(row.state) else Degraded
    {
      var target := FailureState(recoverable);
      if target != row.state && CanTransition(row.state, target) {
        var ok := row.TransitionAt(target, now, Some(code));
      } else {
        row.error := Some(code);
        row.updatedAt := Max(now, row.updatedAt);
      }
    }

    /** The transitions around one repair, in the order the repair makes them. */
    method Around(run: RepairRun, now: int)
      requires row.Valid() && row.state == Auditing
      modifies row
      ensures row.Took(RepairPath(run))
      ensures run == AlreadyContinuous ==> row.history == old(row.history)
      ensures run == BecameContinuous || run == LeftGaps ==> row.history == old(row.history) + [Repairing, Auditing]
      ensures run.SourceBroke? ==> row.history == old(row.history) + [Repairing, if run.recoverable then Degraded else Failed]
    {
      if run == AlreadyContinuous {
        return;
      }
      var ok := TransitionToRepairing(now);
      if run.SourceBroke? {
        RecordFailure(run.recoverable, "source", now);
      } else {
        TransitionRepairingToAuditing(now);
      }
    }
  }

  // ---- The recorder of a realtime recovery ----

  /** How a recovery attempt went: no durable anchor, a window the repair request refuses, or a repair
      with, when it completed, whether the attempt was restored. */
  datatype AttemptRun = NoWindow | WindowRefused | Repaired(run: RepairRun, restored: bool)

  function UnavailablePath(s: StreamState): seq<StreamState>
  {
    if s == StreamState.Ready || s == Connecting then [Degraded] else []
  }

  predicate AttemptRefused(s: StreamState)
  {
    End(s, UnavailablePath(s)) !in {Auditing, Degraded, Repairing}
  }

  predicate Continuous(run: RepairRun) { run == AlreadyContinuous || run == BecameContinuous }

  function RestoredPath(run: RepairRun, restored: bool): seq<StreamState>
  {
    RepairPath(run) + if Continuous(run) && restored then [Connecting] else []
  }

  /** From a state that may be audited: into auditing, and through the repair if there is one. */
  function AuditedPath(s: StreamState, attempt: AttemptRun): seq<StreamState>
  {
    StepTo(s, Auditing) + if attempt.Repaired? then RestoredPath(attempt.run, attempt.restored) else []
  }

  function AttemptPath(s: StreamState, attempt: AttemptRun): seq<StreamState>
  {
    var gone := UnavailablePath(s);
    if attempt == NoWindow || AttemptRefused(s) then gone else gone + AuditedPath(End(s, gone), attempt)
  }

  /** How an attempt ends. It is refused a stream that failed or was not audited yet, which it leaves
      alone. Without a window it only takes readiness back; otherwise it ends in auditing, connecting or
      failure as its repair did. */
  lemma AttemptSays(s: StreamState, attempt: AttemptRun)
    ensures AttemptRefused(s) <==> s in {Uninitialized, Bootstrapping, Failed}
    ensures attempt == NoWindow || AttemptRefused(s) ==>
              End(s, AttemptPath(s, attempt)) == if s in {Connecting, StreamState.Ready} then Degraded else s
    ensures attempt == WindowRefused && !AttemptRefused(s) ==> End(s, AttemptPath(s, attempt)) == Auditing
    ensures attempt.Repaired? && !AttemptRefused(s) ==>
              End(s, AttemptPath(s, attempt))
              == match attempt.run
                 case SourceBroke(recoverable) => if recoverable then Degraded else Failed
                 case LeftGaps => Auditing
                 case _ => if attempt.restored then Connecting else Auditing
  {
  }

  class RealtimeRecoveryStateRecorder {
    const row: StreamRow

    constructor (row: StreamRow)
      ensures this.row == row
    {
      this.row := row;
    }

    method MarkUnavailable(reason: string, now: int)
      requires row.Valid()
      modifies row
      ensures row.Took(UnavailablePath(old(row.state)))
      ensures row.state == if old(row.state) == StreamState.Ready || old(row.state) == Connecting then Degraded else old(row.state)
    {
      if row.state == StreamState.Ready || row.state == Connecting {
        var ok := row.TransitionAt(Degraded, now, Some(reason));
      }
    }

    method EnsureAuditing(now: int) returns (ok: bool)
      requires row.Valid()
      modifies row
      ensures ok <==> old(row.state) in {Auditing, Degraded, Repairing}
      ensures row.Took(if ok then StepTo(old(row.state), Auditing) else [])
    {
      if row.state == Auditing {
        return true;
      }
      if row.state == Degraded || row.state == Repairing {
        ok := row.TransitionAt(Auditing, now, None);
        return;
      }
      return false;
    }

    method MarkRestored(now: int)
      requires row.Valid()
      modifies row
      ensures row.Took(if old(row.state) == Auditing then [Connecting] else [])
    {
      if row.state == Auditing {
        var ok := row.TransitionAt(Connecting, now, None);
      }
    }

    /** The repair of an attempt and, when it completed and the window still ends now, its restoration. */
    method RepairAndRestore(run: RepairRun, restored: bool, repair: RepairStateRecorder, now: int)
      requires row.Valid() && row.state == Auditing && repair.row == row
      modifies row
      ensures row.Took(RestoredPath(run, restored))
    {
      var again := repair.EnsureAuditing(now);
      repair.Around(run, now);
      if Continuous(run) && restored {
        MarkRestored(now);
      }
    }

    method AuditAndRepair(attempt: AttemptRun, repair: RepairStateRecorder, now: int) returns (ok: bool)
      requires row.Valid() && repair.row == row
      modifies row
      ensures ok <==> old(row.state) in {Auditing, Degraded, Repairing}
      ensures row.Took(if ok then AuditedPath(old(row.state), attempt) else [])
    {
      ghost var before, audited := row.history, StepTo(row.state, Auditing);
      ok := EnsureAuditing(now);
      if ok && attempt.Repaired? {
        ghost var path := RestoredPath(attempt.run, attempt.restored);
        RepairAndRestore(attempt.run, attempt.restored, repair, now);
        assert row.history == before + audited + path == before + (audited + path);
      }
    }

    /** One recovery attempt's transitions; refused exactly when its stream may not be recovered. */
    method Attempt(attempt: AttemptRun, repair: RepairStateRecorder, now: int) returns (refused: bool)
      requires row.Valid() && repair.row == row
      modifies row
      ensures refused <==> attempt != NoWindow && AttemptRefused(old(row.state))
      ensures row.Took(AttemptPath(old(row.state), attempt))
    {
      ghost var before, gone := row.history, UnavailablePath(row.state);
      MarkUnavailable("recovery", now);
      if attempt == NoWindow {
        return false;
      }
      ghost var path := AuditedPath(row.state, attempt);
      var ok := AuditAndRepair(attempt, repair, now);
      if ok {
        assert row.history == before + gone + path == before + (gone + path);
      }
      refused := !ok;
    }
  }
}
