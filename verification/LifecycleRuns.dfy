// The recorders of one stream's lifecycle interleaved call by call
// (src/market_data_service/runtime/lifecycle.py, realtime_lifecycle.py, reconciliation.py,
//  src/market_data_service/application/repair_state.py, realtime/recovery_state.py, realtime/recovery.py).

module LifecycleRuns {
  import opened Lifecycle
  import opened Reconciliation
  import RealtimeFacts

  // ---- One call of one recorder ----

  /** The calls the recorders offer; each reads the row and writes it in one unit of work, except that
      preparing and projecting may take two transitions. */
  datatype Call =
    | Prepare | EnterAuditing | EnterConnecting | EnterDegraded | EnterFailed
    | Project(facts: RealtimeFacts.Facts, admitted: bool)
    | AuditForRepair | EnterRepairing | LeaveRepairing | NoteFailure(recoverable: bool)
    | GiveUpReady | AuditForRecovery | Restore

  function CallPath(s: StreamState, call: Call): seq<StreamState>
  {
    if CallRefused(s, call) then [] else
      match call
      case Prepare => PreparePath(s)
      case EnterAuditing => StepTo(s, Auditing)
      case EnterConnecting => StepTo(s, Connecting)
      case EnterDegraded => StepTo(s, Degraded)
      case EnterFailed => StepTo(s, StreamState.Failed)
      case Project(facts, admitted) => SyncPath(s, facts, admitted)
      case AuditForRepair => StepTo(s, Auditing)
      case EnterRepairing => [Repairing]
      case LeaveRepairing => if s == Repairing then [Auditing] else []
      case NoteFailure(recoverable) => if CanTransition(s, FailureState(recoverable)) then [FailureState(recoverable)] else []
      case GiveUpReady => UnavailablePath(s)
      case AuditForRecovery => StepTo(s, Auditing)
      case Restore => if s == Auditing then [Connecting] else []
  }

  predicate CallRefused(s: StreamState, call: Call)
  {
    match call
    case EnterAuditing => s in {Uninitialized, Connecting, StreamState.Ready}
    case EnterConnecting => s !in {Auditing, Degraded, Connecting}
    case EnterDegraded => s in {Uninitialized, StreamState.Failed}
    case AuditForRepair => s !in {Auditing, Repairing, Degraded, StreamState.Failed}
    case EnterRepairing => s != Auditing
    case AuditForRecovery => s !in {Auditing, Degraded, Repairing}
    case _ => false
  }

  /** All recorders over one row. */
  class Recorders {
    const row: StreamRow
    const runtime: RuntimeLifecycleRecorder
    const repair: RepairStateRecorder
    const recovery: RealtimeRecoveryStateRecorder

    ghost predicate Valid()
      reads this, row
    {
      row.Valid() && runtime.row == row && repair.row == row && recovery.row == row
    }

    constructor (row: StreamRow)
      requires row.Valid()
      ensures Valid() && this.row == row
    {
      this.row := row;
      runtime := new RuntimeLifecycleRecorder(row);
      repair := new RepairStateRecorder(row);
      recovery := new RealtimeRecoveryStateRecorder(row);
    }

    /** Every recorder call moves the row along its path, and is refused exactly where said. */
    method Perform(call: Call, now: int) returns (ok: bool)
      requires Valid()
      modifies row
      ensures Valid() && row.history == old(row.history) + CallPath(old(row.state), call)
      ensures ok <==> !CallRefused(old(row.state), call)
    {
      ok := true;
      match call
      case Prepare => runtime.PrepareForBootstrap(now);
      case EnterAuditing => ok := runtime.MarkAuditing(now);
      case EnterConnecting => ok := runtime.MarkConnecting(now);
      case EnterDegraded => ok := runtime.MarkDegraded(now, "runtime");
      case EnterFailed => runtime.MarkFailed(now, "runtime");
      case Project(facts, admitted) => runtime.Synchronize(facts, admitted, now);
      case AuditForRepair => ok := repair.EnsureAuditing(now);
      case EnterRepairing => ok := repair.TransitionToRepairing(now);
      case LeaveRepairing => repair.TransitionRepairingToAuditing(now);
      case NoteFailure(recoverable) => repair.RecordFailure(recoverable, "source", now);
      case GiveUpReady => recovery.MarkUnavailable("recovery", now);
      case AuditForRecovery => ok := recovery.EnsureAuditing(now);
      case Restore => recovery.MarkRestored(now);
    }
  }

  // ---- Any interleaving ----

  function StatesOf(s: StreamState, calls: seq<Call>): seq<StreamState>
    decreases |calls|
  {
    if calls == [] then [] else
      var path := CallPath(s, calls[0]);
      path + StatesOf(End(s, path), calls[1..])
  }

  function StateAfter(s: StreamState, calls: seq<Call>): StreamState
    decreases |calls|
  {
    if calls == [] then s else StateAfter(End(s, CallPath(s, calls[0])), calls[1..])
  }

  lemma StepsJoin(s: StreamState, first: seq<StreamState>, second: seq<StreamState>)
    requires LegalPath([s] + first) && LegalPath([End(s, first)] + second)
    ensures LegalPath([s] + (first + second)) && End(s, first + second) == End(End(s, first), second)
  {
    PathsJoin([s] + first, second);
    assert [s] + first + second == [s] + (first + second);
  }

  lemma CallIsLegal(s: StreamState, call: Call)
    ensures LegalPath([s] + CallPath(s, call))
  {
  }

  /** However the calls of all recorders interleave, from any persisted state, every transition is an
      allowed one. */
  lemma {:induction false} RunsAreLegal(s: StreamState, calls: seq<Call>)
    ensures LegalPath([s] + StatesOf(s, calls)) && StateAfter(s, calls) == End(s, StatesOf(s, calls))
    decreases |calls|
  {
    if calls != [] {
      var path := CallPath(s, calls[0]);
      CallIsLegal(s, calls[0]);
      RunsAreLegal(End(s, path), calls[1..]);
      StepsJoin(s, path, StatesOf(End(s, path), calls[1..]));
    }
  }

  lemma {:induction false} StateAfterAll(s: StreamState, first: seq<Call>, second: seq<Call>)
    ensures StateAfter(s, first + second) == StateAfter(StateAfter(s, first), second)
    decreases |first|
  {
    if first == [] {
      assert first + second == second;
    } else {
      assert (first + second)[1..] == first[1..] + second;
      StateAfterAll(End(s, CallPath(s, first[0])), first[1..], second);
    }
  }

  /** Ready is entered by the projection of an admitted stream alone, and only on data-ready facts. */
  lemma ReadyOnlyWhenDataReady(s: StreamState, call: Call)
    ensures StreamState.Ready in CallPath(s, call) ==> call.Project? && call.admitted && call.facts.DataReady()
    ensures End(s, CallPath(s, call)) == StreamState.Ready ==> s == StreamState.Ready || StreamState.Ready in CallPath(s, call)
  {
  }

  ghost predicate ReadySince(s: StreamState, calls: seq<Call>, i: nat)
    requires i < |calls|
  {
    && calls[i].Project? && calls[i].admitted && calls[i].facts.DataReady()
    && forall j :: i < j <= |calls| ==> StateAfter(s, calls[..j]) == StreamState.Ready
  }

  lemma ReadyStays(s: StreamState, calls: seq<Call>, i: nat)
    requires calls != [] && i < |calls| - 1 && ReadySince(s, calls[..|calls| - 1], i)
    requires StateAfter(s, calls) == StreamState.Ready
    ensures ReadySince(s, calls, i)
  {
    var front := calls[..|calls| - 1];
    assert calls[..|calls|] == calls;
    forall j | i < j < |calls|
      ensures StateAfter(s, calls[..j]) == StreamState.Ready
    {
      assert calls[..j] == front[..j];
    }
  }

  /** A stream found ready was made so by a projection of data-ready facts, and has been ready since. */
  lemma {:induction false} ReadyHasAReason(s: StreamState, calls: seq<Call>)
    requires s != StreamState.Ready && StateAfter(s, calls) == StreamState.Ready
    ensures exists i: nat :: i < |calls| && ReadySince(s, calls, i)
    decreases |calls|
  {
    var front, last := calls[..|calls| - 1], calls[|calls| - 1];
    assert calls == front + [last];
    StateAfterAll(s, front, [last]);
    var before := StateAfter(s, front);
    assert StateAfter(before, [last]) == End(before, CallPath(before, last));
    ReadyOnlyWhenDataReady(before, last);
    if before == StreamState.Ready {
      ReadyHasAReason(s, front);
      var i: nat :| i < |front| && ReadySince(s, front, i);
      ReadyStays(s, calls, i);
    } else {
      assert calls[..|calls|] == calls;
      assert ReadySince(s, calls, |calls| - 1);
    }
  }

  // ---- Uninterrupted work ----

  function FailureCall(recoverable: bool): Call { if recoverable then EnterDegraded else EnterFailed }

  function LastCall(run: RepairRun, held: bool): seq<Call>
  {
    if run.SourceBroke? then [FailureCall(run.recoverable)] else if Continuous(run) && !held then [EnterConnecting] else []
  }

  /** The calls of a repair and of what follows it. */
  function RepairCalls(run: RepairRun, held: bool): seq<Call>
  {
    match run
    case AlreadyContinuous => LastCall(run, held)
    case SourceBroke(recoverable) => [EnterRepairing] + ([NoteFailure(recoverable)] + LastCall(run, held))
    case _ => [EnterRepairing] + ([LeaveRepairing] + LastCall(run, held))
  }

  function CallsAfterPrepare(pass: PassRun): seq<Call>
  {
    match pass
    case NoWindowYet => []
    case DiscoveryBroke(recoverable) => [FailureCall(recoverable)]
    case RequestRefused => [EnterAuditing] + [EnterFailed]
    case TrackRepaired(run, held) => [EnterAuditing] + ([AuditForRepair] + RepairCalls(run, held))
  }

  function PassCalls(pass: PassRun): seq<Call> { [Prepare] + CallsAfterPrepare(pass) }

  predicate NoneRefused(s: StreamState, calls: seq<Call>)
    decreases |calls|
  {
    calls != [] ==> !CallRefused(s, calls[0]) && NoneRefused(End(s, CallPath(s, calls[0])), calls[1..])
  }

  /** One call in front of calls that are not refused. */
  lemma OneCall(s: StreamState, call: Call, next: StreamState, rest: seq<Call>)
    requires !CallRefused(s, call) && End(s, CallPath(s, call)) == next && NoneRefused(next, rest)
    ensures NoneRefused(s, [call] + rest) && StateAfter(s, [call] + rest) == StateAfter(next, rest)
  {
    assert ([call] + rest)[1..] == rest;
  }

  lemma LastFromAuditing(run: RepairRun, held: bool)
    requires !run.SourceBroke?
    ensures NoneRefused(Auditing, LastCall(run, held))
    ensures StateAfter(Auditing, LastCall(run, held)) == if Continuous(run) && !held then Connecting else Auditing
  {
    if Continuous(run) && !held {
      OneCall(Auditing, EnterConnecting, Connecting, []);
      assert LastCall(run, held) == [EnterConnecting] + [];
    }
  }

  lemma RepairFromAuditing(run: RepairRun, held: bool)
    ensures NoneRefused(Auditing, RepairCalls(run, held))
    ensures StateAfter(Auditing, RepairCalls(run, held)) == End(Auditing, RestoredPath(run, !held))
  {
    var last := LastCall(run, held);
    match run
    case AlreadyContinuous =>
      LastFromAuditing(run, held);
    case SourceBroke(recoverable) =>
      var failed := FailureState(recoverable);
      OneCall(failed, FailureCall(recoverable), failed, []);
      assert last == [FailureCall(recoverable)] + [];
      OneCall(Repairing, NoteFailure(recoverable), failed, last);
      OneCall(Auditing, EnterRepairing, Repairing, [NoteFailure(recoverable)] + last);
    case _ =>
      LastFromAuditing(run, held);
      OneCall(Repairing, LeaveRepairing, Auditing, last);
      OneCall(Auditing, EnterRepairing, Repairing, [LeaveRepairing] + last);
  }

  lemma PassFromBootstrapping(pass: PassRun)
    ensures NoneRefused(Bootstrapping, CallsAfterPrepare(pass))
    ensures StateAfter(Bootstrapping, CallsAfterPrepare(pass)) == End(Bootstrapping, RunPath(pass))
  {
    match pass
    case NoWindowYet =>
    case DiscoveryBroke(recoverable) =>
      OneCall(Bootstrapping, FailureCall(recoverable), FailureState(recoverable), []);
      assert CallsAfterPrepare(pass) == [FailureCall(recoverable)] + [];
    case RequestRefused =>
      OneCall(Auditing, EnterFailed, StreamState.Failed, []);
      assert [EnterFailed] == [EnterFailed] + [];
      OneCall(Bootstrapping, EnterAuditing, Auditing, [EnterFailed]);
    case TrackRepaired(run, held) =>
      RepairFromBootstrapping(run, held);
  }

  lemma RepairFromBootstrapping(run: RepairRun, held: bool)
    ensures var calls := [EnterAuditing] + ([AuditForRepair] + RepairCalls(run, held));
            && NoneRefused(Bootstrapping, calls)
            && StateAfter(Bootstrapping, calls) == End(Auditing, RestoredPath(run, !held))
  {
    RepairFromAuditing(run, held);
    OneCall(Auditing, AuditForRepair, Auditing, RepairCalls(run, held));
    OneCall(Bootstrapping, EnterAuditing, Auditing, [AuditForRepair] + RepairCalls(run, held));
  }

  /** A reconciliation pass that nothing interrupts is refused nowhere, from any persisted state, and
      ends where its path does. */
  lemma PassIsNeverRefused(s: StreamState, pass: PassRun)
    ensures NoneRefused(s, PassCalls(pass))
    ensures StateAfter(s, PassCalls(pass)) == End(Bootstrapping, RunPath(pass))
  {
    PassFromBootstrapping(pass);
    OneCall(s, Prepare, Bootstrapping, CallsAfterPrepare(pass));
  }

  // ---- A recovery attempt with projections in between ----

  /** Projections made while a recovery episode is open: never of data-ready facts. */
  predicate Quiet(calls: seq<Call>)
  {
    forall i :: 0 <= i < |calls| ==> calls[i].Project? && !(calls[i].admitted && calls[i].facts.DataReady())
  }

  predicate HasFailure(calls: seq<Call>)
  {
    exists i :: 0 <= i < |calls| && calls[i].Project? && calls[i].admitted && calls[i].facts.fatal
  }

  /** Of a stream that is not connecting or ready they only tell a failure. */
  lemma {:induction false} QuietProjections(s: StreamState, calls: seq<Call>)
    requires Quiet(calls) && s in {Degraded, Auditing, Repairing, StreamState.Failed}
    ensures StateAfter(s, calls) == if HasFailure(calls) then StreamState.Failed else s
    decreases |calls|
  {
    if calls != [] {
      var next := End(s, CallPath(s, calls[0]));
      assert next == if calls[0].admitted && calls[0].facts.fatal then StreamState.Failed else s;
      QuietProjections(next, calls[1..]);
      assert HasFailure(calls) <==> (calls[0].admitted && calls[0].facts.fatal) || HasFailure(calls[1..]) by {
        if HasFailure(calls[1..]) {
          var i :| 0 <= i < |calls| - 1 && calls[1..][i].Project? && calls[1..][i].admitted && calls[1..][i].facts.fatal;
          assert calls[i + 1] == calls[1..][i];
        }
        if HasFailure(calls) {
          var i :| 0 <= i < |calls| && calls[i].Project? && calls[i].admitted && calls[i].facts.fatal;
          assert i > 0 ==> calls[1..][i - 1] == calls[i];
        }
      }
    }
  }

  /** One call followed by projections. */
  lemma CallThenQuiet(s: StreamState, call: Call, quiet: seq<Call>)
    requires Quiet(quiet) && End(s, CallPath(s, call)) in {Degraded, Auditing, Repairing, StreamState.Failed}
    ensures StateAfter(s, [call] + quiet) == if HasFailure(quiet) then StreamState.Failed else End(s, CallPath(s, call))
  {
    assert ([call] + quiet)[1..] == quiet;
    QuietProjections(End(s, CallPath(s, call)), quiet);
  }

  const RESTING := {Connecting, StreamState.Ready, Degraded, Auditing, StreamState.Failed}

  /** Into auditing: the recovery is refused exactly when a failure is projected after it gave up
      readiness; one projected later, before the repair audits, is undone by the repair. */
  lemma AuditingRefusedExactlyOnFailure(s: StreamState, first: seq<Call>, second: seq<Call>, third: seq<Call>)
    requires s in RESTING && s != StreamState.Failed && Quiet(first) && Quiet(second) && Quiet(third)
    ensures var waiting := StateAfter(s, [GiveUpReady] + first);
            && (CallRefused(waiting, AuditForRecovery) <==> HasFailure(first))
            && (!HasFailure(first) ==>
                  var audited := StateAfter(waiting, [AuditForRecovery] + second);
                  && !CallRefused(audited, AuditForRepair)
                  && (CallRefused(StateAfter(audited, [AuditForRepair] + third), EnterRepairing) <==> HasFailure(third))
                  && (!HasFailure(third) ==> StateAfter(audited, [AuditForRepair] + third) == Auditing))
  {
    CallThenQuiet(s, GiveUpReady, first);
    if !HasFailure(first) {
      var waiting := StateAfter(s, [GiveUpReady] + first);
      CallThenQuiet(waiting, AuditForRecovery, second);
      CallThenQuiet(StateAfter(waiting, [AuditForRecovery] + second), AuditForRepair, third);
    }
  }

  /** From there on nothing is refused; the attempt connects the stream exactly when no failure is
      projected before it ends. */
  lemma RepairingIsNeverRefused(fourth: seq<Call>, done: Call, fifth: seq<Call>)
    requires Quiet(fourth) && Quiet(fifth) && (done == LeaveRepairing || done.NoteFailure?)
    ensures var repaired := StateAfter(StateAfter(Auditing, [EnterRepairing] + fourth), [done] + fifth);
            && !CallRefused(StateAfter(Auditing, [EnterRepairing] + fourth), done) && !CallRefused(repaired, Restore)
            && (done == LeaveRepairing ==>
                  (End(repaired, CallPath(repaired, Restore)) == Connecting <==> !HasFailure(fourth) && !HasFailure(fifth)))
            && (HasFailure(fourth) || HasFailure(fifth) ==> repaired == StreamState.Failed)
  {
    CallThenQuiet(Auditing, EnterRepairing, fourth);
    CallThenQuiet(StateAfter(Auditing, [EnterRepairing] + fourth), done, fifth);
  }

  /** Between attempts an admitted stream rests in one of five states, so a new attempt without a
      failure in between starts as above. */
  lemma RestsAfterAttempt(s: StreamState, attempt: AttemptRun)
    requires s in RESTING
    ensures End(s, AttemptPath(s, attempt)) in RESTING
    ensures AttemptRefused(s) <==> s == StreamState.Failed
  {
  }
}
