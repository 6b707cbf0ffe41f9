// One reconciliation pass of a stream: discovery, repair and the second track under one lifecycle
// (src/market_data_service/runtime/reconciliation.py, open_interest_reconciliation.py).

module Reconciliation {
  import opened Optional
  import opened Grid
  import opened Windows
  import opened Continuity
  import opened Repair
  import opened Discovery
  import opened Lifecycle

  datatype Classification = ConnectingPass | IncompletePass | RecoverablePass | FatalPass

  datatype Outcome = Outcome(classification: Classification, window: Option<TimeWindow>)

  /** What one track's pass meets outside: metadata, probe, source, and the clock at discovery and
      when the window is drawn. */
  datatype Surroundings = Surroundings(metadata: LaunchAnswer, probe: LowerBoundProbe, importer: Importer, now: int, later: int)

  function FailureClass(recoverable: bool): Classification { if recoverable then RecoverablePass else FatalPass }

  // ---- The window of a pass ----

  datatype Resolution = WindowFound(window: TimeWindow) | NotResolved | NothingClosed | ResolutionFailed(recoverable: bool)

  /** The full window from the lower bound to the last closed bar. */
  method WindowFromLowerBound(lower: ResolveHistoricalLowerBound, around: Surroundings, maxWindows: int)
    returns (resolution: Resolution, ghost asked: seq<TimeWindow>)
    requires lower.Valid() && StaysInside(around.probe, lower.step) && maxWindows > 0
    modifies lower
    ensures lower.Valid()
    ensures lower.launch.None? || LastRaised(asked, lower.probes, around.probe) ==> resolution.ResolutionFailed?
    ensures lower.launch.Some? && LastRaised(asked, lower.probes, around.probe) ==> lower.earliest.None?
    ensures lower.launch.Some? && LastRaised(asked, lower.probes, around.probe) ==>
              resolution.recoverable == around.probe(lower.probes - 1, asked[|asked| - 1]).recoverable
    ensures lower.launch.None? ==>
              resolution.recoverable == (old(lower.earliest).None? && around.metadata.LaunchRaised? && around.metadata.recoverable)
    ensures lower.launch.Some? && !LastRaised(asked, lower.probes, around.probe) ==>
              var end := LastClosedOpenTime(around.later, lower.step) + lower.step;
              && (resolution == NotResolved <==> lower.earliest.None?)
              && (resolution == NothingClosed <==> lower.earliest.Some? && end <= lower.earliest.value)
              && (resolution == ResolutionFailed(false) <==> lower.earliest.Some? && lower.earliest.value < end && lower.earliest.value < 0)
              && (resolution.WindowFound? <==> lower.earliest.Some? && 0 <= lower.earliest.value < end)
    ensures resolution.WindowFound? ==>
              && resolution.window == TimeWindow(lower.earliest.value, LastClosedOpenTime(around.later, lower.step) + lower.step)
              && resolution.window.Aligned(lower.step)
  {
    var bound;
    bound, asked := lower.Execute(maxWindows, around.now, around.metadata, around.probe);
    if bound.Unavailable? {
      return ResolutionFailed(bound.recoverable), asked;
    }
    if bound.Unresolved? {
      return NotResolved, asked;
    }
    var end := LastClosedOpenTime(around.later, lower.step) + lower.step;
    NextOnGrid(LastClosedOpenTime(around.later, lower.step), lower.step);
    if bound.openTime >= end {
      return NothingClosed, asked;
    }
    if bound.openTime < 0 {
      return ResolutionFailed(false), asked;
    }
    return WindowFound(TimeWindow(bound.openTime, end)), asked;
  }

  function RunOf(result: RepairResult): RepairRun
  {
    match result.status
    case Complete => if result.pre.isContinuous then AlreadyContinuous else BecameContinuous
    case Incomplete => LeftGaps
    case Failed => SourceBroke(result.recoverable)
  }

  // ---- The second track ----

  class OpenInterestTrackReconciler {
    const lower: ResolveHistoricalLowerBound
    const repair: RepairStreamGaps
    const discoveryWindows: int
    const repairWindows: int

    ghost predicate Valid()
      reads this, lower
    {
      lower.Valid() && repair.Configured() && lower.step == repair.step && discoveryWindows > 0 && repairWindows > 0
    }

    constructor (lower: ResolveHistoricalLowerBound, repair: RepairStreamGaps, discoveryWindows: int, repairWindows: int)
      requires lower.Valid() && repair.Configured() && lower.step == repair.step && discoveryWindows > 0 && repairWindows > 0
      ensures Valid() && this.lower == lower && this.repair == repair
    {
      this.lower := lower;
      this.repair := repair;
      this.discoveryWindows := discoveryWindows;
      this.repairWindows := repairWindows;
    }

    /** The track's lower bound is known, with the launch it was searched from, and every bar from there
        through the last closed one is stored. */
    ghost predicate Proven(later: int)
      requires lower.step > 0
      reads lower, repair
    {
      var end := LastClosedOpenTime(later, lower.step) + lower.step;
      && lower.launch.Some? && lower.earliest.Some? && (0 <= lower.earliest.value || end <= lower.earliest.value)
      && GridPoints(lower.earliest.value, end, lower.step) <= repair.stored
    }

    /** A pass over an aligned window failed exactly as one of its requests did. */
    ghost predicate FailsAsTold(outcome: Outcome, window: TimeWindow, importer: Importer, before: set<int>, first: nat)
      requires repair.Configured() && window.Valid() && window.Aligned(repair.step) && first <= repair.requests
      reads repair
    {
      && (outcome.classification == RecoverablePass <==>
            repair.FailedSince(importer, before, first, window, true))
      && (outcome.classification == FatalPass <==>
            repair.FailedSince(importer, before, first, window, false))
    }

    /** One pass over the window of an earlier pass, or over the full one. Complete means: every bar of
        it is stored, or no bar has closed since the track's lower bound. The stream's lifecycle is not
        touched. */
    method ExecuteStream(window: Option<TimeWindow>, around: Surroundings) returns (outcome: Outcome)
      requires Valid() && StaysInside(around.probe, lower.step)
      requires window.Some? ==> 0 <= window.value.start < window.value.end
      modifies lower, repair
      ensures Valid() && old(repair.requests) <= repair.requests
      ensures window.Some? ==> lower.earliest == old(lower.earliest) && outcome.window == window
      ensures window.Some? && !window.value.Aligned(lower.step) ==> outcome.classification == FatalPass && repair.stored == old(repair.stored)
      ensures window.Some? && window.value.Aligned(lower.step) ==>
                (outcome.classification == ConnectingPass
                 <==> GridPoints(window.value.start, window.value.end, lower.step) <= repair.stored)
      ensures window.Some? && window.value.Aligned(lower.step) ==>
                FailsAsTold(outcome, window.value, around.importer, old(repair.stored), old(repair.requests))
      ensures window.None? ==> (outcome.classification == ConnectingPass <==> Proven(around.later))
    {
      if window.Some? {
        outcome := RepairTrack(window.value, around.importer);
        return;
      }
      var resolution, asked := WindowFromLowerBound(lower, around, discoveryWindows);
      match resolution
      case NotResolved =>
        outcome := Outcome(IncompletePass, None);
      case NothingClosed =>
        assert GridPoints(lower.earliest.value, LastClosedOpenTime(around.later, lower.step) + lower.step, lower.step) == {};
        outcome := Outcome(ConnectingPass, None);
      case ResolutionFailed(recoverable) =>
        outcome := Outcome(FailureClass(recoverable), None);
      case WindowFound(found) =>
        outcome := RepairTrack(found, around.importer);
    }

    /** The repair request refuses an off-grid window; otherwise one bounded repair decides. */
    method RepairTrack(window: TimeWindow, importer: Importer) returns (outcome: Outcome)
      requires Valid() && window.Valid()
      modifies repair
      ensures Valid() && outcome.window == Some(window)
      ensures !window.Aligned(lower.step) ==> outcome.classification == FatalPass && repair.stored == old(repair.stored)
      ensures window.Aligned(lower.step) ==>
                (outcome.classification == ConnectingPass <==> GridPoints(window.start, window.end, lower.step) <= repair.stored)
      ensures old(repair.requests) <= repair.requests
      ensures window.Aligned(lower.step) ==> FailsAsTold(outcome, window, importer, old(repair.stored), old(repair.requests))
    {
      if !window.Aligned(repair.step) {
        return Outcome(FatalPass, Some(window));
      }
      var result := repair.Execute(RepairRequest(window.start, window.end, repairWindows), importer);
      var classification :=
        match result.status
        case Complete => ConnectingPass
        case Incomplete => IncompletePass
        case Failed => FailureClass(result.recoverable);
      outcome := Outcome(classification, Some(window));
    }
  }

  // ---- The pass ----

  /** How a pass went, as far as the lifecycle sees it. */
  datatype PassRun =
    | NoWindowYet
    | DiscoveryBroke(recoverable: bool)
    | RequestRefused
    | TrackRepaired(run: RepairRun, held: bool)

  function RunPath(run: PassRun): seq<StreamState>
  {
    match run
    case NoWindowYet => []
    case DiscoveryBroke(recoverable) => [FailureState(recoverable)]
    case RequestRefused => [Auditing, StreamState.Failed]
    case TrackRepaired(repair, held) =>
      [Auditing] + RestoredPath(repair, !held)
  }

  lemma OnePath(before: seq<StreamState>, first: seq<StreamState>, second: seq<StreamState>)
    ensures before + first + second == before + (first + second)
  {
  }

  /** The state a pass leaves, said by its classification and what held it. */
  predicate EndsAs(state: StreamState, outcome: Outcome, held: bool)
  {
    match outcome.classification
    case ConnectingPass => state == Connecting && !held
    case IncompletePass => state == if outcome.window.None? then Bootstrapping else Auditing
    case RecoverablePass => state == if held then Auditing else Degraded
    case FatalPass => state == if held then Auditing else StreamState.Failed
  }

  class HistoricalStreamReconciler {
    const lower: ResolveHistoricalLowerBound
    const repair: RepairStreamGaps
    const row: StreamRow
    const lifecycle: RuntimeLifecycleRecorder
    const recorder: RepairStateRecorder
    const openInterest: OpenInterestTrackReconciler
    const flagged: bool
    const discoveryWindows: int
    const repairWindows: int

    ghost predicate Valid()
      reads this, lower, row, openInterest, openInterest.lower
    {
      && lower.Valid() && repair.Configured() && row.Valid() && openInterest.Valid()
      && lifecycle.row == row && recorder.row == row
      && lower.step == repair.step == openInterest.lower.step
      && lower != openInterest.lower && repair != openInterest.repair
      && discoveryWindows > 0 && repairWindows > 0
    }

    constructor (lower: ResolveHistoricalLowerBound, repair: RepairStreamGaps, row: StreamRow, lifecycle: RuntimeLifecycleRecorder,
                 recorder: RepairStateRecorder, openInterest: OpenInterestTrackReconciler, flagged: bool,
                 discoveryWindows: int, repairWindows: int)
      requires lower.Valid() && repair.Configured() && row.Valid() && openInterest.Valid()
      requires lifecycle.row == row && recorder.row == row && lower.step == repair.step == openInterest.lower.step
      requires lower != openInterest.lower && repair != openInterest.repair && discoveryWindows > 0 && repairWindows > 0
      ensures Valid() && this.row == row && this.lower == lower && this.repair == repair && this.flagged == flagged
    {
      this.lower, this.repair, this.row, this.lifecycle, this.recorder := lower, repair, row, lifecycle, recorder;
      this.openInterest, this.flagged, this.discoveryWindows, this.repairWindows := openInterest, flagged, discoveryWindows, repairWindows;
    }

    /** One pass from any persisted state: only allowed transitions, none refused, and the end its
        classification says. It connects exactly when every bar of the window and, for a flagged stream,
        of the second track is stored. */
    method Execute(window: Option<TimeWindow>, candles: Surroundings, track: Surroundings, now: int) returns (outcome: Outcome, ghost run: PassRun)
      requires Valid() && StaysInside(candles.probe, lower.step) && StaysInside(track.probe, lower.step)
      requires window.Some? ==> 0 <= window.value.start < window.value.end
      modifies lower, repair, row, openInterest.lower, openInterest.repair
      ensures Valid()
      ensures row.Took(PreparePath(old(row.state)) + RunPath(run))
      ensures EndsAs(row.state, outcome, run.TrackRepaired? && run.held)
      ensures run.TrackRepaired? && run.held ==> flagged && Continuous(run.run)
      ensures window.Some? ==> outcome.window == window
      ensures window.None? && outcome.window.Some? ==>
                && lower.earliest == Some(outcome.window.value.start)
                && outcome.window.value.end == LastClosedOpenTime(candles.later, lower.step) + lower.step
      ensures outcome.classification == ConnectingPass <==>
                && outcome.window.Some? && outcome.window.value.Aligned(lower.step)
                && GridPoints(outcome.window.value.start, outcome.window.value.end, lower.step) <= repair.stored
                && (flagged ==> openInterest.Proven(track.later))
    {
      ghost var before, prepared := row.history, PreparePath(row.state);
      lifecycle.PrepareForBootstrap(now);
      outcome, run := ReconcilePrepared(window, candles, track, now);
      OnePath(before, prepared, RunPath(run));
    }

    method ReconcilePrepared(window: Option<TimeWindow>, candles: Surroundings, track: Surroundings, now: int)
      returns (outcome: Outcome, ghost run: PassRun)
      requires Valid() && StaysInside(candles.probe, lower.step) && StaysInside(track.probe, lower.step) && row.state == Bootstrapping
      requires window.Some? ==> 0 <= window.value.start < window.value.end
      modifies lower, repair, row, openInterest.lower, openInterest.repair
      ensures Valid()
      ensures row.Took(RunPath(run))
      ensures EndsAs(row.state, outcome, run.TrackRepaired? && run.held)
      ensures run.TrackRepaired? && run.held ==> flagged && Continuous(run.run)
      ensures window.Some? ==> outcome.window == window
      ensures window.None? && outcome.window.Some? ==>
                && lower.earliest == Some(outcome.window.value.start)
                && outcome.window.value.end == LastClosedOpenTime(candles.later, lower.step) + lower.step
      ensures outcome.classification == ConnectingPass <==>
                && outcome.window.Some? && outcome.window.value.Aligned(lower.step)
                && GridPoints(outcome.window.value.start, outcome.window.value.end, lower.step) <= repair.stored
                && (flagged ==> openInterest.Proven(track.later))
    {
      var resolution := Resolve(window, candles);
      match resolution
      case WindowFound(found) =>
        outcome, run := RepairWindow(found, candles, track, now);
      case ResolutionFailed(recoverable) =>
        RecordFailureState(recoverable, now);
        outcome, run := Outcome(FailureClass(recoverable), None), DiscoveryBroke(recoverable);
      case _ =>
        outcome, run := Outcome(IncompletePass, None), NoWindowYet;
    }

    /** The window of an earlier pass, or the full one. */
    method Resolve(window: Option<TimeWindow>, candles: Surroundings) returns (resolution: Resolution)
      requires Valid() && StaysInside(candles.probe, lower.step)
      modifies lower
      ensures Valid()
      ensures window.Some? ==> resolution == WindowFound(window.value)
      ensures window.None? ==>
                var end := LastClosedOpenTime(candles.later, lower.step) + lower.step;
                && (resolution.WindowFound? <==> lower.launch.Some? && lower.earliest.Some? && 0 <= lower.earliest.value < end)
                && (resolution == NothingClosed <==> lower.launch.Some? && lower.earliest.Some? && end <= lower.earliest.value)
                && (resolution.WindowFound? ==> resolution.window == TimeWindow(lower.earliest.value, end))
    {
      if window.Some? {
        return WindowFound(window.value);
      }
      ghost var asked;
      resolution, asked := WindowFromLowerBound(lower, candles, discoveryWindows);
    }

    /** Into auditing, through the repair, and on to connecting if nothing holds the stream. */
    method RepairWindow(window: TimeWindow, candles: Surroundings, track: Surroundings, now: int) returns (outcome: Outcome, ghost run: PassRun)
      requires Valid() && StaysInside(track.probe, lower.step) && row.state == Bootstrapping && window.Valid()
      modifies repair, row, openInterest.lower, openInterest.repair
      ensures Valid()
      ensures row.Took(RunPath(run))
      ensures outcome.window == Some(window) && EndsAs(row.state, outcome, run.TrackRepaired? && run.held)
      ensures run.TrackRepaired? && run.held ==> flagged && Continuous(run.run)
      ensures !window.Aligned(lower.step) ==> outcome.classification == FatalPass && repair.stored == old(repair.stored)
      ensures outcome.classification == ConnectingPass <==>
                && window.Aligned(lower.step) && GridPoints(window.start, window.end, lower.step) <= repair.stored
                && (flagged ==> openInterest.Proven(track.later))
    {
      var ok := lifecycle.MarkAuditing(now);
      var request := RepairRequest(window.start, window.end, repairWindows);
      if !request.Valid(repair.step) {
        RecordFailureState(false, now);
        return Outcome(FatalPass, Some(window)), RequestRefused;
      }
      ghost var repaired, held;
      outcome, repaired, held := RepairAudited(request, candles.importer, track, now);
      run := TrackRepaired(repaired, held);
    }

    /** The candles are repaired first; a failure of theirs is told as the source told it. */
    method RepairAudited(request: RepairRequest, importer: Importer, track: Surroundings, now: int)
      returns (outcome: Outcome, ghost run: RepairRun, ghost held: bool)
      requires Valid() && StaysInside(track.probe, lower.step) && row.state == Auditing && request.Valid(repair.step)
      modifies repair, row, openInterest.lower, openInterest.repair
      ensures Valid() && old(repair.requests) <= repair.requests
      ensures row.Took(RestoredPath(run, !held))
      ensures outcome.window == Some(request.Window()) && EndsAs(row.state, outcome, held)
      ensures held ==> flagged && Continuous(run)
      ensures outcome.classification == ConnectingPass <==>
                && GridPoints(request.start, request.end, lower.step) <= repair.stored && (flagged ==> openInterest.Proven(track.later))
      ensures repair.FailedSince(importer, old(repair.stored), old(repair.requests), request.Window(), true)
              <==> outcome.classification == RecoverablePass && !held
      ensures repair.FailedSince(importer, old(repair.stored), old(repair.requests), request.Window(), false)
              <==> outcome.classification == FatalPass && !held
    {
      var result := RepairCandles(request, importer, now);
      var window := request.Window();
      run, held := RunOf(result), false;
      match result.status
      case Failed =>
        RecordFailureState(result.recoverable, now);
        outcome := Outcome(FailureClass(result.recoverable), Some(window));
      case Incomplete =>
        outcome := Outcome(IncompletePass, Some(window));
      case Complete =>
        outcome, held := Connect(window, track, now);
    }

    /** The candle repair between its lifecycle transitions. */
    method RepairCandles(request: RepairRequest, importer: Importer, now: int) returns (result: RepairResult)
      requires Valid() && row.state == Auditing && request.Valid(repair.step)
      modifies repair, row
      ensures Valid() && row.Took(RepairPath(RunOf(result))) && old(repair.requests) <= repair.requests
      ensures result.status == Complete <==> GridPoints(request.start, request.end, repair.step) <= repair.stored
      ensures GridPoints(request.start, request.end, repair.step) <= old(repair.stored) <==> row.history == old(row.history)
      ensures result.status == RepairStatus.Failed && result.recoverable <==>
                repair.FailedSince(importer, old(repair.stored), old(repair.requests), request.Window(), true)
      ensures result.status == RepairStatus.Failed && !result.recoverable <==>
                repair.FailedSince(importer, old(repair.stored), old(repair.requests), request.Window(), false)
    {
      var again := recorder.EnsureAuditing(now);
      ReportCountsTheWindow(request.Window(), repair.stored * GridPoints(request.start, request.end, repair.step), repair.step);
      result := repair.Execute(request, importer);
      recorder.Around(RunOf(result), now);
    }

    /** The candles are complete: connect exactly unless the second track of a flagged stream is not
        proven, whose classification is then the pass's. */
    method Connect(window: TimeWindow, track: Surroundings, now: int) returns (outcome: Outcome, ghost held: bool)
      requires Valid() && StaysInside(track.probe, lower.step) && row.state == Auditing
      modifies row, openInterest.lower, openInterest.repair
      ensures Valid()
      ensures row.Took(if held then [] else [Connecting])
      ensures outcome.window == Some(window) && (held <==> outcome.classification != ConnectingPass)
      ensures held <==> flagged && !openInterest.Proven(track.later)
    {
      if flagged {
        var other := openInterest.ExecuteStream(None, track);
        if other.classification != ConnectingPass {
          return Outcome(other.classification, Some(window)), true;
        }
      }
      var ok := lifecycle.MarkConnecting(now);
      return Outcome(ConnectingPass, Some(window)), false;
    }

    method RecordFailureState(recoverable: bool, now: int)
      requires row.Valid() && lifecycle.row == row && (recoverable ==> row.state !in {Uninitialized, StreamState.Failed})
      modifies row
      ensures row.Took(StepTo(old(row.state), FailureState(recoverable)))
    {
      if recoverable {
        var ok := lifecycle.MarkDegraded(now, "reconciliation");
      } else {
        lifecycle.MarkFailed(now, "reconciliation");
      }
    }
  }
}
