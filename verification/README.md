# Continuity model of the market data service

The service keeps, per stream (an instrument and a timeframe), a gap-free grid of bars in up to two
tracks, candles and open interest. It must never call a stream ready, or announce a bar, past a hole.
This project models the logic behind that promise and proves it, together with the algorithms it
rests on.

- `Grid`, `Gaps`, `Continuity`: grid arithmetic, exact gap detection, fetch windows, audits, and the
  check of a consumer's read.
- `Repair`, `RepairConvergence`: one bounded repair pass over an arbitrary source, and what repeated
  passes come to.
- `Discovery`, `Backfill`: the resumable search for a stream's first bar, backfill, and the window
  budget they share in a bootstrap.
- `DecimalText`, `DecimalRoundTrip`, `Ingest`, `IngestProperties`, `OpenInterestImport`: canonical
  decimal text, and canonical ingestion on top of it; `KlineRows`: what a fetch delivers; `ImportRefinement` ties an import into the candle
  table to the set of bars that repair and backfill work on.
- `RealtimeFacts`, `RealtimeSupervisor`, `RealtimeRecovery`, `RecoveryIntents`, `RecoveryWorker`: the
  realtime supervisor, the recovery attempt over both tracks, and the worker with one intent per
  stream.
- `ContinuityProtocol`, `ContinuitySafety`, `ContinuityRuns`, `ContinuityProgress`, `ContinuityEpisodes`,
  `ContinuityLimits`: the two-track protocol as a step system. Live commits, stores by any path, disconnects, stale checks
  and signals may arrive between any two phases of a recovery attempt. One inductive invariant is kept
  by every event; the run-level guarantees follow from it. `ContinuityProgress` says what episodes get
  done, and the last file shows where the guarantees stop.
- `Lifecycle`, `Reconciliation`, `LifecycleRuns`: the persisted state machine, the recorders that drive
  it, one reconciliation pass, and every interleaving of recorder calls.
- `ReadySafety`: protocol and lifecycle together; a stream called ready has no hole.
- `Prefetch`, `LoopDiagnostics`: the prefetch scheduler, and the coverage measure of loop diagnostics.

Where the source changes an object, the model is a class proved against functions of its old state;
the properties are then proved about those functions, in terms that name none of them: bars stored, the
last bar closed by a time, tracks that have reached a bar, requests the source failed. `dafny verify dfyconfig.toml` checks everything.

## Assumptions of the continuity protocol

They are written as `Enabled`, `CanHappen` and `Hinted`, or as `requires` of
`ContinuityRuns.ReconciledStreamIsSafe`:

- a stored candle is aligned and has closed by the model's clock;
- an outcome that was not rejected, and an observed open interest point, is of a stored bar;
- a repair says complete only when its own audit finds the window stored (proved of
  `Repair.RepairStreamGaps.Execute`);
- a stream is admitted with frontiers that reconciliation proved, and was never restored before;
- when a recovery window is derived for a signal that names no bar, the durable latest candle is not
  beyond the lower frontier.

## What turned out not to hold

- The last assumption is needed. A startup signal names no bar, and its window starts after the
  durable latest candle alone. `ContinuityLimits.StartupRunPublishesPastAHole` is a run from admission
  that announces a bar past a hole in the open interest; the exact condition on the window is
  `RealtimeRecovery.UnhintedWindowCoversExactlyWhen`.
- A rejected observation with an off-grid open time inside the stored range makes the recovery window
  off-grid; the repair request then raises, and the stream fails although a repair could have
  succeeded (`ContinuityLimits.RejectionEndsStreamExactlyWhen`).
- A pending recovery is not always somebody's work. A stream that goes stale before it is admitted is
  admitted pending without an intent, and further stale checks pass it over
  (`ContinuityEpisodes.AttendedExactlyWhenAdmittedRested`, `UnattendedExactlyUntilWoken`).
- The attempts of the prefetch are not bounded for every accepted setting: a retry below one
  millisecond is truncated to zero (`Prefetch.BoundedExactlyWhenPaced`).
- A failure projected while a recovery attempt runs can refuse one of its transitions, or be undone by
  the repair's own audit until the next synchronization
  (`LifecycleRuns.AuditingRefusedExactlyOnFailure`).

## Model

| member | source | states |
|---|---|---|
| `Grid.AlignIsGreatest` | src/market_data_service/domain/timeframes.py:53-58 | Rounding down to the grid gives the greatest grid point not after the timestamp. |
| `Grid.CeilToGrid` | src/market_data_service/domain/timeframes.py:61-65 | The result is on the grid, not before the timestamp, and less than one step after it. |
| `Grid.LastClosedOpenTime` | src/market_data_service/domain/timeframes.py:68-75 | The bar returned has closed by now and the next one has not; at an exact boundary the bar opening there is still open. |
| `Grid.LastClosedExactly` | src/market_data_service/domain/timeframes.py:68-75 | Exactly one bar has closed by a time while the next one has not. |
| `Grid.TimeframesNest` | src/market_data_service/domain/timeframes.py:30-39 | Every timeframe is a whole number of bars of the one below it, down to the minute. |
| `Windows.GridPointsCount` | src/market_data_service/domain/timeframes.py:53-75 | Between two grid points there are exactly their distance in steps many bars. |
| `Gaps.FindGaps` | src/market_data_service/domain/gaps.py:27-68 | For any order and repetition of observations: each of the three refusals happens exactly on its condition, and otherwise the gaps are aligned, ordered, never touching, and hold precisely the unobserved bars of the window. |
| `Gaps.SweepBars` | src/market_data_service/domain/gaps.py:54-68 | The one-pass loop yields the gaps of the specification. |
| `Gaps.GapsFromExact` | src/market_data_service/domain/gaps.py:27-68 | The specification of the sweep is exact, said without an algorithm. |
| `Gaps.ExactGapsUnique` | src/market_data_service/domain/gaps.py:27-68 | No second gap report of the same observations is exact. |
| `Gaps.SameInsideWindow` | src/market_data_service/domain/gaps.py:45-49 | Observations outside the audited window never matter. |
| `Gaps.GapBarsCountMissing` | src/market_data_service/application/repair_types.py:74-84 | The remaining count of a progress marker is the number of missing bars. |
| `Gaps.NoGapsMeansComplete` | src/market_data_service/domain/continuity.py:39-51 | No gap is reported exactly when every bar of the window is there. |
| `Gaps.IterFetchWindows` | src/market_data_service/domain/gaps.py:71-91 | Refuses exactly a bad step, a bad limit or an off-grid gap; otherwise yields the bounded windows. |
| `Gaps.FetchWindowsTile` | src/market_data_service/domain/gaps.py:86-91 | The windows tile the gap in order without overlap, each aligned, non-empty and at most the limit long. |
| `Gaps.FetchWindowsCount` | src/market_data_service/domain/gaps.py:86-91 | There are no more windows than the gap needs: its length in window spans, rounded up. |
| `Gaps.FetchWindowsResume` | src/market_data_service/domain/gaps.py:86-91 | Cutting again from the first unused window gives exactly the windows that were left. |
| `Continuity.BuildContinuityReport` | src/market_data_service/domain/continuity.py:22-51 | The shortcut for an empty table and the sweep report the same thing; refusals happen exactly on the gap finder's conditions. |
| `Continuity.EmptyWindowIsOneGap` | src/market_data_service/domain/continuity.py:29-37 | An empty table is one gap over the whole window, as the sweep would say. |
| `Continuity.ReportCountsTheWindow` | src/market_data_service/domain/continuity.py:39-51 | Stored bars plus reported missing bars are all bars of the window; continuous means the table is the window. |
| `Continuity.ValidateCompleteGrid` | src/market_data_service/application/consumer_read/validation.py:34-48 | A read is accepted exactly when it is every bar of the range in order. |
| `Continuity.ReadAcceptedExactlyWhenContinuous` | src/market_data_service/application/consumer_read/validation.py:34-48 | The consumer's check and the audit agree: an ordered read is accepted exactly when an audit of the range finds no gap. |
| `Repair.RepairStreamGaps.Execute` | src/market_data_service/application/repair_gaps.py:76-150 | For every source: only bars of the window are added, committed counts are the growth of the table, the imported windows are the first ones of the plan within the budget, COMPLETE is said exactly when every bar is stored, also against a failure, and a failure that can or cannot be tried again is said exactly when a request of this repair failed so; an honest source never fails and fills the planned windows. |
| `Repair.RepairStreamGaps.ImportPlanned` | src/market_data_service/application/repair_gaps.py:93-130 | The import loop stops at the first source failure and keeps what came before: its windows, their commits and the corrections each import told. |
| `Repair.RepairStreamGaps.ImportWindow` | src/market_data_service/application/repair_gaps.py:102-114 | One window adds only bars of that window, commits exactly the growth, and passes on what the import corrected. |
| `Repair.RepairStreamGaps.Audit` | src/market_data_service/application/repair_gaps.py:152-159 | An audit is continuous exactly when the window is stored. |
| `Repair.FailedWindowStaysMissing` | src/market_data_service/application/repair_gaps.py:115-130 | The window a repair failed on stays missing, so a failed repair is never complete. |
| `Repair.MarkerTellsWhatIsMissing` | src/market_data_service/application/repair_types.py:74-84 | A progress marker counts the bars still missing from the window and names the first of them, and none exactly when the window is complete. |
| `Repair.NothingCorrectedExactlyWhen` | src/market_data_service/application/realtime/recovery_types.py:67-71 | An attempt corrected nothing exactly when none of its imports did. |
| `RepairConvergence.CommittedBarsCloseGaps` | src/market_data_service/application/repair_gaps.py:132-150 | A pass lowers the remaining count by exactly the bars it committed. |
| `RepairConvergence.FirstWindowLeavesThePlan` | src/market_data_service/application/repair_gaps.py:161-172 | Filling the first planned window and auditing again leaves exactly the rest of the plan. |
| `RepairConvergence.ReplanDropsImported` | src/market_data_service/application/repair_gaps.py:161-172 | Re-planning after one bounded pass gives the old plan without its first windows. |
| `RepairConvergence.PlanAfterPasses` | src/market_data_service/application/repair_gaps.py:93-149 | After any number of passes the plan is the old one without as many windows as the passes were allowed. |
| `RepairConvergence.PassesToComplete` | src/market_data_service/application/repair_gaps.py:93-149 | With an honest source repair is complete exactly from the pass count planned windows / allowed windows, rounded up. |
| `Discovery.EarliestValid` | src/market_data_service/application/lower_bound_probe.py:49-70 | An empty answer means nothing was returned, observations without a valid one are an error, and otherwise the bar named is valid, in the window and the earliest such. |
| `Discovery.CandleProbeStaysInside` | src/market_data_service/application/lower_bound_probe.py:49-70 | Whatever the source returns, the probe names only a bar of the window it asked about. |
| `Discovery.ResolveHistoricalLowerBound.Execute` | src/market_data_service/application/lower_bound.py:74-151 | Kept by every pass, for every source: either the bound is known and no cursor is left, with every window from the launch to the one it was found in probed empty, or every window from the launch to the aligned cursor was. The windows asked about stay within the budget and are reported exactly; the bound is unavailable exactly when no launch is known or the last probe raised, as recoverably as told; and each reason for not finding one says where the search stands. |
| `Discovery.ResolveHistoricalLowerBound.SearchFromCursor` | src/market_data_service/application/lower_bound.py:86-151 | The search starts at the later of launch and cursor and ends at the last closed bar. |
| `Discovery.ResolveHistoricalLowerBound.SearchWindows` | src/market_data_service/application/lower_bound.py:102-151 | The loop over fetch windows is the recursive search; why it stopped and how far it came are reported. |
| `Discovery.SearchOutcome` | src/market_data_service/application/lower_bound.py:103-139 | What a search leaves after some empty windows and an answer: the search range is exhausted exactly when all its windows were empty. |
| `Discovery.ResolveHistoricalLowerBound.ProbeWindow` | src/market_data_service/application/lower_bound.py:121-128 | An empty window moves the cursor to its end, a found bar resolves the bound, an exception changes nothing. |
| `Discovery.ResolveHistoricalLowerBound.ProbeWhileEmpty` | src/market_data_service/application/lower_bound.py:103-129 | Windows are probed in order until one is not empty or the budget is spent. |
| `Discovery.ResolveHistoricalLowerBound.AdvanceDiscovery` | src/market_data_service/application/lower_bound_state.py:35-50 | The cursor moves exactly while the bound is unknown. |
| `Discovery.ResolveHistoricalLowerBound.Resolve` | src/market_data_service/application/lower_bound_state.py:52-66 | Resolving stores the bound and clears the cursor. |
| `Discovery.SearchAsksInOrder` | src/market_data_service/application/lower_bound.py:103-139 | The windows asked about are the first fetch windows, all but the last of them empty, and the bound is known exactly when the last one held a bar. |
| `Discovery.SearchStopsAt` | src/market_data_service/application/lower_bound.py:103-139 | The search stops at the budget, at the end, or at the first window that is not empty, with the progress that implies. |
| `Discovery.SearchResumes` | src/market_data_service/application/lower_bound_state.py:25-33 | Searching on from a stored cursor gives the progress and the windows of the longer search. |
| `Discovery.SearchRaisesAgain` | src/market_data_service/application/lower_bound.py:121-128 | A search that raised does not move past the failing window, and asks for it again. |
| `Discovery.PassesAreOnePass` | src/market_data_service/application/lower_bound.py:74-151 | With a fixed source and clock, passes with any budgets leave the progress of one pass with the summed budget, and ask about the same windows unless the source raises. |
| `Backfill.BackfillStreamHistory.Execute` | src/market_data_service/application/backfill_stream.py:50-122 | For every source: windows are imported in order from the resume point within the budget, a failed attempt is counted and its start is where to resume, the end is reached exactly when the resume point (or, without resuming, the last window) has passed it, and an honest source stores every bar of the attempted windows. |
| `Backfill.ResumesExactlyAt` | src/market_data_service/application/backfill_stream.py:175-184 | An import starts at the requested bar, or at the one after the latest stored bar when it resumes and that is later. |
| `Backfill.HonestEndIsComplete` | src/market_data_service/application/backfill_stream.py:104-122 | An honest pass that resumes reaches the end exactly when its budget covers the plan, and has then stored every bar from where it started. |
| `Backfill.FetchedPoints` | src/market_data_service/domain/gaps.py:86-91 | The windows of a plan cover exactly the bars of the range. |
| `Backfill.BackfillStreamHistory.ImportWindows` | src/market_data_service/application/backfill_stream.py:67-102 | The import loop stops at the first failure and keeps what came before. |
| `Backfill.HonestPassMovesOn` | src/market_data_service/application/backfill_stream.py:175-184 | Resuming after the latest stored bar continues exactly after the last window an honest pass imported. |
| `Backfill.BackfillReachesTheEnd` | src/market_data_service/application/backfill_stream.py:104-122 | Honest passes fetch the one-pass plan piece by piece and reach the end exactly when their budgets cover it. |
| `Bootstrap.BootstrapFullStreamHistory.Execute` | src/market_data_service/application/full_bootstrap.py:86-171 | For every source, failures included: each status is returned exactly on its condition. A backfill fetches the windows that cut everything from the found bound (or the bar after the latest stored, if later) to the last closed bar, in order and as many as discovery left of the budget, unless the source failed; with an honest source and nothing stored, reaching the end means every bar from the bound through the last closed one is stored. The reported total is the real one unless discovery raised. |
| `Bootstrap.BootstrapFullStreamHistory.BackfillTo` | src/market_data_service/application/full_bootstrap.py:139-171 | With a found bound: nothing is fetched exactly when discovery used the whole budget or the bound has not closed yet, and otherwise the rest of the budget goes into the backfill. |
| `DecimalText.SamePlainExactlyWhenSameNumber` | src/market_data_service/domain/decimal_values.py:35-46 | Two decimals have the same normal form exactly when they are numerically equal. |
| `DecimalText.AtMostIsTheOrder` | src/market_data_service/domain/candle_validation.py:68-81 | The comparison of decimals is a total order in which only equal numbers are equal. |
| `DecimalText.NotNegativeExactlyWhen` | src/market_data_service/domain/candle_validation.py:82-88 | Not below zero is a matter of sign and coefficient alone. |
| `DecimalRoundTrip.CanonicalTextIsPlain` | src/market_data_service/domain/decimal_values.py:35-46 | Formatting and stripping is formatting the normal form: no exponent, no trailing fraction zero. |
| `DecimalRoundTrip.ParseFormat` | src/market_data_service/domain/decimal_values.py:14-32 | Parsing formatted text gives the number back. |
| `DecimalRoundTrip.RoundTrip` | src/market_data_service/domain/decimal_values.py:49-55 | For every finite decimal, its canonical text is accepted and parses to a decimal of the same value whose text is that text again. |
| `DecimalRoundTrip.SameTextExactlyWhenSameNumber` | src/market_data_service/domain/decimal_values.py:35-46 | One text per value: two decimals share a canonical text exactly when numerically equal. |
| `DecimalRoundTrip.AcceptedExactlyWhenCanonicalShape` | src/market_data_service/domain/decimal_values.py:49-55 | A text is accepted exactly when it has the canonical shape: optional minus, no needless leading zero, no trailing fraction zero, no negative zero. |
| `Ingest.NoIssuesMeansValid` | src/market_data_service/domain/candle_validation.py:29-90 | An observation without issues is exactly a closed, aligned, internally consistent one. |
| `Ingest.ValidExactlyWhen` | src/market_data_service/domain/candle_validation.py:29-90 | A valid candle is confirmed, fills exactly its bar of the grid, keeps every price between low and high, and has no negative volume. |
| `Ingest.IngestSays` | src/market_data_service/application/ingest.py:43-122 | An invalid observation is only noted; a valid one is committed where nothing is stored, a duplicate where the same five numbers are, and otherwise a noted correction that is stored only from REST. No other bar changes. |
| `Ingest.DuplicateIsNumericEquality` | src/market_data_service/domain/candle_comparison.py:9-21 | DUPLICATE is said exactly when all five numbers are equal. |
| `Ingest.CanonicalStorage.IngestCandle` | src/market_data_service/application/ingest.py:43-85 | One observation changes only its own stream's table, as the ingestion decision says; an unknown stream changes nothing. |
| `Ingest.CanonicalStorage.ImportWindow` | src/market_data_service/application/import_window.py:45-88 | A fetched window ingests its rows in order, quarantines the others, and reports the counts. |
| `Ingest.EveryObservationCounted` | src/market_data_service/application/import_window.py:52-88 | The counts of an import sum to the number of rows observed. |
| `Ingest.CountsSayWhatHappened` | src/market_data_service/application/import_window.py:52-88 | The unexpected, invalid, unconfirmed and accepted counts of an import are those of the rows of each kind. |
| `IngestProperties.LatestAgreesAlways` | src/market_data_service/application/ingest.py:88-100 | The cached latest bar stays the greatest stored one under every mix of live and window ingestion over any streams. |
| `IngestProperties.RestHasTheLastWord` | src/market_data_service/application/ingest.py:75-122 | After any sequence of observations a bar shows the values of its authority. |
| `IngestProperties.ImportIsItsRows` | src/market_data_service/application/import_window.py:55-71 | A window import does to the candles what its expected rows do one by one. |
| `IngestProperties.RestHasTheLastWordAlways` | src/market_data_service/application/ingest.py:75-122 | After any mix of live observations and window imports of any streams, every bar shows the values of its authority among what was observed of its stream. |
| `IngestProperties.AuthorityIsLastRestElseFirst` | src/market_data_service/application/ingest.py:103-122 | The authority is the last valid REST observation if there was one, else the first valid WebSocket one. |
| `IngestProperties.ReimportIsQuietExactlyWhenConsistent` | src/market_data_service/application/import_window.py:52-88 | For any rows a source may return: importing them again commits nothing, and corrects nothing exactly when no two acceptable rows give one bar different numbers. |
| `KlineRows.ParseKlineRows` | src/market_data_service/adapters/bybit/kline_parser.py:15-30 | A fetch delivers, in order of open time, exactly the last row of each open time inside the window. |
| `KlineRows.OrderedNeverConflicts` | src/market_data_service/adapters/bybit/kline_parser.py:30 | Rows with distinct open times cannot contradict each other. |
| `KlineRows.FetchedReimportIsQuiet` | src/market_data_service/application/import_window.py:52-88 | Importing an unchanged fetch again commits and corrects nothing and leaves the candles as they are. |
| `ImportRefinement.ImportGainsItsBars` | src/market_data_service/application/import_window.py:52-83 | An import adds to the table exactly the accepted bars it did not have, and reports that many as committed, whatever the batch repeats or contradicts. |
| `ImportRefinement.ImportRefinesRepair` | src/market_data_service/application/repair_gaps.py:102-113 | Importing into the candle table moves the stored bars as repair and backfill are proved to, with the same committed count. |
| `OpenInterestImport.OpenInterestStorage.ImportWindow` | src/market_data_service/application/import_open_interest.py:45-87 | A fetched window saves what differs, counts each kind of row by what it was, and moves the track's own latest bar to the greatest accepted one. |
| `OpenInterestImport.InOrderExactlyWhen` | src/market_data_service/domain/open_interest.py:68-83 | A point is in order exactly when it is a five-minute point of the grid, not before time zero, with a finite value that is not negative. |
| `OpenInterestImport.LatestMerge` | src/market_data_service/application/import_open_interest.py:72-78 | The track's latest bar stays the greatest stored one. |
| `OpenInterestImport.ReimportShowsTheSame` | src/market_data_service/application/import_open_interest.py:53-71 | Importing the same points again leaves the stored track as it is. |
| `LoopDiagnostics.LoopDiagnosticSpans.Record` | src/market_data_service/runtime/loop_diagnostic_spans.py:67-85 | The bounded buffer holds the newest spans that cover a whole operation or last at least fifty milliseconds, and every dropped one is counted. |
| `LoopDiagnostics.LoopDiagnosticSpans.FinishTick` | src/market_data_service/runtime/loop_diagnostic_spans.py:107-109 | A finished tick forgets its spans, not the total of dropped ones. |
| `LoopDiagnostics.LoopDiagnosticSpans.Overlap` | src/market_data_service/runtime/loop_diagnostic_spans.py:87-105 | The covered value is the number of instants of the interval inside at least one retained span, however the spans nest, overlap or are ordered. |
| `LoopDiagnostics.Sweep` | src/market_data_service/runtime/loop_diagnostic_spans.py:95-99 | The sweep with one cursor measures the union of the intervals. |
| `LoopDiagnostics.SortIsOrderedPermutation` | src/market_data_service/runtime/loop_diagnostic_spans.py:94 | Sorting by start orders the intervals and keeps each one. |
| `LoopDiagnostics.OverlapWithinLag` | src/market_data_service/runtime/loop_diagnostic_spans.py:87-105 | Coverage never exceeds the lag and equals it exactly when every instant is covered. |
| `RealtimeFacts.ExtendsOnlyByTheNextBar` | src/market_data_service/application/realtime/frontier.py:9-15 | A live point moves a frontier by at most one bar, and only onto the very next one. |
| `RealtimeFacts.AdvanceTakesTheLater` | src/market_data_service/application/realtime/frontier.py:18-19 | A restored frontier never moves back. |
| `RealtimeFacts.SignalStartBounded` | src/market_data_service/application/realtime/supervisor.py:199-217 | Every supervisor signal starts no later than the bar after proven continuity of every required track. |
| `RealtimeFacts.ExpectedOpen` | src/market_data_service/application/realtime/supervisor.py:181-183 | The bar expected is the one that had closed a grace period ago while the next one had not. |
| `RealtimeFacts.DataReadyExactlyWhen` | src/market_data_service/application/realtime/supervisor_types.py:70-86 | A stream is data-ready exactly when it is subscribed, restored, waits for no recovery and has not failed, and every required track has reached the last bar closed a grace period ago. |
| `RealtimeFacts.AnnouncedExactlyWhen` | src/market_data_service/application/realtime/supervisor_types.py:64-68 | A bar can be announced exactly when, besides, every required track has reached it. |
| `RealtimeFacts.SignalStartsExactly` | src/market_data_service/application/realtime/supervisor.py:199-217 | A signal starts at the suspected bar or the bar after the least frontier, whichever is earlier. |
| `RealtimeFacts.StaleExactlyWhen` | src/market_data_service/application/realtime/supervisor.py:113-141 | STALE is raised exactly for a subscribed stream nobody recovers whose tracks have not all reached the last bar closed a grace period ago, unless that bar was checked; from the bar after proof, and that bar is recorded. |
| `RealtimeFacts.LiveCandleSays` | src/market_data_service/application/realtime/supervisor.py:75-96 | A live candle that is the very next bar moves the frontier there, an older one leaves it, and one past a hole leaves it and asks for a recovery, urgently, from no later than the missing bar. |
| `RealtimeFacts.LiveOpenInterestSays` | src/market_data_service/application/realtime/supervisor.py:98-111 | A live open interest point moves the second frontier by the same rule. |
| `RealtimeFacts.FirstPointSays` | src/market_data_service/application/realtime/frontier.py:9-15 | The first point of a track is where its proof starts. |
| `RealtimeFacts.BadOutcomesSay` | src/market_data_service/application/realtime/supervisor.py:76-86 | A failed outcome ends the stream without a signal; a rejected one moves no frontier and asks urgently for its bar or the one after proof. |
| `RealtimeFacts.ConfirmationSays` | src/market_data_service/application/realtime/supervisor.py:185-197 | A confirmation subscribes; after a disconnect it makes a recovery pending from the bar after proof, urgently. |
| `RealtimeFacts.RecoveryResultSays` | src/market_data_service/application/realtime/supervisor_state.py:128-174 | Field by field: an unrestored result only keeps the recovery pending, a restored one brings each required track to the later of its frontier and the restored bar and checks exactly the bar recorded at signal time, a fatal one ends the stream. |
| `Supervision.RealtimeSupervisor.OnOutcome` | src/market_data_service/application/realtime/supervisor.py:75-96 | One outcome changes only its stream's facts; a hole leaves the frontier where it was, makes a recovery pending and raises one signal from no later than the first missing bar. |
| `Supervision.RealtimeSupervisor.OnOpenInterest` | src/market_data_service/application/realtime/supervisor.py:98-111 | The second track follows the same frontier rule; a hole leaves its frontier, makes a recovery pending and raises one signal. |
| `Supervision.RealtimeSupervisor.OnDisconnected` | src/market_data_service/application/realtime/supervisor_state.py:176-184 | No frontier moves and nothing known of pending or checked recovery is lost, and no stream is data-ready at any later time until it changes again. |
| `Supervision.RealtimeSupervisor.OnStopped` | src/market_data_service/application/realtime/supervisor_state.py:186-193 | No frontier moves and nothing known of recovery is lost, and no stream is data-ready afterwards. |
| `Supervision.RealtimeSupervisor.OnSubscriptionsConfirmed` | src/market_data_service/application/realtime/supervisor.py:185-197 | Each confirmed stream is subscribed, and after a disconnect each gets exactly one urgent signal from the bar after its proof and a pending recovery. |
| `Supervision.RealtimeSupervisor.OnStaleCheck` | src/market_data_service/application/realtime/supervisor.py:113-141 | Each stream is signalled exactly when the last bar closed a grace period ago is missing from a required track, unchecked and not already being recovered. |
| `Supervision.RealtimeSupervisor.OnRecoveryResult` | src/market_data_service/application/realtime/supervisor_state.py:128-174 | A result that is not restored, or fatal, moves no frontier, checks no bar and leaves the stream not ready; a restored one moves no frontier back, brings both to the restored bar at least, and checks the bar recorded when the signal was raised. Pending ends exactly with a restoration or a failure. |
| `Supervision.RealtimeSupervisor.Synchronize` | src/market_data_service/application/realtime/supervisor_state.py:79-87 | Admission takes over the durable bar and never moves a frontier back. |
| `Supervision.PreparePublication` | src/market_data_service/runtime/open_interest_publication.py:54-101 | A bar of a flagged stream is announced exactly when, after its point was taken in, the stream is settled and every required track has reached both that bar and the last one closed a grace period ago; an unflagged stream is not held back. |
| `RealtimeRecovery.HintedWindowCoversHole` | src/market_data_service/application/realtime/recovery_plan.py:22-39 | A window derived from a supervisor's signal is non-empty and starts no later than the bar after the lower frontier, also when the frontier has moved on and in the one-bar fallback. |
| `RealtimeRecovery.HintedWindowAlignedExactlyWhen` | src/market_data_service/application/realtime/recovery_plan.py:31-38 | Such a window is on the grid exactly unless an off-grid hint inside the stored range decides its start. |
| `RealtimeRecovery.UnhintedWindowCoversExactlyWhen` | src/market_data_service/application/realtime/recovery_plan.py:31-38 | Without a hint the window reaches back to the hole exactly when the durable latest candle is not beyond the lower frontier (by one bar when the latest bar is re-checked). |
| `RealtimeRecovery.DerivedWindowExactly` | src/market_data_service/application/realtime/recovery_plan.py:22-39 | The derived window ends at the bar still open and starts at the hinted bar or the one after the durable latest, whichever is earlier, but not before known history; it is the last closed bar alone when that leaves nothing. |
| `RealtimeRecovery.ProvenAttemptSays` | src/market_data_service/application/realtime/recovery.py:116-141 | A proven window that still ends at the open bar is restored through its last bar; otherwise the next window is exactly what closed since. |
| `RealtimeRecovery.RealtimeRecoveryCoordinator.Execute` | src/market_data_service/application/realtime/recovery.py:57-155 | For every source, failures included: restored or target-advanced exactly when both required tracks are complete over the one window; a fatal failure exactly when a request of this attempt in either track failed so that it cannot be tried again, a recoverable one exactly when one failed otherwise, and incomplete in every other case; an off-grid window fails unrecoverably without any repair; what an attempt commits is what both tables grew by. |
| `RealtimeRecovery.RealtimeRecoveryCoordinator.RepairBoth` | src/market_data_service/application/realtime/recovery.py:71-141 | The same for the two repairs over an aligned window, the second only for a flagged stream whose candles are complete. |
| `RecoveryIntents.AbsorbMeets` | src/market_data_service/runtime/realtime_recovery_intent.py:52-67 | One more signal keeps the start bar the least of all hints and the urgency that of all signals. |
| `RecoveryIntents.AbsorbAllMeets` | src/market_data_service/runtime/realtime_recovery_intent.py:42-67 | After any episode the start bar is the least hint of all its signals, and it is urgent exactly when one was not a stale signal. |
| `RecoveryIntents.RevisionTracksRequirement` | src/market_data_service/runtime/realtime_recovery_intent.py:52-75 | The revision moves exactly when start or urgency does, and whenever it moves cursor and backoff are gone; the reason is replaced only by one that makes the intent urgent. |
| `RecoveryIntents.AfterAttemptSays` | src/market_data_service/runtime/realtime_recovery_worker.py:104-172 | What an attempt leaves, case by case: only a fatal failure and an unchanged restored attempt end the episode; an unchanged incomplete one carries the bars closed since, or its window again, and is due at once after a step forward; one that can be tried again keeps its cursor; and without a step forward the next is delayed. |
| `RecoveryIntents.RetryDelaySays` | src/market_data_service/runtime/realtime_recovery_worker.py:174-181 | Urgent retries start at the base pause and double up to the cap; background ones pause for one fixed time and then always for another. |
| `RecoveryIntents.ChangedAttemptNeverRestores` | src/market_data_service/runtime/realtime_recovery_worker.py:118-136 | An attempt during which the requirement changed reports no restoration and ends the episode only when it failed fatally. |
| `RecoveryIntents.UrgentDelayBounds` | src/market_data_service/runtime/realtime_recovery_worker.py:174-181 | Urgent retries wait at least the base, at most the cap, and never less than the time before. |
| `RecoveryWorkers.RecoveryIntent.AbsorbSignal` | src/market_data_service/runtime/realtime_recovery_intent.py:52-67 | Absorbing in place is absorbing by value and says whether the requirement changed. |
| `RecoveryWorkers.RecoveryIntent.Restart` | src/market_data_service/runtime/realtime_recovery_intent.py:69-75 | A restart drops cursor, marker and backoff. |
| `RecoveryWorkers.RecoveryWorker.Enqueue` | src/market_data_service/runtime/realtime_recovery_worker.py:60-69 | Every stream has at most one intent, queued once; a signal for a known stream is merged, not queued. |
| `RecoveryWorkers.RecoveryWorker.MarkLiveCommit` | src/market_data_service/runtime/realtime_recovery_worker.py:71-76 | Only the stream's own active episode is marked. |
| `RecoveryWorkers.RecoveryWorker.Take` | src/market_data_service/runtime/realtime_recovery_worker.py:78-91 | The head leaves the queue and is the only intent known but not queued. |
| `RecoveryWorkers.RecoveryWorker.Finish` | src/market_data_service/runtime/realtime_recovery_worker.py:104-172 | The intent goes back to the queue once or is gone, exactly as the attempt went. After an unchanged incomplete attempt it carries the window that is left, which after a target-advanced one is what closed since and is due at once; a restoration is told, with the bar to announce when one was committed. |
| `RecoveryWorkers.RecoveryWorker.PutBack` | src/market_data_service/runtime/realtime_recovery_worker.py:92-94 | The intent returns to the end of the queue and is queued once. |
| `RecoveryWorkers.RecoveryWorker.Retire` | src/market_data_service/runtime/realtime_recovery_worker.py:95-96 | The stream is free for a new intent. |
| `ContinuitySafety.MergeKeeps` | src/market_data_service/runtime/realtime_recovery_intent.py:52-75 | A merged signal keeps every carried cursor proven, or drops it. |
| `ContinuitySafety.OutcomeKeeps` | src/market_data_service/application/realtime/supervisor.py:75-96 | Live candle outcomes, holes included, keep the invariant. |
| `ContinuitySafety.OpenInterestKeeps` | src/market_data_service/application/realtime/supervisor.py:98-111 | Live open interest points keep the invariant. |
| `ContinuitySafety.ConfirmKeeps` | src/market_data_service/application/realtime/supervisor.py:185-197 | A confirmed subscription keeps the invariant. |
| `ContinuitySafety.StaleKeeps` | src/market_data_service/application/realtime/supervisor.py:113-141 | A stale check keeps the invariant and raises STALE only for a later bar than before. |
| `ContinuitySafety.CandleStoredKeeps` | src/market_data_service/application/ingest.py:79-83 | Bars stored by any path keep the invariant. |
| `ContinuitySafety.OpenInterestStoredKeeps` | src/market_data_service/runtime/open_interest_prefetch.py:116-134 | Points stored ahead by the prefetch keep the invariant. |
| `ContinuitySafety.DerivedCursor` | src/market_data_service/application/realtime/recovery_plan.py:22-39 | Everything before a freshly derived window is already stored in both tracks. |
| `ContinuitySafety.WindowChosenKeeps` | src/market_data_service/application/realtime/recovery.py:60-69 | Choosing the carried or derived window keeps the invariant. |
| `ContinuitySafety.CandlesRepairedKeeps` | src/market_data_service/application/realtime/recovery.py:71-110 | The candle repair of an attempt keeps the invariant however it ends. |
| `ContinuitySafety.OpenInterestRepairedKeeps` | src/market_data_service/application/realtime/recovery.py:111-115 | The second repair over the same window keeps the invariant however it ends. |
| `ContinuitySafety.ConcludedKeeps` | src/market_data_service/application/realtime/recovery.py:116-141 | A restored or target-advanced conclusion over the tail is proven back to the anchor and to the episode's first bar. |
| `ContinuitySafety.RecordKeeps` | src/market_data_service/runtime/realtime_recovery_worker.py:118-172 | Recording a result keeps the invariant: frontiers move only to bars proven in both tracks, and a kept cursor stays proven. |
| `ContinuitySafety.StepKeeps` | src/market_data_service/application/realtime/supervisor.py:59-141 | Every event of the protocol keeps the whole invariant, loses no stored bar, and moves neither track's frontier back. |
| `ContinuityRuns.RunsAreSafe` | src/market_data_service/application/realtime/supervisor_state.py:128-174 | Over every run of any number of streams the invariant holds. |
| `ContinuityRuns.FrontiersAreProven` | src/market_data_service/application/realtime/supervisor_state.py:66-77 | In every reachable state each required track holds every bar from the anchor through its frontier, the frontier is aligned, and it is not lower than before, for each track on its own. |
| `ContinuityRuns.CarriedCursorIsProven` | src/market_data_service/runtime/realtime_recovery_worker.py:145-148 | Whenever an intent carries a window, every bar from the first one any signal of the episode asked for up to that window is stored in both tracks. |
| `ContinuityRuns.RestoredEpisodeIsProven` | src/market_data_service/runtime/realtime_recovery_worker.py:137-142 | An episode that ends as restored leaves no hole from its earliest hint through the restored bar in either track. |
| `ContinuityRuns.ChangedRequirementIsKept` | src/market_data_service/runtime/realtime_recovery_worker.py:118-136 | A signal that changes the requirement during an attempt keeps both frontiers where they were and the intent in place, with its cursor dropped. |
| `ContinuityRuns.PublishedBarIsProven` | src/market_data_service/runtime/open_interest_publication.py:87-89 | A bar is announced only when both tracks are stored without a hole through it and through the last bar closed a grace period ago, on an active subscription with no recovery pending and no failure. |
| `ContinuityRuns.StaleBarsIncrease` | src/market_data_service/application/realtime/supervisor.py:126-133 | Over any run the bars one stream raised STALE for are strictly increasing. |
| `ContinuityRuns.FailedStreamStaysSilent` | src/market_data_service/application/realtime/supervisor_types.py:79-86 | A stream that failed is never announced again. |
| `ContinuityRuns.ReconciledStreamIsSafe` | src/market_data_service/runtime/realtime.py:102-122 | A stream whose tracks reconciliation proved enters a run in a safe state. |
| `ContinuityProgress.UndisturbedAttemptMovesOn` | src/market_data_service/application/realtime/recovery.py:116-141 | Over a run: an attempt that proves its window up to the open bar ends the episode as restored with every required track through the last closed bar; one overtaken by closing bars carries exactly those, from where the proven window ended to the open bar, due at once. |
| `ContinuityProgress.NextAttemptEndsTheEpisode` | src/market_data_service/runtime/realtime_recovery_worker.py:145-148 | Over a run: the attempt after an overtaken one, with no bar closing meanwhile, ends the episode as restored through the last closed bar. |
| `ContinuityProgress.UnfinishedRepairSays` | src/market_data_service/runtime/realtime_recovery_worker.py:118-172 | A repair of either track that does not complete: a failure that cannot be tried again ends the stream, one that can keeps the cursor, an incomplete repair carries the same window; no frontier moves. |
| `ContinuityProgress.ConfirmationRecovers` | src/market_data_service/application/realtime/supervisor.py:185-197 | The first confirmation after a disconnect leaves every confirmed stream subscribed, not restored and waiting for a recovery, with an urgent intent that reaches back to its proof; other streams stay as they were. |
| `ContinuityProgress.DisconnectIsRemembered` | src/market_data_service/application/realtime/supervisor.py:69-71 | A disconnect is remembered through any run until the next confirmation. |
| `ContinuityProgress.DisconnectUnsubscribes` | src/market_data_service/application/realtime/supervisor_state.py:176-184 | A disconnect takes the subscription and the restoration of every stream, and nothing else. |
| `ContinuityProgress.StaleCheckSays` | src/market_data_service/application/realtime/supervisor.py:113-141 | A stale check opens work for exactly the overdue streams and records their bar; no other stream changes. |
| `ContinuityProgress.AdmissionSays` | src/market_data_service/runtime/realtime.py:102-122 | A stream is admitted with an urgent startup intent of its own exactly when it is subscribed and nobody is about to recover it. |
| `ContinuityProgress.LiveBarExtendsProof` | src/market_data_service/application/realtime/supervisor.py:88-96 | Storing and observing the bar after a proven frontier moves the frontier onto it; a bar past that leaves it and opens an urgent episode. |
| `ContinuityEpisodes.EpisodeStep` | src/market_data_service/application/realtime/supervisor_state.py:108-174 | Every event keeps an open episode's stream held back, and a pending recovery attended, without any assumption on windows. |
| `ContinuityEpisodes.NothingAnnouncedDuringEpisode` | src/market_data_service/runtime/open_interest_publication.py:87-89 | In every run no stream is data-ready, and no bar is announced, while its recovery episode is open. |
| `ContinuityEpisodes.CutOffStreamsAreNotReady` | src/market_data_service/application/realtime/supervisor_state.py:108-193 | In every run a stream whose status says disconnected, stale or in need of recovery is not settled, so it is never data-ready. |
| `ContinuityEpisodes.AttendedExactlyWhenAdmittedRested` | src/market_data_service/runtime/realtime.py:112-121 | Throughout a run every pending recovery has an open intent or belongs to a failed stream, exactly when no stream is admitted with a recovery already pending. |
| `ContinuityEpisodes.UnattendedExactlyUntilWoken` | src/market_data_service/application/realtime/supervisor.py:116-118 | A stream admitted with a recovery pending is recovered by nobody, stale checks included, exactly until a hole, a rejected or failed observation, a reconnect or a startup signal comes. |
| `ContinuityEpisodes.StaleBeforeAdmissionIsUnattended` | src/market_data_service/runtime/realtime.py:194-196 | A stale check before admission has that effect: its signal is dropped and admission raises none. |
| `ContinuityEpisodes.LateStreamIsStaleBeforeAdmission` | src/market_data_service/application/realtime/supervisor.py:113-141 | A concrete stream it happens to. |
| `ContinuityLimits.StartupRunPublishesPastAHole` | src/market_data_service/runtime/realtime.py:132-144 | A run from the admission of a stream proven in both tracks, through its subscription, its startup signal and one live candle, ends announcing a bar past a hole in the open interest. |
| `ContinuityLimits.AttemptLeads` | src/market_data_service/application/realtime/recovery_plan.py:31-38 | In that run the window is derived where the durable latest candle is beyond the lower frontier, and every event of the attempt can happen. |
| `ContinuityLimits.RejectionEndsStreamExactlyWhen` | src/market_data_service/application/realtime/supervisor.py:79-85 | Recovery after a rejected observation keeps to the grid exactly unless the observation is off it, inside known history and before the bar after the frontier; then the stream fails without a repair being tried. |
| `Lifecycle.StreamRow.Transition` | src/market_data_service/domain/stream_state.py:124-151 | A transition happens exactly when the table allows it and its time is not before the row's; an error stays only with a degraded or failed stream, and a refusal changes nothing. |
| `Lifecycle.StreamRow.TransitionAt` | src/market_data_service/runtime/lifecycle.py:103-122 | The recorders count a clock behind the row as the row's time, so only the table can refuse them. |
| `Lifecycle.EnteredExactlyFrom` | src/market_data_service/domain/stream_state.py:25-60 | The transition table read from its targets: who may enter each state. |
| `Lifecycle.SyncPathSays` | src/market_data_service/runtime/realtime_lifecycle.py:9-37 | What a synchronization makes of each state, said of the facts alone. |
| `Lifecycle.AttemptSays` | src/market_data_service/application/realtime/recovery.py:57-155 | Where a recovery attempt leaves the row: untouched or degraded when refused or without a window, otherwise in auditing, connecting or failure as its repair went. |
| `Lifecycle.RuntimeLifecycleRecorder.PrepareForBootstrap` | src/market_data_service/runtime/lifecycle.py:34-52 | From every persisted state into bootstrapping through allowed states only. |
| `Lifecycle.RuntimeLifecycleRecorder.MarkAuditing` | src/market_data_service/runtime/lifecycle.py:54-67 | Auditing is entered exactly from the states it may be entered from. |
| `Lifecycle.RuntimeLifecycleRecorder.MarkConnecting` | src/market_data_service/runtime/lifecycle.py:69-73 | Connecting is entered exactly from auditing or degraded. |
| `Lifecycle.RuntimeLifecycleRecorder.MarkReady` | src/market_data_service/runtime/lifecycle.py:75-79 | Ready is entered exactly from connecting. |
| `Lifecycle.RuntimeLifecycleRecorder.MarkDegraded` | src/market_data_service/runtime/lifecycle.py:81-90 | Every state but uninitialized and failed can degrade. |
| `Lifecycle.RuntimeLifecycleRecorder.MarkFailed` | src/market_data_service/runtime/lifecycle.py:92-101 | Every stream can fail. |
| `Lifecycle.RuntimeLifecycleRecorder.Synchronize` | src/market_data_service/runtime/realtime_lifecycle.py:9-37 | Afterwards the row of an admitted stream is failed if it failed; ready if every required track has reached the expected bar, the stream is settled and the row was degraded, connecting or ready; and neither ready nor connecting while a recovery is pending, a track is behind, or the stream was cut off. Nothing else changes, and no forbidden transition is asked for. |
| `Lifecycle.RepairStateRecorder.EnsureAuditing` | src/market_data_service/application/repair_state.py:33-54 | A repair starts exactly from auditing, repairing, degraded or failed. |
| `Lifecycle.RepairStateRecorder.TransitionToRepairing` | src/market_data_service/application/repair_state.py:56-66 | Repairing is entered exactly from auditing. |
| `Lifecycle.RepairStateRecorder.TransitionRepairingToAuditing` | src/market_data_service/application/repair_state.py:68-79 | Only a repairing stream returns to auditing. |
| `Lifecycle.RepairStateRecorder.RecordFailure` | src/market_data_service/application/repair_state.py:107-128 | A failure degrades or fails the stream where that is allowed and is noted in any case. |
| `Lifecycle.RealtimeRecoveryStateRecorder.MarkUnavailable` | src/market_data_service/application/realtime/recovery_state.py:25-40 | A ready or connecting stream degrades when recovery starts; others stay as they are. |
| `Lifecycle.RealtimeRecoveryStateRecorder.EnsureAuditing` | src/market_data_service/application/realtime/recovery_state.py:42-69 | A recovery is audited exactly from auditing, degraded or repairing. |
| `Lifecycle.RealtimeRecoveryStateRecorder.MarkRestored` | src/market_data_service/application/realtime/recovery_state.py:71-81 | A restored stream connects. |
| `Lifecycle.RealtimeRecoveryStateRecorder.Attempt` | src/market_data_service/application/realtime/recovery.py:57-155 | The transitions of an attempt; it is refused exactly when its stream may not be recovered. |
| `Reconciliation.WindowFromLowerBound` | src/market_data_service/runtime/reconciliation.py:159-169 | The window runs from the found bound to the last closed bar, and there is none exactly when no bar has closed since; each other answer is given exactly on its condition, and a failure is as recoverable as discovery told. |
| `Reconciliation.OpenInterestTrackReconciler.ExecuteStream` | src/market_data_service/runtime/open_interest_reconciliation.py:46-93 | Over the window of an earlier pass the second track is complete exactly when that window is stored, fails exactly as one of its requests did, and an off-grid one is refused; over the full one it is complete exactly when its bound is known and every bar from there to the last closed one is stored. |
| `Reconciliation.HistoricalStreamReconciler.Execute` | src/market_data_service/runtime/reconciliation.py:46-134 | From any persisted state a pass makes only allowed transitions, none refused, and ends as its classification says: connecting, degraded or failed, bootstrapping or auditing when incomplete, auditing when only the second track holds it. It connects exactly when every bar of its window and, for a flagged stream, of the second track is stored. |
| `Reconciliation.HistoricalStreamReconciler.RepairWindow` | src/market_data_service/runtime/reconciliation.py:74-119 | The repair part of a pass, with the state it ends in; it connects exactly when both required tracks are complete. |
| `Reconciliation.HistoricalStreamReconciler.RepairAudited` | src/market_data_service/runtime/reconciliation.py:75-119 | A failure of the candle repair is told as the source told it, and nothing else fails the pass unless the second track holds it. |
| `Reconciliation.HistoricalStreamReconciler.Connect` | src/market_data_service/runtime/reconciliation.py:136-146 | A stream is held exactly when it is flagged and its second track is not proven; otherwise it connects. |
| `Reconciliation.HistoricalStreamReconciler.RecordFailureState` | src/market_data_service/runtime/reconciliation.py:148-157 | A recoverable failure degrades and a fatal one fails the stream. |
| `LifecycleRuns.Recorders.Perform` | src/market_data_service/runtime/lifecycle.py:103-122 | Every call of every recorder moves the row along its path and is refused exactly where said. |
| `LifecycleRuns.RunsAreLegal` | src/market_data_service/domain/stream_state.py:25-60 | However the single calls of all recorders interleave, from any persisted state, every transition is an allowed one. |
| `LifecycleRuns.PassIsNeverRefused` | src/market_data_service/runtime/reconciliation.py:46-134 | The calls of an uninterrupted pass are refused nowhere, from any persisted state, and end where its path does. |
| `LifecycleRuns.AuditingRefusedExactlyOnFailure` | src/market_data_service/application/realtime/recovery_state.py:42-69 | With synchronizations between its calls, a recovery is refused exactly when a failure is projected after it gave up readiness, or between the repair's audit and its repairing; one projected before the repair audits is undone. |
| `LifecycleRuns.RepairingIsNeverRefused` | src/market_data_service/application/repair_state.py:68-79 | From repairing on no call is refused whatever is projected, and the attempt connects the stream exactly when no failure is. |
| `LifecycleRuns.RestsAfterAttempt` | src/market_data_service/application/realtime/recovery_state.py:25-81 | Between attempts an admitted stream rests in one of five states, and only a failed one may not be recovered. |
| `LifecycleRuns.ReadyOnlyWhenDataReady` | src/market_data_service/runtime/realtime_lifecycle.py:22-26 | Ready is entered by the projection of an admitted stream alone, and only on data-ready facts. |
| `LifecycleRuns.ReadyHasAReason` | src/market_data_service/runtime/realtime_lifecycle.py:22-26 | A stream found ready was made so by such a projection and has been ready since, through any calls. |
| `ReadySafety.ReadyIsEnteredOnProvenData` | src/market_data_service/runtime/realtime.py:203-211 | In every state a run reaches, where synchronization would enter ready both required tracks are stored without a hole from the anchor through the last bar closed a grace period ago, and no episode is open. |
| `ReadySafety.ReadyStreamsHaveNoHole` | src/market_data_service/runtime/realtime_lifecycle.py:9-37 | Over every run of protocol, recorder calls and synchronizations together, a stream whose durable row says ready has both required tracks stored without a hole through the last bar closed, a grace period before, when it became ready. |
| `ReadySafety.SynchronizedRowsTellTheTruth` | src/market_data_service/runtime/realtime.py:203-211 | After any such run, right after a synchronization: a ready row has no open episode, no recovery pending and no failure, is restored, is not cut off, and its tracks have reached the last bar closed a grace period ago; a settled stream that has come so far is ready unless it must still be audited; a failed one is failed. |
| `ReadySafety.OpenEpisodesAreQuiet` | src/market_data_service/runtime/realtime.py:203-211 | What a synchronization tells the lifecycle during an open episode is never data-ready. |
| `Prefetch.OpenInterestPrefetch.Tick` | src/market_data_service/runtime/open_interest_prefetch.py:71-87 | A tick is the tick of the specification over all streams in order. |
| `Prefetch.OpenInterestPrefetch.Consider` | src/market_data_service/runtime/open_interest_prefetch.py:93-108 | A new bar starts a new state; an attempt is started exactly when due and wanted. |
| `Prefetch.OpenInterestPrefetch.BeginAttempt` | src/market_data_service/runtime/open_interest_prefetch.py:116-126 | An attempt begins exactly when its bar is still open, still wanted and not stored. |
| `Prefetch.OpenInterestPrefetch.FinishAttempt` | src/market_data_service/runtime/open_interest_prefetch.py:127-144 | An answer frees the bar and the slot, and the point is there afterwards exactly if it was or the append stored it. |
| `Prefetch.ConsideredKeeps` | src/market_data_service/runtime/open_interest_prefetch.py:93-108 | Moving to the next bar keeps the schedule of every bar. |
| `Prefetch.StartsExactlyWhen` | src/market_data_service/runtime/open_interest_prefetch.py:71-87 | An attempt is started exactly when the stream is wanted, the point is not there, no attempt for the bar waits or runs, and the delay has passed or a retry since the last start. |
| `Prefetch.SlotTakenSays` | src/market_data_service/runtime/open_interest_prefetch.py:116-126 | A slot given counts one attempt and runs it, or gives the bar up for now; it starts nothing new. |
| `Prefetch.PointThereExactlyWhenAnswered` | src/market_data_service/runtime/open_interest_prefetch.py:127-144 | In any run a bar's point is there exactly if it was before or an append answered so. |
| `Prefetch.StoredPointEndsAttempts` | src/market_data_service/runtime/open_interest_prefetch.py:78-80 | Once an append has stored a bar's point, no run starts, queues or runs another attempt for it. |
| `Prefetch.AttemptsAreSpaced` | src/market_data_service/runtime/open_interest_prefetch.py:71-144 | Over every run with a clock that does not move back, for any retry: attempts for a bar start inside it, no earlier than the delay, a retry apart and one at a time, and no more appends run than there are slots. |
| `Prefetch.AttemptsAreBounded` | src/market_data_service/runtime/open_interest_prefetch.py:71-144 | With a retry of at least a millisecond a bar sees at most floor((step - 1 - delay) / retry) + 1 attempts in any run. |
| `Prefetch.NoPauseNoBound` | src/market_data_service/runtime/open_interest_prefetch.py:53 | With a retry truncated to zero, any number of attempts for one bar happens in some run. |
| `Prefetch.BoundedExactlyWhenPaced` | src/market_data_service/runtime/open_interest_prefetch.py:52-53 | The attempts of a stream's bars are bounded over all runs exactly when the retry is at least a millisecond or the delay leaves no time in the bar. |
| `Prefetch.BoundIsReached` | src/market_data_service/runtime/open_interest_prefetch.py:71-144 | A run of the scheduler starts exactly that many attempts for one bar. |

## Left out

- Transport, HTTP handlers, JSON, command line and container checks: input, output and formatting. A
  source is an arbitrary function from request number and window to an answer.
- SQLite: a unit of work is one atomic step over maps and sets; storage errors and rollback are not modelled.
- asyncio, threads and locks: interleaved atomic steps; cancellation and process stop are not modelled.
- Hashing, logging, the notification queue and its delivery: no guarantee is given by the source.
- Python's decimal literals (exponents, underscores, Unicode digits, NaN): a decimal is sign,
  coefficient and exponent; the text parser covers plain digits, which decides canonical text alike.
- Settings and market configuration checks, GetStreamBounds, RuntimeStatusStore: validation and look-ups.
- HistoricalReconciliationWorker: its queue rotation and backoff add no harder property than the recovery worker's.
- Transport activity timestamps, `realtime_live` and the last ingestion classification: no decision modelled here reads them.
- Diagnostic statistics and the three largest samples of `overlap`: only the covered value and the eviction counts are modelled.
- Lifecycle calls inside backfill and full bootstrap: they write the clock as it is, so no monotone time is claimed there.
- Lifecycle.RuntimeLifecycleRecorder.Synchronize: the reason text written with a degradation or failure is a constant.
- Repair.RepairStreamGaps.Execute: duplicate, rejected and unexpected counts of a window and the quarantine of unresolved gaps are not modelled; they are counted in `Ingest`.
- Repair.RepairStreamGaps.Audit: an audit that raises (a storage error) is not modelled.
- Supervision.RealtimeSupervisor.OnOutcome: Connected, heartbeat and unconfirmed candle events change no modelled fact.
- Lifecycle.RealtimeRecoveryStateRecorder.Attempt: how the attempt's repair went is an input, tied to the coordinator only by the order of the calls.
- Reconciliation.HistoricalStreamReconciler.Execute: progress markers, counts and error texts of the outcome are not modelled.
- Prefetch.OpenInterestPrefetch.Tick: a bar state is named by stream and bar, which identifies it while the clock does not move back.
- KlineRows.ParseKlineRows: a row is taken as already parsed; malformed rows raise before. Dictionary and library sort are modelled by ordered insertion.
- LifecycleRuns.Recorders.Perform: a projection that takes two transitions is one call; that nothing else moves the row in between is not shown.
- LoopDiagnostics.SortIsOrderedPermutation: the library sort is modelled by insertion.
