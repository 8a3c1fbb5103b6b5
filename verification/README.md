# Verified model of the OpenStudio operator

The operator watches an OpenStudio cluster through one custom resource. Its handlers are periodic
ticks that read, decide, act and then write an anchor into the resource's `.status`; that status is
the only memory that survives a process, and any call may fail. This project models the handlers'
decision logic in Dafny and proves what every run of them keeps: across ticks, process bounces,
failures at any effect, foreign writers and changing configuration.

Each core has the same shape. A tick is a step function over the durable status, the per-process
caches and the world, with the failure point as an input. The imperative code (classes with `modifies`
clauses, loops with invariants) is proved equal to the step function. What a completed tick does to each
analysis, datapoint or record is then stated by the tick's inputs alone, without the step function's own
helpers (`StallClean`, `RetentionOutcomes`, `WatchdogGuards`, `WatchdogAbsences`, `SlaGuards`,
`StatusRetries`, `SingletonNotices`). The theorems are about runs: sequences of ticks, bounces and changes
made by others.

| modules | core |
|---|---|
| `StallMonitor`, `StallRuns`, `StallWindows`, `StallClean` | web-background stall monitor: sustained window, cooldown, backoff breaker |
| `Retention`, `RetentionRuns`, `RetentionRecovery`, `RetentionOutcomes`, `RetentionOrder`, `RetentionWrites`, `Archival` | archive, verify, delete pipeline and its Job names |
| `Json`, `Records`, `StatusStore`, `StatusRefinement`, `StatusConflicts`, `StatusRetries`, `StatusCap` | merge-patch status store: records, caps, protection, pruning, conflict retries |
| `Watchdog`, `WatchdogRuns`, `WatchdogGuards`, `WatchdogAnchors`, `WatchdogHygiene`, `WatchdogAbsences`, `WatchdogWrites` | datapoint watchdog: requeue budget, pacing, anchor hygiene, live-anchor protection |
| `Sla`, `SlaRuns`, `SlaGuards`, `SlaOrder`, `SlaStops`, `SlaWrites` | analysis SLA monitor: soft stop, stop, escalation |
| `Operator` | retention, SLA monitor and watchdog interleaved on one status |
| `EventSink`, `EventMirror` | deferred Warning Events |
| `Election`, `GuardCache`, `Singleton`, `SingletonNotices`, `SingletonRuns`, `SingletonProbes` | oldest-CR election, fingerprint cache, relist skipping, Secret probe |
| `WavePlanner`, `Waves` | capacity-bounded first-fit colouring of issues into waves |
| `Basics`, `Ordering` | options, time, string order, sorted keys |

Conventions. Time is an integer number of seconds (minutes in the stall monitor's examples) and does
not go back in a run where a theorem says so. A call that can raise is an effect. In the stall monitor
the set of effects that raise is an input of the tick; in the retention, watchdog and SLA models a
tick gets `fuel`, the number of effects that succeed before one raises, and after a raise the calls
that are left in the tick do nothing. A read that raises is a tick that stops at that point. Process
bounces are steps of the run.

## Where the code and its documentation disagree

The model follows the code. In each case a lemma gives an input on which the documented behaviour
fails, and another says exactly when it holds.

- Escalation after a soft stop: an anchor still `watching` is escalated once its grace is over. The
  CRD admits only grace below the maximum duration (deploy/crd.yaml:217), so under every admitted
  configuration an analysis can be escalated without ever being soft-stopped
  (`SlaOrder.EscalatedUnwarned`, `SlaOrder.EscalationOrder`). The comment about falling through to the
  grace check on the soft-stop tick does not hold either: the code continues with the next anchor.
- The stop is not sent exactly once: a stop that timed out is recorded as ended before the escalation,
  and if that fails the record is retired and the stop sent again. There is such a run from a blank
  status under any limits (`SlaStops.StoppedTwice`); `SlaStops.StopIsRepeated` says exactly when it
  happens, and `SlaRuns.OneShot` what pays for it.
- Pod failures in an escalation: a refusal other than 404 is meant to fail the tick, but only the last
  refusal decides (`SlaOrder.StuckPodIsForgotten`, `SlaOrder.StuckPodFailsTick`).
- The persisted stall window is not always ended by a broken tick: a failed clear lets the next holding
  tick restore it (`StallWindows.FailedClearStitchesWindow`, `StallWindows.ClearDecidesWindow`), and a
  failure after the restart anchor leaves the spent window running
  (`StallWindows.LateFailureShortensGap`, `StallWindows.LateFaultsDecideFreshWindow`).
- The ineffective-restart count can fall short: the comment at the fire site says that a failed count
  write is made up for by the next tick, but that tick finds the cooldown gate closed. In the run of
  `StallWindows.LateFailureShortensGap` one of two such restarts is counted; `StallWindows.CountLandsIff`
  says when a restart is counted, and `StallWindows.AnchorDecidesRepeat` when the next tick restarts again.
- `stoppedAnalyses` is pruned without the debounce that the other anchor maps have
  (`WatchdogHygiene.StoppedIsNotDebounced`, a run of thirty polls, and
  `WatchdogHygiene.HygieneRemovesConfirmed`, the exact rule).
- Merge patch keeps optional fields that a new record leaves out, so set-then-get returns the record
  written only under a condition (`Records.GetAfterSet`); every handler write meets it.
- Whole-value writes do not commute with foreign writers. An append loses a foreign event
  (`StatusConflicts.AppendLosesForeignEvent`, `StatusConflicts.AppendKeepsForeignEvents`), and a write at
  the cap, also one to an existing key, brings back an entry that someone else removed
  (`StatusCap.CapUndoesARemoval`, `StatusCap.CapKeepsForeignEntry`).
- The fingerprint of a CR is recorded even when the listing of its check failed
  (`SingletonRuns.FailedListingIsForgotten`, `SingletonRuns.ForgottenOnceResolved`).
- A skipped relist is not always a no-op: it also skips the Secret probe, so a probe that failed for a
  passing reason is not repeated (`SingletonProbes.TransientProbeIsForgotten`,
  `SingletonProbes.SkipHidesProbe`).

## Model

| member | source | states |
|---|---|---|
| `StallMonitor.BackoffWindows` | src/openstudio_operator/handlers/web_background_monitor.py:249-261 | the loop computes the backoff schedule, window by window, up to its cap of 8 |
| `StallMonitor.StallWindowTracker.Observe` | src/openstudio_operator/handlers/web_background_monitor.py:437-456 | exactly one of the two clocks runs afterwards, started now unless it already ran; sustained iff the stall clock is a window old |
| `StallMonitor.FireRestart` | src/openstudio_operator/handlers/web_background_monitor.py:944-1014 | the firing part of a tick, effect by effect with any of them raising, equals its step function |
| `StallMonitor.ResetAfterCleanWindow` | src/openstudio_operator/handlers/web_background_monitor.py:919-927 | the clean-window reset of counter and cooldown, with any write raising, equals its step function |
| `StallMonitor.RunActions` | src/openstudio_operator/handlers/web_background_monitor.py:930-1014 | the action gate of a sustained window and the restart behind it equal their step function |
| `StallMonitor.RunStallTick` | src/openstudio_operator/handlers/web_background_monitor.py:762-1014 | a whole tick over tracker and persisted scalars equals the step function, for every verdict and every set of raising effects |
| `StallRuns.RestartsIff` | src/openstudio_operator/handlers/web_background_monitor.py:804-959 | a poll issues a restart iff it holds, the cooldown gate is open, the window is sustained and not deferred, and nothing up to the patch raises |
| `StallRuns.PlayPaced` | src/openstudio_operator/handlers/web_background_monitor.py:804-1014 | the invariant that links volatile clocks, persisted clocks, last restart and ineffective-restart count holds from any paced history on, while restarts are anchored and counted |
| `StallRuns.CycleSpan` | src/openstudio_operator/handlers/web_background_monitor.py:246-261 | the gaps of a cycle add up: N >= 8 restarts without a reset span more than (26 + 8(N-8)) windows |
| `StallRuns.RestartSpacing` | src/openstudio_operator/handlers/web_background_monitor.py:804-1014 | from a restart on, whatever came before and whatever raises, if each restart but the last anchors its cooldown and is counted: any two are more than two windows apart, the gap after restart k of a cycle exceeds the backoff for k-1, and long cycles span their sum |
| `StallRuns.RestartsApart` | src/openstudio_operator/handlers/web_background_monitor.py:804-1014 | any two restarts of any run are more than a window apart if the earlier one anchored its cooldown, and more than two if it was also counted; no other tick is constrained |
| `StallWindows.RestartNeedsSustainedStall` | src/openstudio_operator/handlers/web_background_monitor.py:818-906 | a restart fires only if the stall was seen a window earlier and nothing since, in this or an earlier process, spoke against it |
| `StallWindows.FailedClearStitchesWindow` | src/openstudio_operator/handlers/web_background_monitor.py:832-906 | a run in which a lost clear makes a restart fire across a broken observation |
| `StallWindows.ClearDecidesWindow` | src/openstudio_operator/handlers/web_background_monitor.py:832-906 | after a broken or blind tick the old window survives iff the clear raised, in the same process and in a new one |
| `StallWindows.LateFailureShortensGap` | src/openstudio_operator/handlers/web_background_monitor.py:988-1014 | a run from the start in which a failure after the restart anchor brings the next restart after the cooldown alone, and leaves one restart uncounted |
| `StallWindows.LateFaultsDecideFreshWindow` | src/openstudio_operator/handlers/web_background_monitor.py:988-1014 | an anchored restart makes the next window start afresh iff, with a predecessor, neither read nor write of the count nor, from the threshold on, the Event raises |
| `StallWindows.AnchorDecidesRepeat` | src/openstudio_operator/handlers/web_background_monitor.py:969-985 | the next holding poll within a window restarts again iff the first restart did not get to its cooldown anchor |
| `StallWindows.CountLandsIff` | src/openstudio_operator/handlers/web_background_monitor.py:988-1005 | an anchored restart with a predecessor is counted iff neither read nor write of the count raises, and the count stays otherwise |
| `StallWindows.DeferralIsBounded` | src/openstudio_operator/handlers/web_background_monitor.py:804-959 | under a steady stall with polls at most d apart, the next restart after one at L fires by L + max(2w + 2d, bw + d): the breaker delays, never suppresses |
| `StallClean.BrokenOutcome` | src/openstudio_operator/handlers/web_background_monitor.py:804-927 | a broken poll past the gate, with faults anywhere: clean clock, window, count and cooldown afterwards, by its inputs; the count is zeroed iff the clean clock is a window old, there is something to reset and nothing up to that write raises |
| `StallClean.CleanWindowResets` | src/openstudio_operator/handlers/web_background_monitor.py:904-927 | without faults a clean clock of a full window leaves neither count nor cooldown, and a younger one changes neither |
| `StallClean.HoldingOutcome` | src/openstudio_operator/handlers/web_background_monitor.py:804-1014 | a faultless holding poll restarts iff the stall has lasted a window and the last restart is more than one window ago, or more than four, six, eight after three, five, seven ineffective ones; and what it leaves either way |
| `StallClean.BlindOutcome` | src/openstudio_operator/handlers/web_background_monitor.py:804-845 | inside the cooldown nothing changes; past it a blind poll ends the window and keeps count and cooldown |
| `StallClean.CleanWindowConcludes` | src/openstudio_operator/handlers/web_background_monitor.py:904-927 | over runs: whatever came before, a full window of broken polls concludes the cycle; only the last poll's reset must not raise |
| `StallClean.NextEpisodeStartsAfresh` | src/openstudio_operator/handlers/web_background_monitor.py:930-1014 | after a concluded cycle the first restart of the next episode is neither deferred nor counted, with any polls, faults and bounces in between |
| `Archival.JobNameIsLabel` | src/openstudio_operator/archival.py:97-117 | for every id and every lower-casing the Job name is a label of section 2.3.1 of RFC 1035 of at most 63 characters |
| `Archival.SameNameSameDigest` | src/openstudio_operator/archival.py:104-117 | two ids share a Job name only if their digests agree |
| `Archival.CleanIdIsReadable` | src/openstudio_operator/archival.py:112-117 | an id that already is a short label appears whole in the name |
| `Archival.RunBecomesHyphen` | src/openstudio_operator/archival.py:112 | label characters stay and each run of others becomes one hyphen |
| `Archival.LongIdIsCut` | src/openstudio_operator/archival.py:112-117 | a label longer than the budget is cut after 41 characters and further back to the last that is no hyphen |
| `Json.EntryPatchCommutes` | src/openstudio_operator/status_store.py:561-565 | a one-entry patch commutes with every patch that avoids its (map, key) |
| `Json.EntryPatchCommutesAll` | src/openstudio_operator/status_store.py:561-565 | and with every sequence of such patches |
| `Records.DecodeStored` | src/openstudio_operator/status_store.py:241-377 | every record round-trips through its JSON form and the server's merge |
| `Records.WireNames` | src/openstudio_operator/status_store.py:224-378 | the JSON names of the fields of soft-stop, requeue and stop records; an unset one is absent or null |
| `Records.ArchivedWireNames` | src/openstudio_operator/status_store.py:285-340 | and those of archived records |
| `Records.CarriedPut` | src/openstudio_operator/status_store.py:241-377 | a put that sets every optional field already stored replaces the stored record exactly |
| `Records.GetAfterSet` | src/openstudio_operator/status_store.py:241-377 | get-after-set over an existing record returns the record written iff it sets every optional field already stored |
| `StatusStore.SetBelowCap` | src/openstudio_operator/status_store.py:496-565 | below the cap a set or clear changes its own entry, as merge patch does, and nothing else |
| `StatusStore.SetAtCap` | src/openstudio_operator/status_store.py:540-559 | at the cap a changing write removes exactly the victims, keeps every survivor's value and writes its entry, in that map only |
| `StatusStore.VictimCount` | src/openstudio_operator/status_store.py:540-559 | the victims are distinct keys of the map, as many as it takes to make room |
| `StatusStore.ProtectedGoLast` | src/openstudio_operator/status_store.py:540-559 | a protected key is a victim only when every unprotected one is |
| `StatusStore.VictimsAreLowest` | src/openstudio_operator/status_store.py:551-553 | of keys alike in protection the victims come first: one that stays is above every victim |
| `StatusStore.CapEviction` | src/openstudio_operator/status_store.py:540-559 | from any size the bound is restored, the written key is there, losses are victims, and a protected key is lost only if no other unprotected key survives |
| `StatusStore.LowestAreEvicted` | src/openstudio_operator/status_store.py:540-559 | what a write to a full map loses is below every key alike in protection that stays |
| `StatusStore.PruneLands` | src/openstudio_operator/status_store.py:977-1027 | prune removes exactly the keys outside the live set, of the maps in scope only |
| `StatusStore.ScalarLands` | src/openstudio_operator/status_store.py:613-650 | a scalar write replaces or removes its own member and no other |
| `StatusStore.OpsKeepCap` | src/openstudio_operator/status_store.py:496-565 | no operation of the store takes a map over 10,000 entries |
| `StatusRefinement.PutRefines` | src/openstudio_operator/status_store.py:496-565 | an admissible put on the JSON status is a put on the table of records |
| `StatusRefinement.EscalateRefines` | src/openstudio_operator/status_store.py:698-724 | the escalation mark on the JSON status is the mark on the table's anchor |
| `StatusRefinement.RetainRefines` | src/openstudio_operator/status_store.py:977-1027 | the prune of the JSON status is the restriction of the table |
| `StatusRefinement.ReadBack` | src/openstudio_operator/status_store.py:681-850 | reading any entry of a represented status gives the table's record |
| `StatusRefinement.StoreRefinesTable` | src/openstudio_operator/status_store.py:432-565 | along every sequence of admissible writes below the cap the merged JSON status holds exactly the records of a plain map under put and delete |
| `StatusConflicts.Store.ProtectAnchorKeys` | src/openstudio_operator/status_store.py:956-975 | an unknown map is refused; otherwise its protected keys, which the next write to that map evicts by, are replaced and no other map's change |
| `StatusConflicts.Store.SetMapEntry` | src/openstudio_operator/status_store.py:496-565 | a set goes through the retry loop with the patch built from each read and from the keys protected for its map |
| `StatusConflicts.Store.Mutate` | src/openstudio_operator/status_store.py:432-488 | the retry loop over server, cache and trail equals the attempts function, for every interleaving of foreign patches and answers |
| `StatusConflicts.ConflictSafety` | src/openstudio_operator/status_store.py:432-488 | at most five PATCHes, each built from a read of its own attempt; unless one of them landed, and so on exhaustion, the status is what the others alone made of it |
| `StatusRetries.SessionEnds` | src/openstudio_operator/status_store.py:432-488 | conflicts are retried and nothing else is: the write ends as its first attempt without a conflict does, with that attempt's effect on the status |
| `StatusRetries.FiveConflicts` | src/openstudio_operator/status_store.py:446-488 | a write gives up iff five attempts get a conflict, and is written iff fewer conflicts are followed by an accepted patch, on top of every foreign patch so far |
| `StatusConflicts.NoWriteLost` | src/openstudio_operator/status_store.py:432-565 | a below-cap entry write that landed, even if its reply was lost, and foreign writes elsewhere all survive, wherever they interleave: the result is the same in either order |
| `StatusConflicts.AppendLosesForeignEvent` | src/openstudio_operator/status_store.py:875-900 | a run in which an append overwrites a foreign event |
| `StatusConflicts.AppendKeepsForeignEvents` | src/openstudio_operator/status_store.py:875-900 | an append keeps everyone's events iff the list did not change between its read and its write |
| `StatusCap.CapLandsOn` | src/openstudio_operator/status_store.py:540-559 | what a write at the cap makes of every other entry of the map when the status changed since its read |
| `StatusCap.CapKeepsForeignEntry` | src/openstudio_operator/status_store.py:540-559 | what others did to an entry survives iff it was absent at the read, or no victim and still has all that was read, or a victim that they removed |
| `StatusCap.CapResurrectsForeignRemoval` | src/openstudio_operator/status_store.py:540-559 | an entry removed by someone else between read and PATCH is back, as it was read |
| `StatusCap.CapUndoesARemoval` | src/openstudio_operator/status_store.py:540-559 | there are full maps, of every size, with a removal that a write undoes |
| `Retention.Pipeline.RunReconcile` | src/openstudio_operator/retention.py:331-412 | reconciling one tracked record, effect by effect, equals its step function |
| `Retention.Pipeline.RunSpawn` | src/openstudio_operator/retention.py:415-514 | spawning, adopting or replacing one archival Job equals its step function |
| `Retention.Pipeline.RunRetentionTick` | src/openstudio_operator/retention.py:517-594 | a whole tick, with a crash at any effect, equals the step function |
| `Retention.TerminalIff` | src/openstudio_operator/retention.py:227-236 | the verdict on a Job by its raw conditions: the first true terminal one decides, and without one the Job runs |
| `RetentionOutcomes.TrackedOutcome` | src/openstudio_operator/retention.py:331-412 | a completed tick, for a tracked analysis, by raw inputs: deleted iff listed, purge on, dry-run off, and its record verified or its Job Complete; no new Job; its record kept, stamped or cleared, as by a Failed or missing Job |
| `RetentionOutcomes.DueOutcome` | src/openstudio_operator/retention.py:415-514 | a completed tick, for a due analysis: a Complete Job is adopted as verified (and deleted iff purge is on and dry-run off), a running one adopted, a missing or Failed one replaced by a new Job, or by a marker under dry-run |
| `RetentionOutcomes.DueIff` | src/openstudio_operator/retention.py:182-214 | an analysis is due iff it is untracked, listed, and completed at least the retention time ago by `updated_at`, else by `created_at` |
| `RetentionOutcomes.CompletedByIdIs` | src/openstudio_operator/retention.py:553-579 | an id is listed iff it is not empty and a document has it as completed; the last such document counts |
| `RetentionOutcomes.OthersUntouched` | src/openstudio_operator/retention.py:517-594 | no tick touches an analysis that is neither tracked nor due, nor any while the pipeline is off or not fully configured |
| `RetentionOrder.WritesComeInOrder` | src/openstudio_operator/retention.py:395-504 | over whole runs with a crash at any effect: an analysis is deleted only while its record stands and is verified, and a record names a Job only once the Job was seen or created and not removed since |
| `RetentionRuns.RunSound` | src/openstudio_operator/retention.py:287-412 | every record reachable with crashes names its own analysis' Job, and a verified one has proof in the log |
| `RetentionRuns.NeverDeletedUnverified` | src/openstudio_operator/retention.py:287-579 | the cardinal rule, with records dropped by others at any time: an analysis is deleted only after the Job of its own name was observed Complete, and only in a tick that listed it completed |
| `RetentionRecovery.NoSecondJob` | src/openstudio_operator/retention.py:436-504 | while a Job runs or is Complete no tick, crashed or not, creates or removes a Job of its name |
| `RetentionRecovery.DryRunMutatesNothing` | src/openstudio_operator/retention.py:317-504 | a dry-run tick leaves Jobs and analyses alone, wherever it stops |
| `RetentionRecovery.LostPruneIsRetired` | src/openstudio_operator/retention.py:346-362 | a record whose analysis is gone is retired without a second delete |
| `RetentionRecovery.LostRecordIsAdopted` | src/openstudio_operator/retention.py:436-476 | a running Job without a record is adopted by the next completed tick |
| `RetentionRecovery.TwoTicksFinish` | src/openstudio_operator/retention.py:346-594 | from every world reachable with crashes, with the Job Complete and the analysis due, two fault-free ticks delete it and leave no record |
| `RetentionWrites.NextFollows` | src/openstudio_operator/retention.py:395-504 | from any table that shows its records every step, crashed or not, writes admissibly, and the writes make the table show the records it leaves and nothing else changed |
| `Watchdog.BumpAbsences` | src/openstudio_operator/handlers/datapoint_watchdog.py:264-281 | absent tracked ids gain one, ids seen alive or no longer tracked drop out |
| `Watchdog.Monitor.RunRequeue` | src/openstudio_operator/handlers/datapoint_watchdog.py:430-470 | the requeue of one datapoint, with any effect raising, equals its step function |
| `Watchdog.Monitor.RunAnchorHygiene` | src/openstudio_operator/handlers/datapoint_watchdog.py:284-364 | one hygiene pass over counters, protected keys and maps equals its step function |
| `Watchdog.Monitor.RunActions` | src/openstudio_operator/handlers/datapoint_watchdog.py:403-470 | departures, first observations and requeues, decided by local copies read before the loops, equal the step function |
| `Watchdog.Monitor.RunWatchdogTick` | src/openstudio_operator/handlers/datapoint_watchdog.py:379-483 | a whole poll equals the step function |
| `WatchdogGuards.DryRunSendsNothing` | src/openstudio_operator/handlers/datapoint_watchdog.py:452-464 | wherever a poll fails: under dry-run no requeue is sent, live none is withheld, and each is recorded only right after it |
| `WatchdogGuards.DryRunSendsNothingEver` | src/openstudio_operator/handlers/datapoint_watchdog.py:452-464 | and so over whole runs |
| `WatchdogGuards.StartedOutcome` | src/openstudio_operator/handlers/datapoint_watchdog.py:417-470 | a completed poll, for a started datapoint, by its inputs: requeued, noticed or left alone, with clock and count afterwards |
| `WatchdogGuards.RequeueGuard` | src/openstudio_operator/handlers/datapoint_watchdog.py:430-470 | a completed poll sends (withholds, under dry-run) a requeue iff the datapoint is started, its clock older than the limit and its count below the requeue limit; at the limit it gives notice iff this process has not before |
| `WatchdogGuards.AbsentOutcome` | src/openstudio_operator/handlers/datapoint_watchdog.py:410-429 | a datapoint that is not started is not requeued and has no clock after a completed poll |
| `WatchdogRuns.RunAccounted` | src/openstudio_operator/handlers/datapoint_watchdog.py:403-470 | the calls that the recorded budget does not account for never exceed the limit times the drops of the entry plus the polls that called and failed before recording |
| `WatchdogRuns.RequeueBudget` | src/openstudio_operator/handlers/datapoint_watchdog.py:403-470 | in every run a datapoint gets at most `maxAutoRequeues` requeue calls, dry-run ones included, per life of its entry, plus one per poll that called for it and failed before recording; other failures add nothing |
| `WatchdogAnchors.PollClocked` | src/openstudio_operator/handlers/datapoint_watchdog.py:403-470 | a poll that calls found the clock overdue at its start and, if it completes, leaves it at now |
| `WatchdogAnchors.RequeuesArePaced` | src/openstudio_operator/handlers/datapoint_watchdog.py:403-470 | after a requeue by a completed poll the next one comes more than its runtime limit later, across departures, re-entries, evictions, failures, bounces and changes of the limit |
| `WatchdogAnchors.RunBacked` | src/openstudio_operator/handlers/datapoint_watchdog.py:264-364 | in every run no absence counter claims more consecutive absences than the heavy checks saw |
| `WatchdogAnchors.DebouncedAgeOut` | src/openstudio_operator/handlers/datapoint_watchdog.py:284-364 | a poll removes a `requeues`, `softStops` or `archivedAnalyses` entry only if its id was absent from its three latest heavy checks |
| `WatchdogAbsences.PassOutcome` | src/openstudio_operator/handlers/datapoint_watchdog.py:284-364 | one completed pass by its counters: an entry goes iff this is the third check in a row that does not see its id, and a counter is one up iff the id is tracked, unseen and stays |
| `WatchdogAbsences.UnseenOutcome` | src/openstudio_operator/handlers/datapoint_watchdog.py:284-364 | a completed poll, for an unseen datapoint: every tenth one of the process counts, and the third that counts removes |
| `WatchdogAbsences.GoneAfterThirtyPolls` | src/openstudio_operator/handlers/datapoint_watchdog.py:284-364 | the age-out comes about: thirty completed polls of one process that do not see a datapoint remove its entry |
| `WatchdogHygiene.HygieneRemovesConfirmed` | src/openstudio_operator/status_store.py:999-1027 | the exact rule of a completed pass for every id of each of the five maps, both ways |
| `WatchdogHygiene.StoppedIsNotDebounced` | src/openstudio_operator/handlers/datapoint_watchdog.py:308-309 | a run from a fresh process in which a stop record goes with the first heavy check that does not list its analysis |
| `WatchdogHygiene.RunRegistry` | src/openstudio_operator/handlers/datapoint_watchdog.py:338-344 | in every run the protected keys are those that the last heavy check saw alive, or none in a process without one |
| `WatchdogHygiene.LiveAnchorsGoLast` | src/openstudio_operator/status_store.py:540-559 | at every moment of a run a write to a full map drops another entry seen alive in the last heavy check only if all that is left, but the one written, was seen alive |
| `WatchdogWrites.PollFollows` | src/openstudio_operator/handlers/datapoint_watchdog.py:403-470 | every poll, failed or not, writes admissibly, and the writes make the table show the clocks, budgets and keys that it leaves |
| `WatchdogAnchors.StartedClockIsKept` | src/openstudio_operator/handlers/datapoint_watchdog.py:417-429 | no poll, wherever it fails, removes the clock of a datapoint it saw started |
| `Sla.EvictPods` | src/openstudio_operator/handlers/analysis_sla.py:657-695 | the pod loop counts deletions, remembers the last refusal and gives the verdict |
| `Sla.Monitor.RunEscalate` | src/openstudio_operator/handlers/analysis_sla.py:594-714 | one escalation: eviction, then the mark, or a failed tick |
| `Sla.Monitor.RunSettle` | src/openstudio_operator/handlers/analysis_sla.py:434-519 | past grace: stop, wait, time out or retire the stop record, then escalate, as the step function says |
| `Sla.Monitor.RunHandle` | src/openstudio_operator/handlers/analysis_sla.py:378-519 | one anchor's turn equals its step function |
| `Sla.Monitor.AnchorFirstSights` | src/openstudio_operator/handlers/analysis_sla.py:303-323 | first-sight anchors are written and the started ids collected |
| `Sla.Monitor.RunSlaTick` | src/openstudio_operator/handlers/analysis_sla.py:241-335 | a whole tick equals the step function |
| `SlaGuards.DryRunStopsNothing` | src/openstudio_operator/handlers/analysis_sla.py:395-456 | wherever a poll fails: under dry-run no soft stop or stop is sent and no pod deleted, live none is withheld, and the records say which it was |
| `SlaGuards.DryRunStopsNothingEver` | src/openstudio_operator/handlers/analysis_sla.py:395-456 | and so over whole runs |
| `SlaGuards.PollOutcome` | src/openstudio_operator/handlers/analysis_sla.py:303-519 | a completed poll, for any analysis, by its inputs: anchor and stop record afterwards, and its effects in order |
| `SlaGuards.SoftStopGuard` | src/openstudio_operator/handlers/analysis_sla.py:388-420 | a completed poll sends (withholds, under dry-run) the soft stop iff the analysis is started, watching, unescalated and more than the maximal duration old; the record then says which and keeps its origin |
| `SlaGuards.StopSendGuard` | src/openstudio_operator/handlers/analysis_sla.py:434-505 | it sends (withholds) the stop iff a soft stop was issued, the grace is over and no stop is recorded; a recorded stop is dropped once ended, timed out after more than sixty seconds, and stands otherwise |
| `SlaGuards.EscalationGuard` | src/openstudio_operator/handlers/analysis_sla.py:434-519 | it marks, once, and evicts iff the grace is over, no soft stop is due and no stop is being waited for; the mark says what became of the pods |
| `SlaGuards.AnchorGuard` | src/openstudio_operator/handlers/analysis_sla.py:303-387 | an anchor goes iff its analysis is not started any more, a started one without an anchor gets one of now, and no anchor changes otherwise |
| `SlaRuns.TickCharged` | src/openstudio_operator/handlers/analysis_sla.py:373-519 | in one tick each call for an anchor is paid for by progress of that anchor, or the tick failed among that anchor's own effects |
| `SlaRuns.OneShot` | src/openstudio_operator/handlers/analysis_sla.py:303-519 | over an anchor's lifetime, with failures anywhere, `issuedAt` never changes, there is at most one escalation, and each soft stop or stop beyond one was sent by a tick that then failed among that anchor's effects |
| `SlaRuns.OneShotWhenTicksComplete` | src/openstudio_operator/handlers/analysis_sla.py:303-519 | with completed ticks: at most one soft stop, one stop and one escalation, and no stop or escalation after the mark |
| `SlaOrder.StopFollowsSoftStop` | src/openstudio_operator/handlers/analysis_sla.py:434-470 | a stop comes in a strictly later tick than a real soft stop of the same anchor |
| `SlaStops.StopGuard` | src/openstudio_operator/handlers/analysis_sla.py:434-470 | over all runs a step sends a stop only if it is a poll that found the anchor started, issued, past its grace, unescalated and unrecorded; and such a poll, if it completes, does |
| `SlaStops.StopIsRepeated` | src/openstudio_operator/handlers/analysis_sla.py:434-505 | a completed poll repeats the stop iff one was sent before for that anchor, its record was never written or was pruned since, and the anchor still calls for it |
| `SlaStops.StoppedTwice` | src/openstudio_operator/handlers/analysis_sla.py:434-519 | under any limits a run from a blank status in which one anchor is stopped in the third poll and again in the sixth |
| `SlaOrder.EscalatedUnwarned` | src/openstudio_operator/handlers/analysis_sla.py:388-434 | whenever grace is below the maximum duration there is a run that escalates without a soft stop |
| `SlaOrder.EscalationFollows` | src/openstudio_operator/handlers/analysis_sla.py:388-519 | whatever the limits were before, an escalation by a poll whose grace is at least its maximum duration follows a soft stop of the same anchor |
| `SlaOrder.EscalationOrder` | src/openstudio_operator/handlers/analysis_sla.py:388-519 | in all runs every escalation follows a soft stop iff grace is at least the maximum duration |
| `SlaOrder.FatesCounted` | src/openstudio_operator/handlers/analysis_sla.py:657-679 | the pod loop counts the pods deleted |
| `SlaOrder.LastRefusalIs` | src/openstudio_operator/handlers/analysis_sla.py:657-679 | and remembers the refusal after which only deletions come |
| `SlaOrder.OutcomeMeans` | src/openstudio_operator/handlers/analysis_sla.py:680-687 | what each recorded outcome says about the pods, both ways |
| `SlaOrder.StuckPodFailsTick` | src/openstudio_operator/handlers/analysis_sla.py:690-695 | a refusal that matters fails the tick iff the last refusal is not a 404 or nothing was deleted |
| `SlaOrder.StuckPodIsForgotten` | src/openstudio_operator/handlers/analysis_sla.py:690-695 | under any limits that the CRD admits a run in which an anchor is marked although a pod was refused with 403 |
| `SlaWrites.NextFollows` | src/openstudio_operator/handlers/analysis_sla.py:411-500 | from any table that shows its anchors and stop records every step, failed or not, writes admissibly, and the writes make the table show what it leaves and nothing else changed |
| `Operator.StatusIsOneTable` | src/openstudio_operator/status_store.py:432-565 | over every run that interleaves the three handlers with failures, prunes and bounces, below the cap the merged JSON status holds exactly their records, and reading any entry of the five maps gives the record last written |
| `Operator.NeverDeletedUnverifiedTogether` | src/openstudio_operator/retention.py:287-579 | the cardinal rule holds in every such run |
| `EventSink.Sink.DeferToNextTick` | src/openstudio_operator/events_sinks.py:248-303 | accept, mirror or drop, as the step function says |
| `EventSink.Sink.EmitAll` | src/openstudio_operator/events_sinks.py:370-412 | events are emitted in order up to the one that raises |
| `EventSink.Sink.FlushFor` | src/openstudio_operator/events_sinks.py:305-425 | the two-phase drain, with failing read, clear and emits, equals its step function |
| `EventSink.FlushWhenInSync` | src/openstudio_operator/events_sinks.py:347-425 | without faults a drain emits the sub-queue once, from the mirror, and empties both |
| `EventSink.ExactlyOnce` | src/openstudio_operator/events_sinks.py:248-425 | without faults, at every moment, a CR's mirror is its sub-queue and its accepted events are the emitted ones followed by the queued ones, in order |
| `EventSink.DrainedOnce` | src/openstudio_operator/events_sinks.py:305-425 | so after a drain each accepted event of the CR was emitted exactly once |
| `EventSink.AtLeastOnce` | src/openstudio_operator/events_sinks.py:214-425 | per acceptance, with failures and crashes anywhere: an accepted event is afterwards emitted, mirrored or queued unless a later crash finds it neither mirrored nor emitted since, and one whose mirror write landed is never lost |
| `EventSink.StaysBounded` | src/openstudio_operator/events_sinks.py:248-303 | in every run queue and mirrors stay within 1000 entries |
| `EventSink.AcceptsAll` | src/openstudio_operator/events_sinks.py:285-299 | a run that defers at most 1000 events accepts every one, in order, whatever fails in between |
| `EventSink.RefusedWhenFull` | src/openstudio_operator/events_sinks.py:285-299 | an event is refused iff the queue is full; otherwise queue and, below its bound, mirror end with it |
| `EventSink.DrainSettles` | src/openstudio_operator/events_sinks.py:305-425 | after whatever came before, a faultless drain has emitted every acceptance of its CR since it was accepted, but what a crash took |
| `EventMirror.AppendKeeps` | src/openstudio_operator/status_store.py:875-900 | the store's append is the mirror's, cap included |
| `EventMirror.ClearKeeps` | src/openstudio_operator/status_store.py:902-915 | the store's clear leaves no event |
| `EventMirror.ReadKeeps` | src/openstudio_operator/status_store.py:849-873 | what a drain reads from the status are the mirrored notes |
| `Election.OldestLeads` | src/openstudio_operator/singleton.py:152-170 | the winner is senior to every CR of the list |
| `Election.WinnerIsOldest` | src/openstudio_operator/singleton.py:152-170 | in plain comparisons: no CR is created before the winner, and of those of its time it is first by name, then by uid |
| `Election.OldestWins` | src/openstudio_operator/singleton.py:152-170 | conversely a CR that is no later than any other, and first by name of its time, wins |
| `Election.EarliestWins` | src/openstudio_operator/singleton.py:152-170 | a CR created strictly before every other wins, whatever the names |
| `Election.SortedHeadWins` | src/openstudio_operator/singleton.py:152-170 | the head of any ascending sort by (created, name, uid), in plain comparisons, is the winner |
| `Election.SameWinner` | src/openstudio_operator/singleton.py:152-170 | the same CRs in any order elect the same winner |
| `Election.WinnerStays` | src/openstudio_operator/singleton.py:152-170 | adding juniors or removing losers keeps the winner |
| `Election.MissingIsYoungest` | src/openstudio_operator/singleton.py:152-165 | a CR without a creation time wins only where none has one |
| `Election.ActiveByUid` | src/openstudio_operator/singleton.py:144-198 | where CRs have uids a body is active iff it has the winner's, so that a recreated CR is not; without uids the name decides |
| `Election.ExactlyOneActive` | src/openstudio_operator/singleton.py:144-198 | exactly one CR of a non-empty list is active |
| `GuardCache.PutValid` | src/openstudio_operator/singleton.py:1028-1036 | a write keeps the bound; only the least recently used key goes, and only from a full cache |
| `GuardCache.TouchedValid` | src/openstudio_operator/singleton.py:1021-1026 | a read moves its key to the end and changes nothing else |
| `GuardCache.BoundedGuardCache.Get` | src/openstudio_operator/singleton.py:1021-1026 | answers the entry and marks it used |
| `GuardCache.BoundedGuardCache.Set` | src/openstudio_operator/singleton.py:1028-1036 | writes the entry, evicting while over the bound |
| `GuardCache.BoundedGuardCache.Pop` | src/openstudio_operator/singleton.py:1038-1040 | removes the entry if it is there |
| `Singleton.SingletonGuard.Enforce` | src/openstudio_operator/singleton.py:200-263 | notices are given only when the remembered election changes, losers first |
| `Singleton.SingletonGuard.EmitRedisUrlEvents` | src/openstudio_operator/singleton.py:813-884 | one warning per CR name that needs a URL |
| `Singleton.SingletonGuard.EmitSecretRefEvents` | src/openstudio_operator/singleton.py:890-977 | each CR that names a Secret is probed until an answer settles it; a forbidden read is warned of once |
| `SingletonNotices.ConflictIsAnnounced` | src/openstudio_operator/singleton.py:200-263 | an election of two or more CRs that the guard does not remember gets one conflict notice for each CR but the winner, in listing order, then the winner's; a remembered one gets none |
| `SingletonNotices.NoConflictIsSilent` | src/openstudio_operator/singleton.py:200-263 | no other call gives an election notice |
| `SingletonNotices.UrlWarnings` | src/openstudio_operator/singleton.py:813-884 | a named CR is warned of iff it has neither URL nor Secret and was not warned of before, once |
| `SingletonNotices.CheckSays` | src/openstudio_operator/singleton.py:737-774 | a check says what its election says, then its warnings; a failed listing says nothing |
| `SingletonNotices.ProbesSettle` | src/openstudio_operator/singleton.py:890-977 | a CR that names a Secret is settled iff its probe is allowed or forbidden, and reported once iff forbidden |
| `Singleton.SingletonGuard.Check` | src/openstudio_operator/singleton.py:737-774 | a failed listing changes nothing; otherwise election, which an unparseable creation time leaves as it was, URL warnings and Secret probes |
| `Singleton.SingletonGuard.OnEvent` | src/openstudio_operator/singleton.py:1118-1153 | the watch handler with its cache equals its step function |
| `SingletonNotices.LooksIff` | src/openstudio_operator/singleton.py:1082-1153 | after an event of a CR, with an election known, an update of it makes the handler relist iff uid, spec or labels changed; every other event does |
| `SingletonNotices.LooksAfterDelete` | src/openstudio_operator/singleton.py:1137-1141 | a deleted CR is forgotten: the next event under its name makes the handler relist |
| `SingletonRuns.SkipIsNoOp` | src/openstudio_operator/singleton.py:1082-1115 | where the handler skips, a relist would have changed nothing |
| `SingletonRuns.RelistSkippingIsInvisible` | src/openstudio_operator/singleton.py:1010-1153 | on every stream with successful, up-to-date listings, unparseable creation times included, the skipping handler has the election, warned set and notices of one that always relists, with at most 1000 cached entries |
| `SingletonRuns.FailedListingIsForgotten` | src/openstudio_operator/singleton.py:1149-1153 | a stream with a failed listing on which the two handlers differ |
| `SingletonRuns.ForgottenOnceResolved` | src/openstudio_operator/singleton.py:1108-1153 | after a failed listing the next update skips iff the guard had resolved before |
| `SingletonProbes.SkipHidesProbe` | src/openstudio_operator/singleton.py:1082-1115 | the check that a skip leaves out would have changed the probes iff some listed CR awaits its probe and an answer would settle it |
| `SingletonProbes.ResolvedProbesAreVisible` | src/openstudio_operator/singleton.py:890-1153 | on every stream whose probes all resolve the skipping handler has the probes and denials of one that always relists |
| `SingletonProbes.TransientProbeIsForgotten` | src/openstudio_operator/singleton.py:1082-1153 | a stream with current listings on which a skip hides the warning of a forbidden Secret |
| `WavePlanner.BuildConflictGraph` | scripts/wave-planner.js:118-146 | the nested loops build exactly the graph of shared files and labels |
| `WavePlanner.Assign` | scripts/wave-planner.js:160-173 | the search gives the least colour neither used by a neighbour nor full, and keeps the counts |
| `WavePlanner.GraphColoring` | scripts/wave-planner.js:148-178 | the result is the first-fit colouring under the capacity |
| `WavePlanner.FirstFitSeparates` | scripts/wave-planner.js:148-178 | neighbours never share a colour |
| `WavePlanner.FirstFitWithinCapacity` | scripts/wave-planner.js:160-175 | no colour is used beyond the capacity |
| `WavePlanner.FirstFitUnique` | scripts/wave-planner.js:148-178 | there is exactly one such colouring |
| `WavePlanner.ColoursContiguous` | scripts/wave-planner.js:167-175 | no colour below a used one is left out |
| `WavePlanner.ColoursBounded` | scripts/wave-planner.js:148-178 | at most maxDegree + floor((n-1)/capacity) + 1 colours |
| `Waves.SplitWave` | scripts/wave-planner.js:206-219 | too many unknowns go into waves of their own, before the knowns |
| `Waves.SplitShape` | scripts/wave-planner.js:206-219 | a wave with more than the cap of issues without a file becomes one wave for each of these, then one of the others; any other wave stays |
| `Waves.SplitCounts` | scripts/wave-planner.js:206-219 | splitting loses and duplicates nothing |
| `Waves.DefaultCapSplitsNothing` | scripts/wave-planner.js:203-219 | the default cap never splits a wave |
| `Waves.PlanWaves` | scripts/wave-planner.js:180-231 | the waves partition the issues, no two issues of a wave share a file or label, waves hold one to three, `noStacking` isolates unknowns, and the default plan meets the colour bound |

## Left out

- Transport: REST, Redis and Kubernetes clients, TLS, timeouts, client retries; each call is an effect that succeeds or raises.
- Metrics, logs and the text of Events; an Event that is followed by a write is folded into that write's effect.
- kopf registration, handler wrapping, persistence settings, and the guard's check at startup.
- Resque sensing, pod matching and deployment selectors: a tick gets the verdict, or the fate of each matched pod, as input.
- `worker_recycler.py`, `_cr_cache.py`, `_oscm_handlers.py`, `dry_run_audit.py`, `prune_entrypoint.py`: simpler instances of gates and caches that are modelled; a recreated CR is a process bounce.
- ISO-8601 parsing, sha256 and Unicode lower-casing: integer times, any function to eight hex digits, any function on strings.
- The string coercions of `from_dict`: a field of the wrong JSON type is a decoding error.
- `StatusStore._prune_stale_entries`, which has no caller, the sleep between conflict attempts, and how many cap events a retried write counts.
- Changes that others make in the middle of a tick: in the handler models they fall between ticks; inside one store write `StatusConflicts` has them at every point.
- The evictions that a poll's own write at the cap makes: in the watchdog runs they are steps between polls.
- StatusRefinement.StoreRefinesTable: is for writes below the cap; at the cap `StatusStore.SetAtCap` says what a write does.
- Operator.StatusIsOneTable: below the cap, as the refinement it rests on.
- RetentionOutcomes.DueOutcome: no other analysis has the same Job name, as it would by a collision of digests.
- SlaGuards.AnchorGuard: the maximal duration and the grace are not negative, as the CRD demands; `SlaGuards.PollOutcome` is without.
- WatchdogAnchors.RequeuesArePaced: the earlier of the two polls completes; a poll that fails between its call and its clock may call again at once.
- StallRuns.RestartSpacing: the restarts of the run, but the last, are anchored and counted; `StallWindows.LateFailureShortensGap` and `StallWindows.AnchorDecidesRepeat` show what happens otherwise.
- SingletonRuns.RelistSkippingIsInvisible: one namespace, and listings that succeed and are current.
- The waves list issue positions; text extraction, wave numbering and the command line of the planner are not modelled.
