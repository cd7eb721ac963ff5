# Verified model of the Aruba Mini Dashboard core

This project models the stateful core of the Aruba Mini Dashboard in Dafny and proves what that core is
for. It follows the program's own structure:

- **Automatic remediation.** `RemediationStore` is the transactional audit store (runs, events, target
  locks, circuit breaker), `SshActions` the mutating SSH boundary, `RemediationEvidence` the verdicts on
  MM and cluster observations, `RemediationController` the start guards and the feature switch.
  `RemediationWorkflow` holds the fields of a workflow and its statements (clock, questions to the operator,
  commits), and `RemediationPreparation`, `RemediationRecovery`, `RemediationRebalance` and `RemediationRun`
  carry out its phases. What they are proved against is stated on values: `RemediationScript` is everything
  a run meets and how far it has come, `RemediationPolling` the confirmation loop, `RemediationScenario` what
  each phase needs, tells and stops for, `RemediationRegion` the guarded region as a whole,
  `RemediationMeaning` what a verdict stands for in the answers of MM, the cluster and SSH, and
  `RemediationCompletion` which scripts complete.
  `RemediationProtocol` is the same behaviour as a transition system with failing commits, a crash after any
  step, restart recovery, report retries and health observations. Every workflow records the actions it takes
  and is proved to be a run of that system (its `Valid()`), so the theorems of `RemediationSafety` hold of
  every workflow and of every crash inside one (`CrashAnywhere`). The
  `Remediation{Records,Writes,Limits,Locks,Releases,Order}` modules hold the invariants behind those theorems,
  `RemediationExamples` two runs that show why their conditions are there.
- **Incidents.** `Incidents`, `IncidentStages` and `IncidentLifecycle` are the incident manager,
  `IncidentMeaning` says what a health result does in terms of its own lists of devices, signals and
  deferrals, `IncidentRuns` what holds over whole runs, `IncidentStorage` the retrying durable copy,
  `IncidentIndexRule` the unique index that each upsert has to pass, `IncidentIndexExample` a run that meets
  it, `BaselineCache` the write-back cache and `RuntimePoller` the poller that combines them and stages
  settings.
- **Detection.** `Debounce` is the counter and its history specification, `Medians` the condition of one
  poll, `PollMeaning` when a member is judged low in terms of the collected rows, `AnomalyDetector` the
  detector with its counters.
- **Settings files.** `SettingsFiles` is the three-file protocol on values, `SettingsStore` the store and
  the staged update under arbitrary faults.
- **Storage rules.** `PendingChanges`, `Retention`, `InventoryRetention` and `HistoryRetention`.
- **Incremental algorithms.** `OutputAccumulator`, `PathIndex` and `DependencyWorklist`.

Conventions: times are whole microseconds; a commit is atomic and `durable` is the storage engine's answer
to it; functions such as `nat -> bool` are arbitrary scripts of what the environment answers, so a theorem
about all scripts is a theorem about all environments; loops over Python dictionaries and sets take their
elements in an arbitrary order, so what is proved holds for every order. `hide` statements only shorten
proofs.

## What turned out different from the documentation

- The cooldown is measured from the recorded end of the latest reserved run, or from its *start* if no end
  was recorded. If every closing commit of a run fails, its row stays open and the next start is spaced
  only from that run's start. `CooldownHoldsIff` gives the exact condition, `OpenReservedRowIsReachable`
  reaches it.
- `run_reload_force` passes on two errors after the command was written, an answer over the output limit and
  an SSH error of the write itself, so the run never records that it was sent. `ReloadVanishesIff` gives the
  exact condition and `ReloadCanVanish` an answer that meets it; the reservation still protects the target
  (`ReservationsSurvive`). `run_rebalance` does the same only when cancelled (`RebalanceVanishesIff`).
- Turning the feature on without being able to save the setting leaves it on although the panel shows it off;
  `PanelMisleadsIff` says when exactly panel and feature disagree.
- Separation by the lock needs health polling to be paused while a workflow runs:
  `SeparationNeedsPausedPolling` is a run in which it fails otherwise.
- Acknowledging an incident that is already closed can take the key of another one;
  `AcknowledgeKeepsBijectionIff` gives the exact condition, which the callers exclude.
- Incidents are upserted by detection time, and the unique index on active incidents is checked after each
  upsert. A flush passes it in every such order exactly if whatever is stored in the way of an active incident
  was detected strictly before it (`FlushOfRunPassesIff`), which a clock that always advances ensures
  (`NoFlushEverConflicts`). `PassesIffTheClockAdvanced` reaches the other case: an incident is stored, closed
  while storing fails, and reopened before the clock has advanced past its first detection.
- `resolve_runtime_components` checks the version specifier only of the requirement by which a distribution
  is first taken from the list. What it resolves satisfies every requirement exactly if the requirements on
  each name agree in accepting the installed version (`ResolvedSatisfiesIff`, `AnyOrderSatisfiesIff`);
  `TheOrderDecides` is a pair of requirements that resolves in one order and fails in the other.

## Model

| member | source | states |
|---|---|---|
| RemediationStore.Repository.CreateRun | src/aruba_mini_dashboard/remediation/repository.py:345-375 | a run row is inserted exactly if the commit succeeds and the id is new; otherwise nothing changes |
| RemediationStore.Repository.CommitTransition | src/aruba_mini_dashboard/remediation/repository.py:377-454 | row, mirrored lock flags and event are stored together or not at all; it fails exactly on a missing row, a taken sequence number or a failed commit |
| RemediationStore.TransitionMeans | src/aruba_mini_dashboard/remediation/repository.py:377-454 | row by row: the row changes under its old target and start, one event is appended if its number is new, and only a lock of this very run mirrors the reservations |
| RemediationStore.Repository.ClaimTarget | src/aruba_mini_dashboard/remediation/repository.py:492-521 | a held lock is never taken over; a won claim starts with no flags and no streak |
| RemediationStore.Repository.ReleaseTarget | src/aruba_mini_dashboard/remediation/repository.py:531-547 | only the lock row of this very run is released |
| RemediationStore.ClaimAndReleaseMean | src/aruba_mini_dashboard/remediation/repository.py:492-547 | a claim makes a clean lock of this run, a release ends only a lock of this run; no other lock, run or event changes |
| RemediationStore.Repository.ObserveTargetRecovery | src/aruba_mini_dashboard/remediation/repository.py:549-575 | a held lock is released exactly by a healthy observation that completes max(2, N) in a row; any other resets or extends the streak |
| RemediationStore.ObservedMeans | src/aruba_mini_dashboard/remediation/repository.py:549-575 | a healthy observation adds one to the streak and ends the lock if that is at least 2 and at least N; an unhealthy one starts over; owner and flags stay |
| RemediationStore.Repository.CircuitBreakerReason | src/aruba_mini_dashboard/remediation/repository.py:577-615 | clear exactly if no lock is held, the 24-hour count is below the limit and every reserved run ended (or started) more than cooldown minus one second ago; a cooldown is reported with the whole seconds left of it after the latest of them |
| RemediationStore.Repository.LatestReserved | src/aruba_mini_dashboard/remediation/repository.py:602-607 | the maximum of end-or-start over all reserved runs of the cluster |
| RemediationStore.Repository.RecoverInterruptedRuns | src/aruba_mini_dashboard/remediation/repository.py:617-667 | exactly the running rows become interrupted, each with an end and one more event under a fresh number |
| RemediationStore.Repository.Maintain | src/aruba_mini_dashboard/remediation/repository.py:302-311 | deletes exactly the runs ended before the retention cutoff that hold no active lock, with their events and locks |
| RemediationStore.RecoveredMeans | src/aruba_mini_dashboard/remediation/repository.py:617-667 | a running row keeps everything but outcome, stage, end, code and report flag, and its one new event has the number after the greatest so far |
| RemediationStore.MaintainedMeans | src/aruba_mini_dashboard/remediation/repository.py:302-311 | a run goes exactly if it ended more than 180 days ago and no active lock names it; its events and locks go with it and nothing else |
| RemediationSafety.AtMostOnce | src/aruba_mini_dashboard/remediation/workflow.py:171-236 | over any run with crashes and failed commits, no run writes reload force twice and none writes rebalance twice |
| RemediationSafety.WritesAreReserved | src/aruba_mini_dashboard/remediation/workflow.py:171-236 | whenever a write can happen, its reservation is already committed in that run's row |
| RemediationSafety.ReservationsSurvive | src/aruba_mini_dashboard/remediation/repository.py:617-667 | no later commit, recovery or maintenance forgets a reservation behind a write while the row exists |
| RemediationSafety.CommitsFailOnlyWithTheDisk | src/aruba_mini_dashboard/remediation/repository.py:406-454 | a workflow's commit is never refused for a missing row or a duplicate event number, also after recovery |
| RemediationSafety.PermittedStartIsFresh | src/aruba_mini_dashboard/remediation/repository.py:345-375 | a permitted start finds neither a row nor an event under its id, so a workflow can begin |
| RemediationSafety.SeparationByLock | src/aruba_mini_dashboard/remediation/workflow.py:262-316 | between two reload writes to one target its lock is given up, by the earlier run after post-monitoring or by max(2, N) consecutive healthy observations made since |
| RemediationSafety.ReleaseDiscipline | src/aruba_mini_dashboard/remediation/workflow.py:679-683 | a lock is only released by its holder, and by a run with a reservation only after its post-monitoring |
| RemediationSafety.LockTableIsReplay | src/aruba_mini_dashboard/remediation/repository.py:492-575 | the held locks are exactly what the history of claims, releases and unlocking observations says |
| RemediationSafety.DailyLimit | src/aruba_mini_dashboard/remediation/repository.py:590-600 | every 24-hour window holds at most the limit of reload-reserved runs per target, over all runs of the system |
| RemediationSafety.ReservedIsFaithful | src/aruba_mini_dashboard/remediation/repository.py:377-454 | the set those windows count covers every row with a reservation and every reload write |
| RemediationSafety.CooldownExact | src/aruba_mini_dashboard/remediation/repository.py:601-615 | a start lies more than cooldown minus one second after the end of an earlier reserved run exactly if that end was recorded when the breaker was asked |
| RemediationSafety.CooldownHoldsIff | src/aruba_mini_dashboard/remediation/repository.py:601-615 | the cooldown holds in every continuation of a start exactly if no reserved row lacked its end then |
| RemediationSafety.RebalanceComesLast | src/aruba_mini_dashboard/remediation/workflow.py:203-236 | a rebalance write follows, in order, the reload result, a complete MM Up, the confirmed rejoin and the passed gate, the last two under the same leader |
| RemediationSafety.CompletedMeansWholeChain | src/aruba_mini_dashboard/remediation/workflow.py:254-270 | a COMPLETED row has a confirmed rebalance and the whole chain behind it, in order |
| RemediationSafety.Reached | src/aruba_mini_dashboard/remediation/workflow.py:139-316 | every reachable state satisfies all protocol invariants |
| RemediationExamples.OpenReservedRowIsReachable | src/aruba_mini_dashboard/remediation/workflow.py:636-683 | a run whose closing commits all fail leaves a reserved row without an end, and after the cooldown from its start another start is enabled |
| RemediationExamples.SeparationNeedsPausedPolling | src/aruba_mini_dashboard/remediation/controller.py:388-393 | with polling going on, two reload writes to one target can follow without a justified release in between |
| RemediationController.FeatureController.OnHealthCycle | src/aruba_mini_dashboard/remediation/controller.py:269-329 | a workflow starts exactly if MM told of every registered device without an error, exactly one of them is down, the feature is on and idle, and the breaker allows it after this cycle's observations |
| RemediationController.FeatureController.OnToggle | src/aruba_mini_dashboard/remediation/controller.py:156-190 | a click turns the feature on only if it is available and confirmed, and shows it on only if that could also be saved; turning it off always works |
| RemediationController.FeatureController.OnWorkflowFinished | src/aruba_mini_dashboard/remediation/controller.py:434-464 | the feature is idle again, and off exactly if it was or the run did not complete while the pause is configured |
| RemediationController.DownsAlone | src/aruba_mini_dashboard/remediation/controller.py:293-300 | the list of down devices has one entry exactly if one place of the cycle, and no other, reports down |
| RemediationController.OnlyHealthUnlocks | src/aruba_mini_dashboard/remediation/controller.py:269-291 | a cycle ends a lock only if some device of that address is up in MM and its controller answers, and never touches runs, events or owners |
| RemediationController.OneMoreDevice | src/aruba_mini_dashboard/remediation/controller.py:279-291 | each device with an address counts once, as healthy exactly if it is up in MM and its controller answers |
| RemediationController.NoStartUntilResumed | src/aruba_mini_dashboard/remediation/controller.py:434-484 | after a failed worker, or a run without success where the pause is configured, no workflow starts until the operator turns the switch on again, over any list of slots |
| RemediationController.OneWorkflowAtATime | src/aruba_mini_dashboard/remediation/controller.py:269-329 | between two starts the first workflow has finished, its worker failed or never ran |
| RemediationController.PanelMisleadsIff | src/aruba_mini_dashboard/remediation/controller.py:156-190 | the feature is on while the panel shows it off exactly if the switch was turned on without being saved and nothing has set it since; never the other way round |
| RemediationController.CycleIsARun | src/aruba_mini_dashboard/remediation/controller.py:279-291 | the observations of one cycle are a run of the protocol that reaches the store they leave |
| RemediationController.GuardedStartIsPermitted | src/aruba_mini_dashboard/remediation/controller.py:293-329 | what the guards let through is a start the protocol permits |
| SshActions.Channel.RunReloadForce | src/aruba_mini_dashboard/remediation/ssh_actions.py:72-231 | at most one write per call; error, result code and phase are exactly those of the script, for both transports, every end of the reads and every failure of the write |
| SshActions.ReloadResultMeans | src/aruba_mini_dashboard/remediation/ssh_actions.py:120-231 | the first read that does not simply go on decides: refused if what was read by then is a rejection, a disconnect if the connection is gone, unknown if cancelled or out of time; a prompt-driven device refuses or dispatches |
| SshActions.ReloadAnswerProvesWrite | src/aruba_mini_dashboard/remediation/ssh_actions.py:72-231 | a result other than "unknown" proves that the device has the command |
| SshActions.ReloadVanishesIff | src/aruba_mini_dashboard/remediation/ssh_actions.py:179-231 | the device has the command although the call raises, exactly if the answer overflows the limit or the write itself ends in an SSH error |
| SshActions.ReloadCanVanish | src/aruba_mini_dashboard/remediation/ssh_actions.py:179-231 | an answer one character over the limit does so |
| SshActions.Channel.RunRebalance | src/aruba_mini_dashboard/remediation/ssh_actions.py:233-358 | at most one write per call; error, result code and phase are exactly those of the script, also for a read that fails after the write |
| SshActions.RebalanceResultMeans | src/aruba_mini_dashboard/remediation/ssh_actions.py:290-358 | of an answer within the limit, paging decides before rejection and rejection before confirmation; without such an answer the result is unknown |
| SshActions.TriggeredIff | src/aruba_mini_dashboard/remediation/ssh_actions.py:290-358 | triggered exactly on a complete, unrejected, unpaged confirmation |
| SshActions.RebalanceVanishesIff | src/aruba_mini_dashboard/remediation/ssh_actions.py:233-358 | it raises after the device got the command exactly if cancelled in between |
| RemediationEvidence.FinalRebalanceGate | src/aruba_mini_dashboard/remediation/backend.py:267-316 | the gate passes, without a reason, exactly if all its MM and membership conditions hold |
| RemediationEvidence.StreakSnoc | src/aruba_mini_dashboard/remediation/workflow.py:512-517 | the stable counter and leader track the trailing run of equal verdicts, and reach k exactly at the first confirmation |
| RemediationPolling.Polling.EndsOnce | src/aruba_mini_dashboard/remediation/workflow.py:481-542 | a confirmation loop ends at one poll with one leader; two ends of the same script are the same |
| RemediationPolling.Polling.ConfirmationIsAhead | src/aruba_mini_dashboard/remediation/workflow.py:481-542 | as long as no poll confirmed, the poll that does is still ahead and within the time |
| RemediationWorkflow.Workflow.Commit | src/aruba_mini_dashboard/remediation/workflow.py:89-124 | a commit of the workflow does to store, run and sequence what the protocol's step says, also when it fails |
| RemediationWorkflow.TrailGrows | src/aruba_mini_dashboard/remediation/repository.py:377-454 | between two points of a run without a restart the stored events of any run are only added to |
| RemediationPreparation.ConnectActionEndpoint | src/aruba_mini_dashboard/remediation/workflow.py:412-453 | goes on exactly if some attempt opens a session after only retryable failures and no commit fails; returns at the first such attempt, tells one event per failed attempt, and stops with the operator's stop, a failed commit, or the error code of the attempt that could not be retried |
| RemediationPreparation.Precheck | src/aruba_mini_dashboard/remediation/workflow.py:337-369 | goes on exactly if MM completely shows the target and no other expected member down, and the commits succeed; otherwise stops with the raised error, the incomplete answer's code, MM_PRECHECK_CHANGED or the failed commit |
| RemediationPreparation.ReloadOnce | src/aruba_mini_dashboard/remediation/workflow.py:170-209 | commits the reservation, makes one attempt to write, commits the result; goes on exactly if the call gives a result that is no refusal and both commits succeed, else with its error or refusal code |
| RemediationPreparation.DispatchReload | src/aruba_mini_dashboard/remediation/workflow.py:171-183 | the trace has a reload write exactly if the device got one, and an answered result is never without it |
| RemediationRecovery.WaitForMmUp | src/aruba_mini_dashboard/remediation/workflow.py:455-476 | goes on exactly if a poll in time completely shows the target up, at the first such poll, within ceil(timeout / interval) polls; stops with the operator, a failed commit, the error of the poll that raised, or the timeout |
| RemediationEvidence.CeilDivIsLeast | src/aruba_mini_dashboard/remediation/workflow.py:455-476 | the bound on the polls is the least number of intervals that takes up the timeout |
| RemediationRecovery.WaitForRejoin | src/aruba_mini_dashboard/remediation/workflow.py:478-542 | goes on exactly if in time the last k polls all show the rejoin under the same unique leader, at the first such poll and with that leader, within ceil(timeout / interval) polls begun, with exactly those polls in the audit trail; stops with the operator, a failed commit, the error of the poll that raised, or the timeout |
| RemediationRecovery.LookForRejoin | src/aruba_mini_dashboard/remediation/workflow.py:488-511 | one poll yields a leader exactly if discovery names it alone and its own view shows the rejoin, and the event told says why not |
| RemediationRebalance.PassFinalGate | src/aruba_mini_dashboard/remediation/workflow.py:218-232 | goes on exactly if the gate holds of the observations under the confirmed leader and the commits succeed; otherwise stops with the first condition missed, the raised error, or a failed commit |
| RemediationRebalance.RebalanceOnce | src/aruba_mini_dashboard/remediation/workflow.py:233-260 | reserves, makes one attempt, settles with code, phase and confirmation; goes on exactly if the call gives a result that is no refusal and both commits succeed |
| RemediationRebalance.PostMonitor | src/aruba_mini_dashboard/remediation/workflow.py:575-619 | stable exactly if in time the last k polls were all normal under one leader, at the first such poll; unstable exactly if the time is up first; else the operator, a failed commit or the poll that raised |
| RemediationRebalance.LookForNormal | src/aruba_mini_dashboard/remediation/workflow.py:584-600 | one poll yields a leader exactly if MM and cluster are completely normal under it alone |
| RemediationRun.Finalize | src/aruba_mini_dashboard/remediation/workflow.py:621-693 | whatever fails, the run ends with this outcome, code and end time; if one of two commits succeeds the stored row says so; the report is pending exactly if writing it or the commit that says so failed; the audit trail gains exactly the outcome and a failed report, each if its commit succeeds; the lock is given up exactly if told so, held by this run and taken by the disk |
| RemediationRun.Close | src/aruba_mini_dashboard/remediation/workflow.py:254-316 | completed exactly if stable and confirmed, partial exactly if monitored otherwise, else the cause and code of the stop; the lock stays exactly if a reserved reload was not monitored, or the disk refused its release |
| RemediationRun.RunWorkflow | src/aruba_mini_dashboard/remediation/workflow.py:139-316 | every run ends within its poll and event bounds, as a protocol run; it writes a reload only if MM had completely shown the target and no other expected member down, and a rebalance only after the whole chain and the gate; COMPLETED and PARTIAL exactly if nothing hindered it and all evidence was there, with exactly that audit trail, row, commits and questions; otherwise it was halted just there or a phase failed, with that outcome and code and the trail of every finished phase; stored row, closing events and lock at the end |
| RemediationMeaning.AnotherMemberDownStops | src/aruba_mini_dashboard/remediation/workflow.py:337-369 | with a second expected member reported down the run ends Stopped with MM_PRECHECK_CHANGED and writes nothing, unless a commit fails or the operator stops it earlier |
| RemediationMeaning.RebalanceDueMeans | src/aruba_mini_dashboard/remediation/workflow.py:203-236 | before a rebalance may be reserved MM completely showed the target up, the last k polls all showed the whole cluster connected as one and the same leader sees it, and both sources showed so again at the gate |
| RemediationMeaning.CompletedMeans | src/aruba_mini_dashboard/remediation/workflow.py:139-316 | COMPLETED stands for all of that, a full and unrejected confirmation of the rebalance, and k polls in a row at the end with everyone up, connected and counted under one leader |
| RemediationCompletion.SteadyRunCompletes | src/aruba_mini_dashboard/remediation/workflow.py:139-316 | conversely, answers that show all of that from the first poll on, without failing commits or a stop, complete the run whenever the confirmations it needs fit into the configured times |
| RemediationRun.CrashAnywhere | src/aruba_mini_dashboard/remediation/workflow.py:139-316 | a crash after any recorded step of a workflow leaves a state the protocol reaches |
| Incidents.CurrentSignalsMeaning | src/aruba_mini_dashboard/services/incident_manager.py:94-112 | the current signals are, per key, the first in-scope signal of the list |
| IncidentLifecycle.IncidentManager.Restore | src/aruba_mini_dashboard/services/incident_manager.py:27-53 | restoring fails exactly if two active incidents claim one identity or the interval is not positive; otherwise the manager has these incidents and settings |
| IncidentLifecycle.IndexActive | src/aruba_mini_dashboard/services/incident_manager.py:42-53 | the key index of the active incidents is a bijection, and missing exactly on a duplicate |
| IncidentLifecycle.IncidentManager.CollectSignals | src/aruba_mini_dashboard/services/incident_manager.py:94-112 | collects exactly the current signals and their keys, each once |
| IncidentLifecycle.IncidentManager.ReconcileMonitoringScope | src/aruba_mini_dashboard/services/incident_manager.py:205-241 | exactly the active out-of-scope device incidents close silently, and exactly they are reported |
| IncidentLifecycle.LeavingScopeMeans | src/aruba_mini_dashboard/services/incident_manager.py:205-241 | of the active incidents exactly those of a device outside the scope close, as last seen now and not as recovered; nothing else changes |
| IncidentLifecycle.IncidentManager.ObserveSignals | src/aruba_mini_dashboard/services/incident_manager.py:125-172 | every current key ends up active, opened under a fresh id or refreshed in place; opened and changed ones are reported |
| IncidentLifecycle.IncidentManager.CloseUnsignalled | src/aruba_mini_dashboard/services/incident_manager.py:173-203 | every other active key meets its fate: superseded, kept (deferred, or not confirmed recovered) or recovered |
| IncidentLifecycle.IncidentManager.Process | src/aruba_mini_dashboard/services/incident_manager.py:85-203 | the result decides, over its own devices, signals and deferrals, what becomes of every active incident and which are opened, leaves closed ones alone, and the report tells just that; an MM Down incident recovers exactly if it is in scope, unsignalled and undeferred and the first device row of its address is present and up |
| IncidentMeaning.ActiveBecomes | src/aruba_mini_dashboard/services/incident_manager.py:125-203 | an active incident stays, is refreshed, is silently closed or recovers exactly as scope, signals, deferrals and device rows say, field by field |
| IncidentMeaning.NewIsOpened | src/aruba_mini_dashboard/services/incident_manager.py:125-172 | a new incident comes from the first in-scope signal of its event, under the last name of its device, and no active incident already stood for that event |
| IncidentMeaning.SignalIsTracked | src/aruba_mini_dashboard/services/incident_manager.py:94-172 | every signal in scope is tracked by an active incident afterwards |
| IncidentMeaning.ReportMeans | src/aruba_mini_dashboard/services/incident_manager.py:173-203 | recovered is reported of exactly the incidents that are over |
| IncidentLifecycle.IncidentManager.Acknowledge | src/aruba_mini_dashboard/services/incident_manager.py:283-303 | acknowledges once; a connection-type event is consumed; the bijection survives exactly if no other incident's key is taken |
| IncidentLifecycle.AcknowledgingMeans | src/aruba_mini_dashboard/services/incident_manager.py:283-303 | only an unacknowledged incident changes: its time is noted, and a connection-type event ends |
| IncidentLifecycle.NotifyingMeans | src/aruba_mini_dashboard/services/incident_manager.py:337-347 | marking a notification changes that one time and nothing else |
| IncidentLifecycle.AcknowledgeKeepsBijectionIff | src/aruba_mini_dashboard/services/incident_manager.py:283-303 | exactly when acknowledging keeps active incidents and keys in bijection |
| IncidentLifecycle.IncidentManager.DueNotifications | src/aruba_mini_dashboard/services/incident_manager.py:319-335 | due are exactly the open, unacknowledged, reconfirmed incidents whose last notification or, without one, detection lies at least the interval back |
| IncidentLifecycle.IncidentManager.CompactInactive | src/aruba_mini_dashboard/services/incident_manager.py:349-371 | releases exactly the closed, unretained incidents and counts them |
| IncidentRuns.ReportIsTheDifference | src/aruba_mini_dashboard/services/incident_manager.py:85-203 | the activations reported are exactly the keys gained, recoveries and supersessions exactly the incidents lost |
| IncidentRuns.MmDownClosesOnEvidence | src/aruba_mini_dashboard/services/incident_manager.py:269-281 | over any run, an MM Down incident is still open exactly if no poll left it unsignalled and undeferred with the first device row of its address present and up, and no step took it out of scope |
| IncidentRuns.RunKeepsBijection | src/aruba_mini_dashboard/services/incident_manager.py:85-371 | every run of operations keeps active incidents and keys in bijection |
| IncidentStorage.RowRoundTrip | src/aruba_mini_dashboard/storage.py:1021-1076 | an incident stored in a new row reads back as itself |
| IncidentStorage.MergeRoundTripIff | src/aruba_mini_dashboard/storage.py:1041-1076 | an updated row reads back as the incident exactly if its identity columns were the incident's |
| IncidentStorage.ColumnsMean | src/aruba_mini_dashboard/storage.py:1021-1076 | which columns an upsert writes: a known row keeps what identifies it and its acknowledgement |
| IncidentStorage.ReadBackMeans | src/aruba_mini_dashboard/storage.py:1755-1800 | what is read from a row; without a time of recovery in the payload the column's counts |
| IncidentStorage.FlushConverges | src/aruba_mini_dashboard/main.py:1770-1793 | a successful flush makes disk and memory agree completely, a failed one changes nothing |
| IncidentStorage.ConvergesThroughOutages | src/aruba_mini_dashboard/main.py:1747-1793 | over any run with outages, overflows and restarts: the journal is bounded by 10,000, stored plus waiting transitions are those produced in order and none twice, all of them if none was dropped, and after each success the active rows are the active incidents |
| IncidentStorage.RestartRestoresLastStored | src/aruba_mini_dashboard/main.py:466-475 | a restart restores exactly the incidents of the last successful flush |
| IncidentStorage.RestartIsPossible | src/aruba_mini_dashboard/main.py:594-621 | what is stored never claims one identity twice, so a restart never fails on it |
| IncidentIndexRule.StatementsRespectIndexIff | src/aruba_mini_dashboard/storage.py:465-466 | the index is respected after every upsert exactly if whatever is stored in the way is upserted first |
| IncidentIndexRule.FlushNeverConflicts | src/aruba_mini_dashboard/services/incident_manager.py:373-377 | in the order of detection times no statement of a flush violates the index |
| IncidentIndexRule.NoFlushEverConflicts | src/aruba_mini_dashboard/storage.py:1059-1076 | over any run whose polls are later than all detections so far, no flush ever meets the index |
| IncidentIndexRule.FlushOfRunPassesIff | src/aruba_mini_dashboard/storage.py:1059-1076 | over any run, whatever its clock does: a flush passes the index in every order by detection time exactly if whatever is stored in the way of an active incident was detected strictly before it |
| IncidentIndexExample.PassesIffTheClockAdvanced | src/aruba_mini_dashboard/services/incident_manager.py:373-377 | open and store, close with a failed flush, reopen: the next flush passes in every order by detection exactly if the clock has advanced past the first detection, and behind it in none |
| BaselineCache.DomainStore.SaveCycleDomainState | src/aruba_mini_dashboard/storage.py:957-1106 | baselines, incident rows and events change together or not at all |
| IncidentStorage.SavedMeans | src/aruba_mini_dashboard/storage.py:1021-1106 | after the transaction there is a row of everything stored or held except closed ones the cleanup selects, and every transition in order |
| BaselineCache.SettingAgrees | src/aruba_mini_dashboard/main.py:298-301 | setting a baseline keeps stored + dirty - removed equal to the cached values |
| BaselineCache.DiscardingAgrees | src/aruba_mini_dashboard/main.py:303-314 | so does discarding any set of members |
| BaselineCache.CachedBaselineStore.Prune | src/aruba_mini_dashboard/main.py:309-314 | discards exactly the members that are not expected |
| BaselineCache.CachedBaselineStore.RestoreState | src/aruba_mini_dashboard/main.py:323-334 | restores a snapshot exactly; the agreement holds exactly if no flush came in between |
| BaselineCache.CachedBaselineStore.Flush | src/aruba_mini_dashboard/main.py:336-377 | a successful flush makes store and cache equal, a failed one changes neither |
| RuntimePoller.Runtime.constructor | src/aruba_mini_dashboard/main.py:463-477 | a new process starts as the last stored state says |
| RuntimePoller.Runtime.PersistIncidents | src/aruba_mini_dashboard/main.py:1747-1793 | journals, bounds, compacts and flushes as specified; on success disk, memory and baselines agree and no acknowledgement waits, on failure all of them still wait |
| RuntimePoller.Runtime.Correlate | src/aruba_mini_dashboard/main.py:1553-1588 | one health result advances the incidents exactly, adds the resolved members to the waiting acknowledgements and then persists |
| RuntimePoller.Runtime.AcknowledgeActive | src/aruba_mini_dashboard/main.py:1802-1813 | acknowledges exactly the given incidents, and reports each unacknowledged one once |
| RuntimePoller.AcknowledgedAllMeans | src/aruba_mini_dashboard/main.py:1802-1813 | of the given incidents exactly those not yet acknowledged are, as of now, and their connection-type events end |
| RuntimePoller.Runtime.AcceptConnectionTypeBaseline | src/aruba_mini_dashboard/main.py:1795-1815 | without a pending change nothing happens; else the observed value becomes the baseline, exactly the member's connection-type events are consumed and reported once each, and all is persisted; the member's acknowledgement is stored if that succeeds and waits if it fails |
| RuntimePoller.Runtime.AcknowledgeIp | src/aruba_mini_dashboard/main.py:1817-1832 | acknowledges exactly the address's other active incidents, reports each unacknowledged one once, and persists |
| RuntimePoller.Runtime.AcknowledgeGlobal | src/aruba_mini_dashboard/main.py:1834-1843 | acknowledges exactly the active collection failures, reports each unacknowledged one once, and persists |
| RuntimePoller.Runtime.MarkNotificationDelivered | src/aruba_mini_dashboard/main.py:1845-1860 | notes the time at a known incident and persists; an unknown one changes nothing |
| RuntimePoller.AcknowledgementIsKept | src/aruba_mini_dashboard/main.py:1747-1815 | over any calls, the acknowledgement of an accepted or resolved member waits until a flush succeeds and is stored from then on |
| RuntimePoller.AcknowledgedInSteps | src/aruba_mini_dashboard/main.py:1802-1813 | acknowledging several incidents is a run of single acknowledgements |
| RuntimePoller.SettingsStage.constructor | src/aruba_mini_dashboard/main.py:643-737 | staging works on a new manager over copies, keeps the previous manager and all pending state |
| RuntimePoller.SettingsStage.Commit | src/aruba_mini_dashboard/main.py:411-421 | the scope's transitions join the journal and are persisted as any others |
| RuntimePoller.SettingsStage.Rollback | src/aruba_mini_dashboard/main.py:739-757 | puts back the previous manager, the cache snapshot and the pending lists |
| RuntimePoller.StageAndRollBack | src/aruba_mini_dashboard/main.py:643-757 | staging and rolling back restores manager, cache and pending lists exactly |
| Debounce.DebounceEqualsHistory | src/aruba_mini_dashboard/services/anomaly_detector.py:115-140 | a fresh counter is active after a trace exactly if some A consecutive trusted anomalies are followed nowhere by R consecutive trusted normals |
| Debounce.HistoryOneMore | src/aruba_mini_dashboard/services/anomaly_detector.py:163-177 | how each kind of observation, also one without evidence, changes what the history says |
| Debounce.RecoveryBetween | src/aruba_mini_dashboard/services/anomaly_detector.py:115-140 | between two activations there is a recovery |
| Debounce.ActivationBetween | src/aruba_mini_dashboard/services/anomaly_detector.py:115-140 | between two recoveries there is an activation |
| Medians.AtMostHalfLookLow | src/aruba_mini_dashboard/services/anomaly_detector.py:187-232 | in relative mode, with the peer minimum above the low threshold, at most floor((n + 1) / 2) of n members look low |
| Medians.TheBoundIsReached | src/aruba_mini_dashboard/services/anomaly_detector.py:212-232 | two of three members can look low at once |
| AnomalyDetector.DetectorCounter.Advance | src/aruba_mini_dashboard/services/anomaly_detector.py:115-140 | the counter moves as specified; activated and recovered are its two edges |
| AnomalyDetector.SeenByMeaning | src/aruba_mini_dashboard/services/anomaly_detector.py:187-257 | what a poll records of a member is the one observation made of it, at its place in the list of distinct members |
| AnomalyDetector.AnomalyDetector.EvaluateClientDistribution | src/aruba_mini_dashboard/services/anomaly_detector.py:142-257 | each distinct expected member gets exactly one evaluation, deferred exactly if the data is incomplete, an expected member has no row or the total is below the minimum, and else met exactly if its last row is low against the thresholds and the medians of the other members; no other counter changes |
| AnomalyDetector.AnomalyDetector.EvaluateMissing | src/aruba_mini_dashboard/services/anomaly_detector.py:259-308 | each distinct expected member gets exactly one evaluation, deferred exactly if the data is incomplete and met exactly if it is complete and the member is missing; no other counter changes |
| AnomalyDetector.UnjudgedIff | src/aruba_mini_dashboard/services/anomaly_detector.py:142-161 | when a poll is not judged, over the rows and the expected members themselves |
| AnomalyDetector.JudgedLowIff | src/aruba_mini_dashboard/services/anomaly_detector.py:187-232 | when a member is judged low, over its last row and the medians of what the other members last show |
| PollMeaning.MedianIsUnique | src/aruba_mini_dashboard/services/anomaly_detector.py:190-199 | twice the median of some counts is one number, whatever order they are sorted from |
| AnomalyDetector.AnomalyDetector.PruneIps | src/aruba_mini_dashboard/services/anomaly_detector.py:94-110 | forgets exactly the counters of unexpected addresses and names them |
| AnomalyDetector.AnomalyDetector.ActiveIffHistory | src/aruba_mini_dashboard/services/anomaly_detector.py:115-177 | in a detector without saved state a counter is active exactly if some consecutive trusted anomalies, as many as asked for, are followed nowhere by as many consecutive trusted normals |
| AnomalyDetector.AtMostHalfAreAnomalous | src/aruba_mini_dashboard/services/anomaly_detector.py:187-232 | one poll shows at most floor((n + 1) / 2) anomalies, whatever was collected |
| SettingsFiles.RecoveryKeepsMeaning | src/aruba_mini_dashboard/config.py:543-579 | recovery cut off anywhere leaves the next load seeing the same; finished, the settings file is that |
| SettingsFiles.MarkerDecides | src/aruba_mini_dashboard/config.py:543-590 | the marker alone decides what is seen, and a copy of up to 262144 bytes is enough |
| SettingsFiles.RecoveryIsIdempotent | src/aruba_mini_dashboard/config.py:543-590 | recovering again changes nothing |
| SettingsFiles.StagingKeepsMeaning | src/aruba_mini_dashboard/config.py:496-529 | staging cut off anywhere leaves the old file seen, also when there was none |
| SettingsFiles.CommitSwitchesOnce | src/aruba_mini_dashboard/config.py:626-634 | removing the marker is the one switch from old to new |
| SettingsFiles.StaleRollbackIsIgnored | src/aruba_mini_dashboard/config.py:581-590 | without a marker that says so, a rollback copy is never consulted |
| SettingsFiles.OnlySwitchesChangeMeaning | src/aruba_mini_dashboard/config.py:496-640 | over any number of cut-off procedures only a commit's marker removal or a save changes what is seen |
| SettingsFiles.EpisodesAreCutOffs | src/aruba_mini_dashboard/config.py:496-640 | what a procedure cut off anywhere leaves is exactly what some episode leaves, so the law over episodes covers every cut-off |
| SettingsStore.SettingsStore.RecoverInterruptedUpdate | src/aruba_mini_dashboard/config.py:543-579 | under any fault it performs a first part of the recovery and never changes what is seen; an unreadable state is left alone; without faults it succeeds exactly if the state is readable |
| SettingsStore.SettingsStore.Load | src/aruba_mini_dashboard/config.py:458-490 | returns exactly what was seen before, and changes nothing of it; without faults it succeeds exactly if that is readable and not too large |
| SettingsStore.SettingsStore.Save | src/aruba_mini_dashboard/config.py:492-494 | old or new, nothing else, and new exactly on success or a crash after the replace; without faults it succeeds exactly if the old state is readable and the new text valid and not too large |
| SettingsStore.WithinTheLimit | src/aruba_mini_dashboard/config.py:458-494 | the limit on a settings file is 262144 bytes, inclusive, for reading and for storing |
| SettingsStore.SettingsStore.BeginUpdate | src/aruba_mini_dashboard/config.py:496-529 | whatever fails, the old file stays seen; on success the new one lies behind the marker; without faults it succeeds exactly if the old file can be read and the new one stored |
| SettingsStore.SettingsUpdate.Commit | src/aruba_mini_dashboard/config.py:626-634 | the settings file becomes what is seen exactly with the marker's removal; without faults it succeeds exactly if the marker is there |
| SettingsStore.SettingsUpdate.Rollback | src/aruba_mini_dashboard/config.py:636-640 | keeps what is seen and makes the file that again; without faults it succeeds exactly if the state is readable |
| SettingsStore.UpdateSettings | src/aruba_mini_dashboard/config.py:496-640 | a whole update under arbitrary faults ends with exactly the old or the new file seen, without faults the new one exactly if the old file can be read and the new one stored; a new file is left behind the marker only by a crash or a second failure |
| PendingChanges.MigrateToVersion4 | src/aruba_mini_dashboard/storage.py:555-570 | in any visiting order, seeing its own writes or not, the update yields one and the same table |
| PendingChanges.MigrationKeepsNewest | src/aruba_mini_dashboard/storage.py:555-570 | a row stays pending exactly if it is its member's newest pending one; every member keeps one |
| PendingChanges.MigrationLeavesOnePending | src/aruba_mini_dashboard/storage.py:571-572 | so the unique index can be created |
| PendingChanges.SavingKeepsOnePending | src/aruba_mini_dashboard/storage.py:863-894 | a save keeps at most one pending change per member and takes no acknowledgement back |
| PendingChanges.ChangeTable.SaveConnectionChange | src/aruba_mini_dashboard/storage.py:863-894 | a new token gets a row of this change, a known one keeps member and detection, gets the new confirmation and stays acknowledged; other rows of the member are acknowledged and those of other members untouched |
| PendingChanges.ChangeTable.SaveCycle | src/aruba_mini_dashboard/storage.py:989-1020 | the same for a whole poll cycle: removals and acknowledgements acknowledge what is there, then every listed change is stored, and nothing else |
| PendingChanges.CycleIsStored | src/aruba_mini_dashboard/storage.py:989-1020 | which rows a cycle leaves, token by token: their member and detection from the first listing, their confirmation from the last, and acknowledged exactly if they were or something listed later or removed silences them |
| Retention.NewestAreFew | src/aruba_mini_dashboard/storage.py:1588-1594 | at most `limit` rows are among the first `limit` |
| Retention.RemovedRankBelowKept | src/aruba_mini_dashboard/storage.py:1586-1594 | every removed row ranks below every kept one |
| Retention.ExpendableMeans | src/aruba_mini_dashboard/storage.py:1586-1594 | a row goes exactly if it is stale or `limit` rows are newer, a larger key being newer among equal times |
| InventoryRetention.CleanupIsSafeAndOptimal | src/aruba_mini_dashboard/storage.py:1549-1603 | guarded and unreadable addresses stay; at most `max_rows` eligible ones remain, none before the cutoff; a removed one leaves all three tables and ranks below all kept |
| InventoryRetention.EligibleMeans | src/aruba_mini_dashboard/storage.py:1556-1585 | who takes part, and that the discovered sighting counts before the state and that before the normal state |
| InventoryRetention.SecondRunRemovesNothing | src/aruba_mini_dashboard/storage.py:1549-1603 | a second run at the same time removes nothing |
| InventoryRetention.InventoryTables.CleanupIfDue | src/aruba_mini_dashboard/storage.py:1522-1619 | runs exactly when due or forced and removes exactly the selected addresses, from all three tables |
| InventoryRetention.DueMeans | src/aruba_mini_dashboard/storage.py:1522-1545 | maintenance is due if forced, never run, run in the future, or a day or more ago |
| HistoryRetention.CleanupIsSafe | src/aruba_mini_dashboard/storage.py:1895-1951 | active incidents, their events and pending changes stay; what is deletable is bounded and no older than the cutoff |
| HistoryRetention.WhoTakesPart | src/aruba_mini_dashboard/storage.py:1895-1951 | who takes part in each of the four deletions, and by which time |
| HistoryRetention.SecondCleanupDeletesNothing | src/aruba_mini_dashboard/storage.py:1895-1951 | a second cleanup at the same time deletes nothing |
| HistoryRetention.HistoryTables.CleanupIfDue | src/aruba_mini_dashboard/storage.py:1866-1969 | the four deletions in their order amount to the specified cleanup, and are counted |
| OutputAccumulator.LineBreaksAreThoseRead | src/aruba_mini_dashboard/collectors/aruba_ssh.py:808-811 | the three-term count is the number of logical line breaks read from left to right |
| OutputAccumulator.LineBreaksOfJoin | src/aruba_mini_dashboard/collectors/aruba_ssh.py:83-88 | a CRLF split between two texts counts once |
| OutputAccumulator.FitsMeans | src/aruba_mini_dashboard/collectors/aruba_ssh.py:75-100 | within the limits means at most 4 MiB of characters and fewer than 50000 line breaks as they are read |
| OutputAccumulator.BoundedOutputAccumulator.Append | src/aruba_mini_dashboard/collectors/aruba_ssh.py:75-100 | a chunk is accepted exactly if the text with it fits; a refused one changes nothing |
| OutputAccumulator.BoundedOutputAccumulator.Build | src/aruba_mini_dashboard/collectors/aruba_ssh.py:102-111 | joins the parts; blank text is an error unless allowed |
| OutputAccumulator.CollectChunks | src/aruba_mini_dashboard/collectors/aruba_ssh.py:75-111 | any split of a text is accepted exactly if the whole fits, with the whole text's counts |
| PathIndex.PathIndex.Register | scripts/verify_release_package.py:379-410 | an entry is accepted exactly if it and all before it meet the pairwise rule |
| PathIndex.InspectEntries | scripts/verify_release_package.py:983-1006 | a list is accepted exactly if prefixes that fold alike are spelled and typed alike and full paths fold apart |
| PathIndex.AcceptableMeans | scripts/verify_release_package.py:379-410 | the pairwise rule in terms of the entries: valid components, common prefixes that fold alike spelled alike and never both file and directory, and no two paths that fold alike |
| PathIndex.OrderDoesNotMatter | scripts/verify_release_package.py:379-410 | the rule depends on the entries only as a collection |
| DependencyWorklist.ResolveRuntimeComponents | scripts/collect_third_party_licenses.py:244-297 | ends exactly as taking the last requirement of the list first does; visited is exactly what is reachable without passing through the project, required_by exactly the visited parents; a failure names a reachable requirement that exhibits it |
| DependencyWorklist.ResolvedSatisfiesIff | scripts/collect_third_party_licenses.py:252-297 | a resolved project satisfies every reachable requirement exactly if the requirements on one name agree in accepting the installed version |
| DependencyWorklist.AnyOrderSatisfiesIff | scripts/collect_third_party_licenses.py:252-297 | in whatever order requirements are taken, a resolution visits the same names and satisfies all exactly if they agree |
| DependencyWorklist.SomeOrderResolvesIff | scripts/collect_third_party_licenses.py:252-297 | some order resolves the project exactly if every reachable name is reached through requirements that pass all checks |
| DependencyWorklist.TheOrderDecides | scripts/collect_third_party_licenses.py:252-297 | two requirements on one name, one violated: one order resolves, the other fails |
| DependencyWorklist.ClosedContainsReachable | scripts/collect_third_party_licenses.py:252-282 | a set with the roots that is closed under dependencies contains everything reachable |

## Left out

- Transport, sockets, threads, Qt, notifications, logging, redaction, HTML reports and SQLite itself: a commit is atomic, a device is a write log with arbitrary answers, a file replacement or removal is one step.
- RemediationRun.RunWorkflow: evidence payloads, snapshot tables, messages and durations of audit events are not modelled; of an event its number, stage and code are, of a failed collection whether the operator caused it. The events of a phase that fails are bounded in number and follow those of all finished phases; they are not listed one by one.
- RemediationRun.Finalize: the report text is not modelled, only whether writing it succeeds.
- SshActions.Channel.RunReloadForce: the texts that count as rejection, paging or confirmation are parameters.
- RemediationController.FeatureController.OnHealthCycle: the operator's settings are constant over a run of the protocol, and one workflow runs at a time, as the controller's active flag ensures.
- RemediationSafety.SeparationByLock: proved with health polling paused while a workflow runs, as the controller does it, and with a clock that does not go back.
- IncidentLifecycle.IncidentManager.Process: incidents are values held by the manager and changed by replacing the entry; the live references that `active_incidents` hands out, its sort order and the details mapping's structure are not modelled. Ids come from a counter that stands for ids that never repeat.
- Incidents: an address is never the empty text, which in the database stands for no address.
- IncidentStorage.ConvergesThroughOutages: the age-based deletion of stored events is not part of this table's model (it is in HistoryRetention); deleted closed rows are. The cap of 10,000 restored active incidents is not modelled.
- IncidentStorage.RestartRestoresLastStored: the demo reset of all monitoring state is not modelled.
- RuntimePoller.SettingsStage.constructor: the correlation engine, the detector and the logging switches of a settings change are not modelled; the scope is a parameter.
- AnomalyDetector.AnomalyDetector.ActiveIffHistory: counters restored from saved state continue from it; what the history before the restart was is not known to the model. Thresholds do not change along a trace.
- Medians: the relative ratio is an exact percentage and medians are exact halves instead of floating point.
- SettingsStore.SettingsStore.Load: parsing and schema checks of the JSON text are a validity flag; reading a file does not fail by itself; one update is outstanding at a time.
- InventoryRetention: address texts are numbered in the order in which the database compares them, and times compare exactly instead of as Julian day fractions.
- PendingChanges: the baseline table's part of the version 4 migration and the later migrations.
- OutputAccumulator: the type check of chunks that are not text.
- PathIndex.InspectEntries: entry types, sizes, the release policy and the root checks of the archive; validity and folding of a component are parameters.
- DependencyWorklist.ResolveRuntimeComponents: names are canonical and the installed metadata is found by canonical name; markers are evaluated beforehand; licences and documents of a component are not modelled.
- CorrelationEngine and PollCoordinator are not part of this model; their results are arbitrary inputs.
