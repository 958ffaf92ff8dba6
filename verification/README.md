# Verification of the maintenance and leadership protocols

This project models how a small home and cloud infrastructure keeps itself up to date without
taking too much down at once, and proves what its protocols promise over every run.

- **Fleet controller.** One durable object hands out reboots and package updates to three hosts.
  `FleetSpec` gives its stored tables and the effect of every call as values; `MaintenanceFleet`
  (module `FleetObject`) is the object itself, whose methods are proved to compute those effects;
  `FleetCoupling`, `FleetHistory`, `FleetSeparation`, `FleetApproval`, `FleetPublication`,
  `FleetRelease` and `FleetEnvironment` prove theorems over all runs, `FleetCalls` tells each call by the
  rows before and after it. `Policy` and `Calendar` hold the schedule and date
  rules, `EnvironmentHealth` the comparison of inspections and the stability gate.
- **Host agents.** `AgentSpec` makes every durable write, command and request of the agents one
  step, with a crash, a power cycle, a lost answer or a late request possible between any two;
  `AgentSafety` is one agent against the fleet, `AgentEveryRun` what three agents guarantee in every
  run, `AgentOutcomes` that every result they report is true, `AgentProgress` where an undisturbed
  agent gets, `AgentTheorems` what also needs the fleet to know the boot session of a rebooting host, and
  `AgentLateReport` shows what a stale report can do.
- **Backup replay.** `BackupReplay` is the journal that stops and replays backups around a reboot;
  `BackupHistory` states its crash safety over whole traces of commands and durable writes.
- **OS-update controllers.** `OsJournal` is the compare-and-set write of the shared journal;
  `OsRunSpec`, `OsRunSafety` and `OsRunTheorems` are two crash-prone controllers under that journal;
  `OsRollback` proves that a failed upgrade is restored before the host returns to service, `OsProgress`
  where an undisturbed or failing controller gets;
  `OsRefinement` proves that their journal is the one `OsJournal` writes;
  `LogRepair` holds the log comparison, the import batches, the catch-up windows and the pruning of
  backups.
- **BLE lease.** `LoockitLease` (module `LeaseServer`) and the history of its writes.
- **Backup pins.** `TieredPins` protects new recovery pins before it releases old ones.
- **Recording matcher.** `RecordingMatcher` holds the title comparison and the reservation loop.

Where the source changes state step by step the model is a class or a method with loops, proved
against a specification on values. Crash safety appears in two forms: as step machines over values
where several processes interleave (agents, controllers, publication), and as objects whose
primitive commands and durable writes each require and keep a `Durable()` invariant (backup replay,
pins), so that it holds wherever a run is cut off.

Assumptions shared by the theorems: identifiers that the source draws at random are fresh numbers;
a call of the durable object is atomic up to its first network request, and a durable write replaces
its file at once; Japan time is UTC plus nine hours; clocks, inspections, replies and the choices of
other parties are arbitrary unless a theorem names a nondecreasing clock. In the pins model others may
protect, release and delete snapshots at any time; the claims about standing protections are stated
for runs in which nobody else lifts one (`lifted`), the claims about the program's own releases and
about the listing before a prune for all runs.

One property fails in the code as it is, and the condition under which it holds is proved: two hosts
exclude each other as long as no healthy report of an ended boot session arrives while its host claims,
prepares or performs a reboot (`AgentTheorems.Timely`); every other request may be as late as it likes.
The report handler (`workers/maintenance-control/src/index.ts:271`) takes any healthy report of another
boot session for the recovery from the reboot. `AgentTheorems.LateKeepsIff` and
`AgentLateReport.ReportKeepsWorkIff` give the exact conditions for one late request, and
`AgentLateReport.StaleReportAdmitsSecondHost` a run in which two hosts are at work at once. What the
agents' own journals and the lock row guarantee holds in every run (`AgentEveryRun`).

Housekeeping prunes exactly when every recorded pin is protected (`TieredPins.Pbs.Housekeeping`). So a
daily run that stops between releasing a recorded pin and recording the new copy holds pruning back
until a daily run completes again or somebody protects the released pin
(`ansible/pbs/files/pbs-tiered.py:139-144`;
`TieredPins.Pbs.DailyThenHousekeeping`).

## Model

| member | source | states |
|---|---|---|
| Policy.NextMorning | workers/maintenance-control/src/policy.ts:40-43 | the default slot lies after now, at most two days ahead, at the host's own Japan-time hour |
| Policy.NextCandidate | workers/maintenance-control/src/index.ts:122-128 | the next slot tried is at least one reboot gap later and, for a PVE host, in the evening |
| Policy.CarrySlot | workers/maintenance-control/src/index.ts:155-157 | a carried approval respects the lead time and starts at 20:00 or later |
| Policy.DueIsInsideTheWindow | workers/maintenance-control/src/policy.ts:72-79 | a PVE claim the policy admits lies between its target and midnight of the same Japan-time day, 20:00 to 23:59 |
| Policy.PostponedIsTheNextDay | workers/maintenance-control/src/index.ts:495-497 | a deferred reboot keeps its Japan-time minute and lies on the day after the later of its own day and today |
| Calendar.DateOf | workers/maintenance-control/src/policy.ts:52-54 | every day of the years 0 to 9999 is the day number of one real Gregorian date |
| Calendar.MakeDayIsInjective | workers/maintenance-control/src/policy.ts:62-67 | two real dates with the same day number are the same date |
| Calendar.ParseJstIsExact | workers/maintenance-control/src/policy.ts:62-71 | the parser returns t if and only if t is a whole minute, the text is the formatted t, and t is within the lead time and 90 days: the round trip in both directions |
| Calendar.ParseJstNamesARealDate | workers/maintenance-control/src/policy.ts:62-71 | an accepted text names a real date and time of day although the underlying parse rolls days over |
| Calendar.ParseJstAcceptsEveryRealDate | workers/maintenance-control/src/policy.ts:62-71 | every well-shaped text of a real date and time within the limits is accepted as the instant it names |
| Calendar.SlicesOfTheText | workers/maintenance-control/src/policy.ts:37-54 | the hour cut out of the formatted text and the date joined with another hour agree with fixed +9h arithmetic |
| Calendar.CountsFromTheEpoch | workers/maintenance-control/src/policy.ts:37-54 | the day count and the Japan-time offset are those of the epoch |
| EnvironmentHealth.AlarmProblems | workers/maintenance-control/src/environment-health.ts:98-106 | reports exactly the alarms that block, compared with the baseline |
| EnvironmentHealth.CurrentSignalProblems | workers/maintenance-control/src/environment-health.ts:107-111 | reports exactly the bad values, stale samples and stopped scrapes |
| EnvironmentHealth.LostSignals | workers/maintenance-control/src/environment-health.ts:112-118 | reports exactly the baseline signals that vanished or stopped being 1 |
| EnvironmentHealth.HealthProblems | workers/maintenance-control/src/environment-health.ts:94-122 | the list is empty if and only if the inspection is healthy against the baseline, and holds exactly the reportable problems |
| EnvironmentHealth.HealthyIff | workers/maintenance-control/src/environment-health.ts:94-122 | an inspection is healthy if and only if it is two minutes old at most and readable, no blocking alarm is critical or newly fires, every signal is finite and fresh, every scrape up, and nothing of the baseline is lost |
| EnvironmentHealth.ObserveGate | workers/maintenance-control/src/environment-health.ts:123-149 | the field-by-field observer computes the gate and verdict of the observation step |
| EnvironmentHealth.Observed | workers/maintenance-control/src/environment-health.ts:123-149 | a passed verdict needs a completed step and no operator hold; an operation hold is never touched; only four fields change |
| EnvironmentHealth.StableStart | workers/maintenance-control/src/environment-health.ts:126-141 | the start of the longest problem-free suffix with gaps of at most 120 s; exactly the later starts are stable too |
| EnvironmentHealth.WindowFields | workers/maintenance-control/src/environment-health.ts:126-141 | after completion the two incremental fields are the start of the longest stable suffix and the last observation time |
| EnvironmentHealth.BeforeCompletion | workers/maintenance-control/src/environment-health.ts:129-137 | before completion the gate latches if and only if some observation came an hour or more after the start |
| EnvironmentHealth.NeverPassedBeforeCompletion | workers/maintenance-control/src/environment-health.ts:129-137 | no observation passes a gate whose host step is not complete |
| EnvironmentHealth.PassedIffStableWindow | workers/maintenance-control/src/environment-health.ts:123-149 | for every observation sequence with nondecreasing times the verdict is passed if and only if the step completed before any hour-late observation and some stable suffix spans ten minutes, whatever timeout holds happened |
| EnvironmentHealth.LatchedStays | workers/maintenance-control/src/environment-health.ts:124 | no observation sequence changes a gate held for anything but a timeout |
| FleetObject.MaintenanceFleet.ConflictingReboot | workers/maintenance-control/src/index.ts:109-121 | answers the first other host, in the fixed order, whose active target or recorded start is nearer than the gap; none if and only if there is no conflict |
| FleetObject.MaintenanceFleet.AvailableTarget | workers/maintenance-control/src/index.ts:122-128 | the loop ends, on the first free slot of the specification |
| FleetObject.MaintenanceFleet.AlignLegacySlot | workers/maintenance-control/src/index.ts:133-151 | moves a daytime or unmarked PVE plan into the evening under a new revision, to be approved again |
| FleetObject.MaintenanceFleet.CarryApprovedReboot | workers/maintenance-control/src/index.ts:152-163 | carries an overdue approval to the next free evening, approval kept |
| FleetObject.MaintenanceFleet.EnvironmentReady | workers/maintenance-control/src/index.ts:47-50 | computes the condition under which a PVE claim or a package update may be granted, which FleetEnvironment tells by the last observation |
| FleetObject.MaintenanceFleet.FinishEnvironmentStep | workers/maintenance-control/src/index.ts:71-78 | completes the matching gate once and restarts its stability window |
| FleetObject.MaintenanceFleet.Report | workers/maintenance-control/src/index.ts:266-288 | the whole new state after a report: recovery, obsolete plans, realignment and carry-over |
| FleetObject.MaintenanceFleet.AfterSnapshot | workers/maintenance-control/src/index.ts:266-281 | a healthy report of another boot session completes the open gate or ends the reboot; one that needs no reboot, or of another session, ends a waiting plan |
| FleetObject.MaintenanceFleet.OthersExclude | workers/maintenance-control/src/index.ts:350-352 | the loop over the other hosts finds exactly those running, failed or started within the gap |
| FleetObject.MaintenanceFleet.AnyBusy | workers/maintenance-control/src/index.ts:366 | the loop finds exactly the running or failed hosts |
| FleetObject.MaintenanceFleet.Claim | workers/maintenance-control/src/index.ts:344-361 | grants a fresh execution, or changes nothing |
| FleetObject.MaintenanceFleet.ClaimUpdate | workers/maintenance-control/src/index.ts:362-372 | takes the lock row and opens the update gate, or changes nothing |
| FleetObject.MaintenanceFleet.UpdateResult | workers/maintenance-control/src/index.ts:373-396 | the whole new state for complete, blocked and failed updates; repeated and mismatched results |
| FleetObject.MaintenanceFleet.RebootResult | workers/maintenance-control/src/index.ts:397-434 | the whole new state for complete, blocked and failed reboots; repeated and mismatched results |
| FleetObject.MaintenanceFleet.Recover | workers/maintenance-control/src/index.ts:435-453 | lifts a verified hold and the host's lock row, or refuses without a change |
| FleetObject.MaintenanceFleet.Observe | workers/maintenance-control/src/index.ts:79-108 | stores the inspection, moves the gate, and releases what a passed gate held |
| FleetObject.MaintenanceFleet.Release | workers/maintenance-control/src/index.ts:79-97 | a passed gate takes with it exactly the lock row or the running plan of its own execution |
| FleetObject.MaintenanceFleet.Tick | workers/maintenance-control/src/index.ts:299-328 | aligns, creates and rolls over one host's plan |
| FleetObject.MaintenanceFleet.Requested | workers/maintenance-control/src/index.ts:492-512 | the plan each button asks for, and exactly the requests that are refused |
| FleetObject.MaintenanceFleet.ApplyInteraction | workers/maintenance-control/src/index.ts:484-518 | every button: refused leaves the tables alone, repeated is ignored, accepted renews the revision |
| FleetObject.MaintenanceFleet.PublicationAccepted | workers/maintenance-control/src/index.ts:197-202 | the revision counts as notified only while it is still the plan's |
| FleetObject.MaintenanceFleet.Handle | workers/maintenance-control/src/index.ts:266-522 | every request computes the specified new tables and keeps them in agreement |
| FleetSpec.AvailableTarget | workers/maintenance-control/src/index.ts:122-128 | for any state: a later or equal, conflict-free target that keeps the PVE evening hour; the search terminates |
| FleetSpec.ConflictsMeansSomeHost | workers/maintenance-control/src/index.ts:109-121 | a conflict means some other host occupies the target |
| FleetCoupling.GateAgreesWithRows | workers/maintenance-control/src/index.ts:344-453 | an update gate exists exactly when the lock row has its host and execution, a reboot gate exactly when that PVE plan is busy with its execution, and a failure holds the gate for an operator |
| FleetCoupling.OpenGateStopsEveryClaim | workers/maintenance-control/src/index.ts:344-372 | while a gate is open nobody is granted anything, not even the VM, whose claim skips the gate check |
| FleetCoupling.ApplyKeepsCoupling | workers/maintenance-control/src/index.ts:79-522 | every call keeps the agreement of plans, lock row and gate |
| FleetCoupling.EveryRunIsCoupled | workers/maintenance-control/src/index.ts:344-453 | from empty tables, every run keeps running or failed hosts plus lock rows at most one, and the gate in agreement |
| FleetHistory.EveryPlanChange | workers/maintenance-control/src/index.ts:133-163 | every call changes every plan in one of five ways: not at all, removal, claim, publication, or a fresh unshown revision at the old or a free slot |
| FleetHistory.RowChange | workers/maintenance-control/src/index.ts:266-453 | every call changes a host's row in one stated way: the snapshot only by its own report, the recorded start only by its own granted claim, other calls only the plan |
| FleetHistory.OnlyOwnRow | workers/maintenance-control/src/index.ts:266-453 | a call about one host leaves the rows of the others alone |
| FleetHistory.IdsGrow | workers/maintenance-control/src/index.ts:354-367 | identifiers are never handed out twice |
| FleetSeparation.EveryRunIsSeparated | workers/maintenance-control/src/index.ts:109-132 | in every reachable state the active targets of two hosts differ by at least an hour |
| FleetSeparation.AvailableTargetIsFirstFree | workers/maintenance-control/src/index.ts:122-128 | the automatic slot is the first candidate that is free |
| FleetSeparation.StartsComeFromClaims | workers/maintenance-control/src/index.ts:353-357 | a recorded start appears with a granted claim and never changes otherwise |
| FleetSeparation.LastStartCoversClaims | workers/maintenance-control/src/index.ts:350-357 | under a nondecreasing clock the recorded start is never older than a granted claim |
| FleetSeparation.ClaimsAreAnHourApart | workers/maintenance-control/src/index.ts:350-357 | in every run claims on different hosts start at least an hour apart |
| FleetApproval.ApprovedStep | workers/maintenance-control/src/index.ts:152-163 | an approved PVE plan is freshly approved, or was approved and only published, claimed or carried over |
| FleetApproval.EveryApprovedPlanWasApproved | workers/maintenance-control/src/index.ts:484-522 | every scheduled or running PVE plan has an operator approval after which only publications, its claim and automatic carry-overs changed it |
| FleetApproval.PveStartsAreApprovedAndTimely | workers/maintenance-control/src/index.ts:344-361 | every PVE claim has such an approval and falls between its target and midnight, at 20:00 or later |
| FleetPublication.OtherKeeps | workers/maintenance-control/src/index.ts:190-203 | any call between the two halves of a publication keeps shown plans shown |
| FleetPublication.NotifiedRevisionsWereShown | workers/maintenance-control/src/index.ts:190-203 | for every interleaving, a notified revision was shown by an accepted message exactly as it stands |
| FleetPublication.NothingUnshownIsClaimed | workers/maintenance-control/src/index.ts:344-361 | no claim runs a target that an accepted message did not show |
| FleetRelease.EveryGateChange | workers/maintenance-control/src/index.ts:71-108 | every call changes the gate by opening, completing, holding or observing it |
| FleetRelease.EveryGateIsMeaningful | workers/maintenance-control/src/index.ts:79-106 | in every run the gate's fields tell the completing event and the start of an unbroken good window |
| FleetRelease.ReleaseNeedsCompletionAndStability | workers/maintenance-control/src/index.ts:71-108 | observation releases an execution only after a healthy report of another boot session, or the update's own result, and a ten-minute window in which every observation also had a healthy report at most 120 s old |
| FleetRelease.ObservationNeverLiftsAnOperationHold | workers/maintenance-control/src/index.ts:79-108 | no sequence of observations clears a hold with cause operation, its lock row or its plan |
| FleetEnvironment.UpdateGrantedIff | workers/maintenance-control/src/index.ts:47-50 | in every run a package update is granted if and only if a PVE host asks that last reported healthy within two minutes, the last observation is at most 120 s old, has no error, no critical blocking alarm, only finite, fresh signals and scrapes that are up, and nothing is under way or watched |
| FleetEnvironment.RebootGrantedIff | workers/maintenance-control/src/index.ts:344-361 | in every run a reboot is granted if and only if the plan is due, the last report asks for it, no update is under way, no other host is at work or started within the hour, and for a PVE host the last observation found nothing and no gate is open |
| FleetCalls.NextMorningIsFirst | workers/maintenance-control/src/policy.ts:40-43 | the default slot is the earliest at the host's hour that keeps the lead time or, for the VM, lies on a later day |
| FleetCalls.NextCandidateIsFirst | workers/maintenance-control/src/index.ts:122-128 | the next candidate is the earliest instant a gap later that suits the host |
| FleetCalls.CarrySlotIsFirst | workers/maintenance-control/src/index.ts:152-157 | a carried approval gets the earliest evening minute that keeps the lead time |
| FleetCalls.LegacyIsAligned | workers/maintenance-control/src/index.ts:133-151 | exactly the waiting PVE plans that are not evening plans are realigned, and what becomes of each field |
| FleetCalls.MissedIsCarried | workers/maintenance-control/src/index.ts:152-163 | exactly the approved PVE plans whose Japan-time day is over are carried, still approved and unshown |
| FleetCalls.ReportMeans | workers/maintenance-control/src/index.ts:266-288 | a report clears a plan whose reboot happened or is not needed, completes a watched step of its host, leaves no misplaced or missed plan, and changes nothing else |
| FleetCalls.UpdateResultMeans | workers/maintenance-control/src/index.ts:373-396 | from every coupled state a complete result keeps the row and completes the gate, a failed one holds both, a blocked one drops both; repeated results change nothing, foreign ones are refused |
| FleetCalls.FirstUpdateResultStands | workers/maintenance-control/src/index.ts:373-380 | whatever is reported again for an execution, the first update result stands |
| FleetCalls.RebootResultMeans | workers/maintenance-control/src/index.ts:397-434 | complete drops the plan, blocked holds it, failed fails it, and what becomes of the gate; repeated results change nothing, foreign ones are refused |
| FleetCalls.FirstRebootResultStands | workers/maintenance-control/src/index.ts:397-404 | the first reboot result stands |
| FleetCalls.RecoverMeans | workers/maintenance-control/src/index.ts:435-453 | recovery is accepted if and only if the host reported healthy within two minutes and its gate, if any, is held under a healthy comparison; it ends the watch and the lock row and holds the plan |
| FleetCalls.ObservationMeans | workers/maintenance-control/src/index.ts:79-108 | an observation changes the gate only, or drops with a passed gate the row or running plan of its execution |
| FleetCalls.TickLeaves | workers/maintenance-control/src/index.ts:299-328 | after the tick no plan is misplaced or expired and a host that asked for a reboot within ten minutes has a plan |
| FleetCalls.TickRolls | workers/maintenance-control/src/index.ts:313-328 | an expired plan is carried if its approval can be, and proposed again otherwise |
| FleetCalls.ButtonMeans | workers/maintenance-control/src/index.ts:484-518 | a button is accepted if and only if it names the current revision of a waiting plan and what it asks for exists and, but for a hold, is free and in the evening; the plan is then as asked for, unshown |
| FleetCalls.ClaimMeans | workers/maintenance-control/src/index.ts:353-361 | a granted reboot writes a fresh execution, its start, and for a PVE host a gate with the inspection of that moment as the baseline |
| AgentSafety.HoldKept | ansible/host-maintenance/files/maintenance-agent.py:544-638 | a busy plan keeps its execution under every call but the host's report from another boot session, its own blocked or complete result, and an operator's recovery |
| AgentSafety.LockKept | ansible/host-maintenance/files/maintenance-agent.py:480-541 | the lock row keeps its execution under every call but its own blocked or complete result and an operator's recovery |
| AgentSafety.MoveKeepsSafe | ansible/host-maintenance/files/maintenance-agent.py:544-638 | every local step of an agent keeps journals, marker and physical work in agreement with the fleet; that the results tell the truth is AgentOutcomes.EveryRunTellsTruth |
| AgentSafety.RequestKeepsSafe | ansible/host-maintenance/files/maintenance-agent.py:544-638 | so does every request, answered, or with its answer lost |
| AgentTheorems.OthersStaySafe | ansible/host-maintenance/files/maintenance-agent.py:544-638 | calls of others, in time or late, leave a host's agreement with the fleet intact |
| AgentTheorems.GivenUpIsHarmless | ansible/host-maintenance/files/maintenance-agent.py:450-462 | a request its sender gave up cannot withdraw what that host is doing or may still do |
| AgentTheorems.LateKeepsIff | ansible/host-maintenance/files/maintenance-agent.py:450-462 | a request that arrives late, or more than once, keeps the invariant of all hosts if and only if it is no healthy report of an ended boot session, or its host does not claim, prepare or perform a reboot under a running plan |
| AgentEveryRun.EveryRunIsOrderly | ansible/host-maintenance/files/maintenance-agent.py:480-638 | in every run, with crashes, power cycles, lost answers and requests as late as they like anywhere: the agents' journals and markers are in order, package upgrades are locked, executions are spent once |
| AgentTheorems.EveryRunIsSafe | ansible/host-maintenance/files/maintenance-agent.py:480-638 | three agents and the fleet keep the whole invariant in every run in which no healthy report of an ended boot session arrives while its host claims, prepares or performs a reboot |
| AgentEveryRun.UpgradeBelongsToTheLock | ansible/host-maintenance/files/maintenance-agent.py:480-541 | in every run apt under way means the lock row names the host and the execution |
| AgentEveryRun.AtMostOneHostUpgrades | ansible/host-maintenance/files/maintenance-agent.py:480-541 | in every run no two hosts are inside a package upgrade at once |
| AgentTheorems.RebootBelongsToThePlan | ansible/host-maintenance/files/maintenance-agent.py:544-638 | a reboot under way means the host's plan is running or failed with that execution and boot session, in every run in which no healthy report of an ended boot session arrives while its host claims, prepares or performs a reboot |
| AgentTheorems.AtMostOneHostAtWork | ansible/host-maintenance/files/maintenance-agent.py:480-638 | no two hosts are ever inside a reboot or a package upgrade at once, in every run in which no healthy report of an ended boot session arrives while its host claims, prepares or performs a reboot |
| AgentLateReport.ReportKeepsHoldIff | workers/maintenance-control/src/index.ts:266-281 | a report leaves a running reboot held if and only if it is of the plan's own boot session or not healthy |
| AgentLateReport.ReportKeepsWorkIff | workers/maintenance-control/src/index.ts:266-281 | a report leaves the physical work of all hosts held if and only if it is not stale, or its host does not reboot, or that reboot was already reported failed |
| AgentLateReport.StaleReportAdmitsSecondHost | workers/maintenance-control/src/index.ts:266-281 | the code as it is does not exclude a stale healthy report: a run from empty tables in which one arrives a session late and two hosts end up at work at once |
| AgentEveryRun.ExecutionsActAtMostOnce | ansible/host-maintenance/files/maintenance-agent.py:480-638 | in every run each execution causes at most one reboot command and at most one apt run |
| AgentEveryRun.StoppedContainerIsOnRecord | ansible/host-maintenance/files/maintenance-agent.py:110-166 | in every run, at every crash point and on every failure path, a container the agent stopped and did not restart is marked in the durable journal |
| AgentEveryRun.RebootsOnlyWithTheContainerUp | ansible/host-maintenance/files/maintenance-agent.py:590-624 | in every run no reboot command is given while the marker is set or the container is down |
| AgentOutcomes.EveryRunTellsTruth | ansible/host-maintenance/files/maintenance-agent.py:480-638 | in every run every journaled, sent, late or accepted result of an execution is one that what happened to it allows: complete only after apt ended well or without a reboot, blocked only if nothing began, failed only if apt or the reboot command reported it |
| AgentOutcomes.UpgradeEndsObserved | ansible/host-maintenance/files/maintenance-agent.py:524-541 | in every run the lock row of an upgrade that began goes only with an observation from outside, and only after apt ended well |
| AgentOutcomes.FailedUpgradeMeansAptFailed | ansible/host-maintenance/files/maintenance-agent.py:529-535 | in every run a lock row is marked failed only if apt itself reported failure |
| AgentOutcomes.RebootEndsSeen | workers/maintenance-control/src/index.ts:266-281 | in every run the plan of a reboot that was commanded goes only with an observation or a healthy report of its host |
| AgentOutcomes.FailedRebootMeansCommandFailed | ansible/host-maintenance/files/maintenance-agent.py:617-638 | in every run a plan is failed only if the reboot command of its execution failed |
| AgentProgress.UpdateResultIsResent | ansible/host-maintenance/files/maintenance-agent.py:550-559 | an undelivered update result is sent again before anything else; accepted, it is forgotten unless it is a failure |
| AgentProgress.StoppedContainerIsRestored | ansible/host-maintenance/files/maintenance-agent.py:560-579 | a container stopped by an earlier process is started again first, and an undecided execution then ends as a refusal |
| AgentProgress.ReportThenClaim | ansible/host-maintenance/files/maintenance-agent.py:584-590 | the report tells the boot session, old journals go after it, and a reboot is claimed next |
| AgentProgress.GrantedReboots | ansible/host-maintenance/files/maintenance-agent.py:594-625 | a granted execution is journaled before its checks and still journaled when the reboot is commanded |
| AgentProgress.HandOverComesBack | ansible/host-maintenance/files/maintenance-agent.py:110-166 | the container is stopped and started while that is on record, and the checks are made again |
| AgentProgress.DeliveredIsForgotten | ansible/host-maintenance/files/maintenance-agent.py:605-638 | a delivered reboot result is forgotten unless it is a refusal with the container still on record |
| AgentProgress.GrantedUpgrades | ansible/host-maintenance/files/maintenance-agent.py:511-528 | a granted upgrade is journaled before its checks and begins after them; a failed check is blocked |
| AgentProgress.UpgradeIsReported | ansible/host-maintenance/files/maintenance-agent.py:524-541 | what apt reported is journaled, sent, and after success forgotten |
| BackupReplay.Pve.Save | ansible/host-maintenance/files/maintenance-agent.py:302-304 | the journal is replaced only by one in which every item lives on, itself or as its interrupted replay; every task asked to stop stays answered for |
| BackupReplay.Pve.Stop | ansible/host-maintenance/files/maintenance-agent.py:343-353 | a task is asked to stop only when the journal already holds its arguments and the request |
| BackupReplay.Pve.Submit | ansible/host-maintenance/files/maintenance-agent.py:429-438 | an item is submitted once, after the journal says so and its node was found ready, never while its reboot is pending in this boot session and unreleased |
| BackupReplay.Pve.Close | ansible/host-maintenance/files/maintenance-agent.py:378-380 | the journal is removed only when every item is done or failed |
| BackupReplay.Pve.Release | ansible/host-maintenance/files/maintenance-agent.py:307-312 | releases exactly the journal of the given execution |
| BackupReplay.Pve.FinishReplay | ansible/host-maintenance/files/maintenance-agent.py:386-393 | an item is completed or failed exactly as its replay's stopped task was, and waits while it is active |
| BackupReplay.Pve.Reconcile | ansible/host-maintenance/files/maintenance-agent.py:394-410 | after a lost reply a listed task that asks for the same becomes the replay; unresolved only if none does; nothing is submitted |
| BackupReplay.Pve.FindReplay | ansible/host-maintenance/files/maintenance-agent.py:402-409 | the search through the history: the backup found asks for the same, and none is found only if none does |
| BackupReplay.SignatureCounts | ansible/host-maintenance/files/maintenance-agent.py:291-294 | two requests are the same exactly when they have the same options, quiet aside, each as often |
| BackupReplay.Pve.SubmitItem | ansible/host-maintenance/files/maintenance-agent.py:411-439 | a waiting item goes on only once its original task stopped: completed if that succeeded, else journaled as submitting, with the time, and then submitted, once; it stays only while that task runs or something is in the way |
| BackupReplay.Pve.ReplayItem | ansible/host-maintenance/files/maintenance-agent.py:383-439 | a completed step takes the item on by its task: an item with a stopped replay is completed if that succeeded and failed otherwise; a submitting one runs as a listed task with equal options, or no listed task has them; a pending one with a stopped task is completed or submitted unless something is in the way |
| BackupReplay.Pve.ReplayItems | ansible/host-maintenance/files/maintenance-agent.py:372-377 | a run that nothing hinders takes every item one step on |
| BackupReplay.Pve.ReplayBackups | ansible/host-maintenance/files/maintenance-agent.py:360-380 | with the reboot pending in this boot session and unreleased nothing happens; else a passed health check and an inventory come first, and a run that nothing hinders takes every item one step on and closes the journal if and only if all are over |
| BackupReplay.Pve.Capture | ansible/host-maintenance/files/maintenance-agent.py:327-332 | the new items are exactly the active backups not yet journaled, waiting, with the node and arguments of their tasks |
| BackupReplay.Pve.MergedLivesOn | ansible/host-maintenance/files/maintenance-agent.py:333-338 | an item replaced by its interrupted replay is represented by it with the same request |
| BackupReplay.Pve.RequestStop | ansible/host-maintenance/files/maintenance-agent.py:343-353 | the stop request is durable before the command, which the request is followed by |
| BackupReplay.Pve.OpenQueue | ansible/host-maintenance/files/maintenance-agent.py:317-323 | every submitting item is first looked for in the history; stop requests are kept within the execution and dropped otherwise |
| BackupReplay.Pve.ReconcileSubmitted | ansible/host-maintenance/files/maintenance-agent.py:318-320 | every submitting item is looked for where and since when it was submitted, and runs as a task found or none of those listed asks for the same; nothing else changes |
| BackupReplay.Pve.Inventory | ansible/host-maintenance/files/maintenance-agent.py:325-341 | the journal names every active backup, and a task new to it is answered for by its own item only |
| BackupReplay.Pve.StopAll | ansible/host-maintenance/files/maintenance-agent.py:343-353 | every active backup is journaled to be stopped, and newly requested ones were asked to |
| BackupReplay.Pve.PrepareBackups | ansible/host-maintenance/files/maintenance-agent.py:315-357 | submits nothing; on success the last inventory was empty and the journal holds all replays back for this execution; it gives up unhindered only after two minutes with backups that are journaled to be stopped still running |
| BackupHistory.CutIsLegal | ansible/host-maintenance/files/maintenance-agent.py:302-439 | cut off anywhere, by a crash of the agent or the host, a legal trace is a legal trace |
| BackupHistory.SubmittedAtMostOnce | ansible/host-maintenance/files/maintenance-agent.py:411-439 | over every legal trace no item is submitted twice |
| BackupHistory.SubmissionIsAnnounced | ansible/host-maintenance/files/maintenance-agent.py:429-438 | over every legal trace a submission was announced by the journal that still stands, of an earlier boot session or released |
| BackupHistory.SubmissionFollowsACheck | ansible/host-maintenance/files/maintenance-agent.py:418-428 | over every legal trace the item's node was found ready before its submission, in the same boot session and after the submission before |
| BackupHistory.StopFollowsItsRequest | ansible/host-maintenance/files/maintenance-agent.py:343-348 | over every legal trace a backup is asked to stop once per request, which the last write of the journal made |
| BackupHistory.JournaledItemIsAnswered | ansible/host-maintenance/files/maintenance-agent.py:333-380 | over every legal trace an item once journaled is answered for, by itself or by the replay it handed over to, with an equal request, until that one is done or failed and the journal closed |
| BackupHistory.StoppedBackupIsAnswered | ansible/host-maintenance/files/maintenance-agent.py:343-353 | so is every backup that was asked to stop |
| OsJournal.LiveRequestIsUnapplied | observability/reventer/os-update/controller.py:147-157 | a request that can still commit brings an entry no version ever had: no write is applied twice |
| OsJournal.CommitKeepsHistory | observability/reventer/os-update/controller.py:138-157 | a late commit keeps the history sound |
| OsJournal.MovedSince | observability/reventer/os-update/controller.py:150-153 | an own entry found in the journal was moved there exactly once, from the state it replaced |
| OsJournal.AppliedIsSettled | observability/reventer/os-update/controller.py:150-157 | once an entry is applied none of its requests can commit |
| OsJournal.Controller.Save | observability/reventer/os-update/controller.py:138-162 | a save that returns moved the journal exactly once from the caller's last state to the new one, lost no unrelated key, and can never do so again; the new state has the changes over the old state and the time stamp, key by key; its requests come ten seconds or more after the last write; one that raises keeps the state, and ownership is reported changed only when the journal holds another entry, after which none of its requests can commit |
| OsJournal.Controller.Retry | observability/reventer/os-update/controller.py:143-162 | attempts go on until the entry is applied, another one is found, a failure is final, or five minutes would be over before the next |
| OsJournal.Controller.Attempt | observability/reventer/os-update/controller.py:145-157 | one round: an own write is recognised, a foreign journal is never overwritten |
| OsJournal.Controller.Begin | observability/reventer/os-update/controller.py:141-144 | two writes of a controller are at least ten seconds apart |
| OsRunSafety.SendKeepsSafe | observability/reventer/os-update/controller.py:138-162 | sending a write keeps the invariant of both controllers |
| OsRunSafety.CommitKeepsSafe | observability/reventer/os-update/controller.py:138-162 | so does its taking effect, at once or late |
| OsRunSafety.ReturnKeepsSafe | observability/reventer/os-update/controller.py:203-358 | so does its return, at every place it is called from |
| OsRunSafety.RaiseKeepsSafe | observability/reventer/os-update/controller.py:203-358 | and its failure, with the failure handlers that follow |
| OsRunTheorems.OwnerIsAlone | observability/reventer/os-update/controller.py:132-171 | an owner that waits for no write holds the current journal, and no request of anybody can change it |
| OsRunTheorems.MoveKeepsSafe | observability/reventer/os-update/controller.py:203-358 | every command, check and wait of a controller keeps the invariant |
| OsRunTheorems.EveryRunIsSafe | observability/reventer/os-update/controller.py:293-358 | from an unused journal every run of both controllers keeps the invariant, with crashes, restarts, lost replies, late commits and metadata edits |
| OsRunTheorems.OnlyTheTargetsPeerWrites | observability/reventer/os-update/controller.py:132-171 | while a maintenance is open only the controller whose peer is the target writes the journal |
| OsRunTheorems.IdleOnlyAfterValidation | observability/reventer/os-update/controller.py:312-323 | the journal returns to idle only after its owner upgraded the host and then validated it back into service |
| OsRunTheorems.UpgradeNeedsJournalAndBackup | observability/reventer/os-update/controller.py:203-315 | an upgrade is sent only with its phase journaled and its boot backup available |
| OsRunTheorems.OneUpgradePerAcquisition | observability/reventer/os-update/controller.py:310-315 | at most one upgrade is sent per acquisition |
| OsRunTheorems.ActivationFollowsCatchUp | observability/reventer/os-update/controller.py:214-267 | a host that is out of service or was restored is activated only after a finished catch-up that began no later than what it missed |
| OsRunTheorems.RestoredHostCatchesUpFirst | observability/reventer/os-update/controller.py:247-287 | the first activation after a rollback put the backup back follows a catch-up finished since then, also when the host had been activated before the rollback |
| OsRunTheorems.RecoveryPointStays | observability/reventer/os-update/controller.py:192-201 | from the upgrade to the end of a rollback the backup in the journal stays available |
| OsRunTheorems.NeverBothHostsOut | observability/reventer/os-update/controller.py:203-358 | the two hosts are never kept out of service at the same time |
| OsRollback.FailedUpgradeIsRestoredFirst | observability/reventer/os-update/controller.py:325-358 | in every run a host that was told to upgrade is activated only after it was restored since, or by the owner of that upgrade under a journal that says it validates |
| OsProgress.UndisturbedRunUpdates | observability/reventer/os-update/controller.py:293-323 | a process that finds the journal free and that nothing disturbs sends exactly prepare, upgrade and activate, in this order, and leaves the journal free with the backup and a gap of five seconds before |
| OsProgress.InterruptedMaintenanceIsEnded | observability/reventer/os-update/controller.py:295-310 | a process that finds an interrupted maintenance of its peer sends restore and activate if an upgrade may have begun, activate otherwise, and leaves the journal to an operator |
| OsProgress.UndisturbedEnds | observability/reventer/os-update/controller.py:269-323 | from every stage of an update, a rollback or a return to service the process sends exactly what is left, in order, and ends |
| OsProgress.StagesFollow | observability/reventer/os-update/controller.py:203-358 | every way is gone through stage by stage; a volume that exists is not created again, nothing is caught up where no gap began |
| OsProgress.FailedUpdateEnds | observability/reventer/os-update/controller.py:325-358 | an update that fails at any stage, its failure journaled or not, ends with restore and activate if its journal can restore, activate otherwise, and the journal left to an operator |
| OsProgress.FailureIsAnswered | observability/reventer/os-update/controller.py:325-358 | what every place of the program makes of a failure, which changes no journal |
| OsProgress.FailedRollbackIsMarked | observability/reventer/os-update/controller.py:335-343 | a rollback that fails inside an update marks the journal if it can and goes on to the storage |
| OsProgress.StorageNeedsOwnership | observability/reventer/os-update/controller.py:164-167 | the storage is started only by the owner of the journal |
| OsProgress.ChangedJournalStopsRollback | observability/reventer/os-update/controller.py:285-287 | a rollback that finds another journal does not validate |
| OsProgress.FoundJournalDecides | observability/reventer/os-update/controller.py:294-309 | what a process makes of each journal it can find; one that was blocked is left alone |
| OsProgress.FreeJournalIsAcquired | observability/reventer/os-update/controller.py:169-171 | an acquired journal holds nothing of what was before |
| OsRefinement.SendKeepsRelated | observability/reventer/os-update/controller.py:145-157 | a send of the run is a conditional write at the provider that names the current version and replaces the writer's own last state |
| OsRefinement.CommitKeepsRelated | observability/reventer/os-update/controller.py:138-157 | a write that takes effect in the run is one the provider accepts, at once or late, and the history stays sound |
| OsRefinement.EditKeepsRelated | observability/reventer/os-update/controller.py:145-157 | an edit of unrelated metadata is a new version that leaves the journal alone |
| OsRefinement.EveryRunIsAHistory | observability/reventer/os-update/controller.py:132-171 | for every run of two controllers the provider's versions, claims and requests are a sound history with the run's journal, writes and entries |
| OsRefinement.WritesAgree | observability/reventer/os-update/controller.py:145-157 | in every run a write can be sent, take effect and return if and only if the provider's versions say so |
| OsRefinement.NothingTakesEffectTwice | observability/reventer/os-update/controller.py:147-157 | in every run a write that can still take effect never did, and is not one that can already return |
| OsRefinement.EveryRunIsFresh | observability/reventer/os-update/controller.py:138-157 | in every run requests for one entry are repetitions of one write |
| LogRepair.MissingLogs | observability/reventer/os-update/controller.py:61-67 | the multiset difference by record key, as a subsequence of the source |
| LogRepair.SameKeyIff | observability/reventer/os-update/controller.py:59 | two records count as the same if and only if they agree on every field but the stream identifier |
| LogRepair.ImportTakesTheMaximum | observability/reventer/os-update/controller.py:61-67 | importing it makes each count the maximum of both sides |
| LogRepair.NothingMissingIffCovered | observability/reventer/os-update/controller.py:239 | nothing is missing if and only if the destination has every source record often enough |
| LogRepair.RerunFindsNothing | observability/reventer/os-update/controller.py:236-239 | a comparison after the import finds nothing, whatever else arrived |
| LogRepair.GroupBatches | observability/reventer/os-update/controller.py:75-83 | the batches of one group: uniform, bounded, closed only for cause, in order and complete unless a row is too long |
| LogRepair.LogBatches | observability/reventer/os-update/controller.py:69-83 | succeeds if and only if every row fits alone; the batches of each field set carry exactly its rows in order, within both limits; on failure a prefix |
| LogRepair.FitsMeans | observability/reventer/os-update/controller.py:69-83 | a batch has one to ten thousand rows, all with the same stream fields |
| LogRepair.BatchesPartitionTheRows | observability/reventer/os-update/controller.py:69-83 | every prepared row is in exactly one batch |
| LogRepair.ImportedBatchesRepair | observability/reventer/os-update/controller.py:235-237 | comparing, batching and importing one window leaves the maximum of both sides |
| LogRepair.Windows | observability/reventer/os-update/controller.py:214-218 | the windows tile the gap, each full but perhaps the last; refused if and only if it exceeds four hours |
| LogRepair.EveryInstantInOneWindow | observability/reventer/os-update/controller.py:217-249 | every instant of the gap lies in exactly one window |
| LogRepair.WindowsAreShort | observability/reventer/os-update/controller.py:217-218 | no window is longer than five minutes |
| LogRepair.PruneBackups | observability/reventer/os-update/controller.py:192-201 | deletes exactly the managed, verified, available backups that are neither the latest of their target nor the journal's recovery point |
| LogRepair.PrunedIff | observability/reventer/os-update/controller.py:192-201 | pruned are exactly the own verified available backups that are not the journal's and have a successor of the same target |
| LogRepair.LatestSurvives | observability/reventer/os-update/controller.py:192-201 | every target with a verified backup keeps its latest one |
| LeaseServer.LoockitLease.Operate | workers/maintenance-control/src/loockit-lease.ts:18-43 | GET, POST and PUT: the stored row and the status for every request, refused ones change nothing |
| LeaseServer.LeaseSummarizesWrites | workers/maintenance-control/src/loockit-lease.ts:32-41 | after any history the version counts the successful writes, the transitions the holder changes, and the acquisition is the first write of the holder's current term |
| LeaseServer.DifferentHoldersAreApart | workers/maintenance-control/src/loockit-lease.ts:30-31 | under a nondecreasing clock writes of different identities are at least 15 s apart |
| LeaseServer.StoredPutsNameDifferentVersions | workers/maintenance-control/src/loockit-lease.ts:26-28 | at most one PUT succeeds per version |
| LeaseServer.StoredIff | workers/maintenance-control/src/loockit-lease.ts:18-31 | after any history a write is stored if and only if it is well-formed by its own holder, creates the first lease or names the latest version, and the last writer is the same or its fifteen seconds are over |
| LeaseServer.TermStart | workers/maintenance-control/src/loockit-lease.ts:32-39 | the start of the unbroken run of writes by the last writer |
| TieredPins.SelectVerified | ansible/pbs/files/pbs-tiered.py:49-58 | one latest, complete, verified snapshot per group; refused if and only if some group has none of the last 26 hours |
| TieredPins.RecentIff | ansible/pbs/files/pbs-tiered.py:49-58 | recent means complete, verified, of the group's name and at most 26 hours old |
| TieredPins.RequireCopies | ansible/pbs/files/pbs-tiered.py:61-64 | passes if and only if every choice is complete in the archive |
| TieredPins.Pbs.Api | ansible/pbs/files/pbs-tiered.py:83-90 | a pin is released only when recorded and while a protected, confirmed representative of every group is among the kept keys |
| TieredPins.Pbs.SetProtected | ansible/pbs/files/pbs-tiered.py:83-103 | the retry loop ends, and fails only when refused or after fifteen minutes; other protections stand |
| TieredPins.Pbs.Save | ansible/pbs/files/pbs-tiered.py:75-80 | the durable state never records a pin the program did not set, nor an incomplete copy |
| TieredPins.Pbs.CoverSuffices | ansible/pbs/files/pbs-tiered.py:117-122 | protected and confirmed representatives of every group cover them all |
| TieredPins.Pbs.ChosenRepresent | ansible/pbs/files/pbs-tiered.py:156-160 | verified choices with complete archive copies represent every group |
| TieredPins.Pbs.ProtectChosen | ansible/pbs/files/pbs-tiered.py:106-116 | every choice is protected, nothing loses protection meanwhile, and exactly the choices that were not protected yet are recorded as the program's own |
| TieredPins.Pbs.ReleaseOthers | ansible/pbs/files/pbs-tiered.py:117-122 | exactly the recorded pins that are not choices are dropped, those still present after their release, and no other release is commanded; the choices stayed protected |
| TieredPins.Pbs.UpdatePins | ansible/pbs/files/pbs-tiered.py:106-122 | old pins go only after all new ones stand; the record ends as the old and new own pins that are choices |
| TieredPins.Pbs.Housekeeping | ansible/pbs/files/pbs-tiered.py:134-146 | prune starts if and only if a copy is recorded and every recorded key is protected in the listing just made, which then shows every configured group with a protected snapshot confirmed in the archive; never while one of them is unprotected and nobody protects it |
| TieredPins.Pbs.DailyThenHousekeeping | ansible/pbs/files/pbs-tiered.py:149-166 | if a daily run leaves a recorded copy that names a pin it released, it failed and pruned nothing, and the housekeeping after it refuses too as long as nobody else protects a snapshot |
| TieredPins.Pbs.PinCopies | ansible/pbs/files/pbs-tiered.py:161-165 | the recorded copy is the old one or the new one, the new one when it succeeds; recorded with a time of the run; no pin of the new copy is released, and a released pin stays unprotected unless somebody else sets it |
| TieredPins.Pbs.CopyVerified | ansible/pbs/files/pbs-tiered.py:149-160 | the result holds, for every group, the latest snapshot the listing showed verified, confirmed in the archive |
| TieredPins.Pbs.Daily | ansible/pbs/files/pbs-tiered.py:149-166 | the daily run keeps the durable invariant wherever it stops; a completed one leaves a confirmed snapshot of every group recorded, no other pin, and one prune; what it released stays unprotected unless somebody else protects it; verification and copy ran in this order; a job that does not pull verified snapshots from the local store, or removes any, stops it before anything changes |
| RecordingMatcher.SuffixLen | docker/annict-rec-sync/sync.py:136-143 | the cell of the table: a shared block ends there |
| RecordingMatcher.BlockFitsSuffix | docker/annict-rec-sync/sync.py:136-143 | no shared block ending there is longer |
| RecordingMatcher.NextRow | docker/annict-rec-sync/sync.py:136-143 | one row of the table from the row above, with the best so far |
| RecordingMatcher.LongestCommonSubstringLen | docker/annict-rec-sync/sync.py:130-144 | exactly the maximum length of a contiguous block common to both strings |
| RecordingMatcher.TitleMatches | docker/annict-rec-sync/sync.py:147-160 | true if and only if both titles are non-empty and share a block of the required length, or the whole short title |
| RecordingMatcher.MatchProgram | docker/annict-rec-sync/sync.py:333-343 | the first of the programs nearest to the time within the tolerance, if there is one |
| RecordingMatcher.ConfirmedIff | docker/annict-rec-sync/sync.py:400-457 | a channel confirms a program if and only if it is the nearest of one of its broadcasts, near enough, with a matching title |
| RecordingMatcher.GroupByChannel | docker/annict-rec-sync/sync.py:404-420 | each channel's broadcasts in order |
| RecordingMatcher.SortChannels | docker/annict-rec-sync/sync.py:440 | strictly ordered by priority, then identifier |
| RecordingMatcher.TerrestrialThenBs | docker/annict-rec-sync/sync.py:163-173 | terrestrial channels come before BS and both before all others |
| RecordingMatcher.SmallerOfItsKind | docker/annict-rec-sync/sync.py:440 | within each of the three the smaller number comes first |
| RecordingMatcher.ChooseChannel | docker/annict-rec-sync/sync.py:440-457 | the first channel in order with a confirmed broadcast, with what it confirms |
| RecordingMatcher.FirstConfirmingIsChosen | docker/annict-rec-sync/sync.py:438-457 | that channel is the least of all confirming ones |
| RecordingMatcher.ReserveAll | docker/annict-rec-sync/sync.py:459-471 | reserves exactly the confirmed programs not reserved yet, each once |
| RecordingMatcher.SyncWork | docker/annict-rec-sync/sync.py:400-472 | a work's reservations all come from its least confirming channel, and none is repeated |
| RecordingMatcher.ReservedIff | docker/annict-rec-sync/sync.py:400-472 | a work's reservations told by its broadcasts, schedules and titles: nothing if it can be streamed or no channel has it, else all its programs on the preferred channel not reserved yet |
| RecordingMatcher.Sync | docker/annict-rec-sync/sync.py:400-472 | over the whole run no program is reserved twice or when it already was, and each work is served in turn |

## Left out

- Message wording, buttons, the date-picker view, advance notices, reminders, completion notices and
  the fields that serve only them (messageId, lastReminder, advanceNotice, reason, defaultSlot, and the
  update fingerprint).
- Signature, token and TLS checks and the worker's route filter; the lease model is restricted to the
  GET, POST and PUT it admits.
- The parsing of Grafana, PromQL and Prometheus answers; an inspection is taken as given.
- FleetObject.MaintenanceFleet.Tick: one host per call; the loop over the hosts captures its clock once,
  so a call may carry an older clock than the calls around it, which no theorem but the clocked ones excludes.
- FleetObject.MaintenanceFleet.Observe: gates stored before holds had a cause keep their branch, but no run
  from empty tables reaches it.
- FleetCalls.ObservationMeans: not about such gates.
- AgentTheorems.EveryRunIsSafe: stated for runs in which no healthy report of an ended boot session arrives while
  its host claims, prepares or performs a reboot; without that it is false, as
  AgentLateReport.StaleReportAdmitsSecondHost shows. RebootBelongsToThePlan and AtMostOneHostAtWork are stated for
  the same runs.
- AgentEveryRun.EveryRunIsOrderly: the operator's --recover is not a step; the fleet's own recover is part of the
  coupling theorems.
- AgentSpec: the agent is a step machine on values, not a class, because its steps interleave with crashes
  and other hosts; the checks before a reboot are one nondeterministic choice.
- BackupReplay.Pve.Reconcile: that a task found in the history really is the replay, and not a scheduled
  backup that asks for the same, is not claimed by the code either; the theorem is about equal requests.
- BackupReplay.Pve.SubmitItem: the checks for other running backups and for the node's storage are one
  nondeterministic answer, recorded when it is yes.
- BackupReplay.Pve.PrepareBackups: the parsing of a task's log line into arguments is taken as given.
- OsJournal.Controller.Save: other writers are assumed to write entries that differ from every earlier one, as
  owner and time stamp make them; for two controllers OsRefinement.EveryRunIsAHistory proves it. Requests are
  assumed to be refused once the version they name is gone.
- OsRunSpec: the two controllers are a step machine on values, not classes, because their steps interleave with
  each other's, with crashes and with late writes; the checks and waits of a phase are one step that may fail.
- OsProgress.UndisturbedRunUpdates: undisturbed means that every step of the process succeeds and that nobody else
  takes one meanwhile; how long waits and retries last is not part of it.
- OsRunTheorems.EveryRunIsSafe: an operator's reset of the journal is not a step; commands reach a host while
  their sender waits for them, not later; one controller process runs per side; result texts, boot ids and
  the paid-recovery switch are left out.
- LogRepair.LogBatches: rows arrive prepared, with the names of their stream fields and the length of their
  line; the regular expressions of prepare_log and the JSON encoding are not modelled, and a record key is the
  record without its stream identifier.
- LogRepair.Windows: only the windows; the metric exports and the equality of metric counts are I/O.
- LeaseServer.LoockitLease.Operate: the resource version is a number, not its decimal text.
- Calendar.ParseJstIsExact: instants outside the years 0 to 9999 have no four-digit text and are refused.
- TieredPins.Pbs.Prune: which unprotected snapshots a prune removes is up to the prune job; garbage collection
  changes nothing here. The configured groups do not change between runs;
  the mount check and the process lock are not modelled.
- RecordingMatcher.TitleMatches: titles arrive normalised; the normalisation of the text is not modelled.
- RecordingMatcher.GroupByChannel: broadcasts arrive without rebroadcasts, out-of-window and unmapped ones.
- RecordingMatcher.Sync: broadcasts arrive without rebroadcasts, out-of-window and unmapped ones, titles after
  normalisation; a reservation that fails ends the source's run, after which the statements hold for the works
  served so far; the dry-run switch only suppresses the request.
- Home-monitor collectors, Terraform, router, TrueNAS, migration and snapshot scripts, dev-app-maintenance.py
  and the shell scripts: I/O plumbing and single-branch checks.
