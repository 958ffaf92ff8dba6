/** One agent and the fleet: what the fleet owes to a host that is at work, what the agent knows of
    itself, and how its steps and requests keep both. */
module AgentSafety {
  import opened Wrappers
  import opened Policy
  import opened EnvironmentHealth
  import opened FleetSpec
  import opened FleetCoupling
  import FleetHistory
  import opened AgentSpec

  // ----- what the fleet owes to a host that is at work -----

  /** The plan of the host is running (or was reported failed) for this execution and boot
      session, and while it runs its gate does not yet count as completed. */
  predicate Holds(s: Fleet, host: Host, execution: Id, boot: Id) {
    var plan, gate := Read(s, host).plan, s.environment.gate;
    && plan.Some? && Busy(plan.value) && plan.value.executionId == Some(execution) && plan.value.bootId == boot
    && (IsPve(host) && plan.value.phase.Running? ==> gate.Some? && gate.value.completedAt.None?)
  }

  predicate Runs(s: Fleet, host: Host, execution: Id, boot: Id) {
    Holds(s, host, execution, boot) && Read(s, host).plan.value.phase.Running?
  }

  /** The package-update row names the host and execution, and unless it failed its gate does
      not yet count as completed. */
  predicate Locks(s: Fleet, host: Host, execution: Id) {
    && s.lock.Some? && s.lock.value.host == host && s.lock.value.execution == execution
    && s.environment.gate.Some? && (s.lock.value.failed || s.environment.gate.value.completedAt.None?)
  }

  /** A call that does not end the reboot execution of the host on its own behalf: its healthy
      reports come from the boot session of the plan, its result for the execution is a failure. */
  predicate Spares(call: Call, host: Host, execution: Id, boot: Id) {
    && !call.CRecover?
    && (call.CReport? && call.host == host && call.healthy ==> call.bootId == boot)
    && (call.CRebootResult? && call.host == host && call.execution == execution ==> call.outcome.FailedOutcome?)
  }

  predicate SparesUpdate(call: Call, host: Host, execution: Id) {
    && !call.CRecover?
    && (call.CUpdateResult? && call.host == host && call.execution == execution ==> call.outcome.FailedOutcome?)
  }

  lemma HoldKept(s: Fleet, call: Call, now: int, host: Host, execution: Id, boot: Id)
    requires Coupled(s) && Holds(s, host, execution, boot) && Spares(call, host, execution, boot)
    ensures Holds(Apply(s, call, now), host, execution, boot)
    ensures Runs(s, host, execution, boot) && !(call.CRebootResult? && call.host == host && call.execution == execution) ==>
      Runs(Apply(s, call, now), host, execution, boot)
  {
    hide Apply, Holds, Coupled;
    match call
    case CReport(h, b, required, healthy) => ReportHold(s, call, now, host, execution, boot);
    case CRebootResult(h, e, o) => ResultHold(s, call, now, host, execution, boot);
    case CObserve(_) => ObserveHold(s, call, now, host, execution, boot);
    case CInteraction(_, _, _, _) => InteractionHold(s, call, now, host, execution, boot);
    case CRecover(_) => assert false;
    case _ => ShortHold(s, call, now, host, execution, boot);
  }

  lemma ShortHold(s: Fleet, call: Call, now: int, host: Host, execution: Id, boot: Id)
    requires Coupled(s) && Holds(s, host, execution, boot)
    requires call.CClaim? || call.CClaimUpdate? || call.CTick? || call.CUpdateResult? || call.CNotified?
    ensures Holds(Apply(s, call, now), host, execution, boot)
    ensures Runs(s, host, execution, boot) ==> Runs(Apply(s, call, now), host, execution, boot)
  {
    hide Apply, Holds, Coupled;
    if call.CUpdateResult? { UpdateResultHold(s, call, now, host, execution, boot); }
    else if call.CClaim? || call.CClaimUpdate? { RefusedClaimHold(s, call, now, host, execution, boot); }
    else { IdleHold(s, call, now, host, execution, boot); }
  }

  lemma RefusedClaimHold(s: Fleet, call: Call, now: int, host: Host, execution: Id, boot: Id)
    requires Coupled(s) && Holds(s, host, execution, boot) && (call.CClaim? || call.CClaimUpdate?)
    ensures Apply(s, call, now) == s
  {
    hide Coupled, Claim, ClaimUpdate;
    ClaimsExcluded(s, call.host, now, host);
  }

  lemma IdleHold(s: Fleet, call: Call, now: int, host: Host, execution: Id, boot: Id)
    requires Holds(s, host, execution, boot) && (call.CTick? || call.CNotified?)
    ensures Holds(Apply(s, call, now), host, execution, boot)
    ensures Runs(s, host, execution, boot) ==> Runs(Apply(s, call, now), host, execution, boot)
  {
    hide Tick;
  }

  lemma UpdateResultHold(s: Fleet, call: Call, now: int, host: Host, execution: Id, boot: Id)
    requires Coupled(s) && Holds(s, host, execution, boot) && call.CUpdateResult?
    ensures Holds(Apply(s, call, now), host, execution, boot)
    ensures Runs(s, host, execution, boot) ==> Runs(Apply(s, call, now), host, execution, boot)
  {
    assert s.lock.None? by { if s.lock.Some? { NoBusyHost(s, host); } }
    assert forall other :: Read(Apply(s, call, now), other) == Read(s, other);
    hide Coupled;
  }

  /** Nothing is granted to anyone while a host is busy. */
  lemma ClaimsExcluded(s: Fleet, claimer: Host, now: int, host: Host)
    requires Coupled(s) && BusyRecord(Read(s, host))
    ensures Claim(s, claimer, now) == (s, None) && ClaimUpdate(s, claimer, now) == (s, None)
  {
    assert claimer in {DevApp, PveX570, PveB550m} && host in {DevApp, PveX570, PveB550m};
  }

  lemma ReportHold(s: Fleet, call: Call, now: int, host: Host, execution: Id, boot: Id)
    requires Coupled(s) && Holds(s, host, execution, boot) && Spares(call, host, execution, boot) && call.CReport?
    ensures Holds(Apply(s, call, now), host, execution, boot)
    ensures Runs(s, host, execution, boot) ==> Runs(Apply(s, call, now), host, execution, boot)
  {
    ReportRow(s, call.host, call.bootId, call.required, call.healthy, now);
    hide Report;
    assert host in {DevApp, PveX570, PveB550m} && call.host in {DevApp, PveX570, PveB550m};
  }

  lemma ResultHold(s: Fleet, call: Call, now: int, host: Host, execution: Id, boot: Id)
    requires Coupled(s) && Holds(s, host, execution, boot) && Spares(call, host, execution, boot) && call.CRebootResult?
    ensures Holds(Apply(s, call, now), host, execution, boot)
    ensures (call.host != host || call.execution != execution) && Runs(s, host, execution, boot) ==> Runs(Apply(s, call, now), host, execution, boot)
  {
    assert host in {DevApp, PveX570, PveB550m} && call.host in {DevApp, PveX570, PveB550m};
  }

  lemma ObserveHold(s: Fleet, call: Call, now: int, host: Host, execution: Id, boot: Id)
    requires Coupled(s) && Holds(s, host, execution, boot) && call.CObserve?
    ensures Holds(Apply(s, call, now), host, execution, boot)
    ensures Runs(s, host, execution, boot) ==> Runs(Apply(s, call, now), host, execution, boot)
  {
    if s.environment.gate.Some? {
      var gate := s.environment.gate.value;
      assert WithLegacyCause(s, gate) == gate;
      assert gate.host == host || !IsPve(host) by { GateOfBusyHost(s, host); }
      hide WithLegacyCause, Observed, Checked, Coupled;
      if gate.host == host {
        assert !Observed(gate, Checked(Read(s, host), call.inspection, now), now).1.Passed?;
      }
    }
  }

  lemma GateOfBusyHost(s: Fleet, host: Host)
    requires Coupled(s) && s.environment.gate.Some? && BusyRecord(Read(s, host))
    ensures s.environment.gate.value.host == host
  {
    var gate := s.environment.gate.value;
    assert gate.host in {DevApp, PveX570, PveB550m} && host in {DevApp, PveX570, PveB550m};
  }

  lemma InteractionHold(s: Fleet, call: Call, now: int, host: Host, execution: Id, boot: Id)
    requires Holds(s, host, execution, boot) && call.CInteraction?
    ensures Holds(Apply(s, call, now), host, execution, boot)
    ensures Runs(s, host, execution, boot) ==> Runs(Apply(s, call, now), host, execution, boot)
  {
    if Apply(s, call, now) != s { InteractionRow(s, call.host, call.revision, call.action, call.request, now); }
    hide Interaction;
  }

  lemma LockKept(s: Fleet, call: Call, now: int, host: Host, execution: Id)
    requires Coupled(s) && Locks(s, host, execution) && SparesUpdate(call, host, execution)
    ensures Locks(Apply(s, call, now), host, execution)
  {
    hide Apply, Locks, Coupled, SparesUpdate;
    match call
    case CReport(h, b, required, healthy) => ReportLock(s, call, now, host, execution);
    case CObserve(_) => ObserveLock(s, call, now, host, execution);
    case CInteraction(_, _, _, _) => InteractionLock(s, call, now, host, execution);
    case _ => ShortLock(s, call, now, host, execution);
  }

  lemma ShortLock(s: Fleet, call: Call, now: int, host: Host, execution: Id)
    requires Coupled(s) && Locks(s, host, execution) && SparesUpdate(call, host, execution)
    requires !call.CReport? && !call.CObserve? && !call.CInteraction?
    ensures Locks(Apply(s, call, now), host, execution)
  {
    if call.CRebootResult? { NoBusyHost(s, call.host); }
    hide Tick, Due, Healthy, Coupled;
  }

  lemma NoBusyHost(s: Fleet, host: Host)
    requires Coupled(s) && s.lock.Some?
    ensures !BusyRecord(Read(s, host))
  {
    if host.DevApp? {} else if host.PveX570? {} else {}
  }

  lemma ReportLock(s: Fleet, call: Call, now: int, host: Host, execution: Id)
    requires Coupled(s) && Locks(s, host, execution) && call.CReport?
    ensures Locks(Apply(s, call, now), host, execution)
  {
    ReportRow(s, call.host, call.bootId, call.required, call.healthy, now);
    hide Report;
    assert call.host in {DevApp, PveX570, PveB550m};
  }

  lemma ObserveLock(s: Fleet, call: Call, now: int, host: Host, execution: Id)
    requires Coupled(s) && Locks(s, host, execution) && call.CObserve?
    ensures Locks(Apply(s, call, now), host, execution)
  {
    var gate := s.environment.gate.value;
    assert gate.host in {DevApp, PveX570, PveB550m};
    assert WithLegacyCause(s, gate) == gate;
    hide WithLegacyCause, Observed, Checked;
    assert !Observed(gate, Checked(Read(s, gate.host), call.inspection, now), now).1.Passed?;
  }

  lemma InteractionLock(s: Fleet, call: Call, now: int, host: Host, execution: Id)
    requires Locks(s, host, execution) && call.CInteraction?
    ensures Locks(Apply(s, call, now), host, execution)
  {
    if Apply(s, call, now) != s { InteractionRow(s, call.host, call.revision, call.action, call.request, now); }
    hide Interaction;
  }

  /** A granted reboot claim is held for the boot session the host just reported. */
  lemma ClaimHolds(s: Fleet, host: Host, now: int, boot: Id)
    requires Coupled(s) && SnapshotIsCurrent(Read(s, host), boot)
    requires Claim(s, host, now).1.Some?
    ensures Claim(s, host, now).1 == Some(s.nextId) && Claim(s, host, now).0.nextId == s.nextId + 1
    ensures Runs(Claim(s, host, now).0, host, s.nextId, boot)
  {
  }

  lemma ClaimUpdateLocks(s: Fleet, host: Host, now: int)
    requires ClaimUpdate(s, host, now).1.Some?
    ensures ClaimUpdate(s, host, now).1 == Some(s.nextId) && ClaimUpdate(s, host, now).0.nextId == s.nextId + 1
    ensures Locks(ClaimUpdate(s, host, now).0, host, s.nextId)
  {
  }

  /** Only a report changes what the fleet knows of a host's boot session. */
  lemma SnapshotChange(s: Fleet, call: Call, now: int, host: Host)
    ensures var snapshot := Read(Apply(s, call, now), host).snapshot;
            if call.CReport? && call.host == host then snapshot.Some? && snapshot.value.bootId == call.bootId && snapshot.value.healthy == call.healthy
            else snapshot == Read(s, host).snapshot
  {
    FleetHistory.RowChange(s, Event(call, now), host);
    hide Apply, Claimable;
  }

  // ----- what each agent knows of itself -----

  /** The execution an agent has been granted and not yet decided about. */
  function Undecided(pc: Pc): Option<Id> {
    match pc
    case Granted(e) => Some(e)
    case Preflight(e) => Some(e)
    case MarkerSaved(e) => Some(e)
    case ContainerStopped(e) => Some(e)
    case ContainerRestarted(e) => Some(e)
    case Ready(e) => Some(e)
    case _ => None
  }

  predicate Unmarked(agent: Agent) { agent.journal.Some? ==> !agent.journal.value.loockitStopped }

  /** The execution journal agrees with where the process is. */
  predicate JournalFits(agent: Agent) {
    match agent.pc
    case Preflight(e) => agent.journal == Some(Journal(agent.boot, e, None, false))
    case Ready(e) => agent.journal == Some(Journal(agent.boot, e, None, false))
    case MarkerSaved(e) => agent.journal == Some(Journal(agent.boot, e, None, true))
    case ContainerStopped(e) => agent.journal == Some(Journal(agent.boot, e, None, true))
    case ContainerRestarted(e) => agent.journal == Some(Journal(agent.boot, e, None, true)) && !agent.stopped
    case Saving(e, o, m) => agent.journal == Some(Journal(agent.boot, e, None, m))
    case Sending(e, o, m) => agent.journal == Some(Journal(agent.boot, e, Some(o), m))
    case AtRestore(p) => agent.journal == Some(p)
    case AtRestored(p) => !agent.stopped && agent.journal.Some? && p == agent.journal.value.(loockitStopped := false)
    case AtInterrupted(p) =>
      && Unmarked(agent) && agent.journal.Some? && agent.journal.value.bootId == agent.boot && agent.journal.value.outcome.None?
      && p == agent.journal.value.(outcome := Some(Blocked))
    case AtReport => Unmarked(agent) && (agent.journal.Some? ==> agent.journal.value.bootId != agent.boot)
    case AtForget => Unmarked(agent)
    case AtClaim => agent.journal.None?
    case Granted(e) => agent.journal.None?
    case Unlinking => Unmarked(agent)
    case _ => true
  }

  /** The update journal agrees with where the process is. */
  predicate UpdateFits(agent: Agent) {
    match agent.pc
    case AtUpdateResend(e, o) => agent.update == Some(UpdateJournal(e, Some(o)))
    case AtUpdateUnlink => agent.update.Some? && agent.update.value.outcome.Some? && !agent.update.value.outcome.value.FailedOutcome?
    case UReport => agent.update.None?
    case UClaim => agent.update.None?
    case UGranted(e) => agent.update.None?
    case UCheck(e) => agent.update == Some(UpdateJournal(e, None))
    case UReady(e) => agent.update == Some(UpdateJournal(e, None))
    case UInstalling(e) => agent.update == Some(UpdateJournal(e, None))
    case USaving(e, o) => agent.update == Some(UpdateJournal(e, None))
    case USending(e, o) => agent.update == Some(UpdateJournal(e, Some(o)))
    case UUnlinking => agent.update.Some? && agent.update.value.outcome.Some? && !agent.update.value.outcome.value.FailedOutcome?
    case _ => true
  }

  /** A stopped container is always on record, and only PVE agents touch it. */
  predicate MarkerFits(agent: Agent, host: Host) {
    && (agent.stopped ==> agent.journal.Some? && agent.journal.value.loockitStopped)
    && (!IsPve(host) ==> Unmarked(agent) && !agent.pc.MarkerSaved? && !agent.pc.ContainerStopped? && !agent.pc.ContainerRestarted?)
    && ((agent.pc.Saving? || agent.pc.Sending?) && !agent.pc.outcome.Blocked? ==> !agent.pc.loockitStopped)
  }

  predicate SelfConsistent(agent: Agent, host: Host) {
    JournalFits(agent) && UpdateFits(agent) && MarkerFits(agent, host)
  }

  /** The part of process() that deals with the journals of earlier runs. */
  predicate IsStartup(pc: Pc) {
    || pc.AtUpdateJournal? || pc.AtUpdateUnlink? || pc.AtJournal? || pc.AtRestore? || pc.AtRestored? || pc.AtInterrupted? || pc.AtForget?
  }

  lemma StartupKeepsJournal(agent: Agent, host: Host, ok: bool, effect: bool, choice: Choice)
    requires JournalFits(agent) && MarkerFits(agent, host) && CanAct(agent, host, Move(ok, effect, choice)) && IsStartup(agent.pc)
    ensures JournalFits(Moved(agent, ok, effect, choice, host))
  {
  }

  /** update_packages() and the part of process() that deals with its journal. */
  predicate IsUpdating(pc: Pc) {
    || pc.UStart? || pc.UReport? || pc.UClaim? || pc.UGranted? || pc.UCheck? || pc.UReady? || pc.UInstalling?
    || pc.USaving? || pc.USending? || pc.UUnlinking? || pc.AtUpdateJournal? || pc.AtUpdateResend? || pc.AtUpdateUnlink?
  }

  lemma ExecutionKeepsJournal(agent: Agent, host: Host, ok: bool, effect: bool, choice: Choice)
    requires JournalFits(agent) && MarkerFits(agent, host) && CanAct(agent, host, Move(ok, effect, choice))
    requires !IsStartup(agent.pc) && !IsUpdating(agent.pc)
    ensures JournalFits(Moved(agent, ok, effect, choice, host))
  {
  }

  lemma UpdatingKeepsJournal(agent: Agent, host: Host, ok: bool, effect: bool, choice: Choice)
    requires CanAct(agent, host, Move(ok, effect, choice)) && IsUpdating(agent.pc)
    ensures JournalFits(Moved(agent, ok, effect, choice, host))
    ensures MarkerFits(agent, host) ==> MarkerFits(Moved(agent, ok, effect, choice, host), host)
  {
  }

  lemma MoveKeepsJournal(agent: Agent, host: Host, ok: bool, effect: bool, choice: Choice)
    requires JournalFits(agent) && MarkerFits(agent, host) && CanAct(agent, host, Move(ok, effect, choice))
    ensures JournalFits(Moved(agent, ok, effect, choice, host))
  {
    hide Moved, JournalFits, MarkerFits;
    if IsUpdating(agent.pc) { UpdatingKeepsJournal(agent, host, ok, effect, choice); }
    else if IsStartup(agent.pc) { StartupKeepsJournal(agent, host, ok, effect, choice); }
    else { ExecutionKeepsJournal(agent, host, ok, effect, choice); }
  }

  lemma MoveKeepsUpdate(agent: Agent, host: Host, ok: bool, effect: bool, choice: Choice)
    requires UpdateFits(agent) && CanAct(agent, host, Move(ok, effect, choice))
    ensures UpdateFits(Moved(agent, ok, effect, choice, host))
  {
    hide Moved, UpdateFits;
    if IsUpdating(agent.pc) { UpdatingKeepsUpdate(agent, host, ok, effect, choice); }
    else { OthersKeepUpdate(agent, host, ok, effect, choice); }
  }

  lemma UpdatingKeepsUpdate(agent: Agent, host: Host, ok: bool, effect: bool, choice: Choice)
    requires UpdateFits(agent) && CanAct(agent, host, Move(ok, effect, choice)) && IsUpdating(agent.pc)
    ensures UpdateFits(Moved(agent, ok, effect, choice, host))
  {
  }

  lemma OthersKeepUpdate(agent: Agent, host: Host, ok: bool, effect: bool, choice: Choice)
    requires CanAct(agent, host, Move(ok, effect, choice)) && !IsUpdating(agent.pc)
    ensures UpdateFits(Moved(agent, ok, effect, choice, host))
  {
    MovedOutside(agent, host, ok, effect, choice);
    hide Moved;
  }

  lemma MoveKeepsMarker(agent: Agent, host: Host, ok: bool, effect: bool, choice: Choice)
    requires JournalFits(agent) && MarkerFits(agent, host) && CanAct(agent, host, Move(ok, effect, choice))
    ensures MarkerFits(Moved(agent, ok, effect, choice, host), host)
  {
    hide Moved, MarkerFits, JournalFits;
    if IsUpdating(agent.pc) { UpdatingKeepsJournal(agent, host, ok, effect, choice); }
    else if IsStartup(agent.pc) { StartupKeepsMarker(agent, host, ok, effect, choice); }
    else { ExecutionKeepsMarker(agent, host, ok, effect, choice); }
  }

  lemma StartupKeepsMarker(agent: Agent, host: Host, ok: bool, effect: bool, choice: Choice)
    requires JournalFits(agent) && MarkerFits(agent, host) && CanAct(agent, host, Move(ok, effect, choice)) && IsStartup(agent.pc)
    ensures MarkerFits(Moved(agent, ok, effect, choice, host), host)
  {
  }

  lemma ExecutionKeepsMarker(agent: Agent, host: Host, ok: bool, effect: bool, choice: Choice)
    requires JournalFits(agent) && MarkerFits(agent, host) && CanAct(agent, host, Move(ok, effect, choice))
    requires !IsStartup(agent.pc) && !IsUpdating(agent.pc)
    ensures MarkerFits(Moved(agent, ok, effect, choice, host), host)
  {
  }

  // ----- the invariant of the composition -----

  /** A process that neither decides about an execution nor withdraws one, except to report the
      failure of the reboot that is under way. */
  predicate Calm(pc: Pc, execution: Id) {
    && Undecided(pc).None? && !pc.AtRestore? && !pc.AtRestored? && !pc.AtInterrupted?
    && (pc.Saving? || pc.Sending? ==> pc.outcome.FailedOutcome? && pc.execution == execution && !pc.loockitStopped)
  }

  /** A reboot under way is held by the fleet, and nothing on the host will withdraw it. */
  predicate RebootIsHeld(s: Fleet, agent: Agent, host: Host) {
    agent.rebooting.Some? ==>
      var e := agent.rebooting.value;
      && Holds(s, host, e, agent.boot) && Calm(agent.pc, e)
      && (agent.journal.Some? ==>
            agent.journal == Some(Journal(agent.boot, e, None, false)) || agent.journal == Some(Journal(agent.boot, e, Some(FailedOutcome), false)))
  }

  predicate GrantIsHeld(s: Fleet, agent: Agent, host: Host) {
    Undecided(agent.pc).Some? ==> Runs(s, host, Undecided(agent.pc).value, agent.boot) && agent.rebooting.None?
  }

  /** The package-update execution an agent has been granted and not yet started. */
  function Unstarted(pc: Pc): Option<Id> {
    match pc
    case UGranted(e) => Some(e)
    case UCheck(e) => Some(e)
    case UReady(e) => Some(e)
    case _ => None
  }

  /** An upgrade under way is locked by the fleet, and nothing on the host will release it. */
  predicate InstallIsLocked(s: Fleet, agent: Agent, host: Host) {
    agent.installing.Some? ==>
      var e := agent.installing.value;
      && Locks(s, host, e) && Unstarted(agent.pc).None?
      && (agent.update == Some(UpdateJournal(e, None)) || agent.update == Some(UpdateJournal(e, Some(FailedOutcome))))
      && (agent.pc.USaving? ==> agent.pc.outcome.FailedOutcome?)
  }

  predicate UpdateGrantIsLocked(s: Fleet, agent: Agent, host: Host) {
    Unstarted(agent.pc).Some? ==> Locks(s, host, Unstarted(agent.pc).value) && agent.installing.None?
  }

  /** A healthy snapshot is of this boot session. */
  predicate SnapshotIsCurrent(st: RecordState, boot: Id) {
    st.snapshot.Some? && st.snapshot.value.healthy ==> st.snapshot.value.bootId == boot
  }

  /** Before it claims, an agent whose host is not rebooting has told the fleet its boot session. */
  predicate Reported(s: Fleet, agent: Agent, host: Host) {
    (agent.pc.AtForget? || agent.pc.AtClaim?) && agent.rebooting.None? ==> SnapshotIsCurrent(Read(s, host), agent.boot)
  }

  /** What holds of an agent however late a request arrives: its journals, its marker and its
      package upgrades are in order. */
  predicate Orderly(s: Fleet, agent: Agent, host: Host) {
    SelfConsistent(agent, host) && InstallIsLocked(s, agent, host) && UpdateGrantIsLocked(s, agent, host)
  }

  /** What the fleet knows of the agent's reboots. */
  predicate Accounted(s: Fleet, agent: Agent, host: Host) {
    RebootIsHeld(s, agent, host) && GrantIsHeld(s, agent, host) && Reported(s, agent, host)
  }

  predicate Safe(s: Fleet, agent: Agent, host: Host) { Orderly(s, agent, host) && Accounted(s, agent, host) }

  lemma MoveKeepsReboot(s: Fleet, agent: Agent, host: Host, ok: bool, effect: bool, choice: Choice)
    requires SelfConsistent(agent, host) && RebootIsHeld(s, agent, host) && GrantIsHeld(s, agent, host)
    requires CanAct(agent, host, Move(ok, effect, choice))
    ensures RebootIsHeld(s, Moved(agent, ok, effect, choice, host), host)
  {
    hide Holds;
    var after := Moved(agent, ok, effect, choice, host);
    if agent.pc.Ready? && effect {
      assert Runs(s, host, agent.pc.execution, agent.boot);
    }
  }

  lemma MoveKeepsGrant(s: Fleet, agent: Agent, host: Host, ok: bool, effect: bool, choice: Choice)
    requires GrantIsHeld(s, agent, host) && CanAct(agent, host, Move(ok, effect, choice))
    ensures GrantIsHeld(s, Moved(agent, ok, effect, choice, host), host)
  {
    UndecidedStays(agent, host, ok, effect, choice);
    hide Moved, Undecided, CanAct, Runs;
  }

  /** A move that leaves an undecided grant pending leaves its execution, its boot and its host alone. */
  lemma UndecidedStays(agent: Agent, host: Host, ok: bool, effect: bool, choice: Choice)
    requires CanAct(agent, host, Move(ok, effect, choice))
    ensures var moved := Moved(agent, ok, effect, choice, host);
            Undecided(moved.pc).Some? ==>
              Undecided(moved.pc) == Undecided(agent.pc) && moved.boot == agent.boot && moved.rebooting == agent.rebooting
  {
  }

  lemma MoveKeepsInstall(s: Fleet, agent: Agent, host: Host, ok: bool, effect: bool, choice: Choice)
    requires SelfConsistent(agent, host) && InstallIsLocked(s, agent, host) && UpdateGrantIsLocked(s, agent, host)
    requires CanAct(agent, host, Move(ok, effect, choice))
    ensures InstallIsLocked(s, Moved(agent, ok, effect, choice, host), host)
    ensures UpdateGrantIsLocked(s, Moved(agent, ok, effect, choice, host), host)
  {
    hide Moved, Locks, InstallIsLocked, UpdateGrantIsLocked;
    if IsUpdating(agent.pc) { UpdatingKeepsInstall(s, agent, host, ok, effect, choice); }
    else { OthersKeepInstall(s, agent, host, ok, effect, choice); }
  }

  lemma UpdatingKeepsInstall(s: Fleet, agent: Agent, host: Host, ok: bool, effect: bool, choice: Choice)
    requires UpdateFits(agent) && InstallIsLocked(s, agent, host) && UpdateGrantIsLocked(s, agent, host)
    requires CanAct(agent, host, Move(ok, effect, choice)) && IsUpdating(agent.pc)
    ensures InstallIsLocked(s, Moved(agent, ok, effect, choice, host), host)
    ensures UpdateGrantIsLocked(s, Moved(agent, ok, effect, choice, host), host)
  {
    hide Locks;
  }

  /** Steps outside a package update do not touch it. */
  lemma MovedOutside(agent: Agent, host: Host, ok: bool, effect: bool, choice: Choice)
    requires CanAct(agent, host, Move(ok, effect, choice)) && !IsUpdating(agent.pc)
    ensures var after := Moved(agent, ok, effect, choice, host);
      after.update == agent.update && after.installing == agent.installing && !IsUpdating(after.pc)
  {
  }

  lemma OthersKeepInstall(s: Fleet, agent: Agent, host: Host, ok: bool, effect: bool, choice: Choice)
    requires InstallIsLocked(s, agent, host)
    requires CanAct(agent, host, Move(ok, effect, choice)) && !IsUpdating(agent.pc)
    ensures InstallIsLocked(s, Moved(agent, ok, effect, choice, host), host)
    ensures UpdateGrantIsLocked(s, Moved(agent, ok, effect, choice, host), host)
  {
    hide Locks;
    var after := Moved(agent, ok, effect, choice, host);
    MovedOutside(agent, host, ok, effect, choice);
    hide Moved;
  }

  lemma MoveKeepsOrderly(s: Fleet, agent: Agent, host: Host, ok: bool, effect: bool, choice: Choice)
    requires Orderly(s, agent, host) && CanAct(agent, host, Move(ok, effect, choice))
    ensures Orderly(s, Moved(agent, ok, effect, choice, host), host)
  {
    MoveKeepsJournal(agent, host, ok, effect, choice);
    MoveKeepsUpdate(agent, host, ok, effect, choice);
    MoveKeepsMarker(agent, host, ok, effect, choice);
    MoveKeepsInstall(s, agent, host, ok, effect, choice);
    hide Moved;
  }

  lemma MoveKeepsAccounted(s: Fleet, agent: Agent, host: Host, ok: bool, effect: bool, choice: Choice)
    requires SelfConsistent(agent, host) && Accounted(s, agent, host) && CanAct(agent, host, Move(ok, effect, choice))
    ensures Accounted(s, Moved(agent, ok, effect, choice, host), host)
  {
    hide Moved, SelfConsistent, RebootIsHeld, GrantIsHeld, Reported;
    MoveKeepsReboot(s, agent, host, ok, effect, choice);
    MoveKeepsGrant(s, agent, host, ok, effect, choice);
    MoveKeepsReported(s, agent, host, ok, effect, choice);
  }

  lemma MoveKeepsSafe(s: Fleet, agent: Agent, host: Host, ok: bool, effect: bool, choice: Choice)
    requires Safe(s, agent, host) && CanAct(agent, host, Move(ok, effect, choice))
    ensures Safe(s, Moved(agent, ok, effect, choice, host), host)
  {
    hide Moved, Accounted, InstallIsLocked, UpdateGrantIsLocked, SelfConsistent;
    MoveKeepsOrderly(s, agent, host, ok, effect, choice);
    MoveKeepsAccounted(s, agent, host, ok, effect, choice);
  }

  lemma MoveKeepsReported(s: Fleet, agent: Agent, host: Host, ok: bool, effect: bool, choice: Choice)
    requires Reported(s, agent, host) && CanAct(agent, host, Move(ok, effect, choice))
    ensures Reported(s, Moved(agent, ok, effect, choice, host), host)
  {
  }

  // ----- the end and the beginning of a process -----

  /** Ending the process, losing the machine or finishing apt is always safe. */
  lemma EndingIsOrderly(s: Fleet, agent: Agent, host: Host, boot: Id)
    requires Orderly(s, agent, host)
    ensures Orderly(s, agent.(pc := Idle), host)
    ensures Orderly(s, agent.(boot := boot, pc := Idle, rebooting := None, installing := None), host)
    ensures Orderly(s, agent.(installing := None), host)
  {
    hide Locks;
  }

  lemma EndingIsAccounted(s: Fleet, agent: Agent, host: Host, boot: Id)
    requires Accounted(s, agent, host)
    ensures Accounted(s, agent.(pc := Idle), host)
    ensures Accounted(s, agent.(boot := boot, pc := Idle, rebooting := None, installing := None), host)
    ensures Accounted(s, agent.(installing := None), host)
  {
    hide Holds;
  }

  lemma BeginningIsOrderly(s: Fleet, agent: Agent, host: Host)
    requires Orderly(s, agent, host) && agent.pc.Idle?
    ensures Orderly(s, agent.(pc := AtUpdateJournal), host)
    ensures Orderly(s, agent.(pc := UStart), host)
  {
    hide Locks;
  }

  lemma BeginningIsAccounted(s: Fleet, agent: Agent, host: Host)
    requires Accounted(s, agent, host) && agent.pc.Idle?
    ensures Accounted(s, agent.(pc := AtUpdateJournal), host)
    ensures Accounted(s, agent.(pc := UStart), host)
  {
    hide Holds;
  }

  // ----- calls of anybody -----

  /** A call of anybody leaves an agent in order that does not withdraw its own upgrade. */
  lemma CallKeepsOrderly(s: Fleet, agent: Agent, host: Host, call: Call, now: int)
    requires Coupled(s) && Orderly(s, agent, host)
    requires agent.installing.Some? ==> SparesUpdate(call, host, agent.installing.value)
    requires Unstarted(agent.pc).Some? ==> SparesUpdate(call, host, Unstarted(agent.pc).value)
    ensures Orderly(Apply(s, call, now), agent, host)
  {
    hide Apply, Locks, SelfConsistent, Coupled, SparesUpdate;
    if agent.installing.Some? { LockKept(s, call, now, host, agent.installing.value); }
    if Unstarted(agent.pc).Some? { LockKept(s, call, now, host, Unstarted(agent.pc).value); }
  }

  /** A hold of a reboot that was reported failed stands through any report. */
  lemma FailedHoldKept(s: Fleet, call: Call, now: int, host: Host, execution: Id, boot: Id)
    requires Coupled(s) && Holds(s, host, execution, boot) && !Runs(s, host, execution, boot) && call.CReport? && call.host == host
    ensures Holds(Apply(s, call, now), host, execution, boot)
  {
    ReportRow(s, call.host, call.bootId, call.required, call.healthy, now);
    hide Report, Coupled;
  }

  /** A result that names the execution only to report its failure. */
  predicate SparesResult(call: Call, host: Host, execution: Id) {
    !call.CRecover? && (call.CRebootResult? && call.host == host && call.execution == execution ==> call.outcome.FailedOutcome?)
  }

  /** The execution that a call gives the host's result for. */
  function ResultOf(call: Call, host: Host): Option<Id> {
    if call.CRebootResult? && call.host == host then Some(call.execution) else None
  }

  /** A healthy report of the host from a boot session other than its own. */
  predicate IsStaleReport(call: Call, agent: Agent, host: Host) {
    call.CReport? && call.host == host && call.healthy && call.bootId != agent.boot
  }

  /** The host does not rely on what the fleet takes for its boot session: it neither reboots under
      a running plan nor has a reboot granted nor is about to claim one. */
  predicate IsAtRest(s: Fleet, agent: Agent, host: Host) {
    if agent.rebooting.Some? then !Runs(s, host, agent.rebooting.value, agent.boot)
    else Undecided(agent.pc).None? && !agent.pc.AtForget? && !agent.pc.AtClaim?
  }

  /** A call keeps what the fleet knows of the agent's reboots, unless it is a stale report that
      arrives while the host relies on its session. */
  lemma CallKeepsAccounted(s: Fleet, agent: Agent, host: Host, call: Call, now: int)
    requires Coupled(s) && Accounted(s, agent, host)
    requires agent.rebooting.Some? ==> SparesResult(call, host, agent.rebooting.value)
    requires Undecided(agent.pc).Some? ==> SparesResult(call, host, Undecided(agent.pc).value) && Undecided(agent.pc) != ResultOf(call, host)
    requires IsStaleReport(call, agent, host) ==> IsAtRest(s, agent, host)
    ensures Accounted(Apply(s, call, now), agent, host)
  {
    hide Apply, Holds, Coupled;
    if agent.rebooting.Some? {
      if IsStaleReport(call, agent, host) { FailedHoldKept(s, call, now, host, agent.rebooting.value, agent.boot); }
      else { HoldKept(s, call, now, host, agent.rebooting.value, agent.boot); }
    }
    if Undecided(agent.pc).Some? { HoldKept(s, call, now, host, Undecided(agent.pc).value, agent.boot); }
    SnapshotChange(s, call, now, host);
  }

  // ----- requests -----

  lemma RequestSparesUpdate(agent: Agent, host: Host, required: bool, healthy: bool)
    requires SelfConsistent(agent, host) && IsRequest(agent.pc) && agent.installing.Some?
    requires agent.update == Some(UpdateJournal(agent.installing.value, None)) || agent.update == Some(UpdateJournal(agent.installing.value, Some(FailedOutcome)))
    ensures SparesUpdate(CallOf(agent, host, required, healthy), host, agent.installing.value)
  {
    hide JournalFits, MarkerFits;
  }

  /** Only a granted upgrade claim starts an upgrade. */
  lemma AnswerStartsNoUpdate(s: Fleet, agent: Agent, host: Host, more: bool, now: int)
    requires IsRequest(agent.pc) && !agent.pc.UClaim?
    ensures var pc := Answered(agent, host, s, more, now); Unstarted(pc).None? && !pc.USaving?
  {
    hide UpdateResult, RebootResult, Claim;
  }

  lemma RequestKeepsOrderly(s: Fleet, agent: Agent, host: Host, net: Net, required: bool, healthy: bool, more: bool, now: int)
    requires Coupled(s) && Orderly(s, agent, host) && IsRequest(agent.pc) && !net.LostRequest?
    ensures var s' := Apply(s, CallOf(agent, host, required, healthy), now);
            Orderly(s', agent.(pc := if net.Delivered? then Answered(agent, host, s, more, now) else Idle), host)
  {
    hide Apply, Answered, CallOf, SelfConsistent, Locks, SparesUpdate, Coupled;
    if agent.installing.Some? {
      RequestSparesUpdate(agent, host, required, healthy);
      LockKept(s, CallOf(agent, host, required, healthy), now, host, agent.installing.value);
    }
    IdleIsConsistent(agent, host);
    AnsweredIsConsistent(s, agent, host, more, now);
    if agent.pc.UClaim? { ClaimUpdateAnswered(s, agent, host, required, healthy, more, now); }
    else { AnswerStartsNoUpdate(s, agent, host, more, now); }
  }

  lemma IdleIsConsistent(agent: Agent, host: Host)
    requires SelfConsistent(agent, host)
    ensures SelfConsistent(agent.(pc := Idle), host)
  {
  }

  lemma AnsweredIsConsistent(s: Fleet, agent: Agent, host: Host, more: bool, now: int)
    requires SelfConsistent(agent, host) && IsRequest(agent.pc)
    ensures SelfConsistent(agent.(pc := Answered(agent, host, s, more, now)), host)
  {
    hide UpdateResult, RebootResult, Claim, ClaimUpdate;
  }

  lemma ClaimUpdateAnswered(s: Fleet, agent: Agent, host: Host, required: bool, healthy: bool, more: bool, now: int)
    requires Orderly(s, agent, host) && agent.pc.UClaim?
    ensures var s', pc := Apply(s, CallOf(agent, host, required, healthy), now), Answered(agent, host, s, more, now);
            && (Unstarted(pc).Some? ==> Locks(s', host, Unstarted(pc).value) && agent.installing.None?)
            && !pc.USaving?
  {
    if ClaimUpdate(s, host, now).1.Some? { ClaimUpdateLocks(s, host, now); }
    hide ClaimUpdate, Locks;
  }

  /** The fleet's hold of a reboot under way survives the agent's own requests. */
  lemma RequestKeepsReboot(s: Fleet, agent: Agent, host: Host, required: bool, healthy: bool, now: int)
    requires Coupled(s) && RebootIsHeld(s, agent, host) && IsRequest(agent.pc) && agent.rebooting.Some?
    ensures Holds(Apply(s, CallOf(agent, host, required, healthy), now), host, agent.rebooting.value, agent.boot)
  {
    HoldKept(s, CallOf(agent, host, required, healthy), now, host, agent.rebooting.value, agent.boot);
    hide Apply, Holds;
  }

  /** What the fleet owes to the physical state of a host. */
  predicate WorkIsHeld(s: Fleet, agent: Agent, host: Host) {
    && (agent.rebooting.Some? ==> Holds(s, host, agent.rebooting.value, agent.boot))
    && (agent.installing.Some? ==> Locks(s, host, agent.installing.value))
  }

  /** The process moved to a point that is not in the middle of a reboot execution. */
  predicate Plain(pc: Pc) {
    Undecided(pc).None? && !pc.Saving? && !pc.Sending? && !pc.AtRestore? && !pc.AtRestored? && !pc.AtInterrupted?
  }

  lemma PlainIsAccounted(s: Fleet, s': Fleet, agent: Agent, host: Host, pc: Pc)
    requires Accounted(s, agent, host) && Plain(pc) && Reported(s', agent.(pc := pc), host)
    requires agent.rebooting.Some? ==> Holds(s', host, agent.rebooting.value, agent.boot)
    ensures Accounted(s', agent.(pc := pc), host)
  {
    hide Holds;
  }

  /** After a request the process either ended or went on as answered; both are accounted for. */
  lemma RequestKeepsAccounted(s: Fleet, agent: Agent, host: Host, net: Net, required: bool, healthy: bool, more: bool, now: int)
    requires Coupled(s) && Accounted(s, agent, host) && IsRequest(agent.pc) && !net.LostRequest?
    ensures var s' := Apply(s, CallOf(agent, host, required, healthy), now);
            Accounted(s', agent.(pc := if net.Delivered? then Answered(agent, host, s, more, now) else Idle), host)
  {
    hide Apply, Answered, CallOf, Holds, Coupled, GrantIsHeld;
    var s' := Apply(s, CallOf(agent, host, required, healthy), now);
    if agent.rebooting.Some? { RequestKeepsReboot(s, agent, host, required, healthy, now); }
    if !net.Delivered? {
      PlainIsAccounted(s, s', agent, host, Idle);
    } else if agent.pc.AtClaim? {
      ClaimIsAccounted(s, agent, host, required, healthy, more, now);
    } else {
      PlainAnswer(s, agent, host, required, healthy, more, now);
      hide RebootIsHeld, Accounted;
      PlainIsAccounted(s, s', agent, host, Answered(agent, host, s, more, now));
    }
  }

  /** After a request the process either ended or went on as answered; both are safe. */
  lemma RequestKeepsSafe(s: Fleet, agent: Agent, host: Host, net: Net, required: bool, healthy: bool, more: bool, now: int)
    requires Coupled(s) && Safe(s, agent, host) && IsRequest(agent.pc) && !net.LostRequest?
    ensures var s' := Apply(s, CallOf(agent, host, required, healthy), now);
            Safe(s', agent.(pc := if net.Delivered? then Answered(agent, host, s, more, now) else Idle), host)
  {
    hide Apply, Answered, CallOf, Orderly, Accounted;
    RequestKeepsOrderly(s, agent, host, net, required, healthy, more, now);
    RequestKeepsAccounted(s, agent, host, net, required, healthy, more, now);
  }

  lemma ClaimIsAccounted(s: Fleet, agent: Agent, host: Host, required: bool, healthy: bool, more: bool, now: int)
    requires Coupled(s) && Accounted(s, agent, host) && agent.pc.AtClaim?
    requires agent.rebooting.Some? ==> Holds(Apply(s, CallOf(agent, host, required, healthy), now), host, agent.rebooting.value, agent.boot)
    ensures Accounted(Apply(s, CallOf(agent, host, required, healthy), now), agent.(pc := Answered(agent, host, s, more, now)), host)
  {
    hide Answered, Claim, Holds, Coupled;
    ClaimAnswered(s, agent, host, more, now);
    assert Apply(s, CallOf(agent, host, required, healthy), now) == Claim(s, host, now).0;
    hide Apply, CallOf;
  }

  lemma ClaimAnswered(s: Fleet, agent: Agent, host: Host, more: bool, now: int)
    requires Coupled(s) && Accounted(s, agent, host) && agent.pc.AtClaim?
    ensures var s', pc := Claim(s, host, now).0, Answered(agent, host, s, more, now);
            && Undecided(pc) == Claim(s, host, now).1
            && (Undecided(pc).Some? ==> Runs(s', host, s.nextId, agent.boot) && pc == Granted(s.nextId) && agent.rebooting.None?)
            && (Undecided(pc).None? ==> pc.UStart? || pc.Idle?)
  {
    if Claim(s, host, now).1.Some? { GrantIsFree(s, agent, host, now); }
    hide Claim, Coupled, Holds, Runs;
  }

  /** A claim that is granted runs on the agent's boot, and the agent is not rebooting. */
  lemma GrantIsFree(s: Fleet, agent: Agent, host: Host, now: int)
    requires Coupled(s) && Accounted(s, agent, host) && agent.pc.AtClaim? && Claim(s, host, now).1.Some?
    ensures Claim(s, host, now).1 == Some(s.nextId) && Runs(Claim(s, host, now).0, host, s.nextId, agent.boot) && agent.rebooting.None?
  {
    if agent.rebooting.Some? { ClaimsExcluded(s, host, now, host); }
    ClaimHolds(s, host, now, agent.boot);
    hide Claim, Coupled;
  }

  lemma PlainAnswer(s: Fleet, agent: Agent, host: Host, required: bool, healthy: bool, more: bool, now: int)
    requires IsRequest(agent.pc) && !agent.pc.AtClaim?
    ensures var s', pc := Apply(s, CallOf(agent, host, required, healthy), now), Answered(agent, host, s, more, now);
            && Plain(pc)
            && Reported(s', agent.(pc := pc), host)
  {
    AnswerIsPlain(s, agent, host, more, now);
    SnapshotChange(s, CallOf(agent, host, required, healthy), now, host);
    hide Apply, Plain, Answered;
  }

  lemma AnswerIsPlain(s: Fleet, agent: Agent, host: Host, more: bool, now: int)
    requires IsRequest(agent.pc) && !agent.pc.AtClaim?
    ensures var pc := Answered(agent, host, s, more, now);
      Plain(pc) && !pc.AtClaim? && (pc.AtForget? ==> agent.pc.AtReport?)
  {
    hide UpdateResult, RebootResult, ClaimUpdate;
  }
}
