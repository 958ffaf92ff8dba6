/** What a healthy report does that outlives its boot session: it ends the reboot of a later
    session in the fleet's books, and a second host is admitted while the first still reboots. */
module AgentLateReport {
  import opened Wrappers
  import opened Policy
  import opened EnvironmentHealth
  import opened FleetSpec
  import opened FleetCoupling
  import opened AgentSpec
  import opened AgentSafety
  import opened AgentEveryRun
  import opened AgentTheorems

  // ----- what a report does to a running reboot -----

  /** The fleet keeps a running reboot through a report of its host if and only if the report is
      of the plan's own boot session or not healthy. */
  lemma ReportKeepsHoldIff(s: Fleet, host: Host, execution: Id, boot: Id, bootId: Id, required: bool, healthy: bool, now: int)
    requires Coupled(s) && Runs(s, host, execution, boot)
    ensures Holds(Report(s, host, bootId, required, healthy, now), host, execution, boot) <==> (bootId == boot || !healthy)
  {
    var call := CReport(host, bootId, required, healthy);
    if bootId == boot || !healthy { HoldKept(s, call, now, host, execution, boot); }
    else { StaleReportEndsHold(s, call, now, host, execution, boot); }
  }

  /** In the runs the theorems are about, a report leaves the work of every host held if and only if
      it is of the session its host is in, or its host does not reboot under a running plan. */
  lemma ReportKeepsWorkIff(w: World, call: Call, now: int)
    requires Invariant(w) && call.CReport?
    ensures (forall host :: WorkIsHeld(Apply(w.fleet, call, now), At(w, host), host)) <==>
      (InSession(w, call) || At(w, call.host).rebooting.None? || Read(w.fleet, call.host).plan.value.phase.Failed?)
  {
    forall host ensures WorkIsHeld(Apply(w.fleet, call, now), At(w, host), host) <==>
      (host != call.host || InSession(w, call) || At(w, host).rebooting.None? || Read(w.fleet, host).plan.value.phase.Failed?)
    {
      assert Accounted(w.fleet, At(w, host), host) && Orderly(w.fleet, At(w, host), host);
      hide Invariant, WorldIsOrderly;
      ReportKeepsWorkOfHostIff(w.fleet, At(w, host), host, call, now);
    }
  }

  lemma ReportKeepsWorkOfHostIff(s: Fleet, agent: Agent, host: Host, call: Call, now: int)
    requires Coupled(s) && Accounted(s, agent, host) && Orderly(s, agent, host) && call.CReport?
    ensures WorkIsHeld(Apply(s, call, now), agent, host) <==>
      (!IsStaleReport(call, agent, host) || agent.rebooting.None? || Read(s, host).plan.value.phase.Failed?)
  {
    hide Apply, Coupled;
    if agent.installing.Some? { LockKept(s, call, now, host, agent.installing.value); }
    if agent.rebooting.Some? {
      var e := agent.rebooting.value;
      if !IsStaleReport(call, agent, host) { HoldKept(s, call, now, host, e, agent.boot); }
      else if Runs(s, host, e, agent.boot) { StaleReportEndsHold(s, call, now, host, e, agent.boot); }
      else { FailedHoldKept(s, call, now, host, e, agent.boot); }
    }
    hide Locks, SelfConsistent;
  }

  // ----- a run in which two hosts are at work -----

  ghost predicate Reachable(w: World) { exists steps :: After(steps) == w }

  lemma Go(w: World, step: Step) returns (next: World)
    requires Reachable(w)
    ensures Reachable(next) && next == NextWorld(w, step)
  {
    hide NextWorld;
    var steps :| After(steps) == w;
    assert (steps + [step])[..|steps|] == steps;
    next := NextWorld(w, step);
    assert After(steps + [step]) == next;
  }

  const PASS := Move(true, true, Pass)

  /** One local step that succeeds. */
  lemma Succeed(w: World, host: Host) returns (next: World)
    requires Reachable(w) && CanAct(At(w, host), host, PASS)
    ensures Reachable(next) && At(next, host) == Moved(At(w, host), true, true, Pass, host)
    ensures next.fleet == w.fleet && next.late == w.late && next.nextBoot == w.nextBoot
    ensures forall other | other != host :: At(next, other) == At(w, other)
  {
    hide Moved, Apply, Answered, CallOf;
    next := Go(w, AgentStep(host, PASS));
  }

  /** One request that is answered. */
  lemma Ask(w: World, host: Host, required: bool, more: bool, now: int) returns (next: World)
    requires Reachable(w) && IsRequest(At(w, host).pc)
    ensures Reachable(next) && At(next, host) == At(w, host).(pc := Answered(At(w, host), host, w.fleet, more, now))
    ensures next.fleet == Apply(w.fleet, CallOf(At(w, host), host, required, true), now) && next.late == w.late && next.nextBoot == w.nextBoot
    ensures forall other | other != host :: At(next, other) == At(w, other)
  {
    hide Moved, Apply, Answered, CallOf;
    next := Go(w, AgentStep(host, Request(Delivered, required, true, more, now)));
  }

  /** A reachable world with these tables, late requests and agents of the VM and one node. */
  ghost predicate Stands(w: World, fleet: Fleet, late: set<Call>, vm: Agent, node: Agent) {
    Reachable(w) && w.fleet == fleet && w.late == late && At(w, DevApp) == vm && At(w, PveX570) == node
  }

  /** An agent without journals starts and comes to its report. */
  lemma ToReport(w: World, fleet: Fleet, late: set<Call>, vm: Agent, node: Agent) returns (next: World)
    requires Stands(w, fleet, late, vm, node) && vm.pc.Idle? && vm.journal.None? && vm.update.None?
    ensures Stands(next, fleet, late, vm.(pc := AtReport), node) && next.nextBoot == w.nextBoot
  {
    hide Apply, Answered, CallOf;
    next := Go(w, AgentStep(DevApp, Begin));
    next := Succeed(next, DevApp);
    next := Succeed(next, DevApp);
  }

  const STALE := CReport(DevApp, 0, true, true)

  const VM := NEW_AGENT.(boot := 1)

  /** The VM gives up a healthy report, and restarts. */
  lemma GivenUp() returns (w: World)
    ensures Stands(w, EMPTY, {STALE}, VM, NEW_AGENT)
  {
    assert After([]) == EMPTY_WORLD;
    w := ToReport(EMPTY_WORLD, EMPTY, {}, NEW_AGENT, NEW_AGENT);
    w := Go(w, AgentStep(DevApp, Request(LostRequest, true, true, false, 0)));
    w := Go(w, AgentStep(DevApp, PowerCycle));
  }

  const REPORTED := RecordState(Some(Snapshot(1, true, true, 0)), None, None)

  function Tables(vm: RecordState, nextId: Id): Fleet { Fleet(map[DevApp := vm], None, Environment(None, None), map[], nextId) }

  lemma FirstReport()
    ensures Report(EMPTY, DevApp, 1, true, true, 0) == Tables(REPORTED, 0)
  {
  }

  /** In its new boot session it reports again, and its agent ends. */
  lemma ReportedAgain() returns (w: World)
    ensures Stands(w, Tables(REPORTED, 0), {STALE}, VM, NEW_AGENT)
  {
    w := GivenUp();
    w := ToReport(w, EMPTY, {STALE}, VM, NEW_AGENT);
    FirstReport();
    hide Report;
    w := Ask(w, DevApp, true, false, 0);
    w := Go(w, AgentStep(DevApp, Crash));
  }

  /** 5:00 of the Japan-time day after the epoch. */
  const MORNING := 72_000_000

  const PLAN := Plan(0, MORNING, Scheduled, Some(0), 1, None, false)

  const PLANNED := REPORTED.(plan := Some(PLAN))

  lemma DailyTick()
    ensures Notified(Tick(Tables(REPORTED, 0), DevApp, 0), DevApp, 0) == Tables(PLANNED, 1)
  {
    var s := Tables(REPORTED, 0);
    assert NextMorning(0, DevApp) == MORNING;
    assert TickAlign(s, DevApp, 0) == s;
    assert TickCreate(s, DevApp, 0) == Tables(REPORTED.(plan := Some(PLAN.(notifiedRevision := None))), 1);
    assert TickRoll(TickCreate(s, DevApp, 0), DevApp, 0) == TickCreate(s, DevApp, 0);
  }

  /** A reboot is planned and published. */
  lemma Planned() returns (w: World)
    ensures Stands(w, Tables(PLANNED, 1), {STALE}, VM, NEW_AGENT)
  {
    w := ReportedAgain();
    DailyTick();
    hide Tick, Notified;
    w := Go(w, OutsideStep(CTick(DevApp), 0));
    w := Go(w, OutsideStep(CNotified(DevApp, 0), 0));
  }

  const FRESH := PLANNED.(snapshot := Some(Snapshot(1, true, true, MORNING)))

  const STARTED := RecordState(FRESH.snapshot, Some(PLAN.(phase := Running, executionId := Some(1))), Some(MORNING))

  lemma MorningReport()
    ensures Report(Tables(PLANNED, 1), DevApp, 1, true, true, MORNING) == Tables(FRESH, 1)
  {
    assert Report(Tables(PLANNED, 1), DevApp, 1, true, true, MORNING).hosts == map[DevApp := FRESH];
  }

  lemma MorningClaim()
    ensures Claim(Tables(FRESH, 1), DevApp, MORNING) == (Tables(STARTED, 2), Some(1))
  {
    assert Claimable(Tables(FRESH, 1), DevApp, MORNING);
    assert Claim(Tables(FRESH, 1), DevApp, MORNING).0.hosts == map[DevApp := STARTED];
  }

  /** In the morning the VM reports. */
  lemma MorningReported() returns (w: World)
    ensures Stands(w, Tables(FRESH, 1), {STALE}, VM.(pc := AtForget), NEW_AGENT)
  {
    w := Planned();
    w := ToReport(w, Tables(PLANNED, 1), {STALE}, VM, NEW_AGENT);
    MorningReport();
    hide Report, Tables;
    w := Ask(w, DevApp, true, false, MORNING);
  }

  /** It claims its reboot. */
  lemma Claimed() returns (w: World)
    ensures Stands(w, Tables(STARTED, 2), {STALE}, VM.(pc := Granted(1)), NEW_AGENT)
  {
    w := MorningReported();
    MorningClaim();
    hide Claim, Tables;
    w := Succeed(w, DevApp);
    w := Ask(w, DevApp, true, false, MORNING);
  }

  const REBOOTING := VM.(journal := Some(Journal(1, 1, None, false)), rebooting := Some(1))

  /** The reboot command takes effect. */
  lemma Rebooting() returns (w: World)
    ensures Stands(w, Tables(STARTED, 2), {STALE}, REBOOTING, NEW_AGENT)
  {
    hide NextWorld, Apply, Answered, CallOf;
    w := Claimed();
    w := Succeed(w, DevApp);
    w := Succeed(w, DevApp);
    w := Succeed(w, DevApp);
  }

  const INSPECTION := Inspection(MORNING, None, [], [], [])

  const FORGOTTEN := RecordState(Some(Snapshot(0, true, true, MORNING)), None, Some(MORNING))

  const OBSERVED := Tables(FORGOTTEN, 2).(environment := Environment(Some(INSPECTION), None))

  lemma StaleReport()
    ensures Report(Tables(STARTED, 2), DevApp, 0, true, true, MORNING) == Tables(FORGOTTEN, 2)
    ensures ObserveEnvironment(Tables(FORGOTTEN, 2), INSPECTION, MORNING) == OBSERVED
  {
  }

  /** The report of the earlier boot session arrives, and the fleet takes the reboot for done. */
  lemma Forgotten() returns (w: World)
    ensures Stands(w, OBSERVED, {STALE}, REBOOTING, NEW_AGENT)
  {
    w := Rebooting();
    StaleReport();
    hide Report, ObserveEnvironment;
    w := Go(w, LateStep(STALE, MORNING));
    w := Go(w, OutsideStep(CObserve(INSPECTION), MORNING));
  }

  const NODE := RecordState(Some(Snapshot(0, false, true, MORNING)), None, None)

  const NODE_REPORTED := OBSERVED.(hosts := map[DevApp := FORGOTTEN, PveX570 := NODE])

  const ADMITTED := NODE_REPORTED.(
    lock := Some(Lock(PveX570, 2, false)), nextId := 3,
    environment := Environment(Some(INSPECTION), Some(NewGate(PveX570, 2, Update, MORNING, INSPECTION))))

  lemma NodeReport()
    ensures Report(OBSERVED, PveX570, 0, false, true, MORNING) == NODE_REPORTED
  {
  }

  lemma NodeClaim()
    ensures ClaimUpdate(NODE_REPORTED, PveX570, MORNING) == (ADMITTED, Some(2))
  {
    assert UpdateClaimable(NODE_REPORTED, PveX570, MORNING);
  }

  /** A node reports before its package upgrade. */
  lemma NodeReported() returns (w: World)
    ensures Stands(w, NODE_REPORTED, {STALE}, REBOOTING, NEW_AGENT.(pc := UClaim))
  {
    w := Forgotten();
    NodeReport();
    hide Report;
    w := Go(w, AgentStep(PveX570, BeginUpdate));
    w := Succeed(w, PveX570);
    w := Ask(w, PveX570, false, true, MORNING);
  }

  /** It is admitted, and the upgrade begins. */
  lemma Admitted() returns (w: World)
    ensures Stands(w, ADMITTED, {STALE}, REBOOTING, NEW_AGENT.(pc := UGranted(2)))
  {
    w := NodeReported();
    NodeClaim();
    hide ClaimUpdate;
    w := Ask(w, PveX570, false, true, MORNING);
  }

  lemma Upgrading() returns (w: World)
    ensures Stands(w, ADMITTED, {STALE}, REBOOTING, NEW_AGENT.(pc := UReady(2), update := Some(UpdateJournal(2, None))))
  {
    hide NextWorld, Apply, Answered, CallOf, AtWork;
    w := Admitted();
    w := Succeed(w, PveX570);
    w := Succeed(w, PveX570);
  }

  lemma BothAtWork() returns (w: World)
    ensures Reachable(w) && AtWork(At(w, DevApp)) && AtWork(At(w, PveX570))
  {
    hide NextWorld, Apply, Answered, CallOf;
    w := Upgrading();
    w := Succeed(w, PveX570);
  }

  /** Without timeliness the exclusion fails: the VM reboots while the node upgrades. */
  lemma StaleReportAdmitsSecondHost() returns (steps: seq<Step>)
    ensures AtWork(At(After(steps), DevApp)) && AtWork(At(After(steps), PveX570))
    ensures !Timely(steps)
  {
    hide NextWorld;
    var w := BothAtWork();
    steps :| After(steps) == w;
    if Timely(steps) { AtMostOneHostAtWork(steps, DevApp, PveX570); }
  }
}
