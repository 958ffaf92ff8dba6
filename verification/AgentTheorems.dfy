/** One host at a time: what needs the fleet to know the boot session of a host that reboots. A
    request may be as late as it likes, except that no healthy report of an earlier boot session
    arrives while its host is claiming, preparing or performing a reboot. */
module AgentTheorems {
  import opened Wrappers
  import opened Policy
  import opened FleetSpec
  import opened FleetCoupling
  import opened AgentSpec
  import opened AgentSafety
  import opened AgentEveryRun

  /** A late report describes the boot session its host is in. */
  predicate InSession(w: World, call: Call) { call.CReport? && call.healthy ==> call.bootId == At(w, call.host).boot }

  /** A late request that is no stale report, or one of a host that does not rely on its session. */
  predicate IsTimely(w: World, call: Call) {
    InSession(w, call) || IsAtRest(w.fleet, At(w, call.host), call.host)
  }

  predicate Timely(steps: seq<Step>) {
    steps == [] ||
    (Timely(steps[..|steps| - 1]) &&
     (steps[|steps| - 1].LateStep? ==> IsTimely(After(steps[..|steps| - 1]), steps[|steps| - 1].call)))
  }

  /** A late request of the host cannot withdraw the reboot it is in, nor one it may still decide about. */
  predicate SparesReboots(call: Call, agent: Agent, nextId: Id) {
    call.CRebootResult? ==>
      && call.execution < nextId && Undecided(agent.pc) != Some(call.execution)
      && (agent.rebooting == Some(call.execution) ==> call.outcome.FailedOutcome?)
  }

  predicate Invariant(w: World) {
    && WorldIsOrderly(w)
    && (forall host :: Accounted(w.fleet, At(w, host), host))
    && (forall call | call in w.late :: SparesReboots(call, HostAgent(w, call), w.fleet.nextId))
  }

  // ----- the other hosts -----

  /** A call that another host or nobody's agent makes leaves this host safe. */
  lemma OthersStaySafe(s: Fleet, agent: Agent, host: Host, call: Call, now: int)
    requires Coupled(s) && Safe(s, agent, host)
    requires !call.CRecover? && (IsOutside(call) || call.host != host)
    ensures Safe(Apply(s, call, now), agent, host)
  {
    hide Apply, Orderly, Accounted, Coupled;
    CallKeepsOrderly(s, agent, host, call, now);
    CallKeepsAccounted(s, agent, host, call, now);
  }

  lemma OthersKeepAccounted(w: World, call: Call, now: int, host: Host)
    requires Coupled(w.fleet) && Accounted(w.fleet, At(w, host), host) && !call.CRecover? && (IsOutside(call) || call.host != host)
    ensures Accounted(Apply(w.fleet, call, now), At(w, host), host)
  {
    hide Apply, Accounted, Coupled;
    CallKeepsAccounted(w.fleet, At(w, host), host, call, now);
  }

  lemma LateKeepsAccounted(w: World, call: Call, now: int, host: Host)
    requires Invariant(w) && call in w.late && IsTimely(w, call)
    ensures Accounted(Apply(w.fleet, call, now), At(w, host), host)
  {
    assert SparesReboots(call, HostAgent(w, call), w.fleet.nextId) && SparesUpgrades(call, HostAgent(w, call), w.fleet.nextId);
    assert Accounted(w.fleet, At(w, host), host);
    LateCallIsOwn(w, call);
    hide Invariant, WorldIsOrderly, Apply, Accounted, Coupled, IsAtRest;
    if call.host == host { CallKeepsAccounted(w.fleet, At(w, host), host, call, now); } else { OthersKeepAccounted(w, call, now, host); }
  }

  // ----- step by step -----

  lemma ActKeepsAccounted(w: World, host: Host, act: Act)
    requires Coupled(w.fleet) && Safe(w.fleet, At(w, host), host) && CanAct(At(w, host), host, act)
    ensures Accounted(ActOf(w, host, act).fleet, At(ActOf(w, host, act), host), host)
  {
    hide Apply, Answered, CallOf, Moved, Accounted, SelfConsistent, Coupled, InstallIsLocked, UpdateGrantIsLocked;
    var agent := At(w, host);
    match act
    case Begin => BeginningIsAccounted(w.fleet, agent, host);
    case BeginUpdate => BeginningIsAccounted(w.fleet, agent, host);
    case Move(ok, effect, choice) => MoveKeepsAccounted(w.fleet, agent, host, ok, effect, choice);
    case Request(net, required, healthy, more, now) =>
      if net.LostRequest? { EndingIsAccounted(w.fleet, agent, host, 0); }
      else { RequestKeepsAccounted(w.fleet, agent, host, net, required, healthy, more, now); }
    case _ => EndingIsAccounted(w.fleet, agent, host, w.nextBoot);
  }

  lemma OtherActKeepsAccounted(w: World, acting: Host, act: Act, host: Host)
    requires Coupled(w.fleet) && Accounted(w.fleet, At(w, host), host) && CanAct(At(w, acting), acting, act) && acting != host
    ensures Accounted(ActOf(w, acting, act).fleet, At(ActOf(w, acting, act), host), host)
  {
    OthersIdle(w, acting, act);
    ActedFleet(w, acting, act);
    hide Apply, CallOf, Accounted, Coupled, ActOf;
    if act.Request? && !act.net.LostRequest? {
      OwnCall(At(w, acting), acting, act.required, act.healthy);
      OthersKeepAccounted(w, CallOf(At(w, acting), acting, act.required, act.healthy), act.now, host);
    }
  }

  lemma StepKeepsAccounted(w: World, step: Step, host: Host)
    requires Invariant(w) && CanStep(w, step) && (step.LateStep? ==> IsTimely(w, step.call))
    ensures Accounted(NextWorld(w, step).fleet, At(NextWorld(w, step), host), host)
  {
    assert WorldIsOrderly(w) && Orderly(w.fleet, At(w, host), host) && Accounted(w.fleet, At(w, host), host);
    hide Invariant, Apply, Orderly, Accounted, Coupled, CanAct, ActOf, IsTimely;
    match step
    case OutsideStep(call, now) => OthersKeepAccounted(w, call, now, host);
    case LateStep(call, now) => LateKeepsAccounted(w, call, now, host);
    case AgentStep(h, act) => if h == host { ActKeepsAccounted(w, host, act); } else { OtherActKeepsAccounted(w, h, act, host); }
  }

  /** A request its sender gives up is harmless, whenever it arrives. */
  lemma GivenUpIsHarmless(s: Fleet, agent: Agent, host: Host, required: bool, healthy: bool)
    requires IsRequest(agent.pc) && Safe(s, agent, host) && JournalsAreOld(agent, s.nextId)
    ensures var call := CallOf(agent, host, required, healthy);
      SparesUpgrades(call, agent.(pc := Idle), s.nextId) && SparesReboots(call, agent.(pc := Idle), s.nextId)
  {
    GivenUpSparesUpgrades(s, agent, host, required, healthy);
    hide Holds, Locks, MarkerFits, SparesUpgrades, GrantIsHeld, Reported, InstallIsLocked, UpdateGrantIsLocked;
  }

  lemma SparingRebootsStays(call: Call, before: Agent, after: Agent, nextId: Id, nextId': Id)
    requires SparesReboots(call, before, nextId) && Continues(before, after, nextId) && nextId <= nextId'
    ensures SparesReboots(call, after, nextId')
  {
  }

  lemma StepKeepsSparing(w: World, step: Step, call: Call)
    requires Invariant(w) && CanStep(w, step) && call in NextWorld(w, step).late
    ensures SparesReboots(call, HostAgent(NextWorld(w, step), call), NextWorld(w, step).fleet.nextId)
  {
    hide NextWorld;
    if call in w.late {
      assert SparesReboots(call, HostAgent(w, call), w.fleet.nextId) && SparesUpgrades(call, HostAgent(w, call), w.fleet.nextId);
      FleetGoesOn(w, step);
      LateCallIsOwn(w, call);
      StepContinues(w, step, call.host);
      hide Invariant, WorldIsOrderly, Continues;
      SparingRebootsStays(call, At(w, call.host), At(NextWorld(w, step), call.host), w.fleet.nextId, NextWorld(w, step).fleet.nextId);
    } else {
      LateGrows(w, step, call);
      assert Orderly(w.fleet, At(w, step.host), step.host) && Accounted(w.fleet, At(w, step.host), step.host);
      assert JournalsAreOld(At(w, step.host), w.fleet.nextId);
      hide Invariant, WorldIsOrderly, CallOf, Orderly, Accounted, JournalsAreOld;
      OwnCall(At(w, step.host), step.host, step.act.required, step.act.healthy);
      GivenUpIsHarmless(w.fleet, At(w, step.host), step.host, step.act.required, step.act.healthy);
    }
  }

  lemma StepKeeps(w: World, step: Step)
    requires Invariant(w) && (step.LateStep? ==> IsTimely(w, step.call))
    ensures Invariant(NextWorld(w, step))
  {
    hide NextWorld, CanStep, WorldIsOrderly, Accounted, SparesReboots, IsTimely;
    StepKeepsOrderly(w, step);
    if CanStep(w, step) {
      forall host ensures Accounted(NextWorld(w, step).fleet, At(NextWorld(w, step), host), host) { StepKeepsAccounted(w, step, host); }
      forall call | call in NextWorld(w, step).late ensures SparesReboots(call, HostAgent(NextWorld(w, step), call), NextWorld(w, step).fleet.nextId) {
        StepKeepsSparing(w, step, call);
      }
    } else {
      ImpossibleStep(w, step);
    }
  }

  lemma StartIsSafe()
    ensures Invariant(EMPTY_WORLD)
  {
    StartIsOrderly();
    hide WorldIsOrderly;
  }

  lemma {:induction false} EveryRunIsSafe(steps: seq<Step>)
    requires Timely(steps)
    ensures Invariant(After(steps))
  {
    if steps == [] {
      StartIsSafe();
    } else {
      hide Invariant, NextWorld, IsTimely;
      EveryRunIsSafe(steps[..|steps| - 1]);
      StepKeeps(After(steps[..|steps| - 1]), steps[|steps| - 1]);
    }
  }

  /** A late request keeps the invariant of all hosts if and only if it is timely. */
  lemma LateKeepsIff(w: World, call: Call, now: int)
    requires Invariant(w) && call in w.late
    ensures Invariant(NextWorld(w, LateStep(call, now))) <==> IsTimely(w, call)
  {
    if IsTimely(w, call) {
      StepKeeps(w, LateStep(call, now));
    } else {
      assert Accounted(w.fleet, At(w, call.host), call.host);
      assert WorldIsOrderly(w);
      StaleReportBreaks(w.fleet, At(w, call.host), call.host, call, now);
      hide Apply, Accounted, WorldIsOrderly;
      assert !Accounted(NextWorld(w, LateStep(call, now)).fleet, At(NextWorld(w, LateStep(call, now)), call.host), call.host);
    }
  }

  /** A report of another boot session is taken for the recovery from a running reboot. */
  lemma StaleReportEndsHold(s: Fleet, call: Call, now: int, host: Host, execution: Id, boot: Id)
    requires Coupled(s) && Runs(s, host, execution, boot) && call.CReport? && call.host == host && call.healthy && call.bootId != boot
    ensures !Holds(Apply(s, call, now), host, execution, boot)
  {
    var (st, finishes) := AfterSnapshot(s, host, Snapshot(call.bootId, call.required, call.healthy, now));
    assert finishes <==> IsPve(host);
    if !finishes { assert st.plan.None?; }
  }

  lemma StaleReportBreaks(s: Fleet, agent: Agent, host: Host, call: Call, now: int)
    requires Coupled(s) && Accounted(s, agent, host) && IsStaleReport(call, agent, host) && !IsAtRest(s, agent, host)
    ensures !Accounted(Apply(s, call, now), agent, host)
    ensures agent.rebooting.Some? ==> !Holds(Apply(s, call, now), host, agent.rebooting.value, agent.boot)
  {
    hide Apply, Coupled, Holds;
    SnapshotChange(s, call, now, host);
    if agent.rebooting.Some? { StaleReportEndsHold(s, call, now, host, agent.rebooting.value, agent.boot); }
    else if Undecided(agent.pc).Some? { StaleReportEndsHold(s, call, now, host, Undecided(agent.pc).value, agent.boot); }
  }

  // ----- what it means -----

  predicate AtWork(agent: Agent) { agent.rebooting.Some? || agent.installing.Some? }

  /** A reboot under way belongs to that host's running or failed plan. */
  lemma RebootBelongsToThePlan(steps: seq<Step>, host: Host)
    requires Timely(steps) && At(After(steps), host).rebooting.Some?
    ensures var w, agent := After(steps), At(After(steps), host);
            && BusyRecord(Read(w.fleet, host))
            && Read(w.fleet, host).plan.value.executionId == agent.rebooting
            && Read(w.fleet, host).plan.value.bootId == agent.boot
  {
    EveryRunIsSafe(steps);
    assert Accounted(After(steps).fleet, At(After(steps), host), host);
    hide Invariant;
  }

  /** No two hosts are ever inside a reboot or a package upgrade at once, and no host is in both. */
  lemma AtMostOneHostAtWork(steps: seq<Step>, a: Host, b: Host)
    requires Timely(steps) && AtWork(At(After(steps), a)) && AtWork(At(After(steps), b))
    ensures a == b && !(At(After(steps), a).rebooting.Some? && At(After(steps), a).installing.Some?)
  {
    hide After;
    if At(After(steps), a).rebooting.Some? { RebootBelongsToThePlan(steps, a); }
    if At(After(steps), b).rebooting.Some? { RebootBelongsToThePlan(steps, b); }
    if At(After(steps), a).installing.Some? { UpgradeBelongsToTheLock(steps, a); }
    if At(After(steps), b).installing.Some? { UpgradeBelongsToTheLock(steps, b); }
    EveryRunIsOrderly(steps);
    var s := After(steps).fleet;
    assert Operations(s) <= 1;
    assert a in {DevApp, PveX570, PveB550m} && b in {DevApp, PveX570, PveB550m};
  }
}
