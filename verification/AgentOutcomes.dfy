/** What a host reports is what happened to it: in every run a result that is journaled, on its way or
    already in the fleet's books tells how the apt run or the reboot command of its execution ended.
    So a row of work that was done goes only with an observation or with a report of the host. */
module AgentOutcomes {
  import opened Wrappers
  import opened Policy
  import opened EnvironmentHealth
  import opened FleetSpec
  import opened FleetCoupling
  import opened FleetRelease
  import opened AgentSpec
  import opened AgentSafety
  import opened AgentEveryRun

  // ----- what happened -----

  /** Step i is a local step of the host's agent. */
  predicate Moves(steps: seq<AgentSpec.Step>, i: nat, host: Host) {
    i < |steps| && steps[i].AgentStep? && steps[i].host == host && steps[i].act.Move? && CanStep(AgentSpec.After(steps[..i]), steps[i])
  }

  /** What makes the result of an upgrade: its check refused it, or apt ended. */
  predicate UpdateCause(pc: Pc, act: Act, e: Id, o: Outcome) {
    act.Move? &&
    match o
    case Complete => pc == UInstalling(e) && act.ok
    case FailedOutcome => pc == UInstalling(e) && !act.ok
    case Blocked => pc == UCheck(e) && !act.ok
  }

  /** What makes the result of a reboot: it was not needed any more; its command failed; or its checks
      refused it, the container did not come back, or an earlier process had been interrupted. */
  predicate RebootCause(pc: Pc, act: Act, e: Id, o: Outcome) {
    act.Move? &&
    match o
    case Complete => pc == Preflight(e) && act.choice.NotNeeded?
    case FailedOutcome => pc == Ready(e) && !act.ok
    case Blocked =>
      || (pc == Preflight(e) && act.choice.Refuse?)
      || ((pc == ContainerStopped(e) || pc == ContainerRestarted(e)) && !act.ok)
      || (pc.AtRestored? && pc.pending.execution == e && pc.pending.outcome.None?)
  }

  predicate UpdateHappened(steps: seq<AgentSpec.Step>, host: Host, e: Id, o: Outcome) {
    exists i | 0 <= i < |steps| :: Moves(steps, i, host) && UpdateCause(At(AgentSpec.After(steps[..i]), host).pc, steps[i].act, e, o)
  }

  predicate RebootHappened(steps: seq<AgentSpec.Step>, host: Host, e: Id, o: Outcome) {
    exists i | 0 <= i < |steps| :: Moves(steps, i, host) && RebootCause(At(AgentSpec.After(steps[..i]), host).pc, steps[i].act, e, o)
  }

  /** The apt run of the execution ended on the host and reported this. */
  predicate AptEnded(steps: seq<AgentSpec.Step>, host: Host, e: Id, ok: bool) {
    UpdateHappened(steps, host, e, if ok then Complete else FailedOutcome)
  }

  /** The reboot command of the execution reported a failure on the host. */
  predicate RebootFailed(steps: seq<AgentSpec.Step>, host: Host, e: Id) { RebootHappened(steps, host, e, FailedOutcome) }

  predicate NeverInstalled(w: World, e: Id) {
    e < w.fleet.nextId && e !in w.installs && forall host :: Unstarted(At(w, host).pc) != Some(e)
  }

  predicate NeverRebooted(w: World, e: Id) {
    e < w.fleet.nextId && e !in w.reboots && forall host :: Undecided(At(w, host).pc) != Some(e)
  }

  /** The result has its cause; blocked: apt never ran and never will. */
  predicate UpdateIsTrue(steps: seq<AgentSpec.Step>, host: Host, e: Id, o: Outcome) {
    UpdateHappened(steps, host, e, o) && (o.Blocked? ==> NeverInstalled(AgentSpec.After(steps), e))
  }

  /** The result has its cause; complete or blocked: no reboot was commanded and none will be. */
  predicate RebootIsTrue(steps: seq<AgentSpec.Step>, host: Host, e: Id, o: Outcome) {
    RebootHappened(steps, host, e, o) && (!o.FailedOutcome? ==> NeverRebooted(AgentSpec.After(steps), e))
  }

  // ----- where a result is told -----

  predicate TellsUpdate(agent: Agent, e: Id, o: Outcome) {
    agent.update == Some(UpdateJournal(e, Some(o))) || agent.pc == USaving(e, o)
  }

  predicate TellsReboot(agent: Agent, e: Id, o: Outcome) {
    || (agent.journal.Some? && agent.journal.value.execution == e && agent.journal.value.outcome == Some(o))
    || (agent.pc.Saving? && agent.pc.execution == e && agent.pc.outcome == o)
    || (agent.pc.AtInterrupted? && agent.pc.pending.execution == e && agent.pc.pending.outcome == Some(o))
  }

  /** A marked journal without an outcome is of an execution that has not come to its reboot. */
  predicate MarkedIsFree(w: World, host: Host) {
    var agent := At(w, host);
    agent.journal.Some? && agent.journal.value.outcome.None? && (agent.journal.value.loockitStopped || agent.pc.AtRestore? || agent.pc.AtRestored?) ==>
      Undecided(agent.pc) == Some(agent.journal.value.execution) || NeverRebooted(w, agent.journal.value.execution)
  }

  ghost predicate AgentTellsTruth(steps: seq<AgentSpec.Step>, host: Host) {
    var agent := At(AgentSpec.After(steps), host);
    && (forall e, o | TellsUpdate(agent, e, o) :: UpdateIsTrue(steps, host, e, o))
    && (forall e, o | TellsReboot(agent, e, o) :: RebootIsTrue(steps, host, e, o))
    && MarkedIsFree(AgentSpec.After(steps), host)
  }

  predicate CallTellsTruth(steps: seq<AgentSpec.Step>, call: Call) {
    && (call.CUpdateResult? ==> UpdateIsTrue(steps, call.host, call.execution, call.outcome))
    && (call.CRebootResult? ==> RebootIsTrue(steps, call.host, call.execution, call.outcome))
  }

  // ----- the rows that a result has marked -----

  ghost predicate LockIsTrue(steps: seq<AgentSpec.Step>, s: Fleet) {
    s.lock.Some? && s.lock.value.failed ==> AptEnded(steps, s.lock.value.host, s.lock.value.execution, false)
  }

  predicate IsCompletedUpdate(gate: Option<HealthGate>) { gate.Some? && gate.value.kind.Update? && gate.value.completedAt.Some? }

  ghost predicate GateIsTrue(steps: seq<AgentSpec.Step>, s: Fleet) {
    IsCompletedUpdate(GateOf(s)) ==> AptEnded(steps, GateOf(s).value.host, GateOf(s).value.executionId, true)
  }

  predicate IsFailedPlan(plan: Option<Plan>) { plan.Some? && plan.value.phase.Failed? && plan.value.executionId.Some? }

  ghost predicate PlanIsTrue(steps: seq<AgentSpec.Step>, s: Fleet, host: Host) {
    IsFailedPlan(Read(s, host).plan) ==> RebootFailed(steps, host, Read(s, host).plan.value.executionId.value)
  }

  ghost predicate RowsTellTruth(steps: seq<AgentSpec.Step>, s: Fleet) {
    LockIsTrue(steps, s) && GateIsTrue(steps, s) && forall host :: PlanIsTrue(steps, s, host)
  }

  ghost predicate Truth(steps: seq<AgentSpec.Step>) {
    && (forall host :: AgentTellsTruth(steps, host))
    && (forall call | call in AgentSpec.After(steps).late :: CallTellsTruth(steps, call))
    && RowsTellTruth(steps, AgentSpec.After(steps).fleet)
  }

  // ----- truths stay true -----

  function Continued(steps: seq<AgentSpec.Step>, step: AgentSpec.Step): (more: seq<AgentSpec.Step>)
    ensures more == steps + [step] && |more| > 0 && more[..|more| - 1] == steps && more[|more| - 1] == step
    ensures AgentSpec.After(more) == NextWorld(AgentSpec.After(steps), step)
  {
    assert (steps + [step])[..|steps|] == steps;
    steps + [step]
  }

  lemma MovesStays(steps: seq<AgentSpec.Step>, step: AgentSpec.Step, i: nat, host: Host)
    requires Moves(steps, i, host)
    ensures Moves(Continued(steps, step), i, host) && Continued(steps, step)[i] == steps[i] && Continued(steps, step)[..i] == steps[..i]
  {
    assert Continued(steps, step)[..i] == steps[..i];
  }

  lemma UpdateHappenedStays(steps: seq<AgentSpec.Step>, step: AgentSpec.Step, host: Host, e: Id, o: Outcome)
    requires UpdateHappened(steps, host, e, o)
    ensures UpdateHappened(Continued(steps, step), host, e, o)
  {
    hide CanStep, UpdateCause, After;
    var i :| 0 <= i < |steps| && Moves(steps, i, host) && UpdateCause(At(AgentSpec.After(steps[..i]), host).pc, steps[i].act, e, o);
    MovesStays(steps, step, i, host);
  }

  lemma RebootHappenedStays(steps: seq<AgentSpec.Step>, step: AgentSpec.Step, host: Host, e: Id, o: Outcome)
    requires RebootHappened(steps, host, e, o)
    ensures RebootHappened(Continued(steps, step), host, e, o)
  {
    hide CanStep, RebootCause, After;
    var i :| 0 <= i < |steps| && Moves(steps, i, host) && RebootCause(At(AgentSpec.After(steps[..i]), host).pc, steps[i].act, e, o);
    MovesStays(steps, step, i, host);
  }

  lemma AptEndedStays(steps: seq<AgentSpec.Step>, step: AgentSpec.Step, host: Host, e: Id, ok: bool)
    requires AptEnded(steps, host, e, ok)
    ensures AptEnded(Continued(steps, step), host, e, ok)
  {
    UpdateHappenedStays(steps, step, host, e, if ok then Complete else FailedOutcome);
  }

  lemma FailedStays(steps: seq<AgentSpec.Step>, step: AgentSpec.Step, host: Host, e: Id)
    requires RebootFailed(steps, host, e)
    ensures RebootFailed(Continued(steps, step), host, e)
  {
    RebootHappenedStays(steps, step, host, e, FailedOutcome);
  }

  /** A cause at the last step. */
  lemma JustHappened(steps: seq<AgentSpec.Step>, step: AgentSpec.Step, e: Id, o: Outcome)
    requires step.AgentStep? && CanStep(AgentSpec.After(steps), step)
    ensures UpdateCause(At(AgentSpec.After(steps), step.host).pc, step.act, e, o) ==> UpdateHappened(Continued(steps, step), step.host, e, o)
    ensures RebootCause(At(AgentSpec.After(steps), step.host).pc, step.act, e, o) ==> RebootHappened(Continued(steps, step), step.host, e, o)
  {
    var more := Continued(steps, step);
    assert more[|steps|] == step && more[..|steps|] == steps;
    hide UpdateCause, RebootCause, After, CanStep;
    assert step.act.Move? ==> Moves(more, |steps|, step.host);
    CausesAreMoves(At(AgentSpec.After(steps), step.host).pc, step.act, e, o);
  }

  lemma CausesAreMoves(pc: Pc, act: Act, e: Id, o: Outcome)
    ensures UpdateCause(pc, act, e, o) || RebootCause(pc, act, e, o) ==> act.Move?
  {
  }

  lemma NeverStays(w: World, step: AgentSpec.Step, e: Id)
    requires WorldIsOrderly(w) && CanStep(w, step)
    ensures NeverInstalled(w, e) ==> NeverInstalled(NextWorld(w, step), e)
    ensures NeverRebooted(w, e) ==> NeverRebooted(NextWorld(w, step), e)
  {
    hide WorldIsOrderly, NextWorld, CanStep, Coupled;
    FleetGoesOn(w, step) by { assert Coupled(w.fleet) by { OrderlyIsCoupled(w); } }
    LogsGrow(w, step);
    if step.AgentStep? { ReadyIsUndecided(At(w, step.host).pc); }
    hide Undecided, Unstarted;
    forall host ensures Unstarted(At(w, host).pc) != Some(e) && e < w.fleet.nextId ==> Unstarted(At(NextWorld(w, step), host).pc) != Some(e) { StepContinues(w, step, host); }
    forall host ensures Undecided(At(w, host).pc) != Some(e) && e < w.fleet.nextId ==> Undecided(At(NextWorld(w, step), host).pc) != Some(e) { StepContinues(w, step, host); }
  }

  lemma OrderlyIsCoupled(w: World)
    requires WorldIsOrderly(w)
    ensures Coupled(w.fleet)
  {
  }

  lemma UpdateStaysTrue(steps: seq<AgentSpec.Step>, step: AgentSpec.Step, host: Host, e: Id, o: Outcome)
    requires WorldIsOrderly(AgentSpec.After(steps)) && CanStep(AgentSpec.After(steps), step) && UpdateIsTrue(steps, host, e, o)
    ensures UpdateIsTrue(Continued(steps, step), host, e, o)
  {
    hide WorldIsOrderly, CanStep, UpdateHappened, NeverInstalled;
    UpdateHappenedStays(steps, step, host, e, o);
    NeverStays(AgentSpec.After(steps), step, e);
  }

  lemma RebootStaysTrue(steps: seq<AgentSpec.Step>, step: AgentSpec.Step, host: Host, e: Id, o: Outcome)
    requires WorldIsOrderly(AgentSpec.After(steps)) && CanStep(AgentSpec.After(steps), step) && RebootIsTrue(steps, host, e, o)
    ensures RebootIsTrue(Continued(steps, step), host, e, o)
  {
    hide WorldIsOrderly, CanStep, RebootHappened, NeverRebooted;
    RebootHappenedStays(steps, step, host, e, o);
    NeverStays(AgentSpec.After(steps), step, e);
  }

  // ----- new results -----

  /** A result is told once it has its cause. */
  lemma MovedTellsUpdate(agent: Agent, host: Host, ok: bool, effect: bool, choice: Choice, e: Id, o: Outcome)
    requires UpdateFits(agent) && CanAct(agent, host, Move(ok, effect, choice)) && TellsUpdate(Moved(agent, ok, effect, choice, host), e, o)
    ensures TellsUpdate(agent, e, o) || UpdateCause(agent.pc, Move(ok, effect, choice), e, o)
  {
  }

  lemma MovedTellsReboot(agent: Agent, host: Host, ok: bool, effect: bool, choice: Choice, e: Id, o: Outcome)
    requires SelfConsistent(agent, host) && CanAct(agent, host, Move(ok, effect, choice)) && TellsReboot(Moved(agent, ok, effect, choice, host), e, o)
    ensures TellsReboot(agent, e, o) || RebootCause(agent.pc, Move(ok, effect, choice), e, o)
  {
    hide Moved, TellsReboot, RebootCause, UpdateFits, MarkerFits, JournalFits;
    if IsStartup(agent.pc) { StartupTellsReboot(agent, host, ok, effect, choice, e, o); }
    else { WorkTellsReboot(agent, host, ok, effect, choice, e, o); }
  }

  lemma StartupTellsReboot(agent: Agent, host: Host, ok: bool, effect: bool, choice: Choice, e: Id, o: Outcome)
    requires IsStartup(agent.pc) && JournalFits(agent) && CanAct(agent, host, Move(ok, effect, choice)) && TellsReboot(Moved(agent, ok, effect, choice, host), e, o)
    ensures TellsReboot(agent, e, o) || RebootCause(agent.pc, Move(ok, effect, choice), e, o)
  {
  }

  lemma WorkTellsReboot(agent: Agent, host: Host, ok: bool, effect: bool, choice: Choice, e: Id, o: Outcome)
    requires !IsStartup(agent.pc) && JournalFits(agent) && CanAct(agent, host, Move(ok, effect, choice)) && TellsReboot(Moved(agent, ok, effect, choice, host), e, o)
    ensures TellsReboot(agent, e, o) || RebootCause(agent.pc, Move(ok, effect, choice), e, o)
  {
  }

  lemma PlainTells(w: World, host: Host, act: Act, e: Id, o: Outcome)
    requires CanAct(At(w, host), host, act) && !act.Move? && !act.Request?
    ensures TellsUpdate(At(ActOf(w, host, act), host), e, o) ==> TellsUpdate(At(w, host), e, o)
    ensures TellsReboot(At(ActOf(w, host, act), host), e, o) ==> TellsReboot(At(w, host), e, o)
  {
  }

  lemma RequestTells(w: World, host: Host, act: Act, e: Id, o: Outcome)
    requires act.Request? && CanAct(At(w, host), host, act)
    ensures TellsUpdate(At(ActOf(w, host, act), host), e, o) ==> TellsUpdate(At(w, host), e, o)
    ensures TellsReboot(At(ActOf(w, host, act), host), e, o) ==> TellsReboot(At(w, host), e, o)
  {
    hide Apply, Answered, CallOf, ActOf;
    Requesting(w, host, act);
    AnswerTellsNothing(w.fleet, At(w, host), host, act.more, act.now);
  }

  lemma AnswerTellsNothing(s: Fleet, agent: Agent, host: Host, more: bool, now: int)
    requires IsRequest(agent.pc)
    ensures var pc := Answered(agent, host, s, more, now); !pc.USaving? && !pc.Saving? && !pc.AtInterrupted? && !pc.AtRestore? && !pc.AtRestored?
  {
    hide UpdateResult, RebootResult, Claim, ClaimUpdate;
  }

  lemma GrantOfNobodyElse(w: World, host: Host)
    requires WorldIsOrderly(w)
    ensures Unstarted(At(w, host).pc).Some? ==>
      var e := Unstarted(At(w, host).pc).value;
      e < w.fleet.nextId && e !in w.installs && forall other | other != host :: Unstarted(At(w, other).pc) != Some(e)
    ensures Undecided(At(w, host).pc).Some? ==>
      var e := Undecided(At(w, host).pc).value;
      e < w.fleet.nextId && e !in w.reboots && forall other | other != host :: Undecided(At(w, other).pc) != Some(e)
  {
    assert PcIsUnspent(w, host) && forall other | other != host :: GrantsDiffer(At(w, host).pc, At(w, other).pc);
    hide Coupled, Orderly, JournalsAreOld, SparesUpgrades, Undecided, Unstarted;
  }

  /** A grant that is given up unused never comes to its work. */
  lemma GivenUpIsNever(w: World, step: AgentSpec.Step, e: Id)
    requires WorldIsOrderly(w) && CanStep(w, step) && step.AgentStep?
    ensures Unstarted(At(w, step.host).pc) == Some(e) && Unstarted(At(NextWorld(w, step), step.host).pc).None? && !At(w, step.host).pc.UReady? ==>
      NeverInstalled(NextWorld(w, step), e)
    ensures Undecided(At(w, step.host).pc) == Some(e) && Undecided(At(NextWorld(w, step), step.host).pc).None? && !At(w, step.host).pc.Ready? ==>
      NeverRebooted(NextWorld(w, step), e)
  {
    hide WorldIsOrderly, NextWorld, CanStep, Coupled, ActOf;
    GrantOfNobodyElse(w, step.host);
    LogsGrow(w, step);
    OrderlyIsCoupled(w);
    FleetGoesOn(w, step);
    OthersStay(w, step);
    hide Undecided, Unstarted;
  }

  lemma OthersStay(w: World, step: AgentSpec.Step)
    requires CanStep(w, step) && step.AgentStep?
    ensures forall other | other != step.host :: At(NextWorld(w, step), other) == At(w, other)
  {
    OthersIdle(w, step.host, step.act);
    hide ActOf, CanAct;
  }

  lemma MoveOfStep(w: World, step: AgentSpec.Step)
    requires CanStep(w, step) && step.AgentStep? && step.act.Move?
    ensures At(NextWorld(w, step), step.host) == Moved(At(w, step.host), step.act.ok, step.act.effect, step.act.choice, step.host)
  {
    hide Moved;
  }

  // ----- every step keeps the truth -----

  lemma NewUpdateIsTrue(steps: seq<AgentSpec.Step>, step: AgentSpec.Step, e: Id, o: Outcome)
    requires var w := AgentSpec.After(steps); WorldIsOrderly(w) && CanStep(w, step) && step.AgentStep? && AgentTellsTruth(steps, step.host)
    requires TellsUpdate(At(NextWorld(AgentSpec.After(steps), step), step.host), e, o)
    ensures UpdateIsTrue(Continued(steps, step), step.host, e, o)
  {
    var w := AgentSpec.After(steps);
    var agent := At(w, step.host);
    assert Orderly(w.fleet, agent, step.host);
    hide WorldIsOrderly, NextWorld, Moved, UpdateIsTrue, TellsUpdate, JournalFits, MarkerFits;
    if TellsUpdate(agent, e, o) {
      UpdateStaysTrue(steps, step, step.host, e, o);
    } else if step.act.Move? {
      MoveOfStep(w, step);
      MovedTellsUpdate(agent, step.host, step.act.ok, step.act.effect, step.act.choice, e, o);
      NewUpdate(steps, step, e, o);
    } else {
      ToldBefore(w, step, e, o);
    }
  }

  lemma ToldBefore(w: World, step: AgentSpec.Step, e: Id, o: Outcome)
    requires CanStep(w, step) && step.AgentStep? && !step.act.Move?
    ensures TellsUpdate(At(NextWorld(w, step), step.host), e, o) ==> TellsUpdate(At(w, step.host), e, o)
    ensures TellsReboot(At(NextWorld(w, step), step.host), e, o) ==> TellsReboot(At(w, step.host), e, o)
  {
    hide ActOf, CanAct, TellsUpdate, TellsReboot;
    if step.act.Request? { RequestTells(w, step.host, step.act, e, o); } else { PlainTells(w, step.host, step.act, e, o); }
  }

  lemma NewUpdate(steps: seq<AgentSpec.Step>, step: AgentSpec.Step, e: Id, o: Outcome)
    requires var w := AgentSpec.After(steps); WorldIsOrderly(w) && CanStep(w, step) && step.AgentStep?
    requires UpdateCause(At(AgentSpec.After(steps), step.host).pc, step.act, e, o)
    ensures UpdateIsTrue(Continued(steps, step), step.host, e, o)
  {
    hide UpdateHappened, WorldIsOrderly, NextWorld, CanStep, NeverInstalled, UpdateCause;
    JustHappened(steps, step, e, o);
    if o.Blocked? {
      CauseEndsCheck(AgentSpec.After(steps), step, e, o);
      GivenUpIsNever(AgentSpec.After(steps), step, e);
    }
  }

  lemma CauseEndsCheck(w: World, step: AgentSpec.Step, e: Id, o: Outcome)
    requires CanStep(w, step) && step.AgentStep? && UpdateCause(At(w, step.host).pc, step.act, e, o) && o.Blocked?
    ensures Unstarted(At(w, step.host).pc) == Some(e) && Unstarted(At(NextWorld(w, step), step.host).pc).None? && !At(w, step.host).pc.UReady?
  {
    MoveOfStep(w, step);
    hide NextWorld;
  }

  lemma NewRebootIsTrue(steps: seq<AgentSpec.Step>, step: AgentSpec.Step, e: Id, o: Outcome)
    requires var w := AgentSpec.After(steps); WorldIsOrderly(w) && CanStep(w, step) && step.AgentStep? && AgentTellsTruth(steps, step.host)
    requires TellsReboot(At(NextWorld(AgentSpec.After(steps), step), step.host), e, o)
    ensures RebootIsTrue(Continued(steps, step), step.host, e, o)
  {
    var w := AgentSpec.After(steps);
    var agent := At(w, step.host);
    assert Orderly(w.fleet, agent, step.host);
    hide WorldIsOrderly, NextWorld, Moved, RebootIsTrue, TellsReboot, SelfConsistent, Undecided, CanAct, MarkedIsFree, RebootCause;
    if TellsReboot(agent, e, o) {
      RebootStaysTrue(steps, step, step.host, e, o);
    } else if step.act.Move? {
      MoveOfStep(w, step);
      MovedTellsReboot(agent, step.host, step.act.ok, step.act.effect, step.act.choice, e, o);
      NewReboot(steps, step, e, o);
    } else {
      ToldBefore(w, step, e, o);
    }
  }

  lemma NewReboot(steps: seq<AgentSpec.Step>, step: AgentSpec.Step, e: Id, o: Outcome)
    requires var w := AgentSpec.After(steps);
      WorldIsOrderly(w) && CanStep(w, step) && step.AgentStep? && MarkedIsFree(w, step.host) && SelfConsistent(At(w, step.host), step.host)
    requires RebootCause(At(AgentSpec.After(steps), step.host).pc, step.act, e, o)
    ensures RebootIsTrue(Continued(steps, step), step.host, e, o)
  {
    var w := AgentSpec.After(steps);
    hide RebootHappened, WorldIsOrderly, NextWorld, CanStep, NeverRebooted, RebootCause, MarkedIsFree, SelfConsistent;
    JustHappened(steps, step, e, o);
    if !o.FailedOutcome? {
      if At(w, step.host).pc.AtRestored? {
        RestoredIsFree(w, step.host, step.act, e, o);
        NeverStays(w, step, e);
      } else {
        CauseEndsDecision(w, step, e, o);
        GivenUpIsNever(w, step, e);
      }
    }
  }

  lemma RestoredIsFree(w: World, host: Host, act: Act, e: Id, o: Outcome)
    requires MarkedIsFree(w, host) && SelfConsistent(At(w, host), host) && At(w, host).pc.AtRestored? && RebootCause(At(w, host).pc, act, e, o)
    ensures NeverRebooted(w, e)
  {
    hide NeverRebooted, MarkerFits, UpdateFits;
  }

  /** The cause of a refusal ends the decision about the reboot. */
  lemma CauseEndsDecision(w: World, step: AgentSpec.Step, e: Id, o: Outcome)
    requires CanStep(w, step) && step.AgentStep? && RebootCause(At(w, step.host).pc, step.act, e, o)
    requires !o.FailedOutcome? && !At(w, step.host).pc.AtRestored?
    ensures Undecided(At(w, step.host).pc) == Some(e) && Undecided(At(NextWorld(w, step), step.host).pc).None? && !At(w, step.host).pc.Ready?
  {
    MoveOfStep(w, step);
    hide NextWorld;
  }

  predicate Marked(agent: Agent) {
    agent.journal.Some? && agent.journal.value.outcome.None? && (agent.journal.value.loockitStopped || agent.pc.AtRestore? || agent.pc.AtRestored?)
  }

  /** The mark after a move: the decision is still open, or the mark was there before. */
  predicate MarkFollows(agent: Agent, after: Agent) {
    Marked(after) ==>
      || Undecided(after.pc) == Some(after.journal.value.execution)
      || (Marked(agent) && agent.journal.value.execution == after.journal.value.execution && !agent.pc.Ready?)
  }

  /** A journal is marked by a hand-over, before the reboot, and stays as it was otherwise. */
  lemma MovedMarked(agent: Agent, host: Host, ok: bool, effect: bool, choice: Choice)
    requires SelfConsistent(agent, host) && CanAct(agent, host, Move(ok, effect, choice))
    ensures MarkFollows(agent, Moved(agent, ok, effect, choice, host))
  {
    hide Moved, MarkFollows, UpdateFits, MarkerFits, JournalFits;
    if IsStartup(agent.pc) { StartupMarked(agent, host, ok, effect, choice); }
    else if IsUpdating(agent.pc) { UpdatingMarked(agent, host, ok, effect, choice); }
    else { WorkMarked(agent, host, ok, effect, choice); }
  }

  lemma StartupMarked(agent: Agent, host: Host, ok: bool, effect: bool, choice: Choice)
    requires IsStartup(agent.pc) && JournalFits(agent) && CanAct(agent, host, Move(ok, effect, choice))
    ensures MarkFollows(agent, Moved(agent, ok, effect, choice, host))
  {
  }

  lemma UpdatingMarked(agent: Agent, host: Host, ok: bool, effect: bool, choice: Choice)
    requires IsUpdating(agent.pc) && CanAct(agent, host, Move(ok, effect, choice))
    ensures MarkFollows(agent, Moved(agent, ok, effect, choice, host))
  {
  }

  lemma WorkMarked(agent: Agent, host: Host, ok: bool, effect: bool, choice: Choice)
    requires !IsStartup(agent.pc) && !IsUpdating(agent.pc) && JournalFits(agent) && CanAct(agent, host, Move(ok, effect, choice))
    ensures MarkFollows(agent, Moved(agent, ok, effect, choice, host))
  {
  }

  lemma ActedMarked(w: World, host: Host, act: Act)
    requires SelfConsistent(At(w, host), host) && CanAct(At(w, host), host, act)
    ensures MarkFollows(At(w, host), At(ActOf(w, host, act), host))
  {
    hide Apply, Answered, CallOf, Moved, MarkerFits, UpdateFits;
    if act.Move? { MovedMarked(At(w, host), host, act.ok, act.effect, act.choice); }
    else if act.Request? { Requesting(w, host, act); AnswerTellsNothing(w.fleet, At(w, host), host, act.more, act.now); hide ActOf; }
  }

  /** A decision once taken up is kept or dropped, not exchanged. */
  lemma UndecidedEndsOrStays(w: World, host: Host, act: Act)
    requires CanAct(At(w, host), host, act) && Undecided(At(w, host).pc).Some?
    ensures Undecided(At(ActOf(w, host, act), host).pc) in {None, Undecided(At(w, host).pc)}
  {
    hide Apply, Answered, CallOf, Moved;
    if act.Move? { MovedPc(At(w, host), host, act.ok, act.effect, act.choice); }
  }

  lemma StepKeepsMarkedFree(w: World, step: AgentSpec.Step, host: Host)
    requires WorldIsOrderly(w) && CanStep(w, step) && MarkedIsFree(w, host)
    ensures MarkedIsFree(NextWorld(w, step), host)
  {
    var w' := NextWorld(w, step);
    assert Orderly(w.fleet, At(w, host), host);
    hide WorldIsOrderly, SelfConsistent, Coupled, Apply, ActOf, CanAct, NeverRebooted;
    if Marked(At(w', host)) {
      var e := At(w', host).journal.value.execution;
      NeverStays(w, step, e);
      if step.AgentStep? && step.host == host {
        ActedMarked(w, host, step.act);
        if Undecided(At(w, host).pc) == Some(e) {
          UndecidedEndsOrStays(w, host, step.act);
          GivenUpIsNever(w, step, e);
        }
      } else if step.AgentStep? {
        OthersStay(w, step);
      }
      hide Undecided, NextWorld;
    }
  }

  /** The result a request carries is the one its sender has journaled. */
  lemma OwnCallIsTrue(steps: seq<AgentSpec.Step>, host: Host, required: bool, healthy: bool)
    requires var agent := At(AgentSpec.After(steps), host); IsRequest(agent.pc) && SelfConsistent(agent, host) && AgentTellsTruth(steps, host)
    ensures CallTellsTruth(steps, CallOf(At(AgentSpec.After(steps), host), host, required, healthy))
  {
    var agent := At(AgentSpec.After(steps), host);
    hide MarkerFits, UpdateIsTrue, RebootIsTrue, After;
    match agent.pc
    case AtUpdateResend(e, o) => assert TellsUpdate(agent, e, o);
    case USending(e, o) => assert TellsUpdate(agent, e, o);
    case Sending(e, o, _) => assert TellsReboot(agent, e, o);
    case _ =>
  }

  lemma CallStaysTrue(steps: seq<AgentSpec.Step>, step: AgentSpec.Step, call: Call)
    requires WorldIsOrderly(AgentSpec.After(steps)) && CanStep(AgentSpec.After(steps), step) && CallTellsTruth(steps, call)
    ensures CallTellsTruth(Continued(steps, step), call)
  {
    hide WorldIsOrderly, CanStep, UpdateIsTrue, RebootIsTrue;
    if call.CUpdateResult? { UpdateStaysTrue(steps, step, call.host, call.execution, call.outcome); }
    if call.CRebootResult? { RebootStaysTrue(steps, step, call.host, call.execution, call.outcome); }
  }

  lemma StepKeepsCallsTrue(steps: seq<AgentSpec.Step>, step: AgentSpec.Step, call: Call)
    requires WorldIsOrderly(AgentSpec.After(steps)) && CanStep(AgentSpec.After(steps), step) && Truth(steps)
    requires call in NextWorld(AgentSpec.After(steps), step).late
    ensures CallTellsTruth(Continued(steps, step), call)
  {
    var w := AgentSpec.After(steps);
    if call !in w.late {
      LateGrows(w, step, call);
      assert Orderly(w.fleet, At(w, step.host), step.host) && AgentTellsTruth(steps, step.host);
      hide WorldIsOrderly, Truth, NextWorld, CanStep, CallOf, CallTellsTruth, AgentTellsTruth;
      OwnCallIsTrue(steps, step.host, step.act.required, step.act.healthy);
    }
    hide WorldIsOrderly, Truth, NextWorld, CanStep, CallTellsTruth;
    CallStaysTrue(steps, step, call);
  }

  // ----- the rows -----

  /** A row is marked failed, and an update gate completed, only by that result. */
  lemma LockFails(s: Fleet, call: Call, now: int)
    requires Apply(s, call, now).lock.Some? && Apply(s, call, now).lock.value.failed
    ensures var lock := Apply(s, call, now).lock.value;
      s.lock == Some(lock) || call == CUpdateResult(lock.host, lock.execution, FailedOutcome)
  {
    hide Due, Healthy, Observed, Checked, WithLegacyCause, AlignLegacySlot, CarryApprovedReboot, AfterSnapshot, Requested, Tick, TickAlign, TickRoll, TickCreate;
  }

  lemma UpdateGateCompletes(s: Fleet, call: Call, now: int)
    requires Coupled(s) && GateOf(Apply(s, call, now)).Some?
    requires var g := GateOf(Apply(s, call, now)).value; g.kind.Update? && g.completedAt.Some?
    ensures var g := GateOf(Apply(s, call, now)).value;
      || call == CUpdateResult(g.host, g.executionId, Complete)
      || (GateOf(s).Some? && GateOf(s).value.kind.Update? && GateOf(s).value.host == g.host
          && GateOf(s).value.executionId == g.executionId && GateOf(s).value.completedAt.Some?)
  {
    EveryGateChange(s, Event(call, now));
    hide Apply, Coupled, Checked;
  }

  lemma PlanFails(s: Fleet, call: Call, now: int, host: Host)
    requires var plan := Read(Apply(s, call, now), host).plan; plan.Some? && plan.value.phase.Failed? && plan.value.executionId.Some?
    ensures var plan := Read(Apply(s, call, now), host).plan.value;
      || call == CRebootResult(host, plan.executionId.value, FailedOutcome)
      || (Read(s, host).plan.Some? && Read(s, host).plan.value.phase.Failed? && Read(s, host).plan.value.executionId == plan.executionId)
  {
    hide Apply;
    if call.CRebootResult? { ResultFails(s, call, now, host); }
    else { OthersFailNothing(s, call, now, host); }
  }

  lemma ResultFails(s: Fleet, call: Call, now: int, host: Host)
    requires call.CRebootResult?
    requires var plan := Read(Apply(s, call, now), host).plan; plan.Some? && plan.value.phase.Failed? && plan.value.executionId.Some?
    ensures var plan := Read(Apply(s, call, now), host).plan.value;
      || call == CRebootResult(host, plan.executionId.value, FailedOutcome)
      || (Read(s, host).plan.Some? && Read(s, host).plan.value.phase.Failed? && Read(s, host).plan.value.executionId == plan.executionId)
  {
  }

  lemma OthersFailNothing(s: Fleet, call: Call, now: int, host: Host)
    requires !call.CRebootResult?
    ensures StillFailed(Read(s, host).plan, Read(Apply(s, call, now), host).plan)
  {
    hide Apply;
    if call.CObserve? { ObserveFailsNothing(s, call, now, host); }
    else if call.host != host { FleetHistory.OnlyOwnRow(s, Event(call, now), host); }
    else if call.CReport? { ReportFailsNothing(s, call, now); }
    else if call.CInteraction? { InteractionFailsNothing(s, call, now); }
    else if call.CRecover? { RecoverFailsNothing(s, call, now); }
    else { ShortFailsNothing(s, call, now); }
  }

  /** A failed plan was failed before, with the same execution. */
  predicate StillFailed(before: Option<Plan>, after: Option<Plan>) {
    after.Some? && after.value.phase.Failed? ==>
      before.Some? && before.value.phase.Failed? && before.value.executionId == after.value.executionId
  }

  lemma ObserveFailsNothing(s: Fleet, call: Call, now: int, host: Host)
    requires call.CObserve?
    ensures StillFailed(Read(s, host).plan, Read(Apply(s, call, now), host).plan)
  {
    hide Observed, Checked, WithLegacyCause;
  }

  lemma ReportFailsNothing(s: Fleet, call: Call, now: int)
    requires call.CReport?
    ensures StillFailed(Read(s, call.host).plan, Read(Apply(s, call, now), call.host).plan)
  {
    hide AvailableTarget, JstHour, RebootWindowEnd;
  }

  lemma InteractionFailsNothing(s: Fleet, call: Call, now: int)
    requires call.CInteraction?
    ensures StillFailed(Read(s, call.host).plan, Read(Apply(s, call, now), call.host).plan)
  {
    if Apply(s, call, now) != s { InteractionRow(s, call.host, call.revision, call.action, call.request, now); }
    hide Interaction;
  }

  lemma RecoverFailsNothing(s: Fleet, call: Call, now: int)
    requires call.CRecover?
    ensures StillFailed(Read(s, call.host).plan, Read(Apply(s, call, now), call.host).plan)
  {
    hide FreshlyHealthy, Healthy;
  }

  lemma ShortFailsNothing(s: Fleet, call: Call, now: int)
    requires call.CClaim? || call.CClaimUpdate? || call.CUpdateResult? || call.CNotified? || call.CTick?
    ensures StillFailed(Read(s, call.host).plan, Read(Apply(s, call, now), call.host).plan)
  {
    hide Tick, Claimable, UpdateClaimable, Due;
  }

  // ----- every run -----

  /** The call that the fleet serves in a step. */
  function Served(w: World, step: AgentSpec.Step): Option<Event>
    requires CanStep(w, step)
  {
    match step
    case OutsideStep(call, now) => Some(Event(call, now))
    case LateStep(call, now) => Some(Event(call, now))
    case AgentStep(host, act) =>
      if act.Request? && !act.net.LostRequest? then Some(Event(CallOf(At(w, host), host, act.required, act.healthy), act.now)) else None
  }

  lemma ServedIsApplied(w: World, step: AgentSpec.Step)
    requires CanStep(w, step)
    ensures NextWorld(w, step).fleet ==
      if Served(w, step).Some? then Apply(w.fleet, Served(w, step).value.call, Served(w, step).value.now) else w.fleet
  {
    hide Apply, ActOf, CallOf;
    if step.AgentStep? { ActedFleet(w, step.host, step.act); }
  }

  lemma ServedIsTrue(steps: seq<AgentSpec.Step>, step: AgentSpec.Step)
    requires var w := AgentSpec.After(steps); WorldIsOrderly(w) && CanStep(w, step) && Truth(steps)
    ensures Served(AgentSpec.After(steps), step).Some? ==> CallTellsTruth(steps, Served(AgentSpec.After(steps), step).value.call)
  {
    var w := AgentSpec.After(steps);
    if step.AgentStep? && step.act.Request? {
      assert Orderly(w.fleet, At(w, step.host), step.host) && AgentTellsTruth(steps, step.host);
      hide WorldIsOrderly, Truth, CallOf, CallTellsTruth, AgentTellsTruth;
      OwnCallIsTrue(steps, step.host, step.act.required, step.act.healthy);
    }
    hide WorldIsOrderly, CallOf, CanAct, UpdateIsTrue, RebootIsTrue;
  }

  lemma SameRowsStayTrue(steps: seq<AgentSpec.Step>, step: AgentSpec.Step, s: Fleet, host: Host)
    ensures LockIsTrue(steps, s) ==> LockIsTrue(Continued(steps, step), s)
    ensures GateIsTrue(steps, s) ==> GateIsTrue(Continued(steps, step), s)
    ensures PlanIsTrue(steps, s, host) ==> PlanIsTrue(Continued(steps, step), s, host)
  {
    hide AptEnded, RebootFailed;
    if LockIsTrue(steps, s) && s.lock.Some? && s.lock.value.failed { AptEndedStays(steps, step, s.lock.value.host, s.lock.value.execution, false); }
    if GateIsTrue(steps, s) && IsCompletedUpdate(GateOf(s)) { AptEndedStays(steps, step, GateOf(s).value.host, GateOf(s).value.executionId, true); }
    if PlanIsTrue(steps, s, host) && IsFailedPlan(Read(s, host).plan) { FailedStays(steps, step, host, Read(s, host).plan.value.executionId.value); }
  }

  lemma CallKeepsRowsTrue(steps: seq<AgentSpec.Step>, s: Fleet, event: Event, host: Host)
    requires Coupled(s) && CallTellsTruth(steps, event.call) && LockIsTrue(steps, s) && GateIsTrue(steps, s) && PlanIsTrue(steps, s, host)
    ensures var s' := Apply(s, event.call, event.now); LockIsTrue(steps, s') && GateIsTrue(steps, s') && PlanIsTrue(steps, s', host)
  {
    hide Apply, UpdateHappened, RebootHappened, NeverInstalled, NeverRebooted, Coupled, Read;
    var s' := Apply(s, event.call, event.now);
    if s'.lock.Some? && s'.lock.value.failed { LockFails(s, event.call, event.now); }
    if IsCompletedUpdate(GateOf(s')) { UpdateGateCompletes(s, event.call, event.now); }
    if IsFailedPlan(Read(s', host).plan) { PlanFails(s, event.call, event.now, host); }
  }

  lemma RowsStayTrue(steps: seq<AgentSpec.Step>, step: AgentSpec.Step, s: Fleet)
    requires RowsTellTruth(steps, s)
    ensures RowsTellTruth(Continued(steps, step), s)
  {
    hide LockIsTrue, GateIsTrue, PlanIsTrue;
    SameRowsStayTrue(steps, step, s, DevApp);
    forall host ensures PlanIsTrue(Continued(steps, step), s, host) { SameRowsStayTrue(steps, step, s, host); }
  }

  lemma CallKeepsRows(steps: seq<AgentSpec.Step>, s: Fleet, event: Event)
    requires Coupled(s) && CallTellsTruth(steps, event.call) && RowsTellTruth(steps, s)
    ensures RowsTellTruth(steps, Apply(s, event.call, event.now))
  {
    hide LockIsTrue, GateIsTrue, PlanIsTrue, CallTellsTruth, Coupled, Apply;
    var s' := Apply(s, event.call, event.now);
    CallKeepsRowsTrue(steps, s, event, DevApp);
    forall host ensures PlanIsTrue(steps, s', host) { CallKeepsRowsTrue(steps, s, event, host); }
  }

  lemma StepKeepsRowsTrue(steps: seq<AgentSpec.Step>, step: AgentSpec.Step)
    requires var w := AgentSpec.After(steps); WorldIsOrderly(w) && CanStep(w, step) && Truth(steps)
    ensures RowsTellTruth(Continued(steps, step), NextWorld(AgentSpec.After(steps), step).fleet)
  {
    var w := AgentSpec.After(steps);
    hide WorldIsOrderly, NextWorld, AgentTellsTruth, CallTellsTruth, Served, RowsTellTruth, Coupled, Apply, After, CanStep;
    ServedIsApplied(w, step);
    ServedIsTrue(steps, step);
    OrderlyIsCoupled(w);
    if Served(w, step).Some? { CallKeepsRows(steps, w.fleet, Served(w, step).value); }
    RowsStayTrue(steps, step, NextWorld(w, step).fleet);
  }

  lemma ToldUpdateIsTrue(steps: seq<AgentSpec.Step>, step: AgentSpec.Step, host: Host, e: Id, o: Outcome)
    requires var w := AgentSpec.After(steps); WorldIsOrderly(w) && CanStep(w, step) && AgentTellsTruth(steps, host)
    requires TellsUpdate(At(NextWorld(AgentSpec.After(steps), step), host), e, o)
    ensures UpdateIsTrue(Continued(steps, step), host, e, o)
  {
    hide WorldIsOrderly, CanStep, NextWorld, TellsUpdate, TellsReboot, UpdateIsTrue, RebootIsTrue, MarkedIsFree, After;
    SameAgentOrActs(AgentSpec.After(steps), step, host);
    if step.AgentStep? && step.host == host { NewUpdateIsTrue(steps, step, e, o); } else { UpdateStaysTrue(steps, step, host, e, o); }
  }

  lemma ToldRebootIsTrue(steps: seq<AgentSpec.Step>, step: AgentSpec.Step, host: Host, e: Id, o: Outcome)
    requires var w := AgentSpec.After(steps); WorldIsOrderly(w) && CanStep(w, step) && AgentTellsTruth(steps, host)
    requires TellsReboot(At(NextWorld(AgentSpec.After(steps), step), host), e, o)
    ensures RebootIsTrue(Continued(steps, step), host, e, o)
  {
    hide WorldIsOrderly, CanStep, NextWorld, TellsUpdate, TellsReboot, UpdateIsTrue, RebootIsTrue, MarkedIsFree, After;
    SameAgentOrActs(AgentSpec.After(steps), step, host);
    if step.AgentStep? && step.host == host { NewRebootIsTrue(steps, step, e, o); } else { RebootStaysTrue(steps, step, host, e, o); }
  }

  lemma StepKeepsAgentTrue(steps: seq<AgentSpec.Step>, step: AgentSpec.Step, host: Host)
    requires var w := AgentSpec.After(steps); WorldIsOrderly(w) && CanStep(w, step) && AgentTellsTruth(steps, host)
    ensures AgentTellsTruth(Continued(steps, step), host)
  {
    var w' := NextWorld(AgentSpec.After(steps), step);
    hide *;
    AgentIsMarkedFree(steps, host);
    StepKeepsMarkedFree(AgentSpec.After(steps), step, host);
    NextIsAfter(steps, step);
    forall e, o | TellsUpdate(At(w', host), e, o) ensures UpdateIsTrue(Continued(steps, step), host, e, o) { ToldUpdateIsTrue(steps, step, host, e, o); }
    forall e, o | TellsReboot(At(w', host), e, o) ensures RebootIsTrue(Continued(steps, step), host, e, o) { ToldRebootIsTrue(steps, step, host, e, o); }
    AgentIsTrue(Continued(steps, step), host);
  }

  lemma AgentIsMarkedFree(steps: seq<AgentSpec.Step>, host: Host)
    requires AgentTellsTruth(steps, host)
    ensures MarkedIsFree(AgentSpec.After(steps), host)
  {
    hide TellsUpdate, TellsReboot, UpdateIsTrue, RebootIsTrue, MarkedIsFree, After;
  }

  lemma AgentIsTrue(steps: seq<AgentSpec.Step>, host: Host)
    requires var w := AgentSpec.After(steps);
      && MarkedIsFree(w, host)
      && (forall e, o | TellsUpdate(At(w, host), e, o) :: UpdateIsTrue(steps, host, e, o))
      && forall e, o | TellsReboot(At(w, host), e, o) :: RebootIsTrue(steps, host, e, o)
    ensures AgentTellsTruth(steps, host)
  {
    hide TellsUpdate, TellsReboot, UpdateIsTrue, RebootIsTrue, MarkedIsFree, After;
  }

  lemma NextIsAfter(steps: seq<AgentSpec.Step>, step: AgentSpec.Step)
    requires CanStep(AgentSpec.After(steps), step)
    ensures AgentSpec.After(Continued(steps, step)) == NextWorld(AgentSpec.After(steps), step)
  {
    hide CanStep, NextWorld;
  }

  lemma SameAgentOrActs(w: World, step: AgentSpec.Step, host: Host)
    requires CanStep(w, step)
    ensures At(NextWorld(w, step), host) == At(w, host) || (step.AgentStep? && step.host == host)
  {
    if step.AgentStep? { OthersIdle(w, step.host, step.act); }
    hide ActOf, CanAct, Apply;
  }

  lemma StartIsTrue()
    ensures Truth([])
  {
    assert AgentSpec.After([]) == EMPTY_WORLD;
  }

  lemma StandingStillIsTrue(steps: seq<AgentSpec.Step>, step: AgentSpec.Step)
    requires Truth(steps) && AgentSpec.After(Continued(steps, step)) == AgentSpec.After(steps)
    ensures Truth(Continued(steps, step))
  {
    var more := Continued(steps, step);
    hide AgentTellsTruth, CallTellsTruth, RowsTellTruth, After;
    forall host ensures AgentTellsTruth(more, host) { SameAgentTruth(steps, step, host); }
    forall call | call in AgentSpec.After(more).late ensures CallTellsTruth(more, call) { SameCallTruth(steps, step, call); }
    RowsStayTrue(steps, step, AgentSpec.After(steps).fleet);
  }

  lemma SameAgentTruth(steps: seq<AgentSpec.Step>, step: AgentSpec.Step, host: Host)
    requires AgentTellsTruth(steps, host) && AgentSpec.After(Continued(steps, step)) == AgentSpec.After(steps)
    ensures AgentTellsTruth(Continued(steps, step), host)
  {
    var more := Continued(steps, step);
    hide After, UpdateIsTrue, RebootIsTrue, TellsUpdate, TellsReboot, MarkedIsFree;
    forall e, o | TellsUpdate(At(AgentSpec.After(more), host), e, o) ensures UpdateIsTrue(more, host, e, o) { SameWorldSameUpdate(steps, step, host, e, o); }
    forall e, o | TellsReboot(At(AgentSpec.After(more), host), e, o) ensures RebootIsTrue(more, host, e, o) { SameWorldSameReboot(steps, step, host, e, o); }
  }

  lemma SameCallTruth(steps: seq<AgentSpec.Step>, step: AgentSpec.Step, call: Call)
    requires CallTellsTruth(steps, call) && AgentSpec.After(Continued(steps, step)) == AgentSpec.After(steps)
    ensures CallTellsTruth(Continued(steps, step), call)
  {
    hide After, UpdateIsTrue, RebootIsTrue;
    if call.CUpdateResult? { SameWorldSameUpdate(steps, step, call.host, call.execution, call.outcome); }
    if call.CRebootResult? { SameWorldSameReboot(steps, step, call.host, call.execution, call.outcome); }
  }

  lemma SameWorldSameUpdate(steps: seq<AgentSpec.Step>, step: AgentSpec.Step, host: Host, e: Id, o: Outcome)
    requires UpdateIsTrue(steps, host, e, o) && AgentSpec.After(Continued(steps, step)) == AgentSpec.After(steps)
    ensures UpdateIsTrue(Continued(steps, step), host, e, o)
  {
    hide UpdateHappened, After, NeverInstalled;
    UpdateHappenedStays(steps, step, host, e, o);
  }

  lemma SameWorldSameReboot(steps: seq<AgentSpec.Step>, step: AgentSpec.Step, host: Host, e: Id, o: Outcome)
    requires RebootIsTrue(steps, host, e, o) && AgentSpec.After(Continued(steps, step)) == AgentSpec.After(steps)
    ensures RebootIsTrue(Continued(steps, step), host, e, o)
  {
    hide RebootHappened, After, NeverRebooted;
    RebootHappenedStays(steps, step, host, e, o);
  }

  lemma StepKeepsTruth(steps: seq<AgentSpec.Step>, step: AgentSpec.Step)
    requires WorldIsOrderly(AgentSpec.After(steps)) && Truth(steps)
    ensures Truth(Continued(steps, step))
  {
    if CanStep(AgentSpec.After(steps), step) {
      StepKeepsRowsTrue(steps, step);
      assert forall host :: AgentTellsTruth(steps, host);
      hide WorldIsOrderly, CanStep, AgentTellsTruth, CallTellsTruth, RowsTellTruth, NextWorld;
      forall host ensures AgentTellsTruth(Continued(steps, step), host) { StepKeepsAgentTrue(steps, step, host); }
      forall call | call in NextWorld(AgentSpec.After(steps), step).late ensures CallTellsTruth(Continued(steps, step), call) {
        StepKeepsCallsTrue(steps, step, call);
      }
    } else {
      ImpossibleStep(AgentSpec.After(steps), step);
      hide Truth, NextWorld, WorldIsOrderly;
      StandingStillIsTrue(steps, step);
    }
  }

  /** In every run every result tells the truth. */
  lemma {:induction false} EveryRunTellsTruth(steps: seq<AgentSpec.Step>)
    ensures Truth(steps)
  {
    if steps == [] {
      StartIsTrue();
    } else {
      var before, step := steps[..|steps| - 1], steps[|steps| - 1];
      EveryRunTellsTruth(before);
      EveryRunIsOrderly(before);
      hide Truth, WorldIsOrderly;
      StepKeepsTruth(before, step);
      assert Continued(before, step) == steps;
    }
  }

  // ----- what it means -----

  /** The package-update row names this execution. */
  predicate LockNames(s: Fleet, e: Id) { s.lock.Some? && s.lock.value.execution == e }

  lemma LockEnds(s: Fleet, call: Call, now: int)
    requires s.lock.Some? && !LockNames(Apply(s, call, now), s.lock.value.execution)
    ensures call.CObserve? || call.CRecover? || call == CUpdateResult(s.lock.value.host, s.lock.value.execution, Blocked)
  {
    hide Due, Healthy, Observed, Checked, WithLegacyCause, AlignLegacySlot, CarryApprovedReboot, AfterSnapshot, Requested, Tick, TickAlign, TickRoll, TickCreate;
  }

  lemma ObservedLockEnds(s: Fleet, call: Call, now: int)
    requires Coupled(s) && s.lock.Some? && call.CObserve? && !LockNames(Apply(s, call, now), s.lock.value.execution)
    ensures IsCompletedUpdate(GateOf(s)) && GateOf(s).value.host == s.lock.value.host && GateOf(s).value.executionId == s.lock.value.execution
  {
    var gate := s.environment.gate.value;
    assert gate.host in {DevApp, PveX570, PveB550m};
    assert WithLegacyCause(s, gate) == gate;
    hide WithLegacyCause, Observed, Checked;
    assert Observed(gate, Checked(Read(s, gate.host), call.inspection, now), now).1.Passed?;
  }

  lemma ServedIsNoRecovery(w: World, step: AgentSpec.Step)
    requires WorldIsOrderly(w) && CanStep(w, step)
    ensures Served(w, step).Some? ==> !Served(w, step).value.call.CRecover?
    ensures Served(w, step).Some? && Served(w, step).value.call.CObserve? ==> step.OutsideStep?
  {
    if step.LateStep? { assert SparesUpgrades(step.call, HostAgent(w, step.call), w.fleet.nextId); LateCallIsOwn(w, step.call); }
    hide WorldIsOrderly, CallOf, CanAct, SparesUpgrades;
    if step.AgentStep? && step.act.Request? { OwnCall(At(w, step.host), step.host, step.act.required, step.act.healthy); }
  }

  /** In every run the row of an upgrade that was begun goes only with an observation, and only after
      apt reported success. */
  lemma UpgradeEndsObserved(steps: seq<AgentSpec.Step>, step: AgentSpec.Step, e: Id)
    requires e in AgentSpec.After(steps).installs && LockNames(AgentSpec.After(steps).fleet, e)
    requires !LockNames(NextWorld(AgentSpec.After(steps), step).fleet, e)
    ensures step.OutsideStep? && step.call.CObserve?
    ensures AptEnded(steps, AgentSpec.After(steps).fleet.lock.value.host, e, true)
  {
    var w := AgentSpec.After(steps);
    EveryRunIsOrderly(steps);
    EveryRunTellsTruth(steps);
    OrderlyIsCoupled(w);
    if !CanStep(w, step) { ImpossibleStep(w, step); }
    ServedIsApplied(w, step);
    ServedIsNoRecovery(w, step);
    ServedIsTrue(steps, step);
    assert GateIsTrue(steps, w.fleet);
    hide WorldIsOrderly, Truth, NextWorld, CanStep, After, Apply, Coupled, Served, RebootIsTrue, UpdateHappened;
    var event := Served(w, step).value;
    LockEnds(w.fleet, event.call, event.now);
    if event.call.CObserve? { ObservedLockEnds(w.fleet, event.call, event.now); ServedObservation(w, step); }
  }

  lemma ServedObservation(w: World, step: AgentSpec.Step)
    requires CanStep(w, step) && step.OutsideStep? && Served(w, step).Some?
    ensures step.call == Served(w, step).value.call
  {
  }

  /** In every run a row marked failed means that apt reported the failure. */
  lemma FailedUpgradeMeansAptFailed(steps: seq<AgentSpec.Step>)
    requires AgentSpec.After(steps).fleet.lock.Some? && AgentSpec.After(steps).fleet.lock.value.failed
    ensures var lock := AgentSpec.After(steps).fleet.lock.value; AptEnded(steps, lock.host, lock.execution, false)
  {
    EveryRunTellsTruth(steps);
    assert LockIsTrue(steps, AgentSpec.After(steps).fleet);
    hide After, AptEnded;
  }

  /** In every run a failed plan means that the reboot command of its execution reported the failure. */
  lemma FailedRebootMeansCommandFailed(steps: seq<AgentSpec.Step>, host: Host)
    requires IsFailedPlan(Read(AgentSpec.After(steps).fleet, host).plan)
    ensures RebootFailed(steps, host, Read(AgentSpec.After(steps).fleet, host).plan.value.executionId.value)
  {
    EveryRunTellsTruth(steps);
    assert PlanIsTrue(steps, AgentSpec.After(steps).fleet, host);
    hide After, RebootFailed;
  }

  /** The host's plan is running or failed with this execution. */
  predicate PlanNames(s: Fleet, host: Host, e: Id) { BusyRecord(Read(s, host)) && Read(s, host).plan.value.executionId == Some(e) }

  lemma PlanEnds(s: Fleet, call: Call, now: int, host: Host, e: Id)
    requires Coupled(s) && PlanNames(s, host, e) && !PlanNames(Apply(s, call, now), host, e)
    ensures call.CObserve? || call.CRecover? || (call.CReport? && call.host == host && call.healthy)
      || (call.CRebootResult? && call.host == host && call.execution == e && !call.outcome.FailedOutcome?)
  {
    hide Apply, Coupled;
    if !call.CObserve? && !call.CRecover? {
      if call.host != host { FleetHistory.OnlyOwnRow(s, Event(call, now), host); }
      else if call.CReport? { ReportEndsPlan(s, call, now, e); }
      else if call.CRebootResult? { ResultEndsPlan(s, call, now, e); }
      else { ShortKeepsPlan(s, call, now, e); }
    }
  }

  lemma ReportEndsPlan(s: Fleet, call: Call, now: int, e: Id)
    requires call.CReport? && PlanNames(s, call.host, e) && !PlanNames(Apply(s, call, now), call.host, e)
    ensures call.healthy
  {
    ReportRow(s, call.host, call.bootId, call.required, call.healthy, now);
    hide Report;
  }

  lemma ResultEndsPlan(s: Fleet, call: Call, now: int, e: Id)
    requires call.CRebootResult? && PlanNames(s, call.host, e) && !PlanNames(Apply(s, call, now), call.host, e)
    ensures call.execution == e && !call.outcome.FailedOutcome?
  {
  }

  lemma ShortKeepsPlan(s: Fleet, call: Call, now: int, e: Id)
    requires Coupled(s) && !call.CObserve? && !call.CRecover? && !call.CReport? && !call.CRebootResult? && PlanNames(s, call.host, e)
    ensures PlanNames(Apply(s, call, now), call.host, e)
  {
    if call.CInteraction? {
      if Apply(s, call, now) != s { InteractionRow(s, call.host, call.revision, call.action, call.request, now); }
    } else if call.CClaim? || call.CClaimUpdate? { ClaimsExcluded(s, call.host, now, call.host); }
    hide Coupled, Interaction, Tick, Claim, ClaimUpdate;
  }

  /** In every run the plan of a reboot that was commanded ends only with an observation or with a
      healthy report of its host. */
  lemma RebootEndsSeen(steps: seq<AgentSpec.Step>, step: AgentSpec.Step, host: Host, e: Id)
    requires e in AgentSpec.After(steps).reboots && PlanNames(AgentSpec.After(steps).fleet, host, e)
    requires !PlanNames(NextWorld(AgentSpec.After(steps), step).fleet, host, e)
    ensures CanStep(AgentSpec.After(steps), step) && Served(AgentSpec.After(steps), step).Some?
    ensures var call := Served(AgentSpec.After(steps), step).value.call; call.CObserve? || (call.CReport? && call.host == host && call.healthy)
  {
    var w := AgentSpec.After(steps);
    EveryRunIsOrderly(steps);
    EveryRunTellsTruth(steps);
    OrderlyIsCoupled(w);
    if !CanStep(w, step) { ImpossibleStep(w, step); }
    ServedIsApplied(w, step);
    ServedIsNoRecovery(w, step);
    ServedIsTrue(steps, step);
    hide WorldIsOrderly, Truth, NextWorld, CanStep, After, Apply, Coupled, Served, UpdateIsTrue, RebootHappened, PlanNames;
    var event := Served(w, step).value;
    PlanEnds(w.fleet, event.call, event.now, host, e);
  }
}
