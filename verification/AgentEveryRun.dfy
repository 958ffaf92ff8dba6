/** What three agents and the fleet guarantee in every run: any interleaving of the hosts, the
    buttons, the observer and the ticks, with crashes, power cycles, lost answers and requests that
    arrive as late and as often as they like, stale reports among them. No operator recovers. */
module AgentEveryRun {
  import opened Wrappers
  import opened FleetSpec
  import opened FleetCoupling
  import opened Policy
  import opened AgentSpec
  import opened AgentSafety

  predicate Distinct(ids: seq<Id>) {
    forall i, j | 0 <= i < j < |ids| :: ids[i] != ids[j]
  }

  /** Every execution in the logs was granted, acted at most once, and is not about to act again. */
  predicate LogsAreSpent(w: World) {
    && Distinct(w.reboots) && Distinct(w.installs)
    && (forall e | e in w.reboots :: e < w.fleet.nextId)
    && (forall e | e in w.installs :: e < w.fleet.nextId)
    && (forall host :: PcIsUnspent(w, host))
  }

  predicate PcIsUnspent(w: World, host: Host) {
    var pc := At(w, host).pc;
    && (Undecided(pc).Some? ==> Undecided(pc).value < w.fleet.nextId && Undecided(pc).value !in w.reboots)
    && (Unstarted(pc).Some? ==> Unstarted(pc).value < w.fleet.nextId && Unstarted(pc).value !in w.installs)
  }

  /** No execution is granted to two processes. */
  predicate GrantsDiffer(p: Pc, q: Pc) {
    && (Undecided(p).Some? ==> Undecided(q) != Undecided(p))
    && (Unstarted(p).Some? ==> Unstarted(q) != Unstarted(p))
  }

  /** The journals name executions that were handed out. */
  predicate JournalsAreOld(agent: Agent, nextId: Id) {
    && (agent.journal.Some? ==> agent.journal.value.execution < nextId)
    && (agent.update.Some? ==> agent.update.value.execution < nextId)
  }

  /** A late request of the host cannot withdraw the upgrade it is in, nor one it may still start. */
  predicate SparesUpgrades(call: Call, agent: Agent, nextId: Id) {
    && !call.CRecover? && !IsOutside(call)
    && (call.CUpdateResult? ==>
          && call.execution < nextId && Unstarted(agent.pc) != Some(call.execution)
          && (agent.installing == Some(call.execution) ==> call.outcome.FailedOutcome?))
  }

  /** The agent a request speaks for. */
  function HostAgent(w: World, call: Call): Agent { if call.CObserve? then NEW_AGENT else At(w, call.host) }

  predicate WorldIsOrderly(w: World) {
    && Coupled(w.fleet) && LogsAreSpent(w)
    && (forall host :: Orderly(w.fleet, At(w, host), host))
    && (forall host :: JournalsAreOld(At(w, host), w.fleet.nextId))
    && (forall a, b | a != b :: GrantsDiffer(At(w, a).pc, At(w, b).pc))
    && (forall call | call in w.late :: SparesUpgrades(call, HostAgent(w, call), w.fleet.nextId))
  }

  // ----- an agent goes on only with what it was granted -----

  /** The agent starts nothing but what it had been granted, or is granted now. */
  predicate Continues(before: Agent, after: Agent, nextId: Id) {
    && (Undecided(after.pc).Some? ==> Undecided(after.pc) == Undecided(before.pc) || Undecided(after.pc).value >= nextId)
    && (Unstarted(after.pc).Some? ==> Unstarted(after.pc) == Unstarted(before.pc) || Unstarted(after.pc).value >= nextId)
    && (after.rebooting.Some? ==> after.rebooting == before.rebooting || after.rebooting == Undecided(before.pc))
    && (after.installing.Some? ==> after.installing == before.installing || after.installing == Unstarted(before.pc))
  }

  lemma MovedPc(agent: Agent, host: Host, ok: bool, effect: bool, choice: Choice)
    requires CanAct(agent, host, Move(ok, effect, choice))
    ensures var pc := Moved(agent, ok, effect, choice, host).pc;
            && (Undecided(pc).Some? ==> Undecided(pc) == Undecided(agent.pc) && !agent.pc.Ready?)
            && (Unstarted(pc).Some? ==> Unstarted(pc) == Unstarted(agent.pc) && !agent.pc.UReady?)
  {
  }

  lemma MovedWork(agent: Agent, host: Host, ok: bool, effect: bool, choice: Choice)
    requires CanAct(agent, host, Move(ok, effect, choice))
    ensures var after := Moved(agent, ok, effect, choice, host);
            && (after.rebooting.Some? ==> after.rebooting == agent.rebooting || after.rebooting == Undecided(agent.pc))
            && (after.installing.Some? ==> after.installing == agent.installing || after.installing == Unstarted(agent.pc))
  {
  }

  /** An answer that starts an execution names the identifier that was fresh before the call. */
  lemma GrantIsFresh(s: Fleet, agent: Agent, host: Host, required: bool, healthy: bool, more: bool, now: int)
    requires IsRequest(agent.pc)
    ensures var pc, s' := Answered(agent, host, s, more, now), Apply(s, CallOf(agent, host, required, healthy), now);
            (Undecided(pc).Some? ==> Undecided(pc).value == s.nextId < s'.nextId) && (Unstarted(pc).Some? ==> Unstarted(pc).value == s.nextId < s'.nextId)
  {
    hide UpdateResult, RebootResult, Report;
  }

  /** Steps that leave the logs, the journals and the fleet alone. */
  lemma PlainAct(w: World, host: Host, act: Act)
    requires CanAct(At(w, host), host, act) && !act.Move? && !act.Request?
    ensures var w' := ActOf(w, host, act); var before, after := At(w, host), At(w', host);
      && w'.fleet == w.fleet && w'.late == w.late && w'.reboots == w.reboots && w'.installs == w.installs
      && after.journal == before.journal && after.update == before.update
      && Undecided(after.pc) in {None, Undecided(before.pc)} && Unstarted(after.pc) in {None, Unstarted(before.pc)}
      && after.rebooting in {None, before.rebooting} && after.installing in {None, before.installing}
      && forall other | other != host :: At(w', other) == At(w, other)
  {
  }

  /** A request: the fleet is called or the call is late, and only the place in the program changes. */
  lemma Requesting(w: World, host: Host, act: Act)
    requires act.Request? && CanAct(At(w, host), host, act)
    ensures var w', agent := ActOf(w, host, act), At(w, host); var call := CallOf(agent, host, act.required, act.healthy);
      && w'.reboots == w.reboots && w'.installs == w.installs
      && (forall other | other != host :: At(w', other) == At(w, other))
      && At(w', host) == agent.(pc := if act.net.Delivered? then Answered(agent, host, w.fleet, act.more, act.now) else Idle)
      && (if act.net.LostRequest? then w'.fleet == w.fleet && w'.late == w.late + {call}
          else w'.fleet == Apply(w.fleet, call, act.now) && w'.late == w.late)
  {
    hide Apply, Answered, CallOf;
  }

  lemma StepContinues(w: World, step: Step, host: Host)
    requires CanStep(w, step)
    ensures Continues(At(w, host), At(NextWorld(w, step), host), w.fleet.nextId)
  {
    hide Apply, ActOf, CanAct, Undecided, Unstarted;
    if step.AgentStep? {
      OthersIdle(w, step.host, step.act);
      hide Continues;
      ActContinues(w, step.host, step.act);
      if host != step.host { SameContinues(At(w, host), w.fleet.nextId); }
    }
  }

  lemma SameContinues(agent: Agent, nextId: Id)
    ensures Continues(agent, agent, nextId)
  {
  }

  lemma OthersIdle(w: World, host: Host, act: Act)
    requires CanAct(At(w, host), host, act)
    ensures forall other | other != host :: At(ActOf(w, host, act), other) == At(w, other)
  {
    hide Apply, Answered, CallOf, Moved;
  }

  lemma ActContinues(w: World, host: Host, act: Act)
    requires CanAct(At(w, host), host, act)
    ensures Continues(At(w, host), At(ActOf(w, host, act), host), w.fleet.nextId)
  {
    hide CanAct, Continues, ActOf;
    if act.Move? { MoveContinues(w, host, act.ok, act.effect, act.choice); }
    else if act.Request? { RequestContinues(w, host, act); }
    else { PlainContinues(w, host, act); }
  }

  lemma PlainContinues(w: World, host: Host, act: Act)
    requires CanAct(At(w, host), host, act) && !act.Move? && !act.Request?
    ensures Continues(At(w, host), At(ActOf(w, host, act), host), w.fleet.nextId)
  {
    PlainAct(w, host, act);
    hide ActOf, Undecided, Unstarted;
  }

  lemma MoveContinues(w: World, host: Host, ok: bool, effect: bool, choice: Choice)
    requires CanAct(At(w, host), host, Move(ok, effect, choice))
    ensures Continues(At(w, host), At(ActOf(w, host, Move(ok, effect, choice)), host), w.fleet.nextId)
  {
    hide Moved, Undecided, Unstarted;
    MovedPc(At(w, host), host, ok, effect, choice);
    MovedWork(At(w, host), host, ok, effect, choice);
  }

  lemma RequestContinues(w: World, host: Host, act: Act)
    requires act.Request? && CanAct(At(w, host), host, act)
    ensures Continues(At(w, host), At(ActOf(w, host, act), host), w.fleet.nextId)
  {
    hide Apply, Answered, CallOf, ActOf;
    Requesting(w, host, act);
    GrantIsFresh(w.fleet, At(w, host), host, act.required, act.healthy, act.more, act.now);
  }

  lemma ActedFleet(w: World, host: Host, act: Act)
    requires CanAct(At(w, host), host, act)
    ensures ActOf(w, host, act).fleet ==
      if act.Request? && !act.net.LostRequest? then Apply(w.fleet, CallOf(At(w, host), host, act.required, act.healthy), act.now) else w.fleet
  {
    hide Apply, Answered, CallOf, Moved;
  }

  lemma FleetGoesOn(w: World, step: Step)
    requires Coupled(w.fleet)
    ensures Coupled(NextWorld(w, step).fleet) && NextWorld(w, step).fleet.nextId >= w.fleet.nextId
  {
    hide Apply, CallOf, Coupled, CanAct, ActOf;
    if CanStep(w, step) {
      match step
      case OutsideStep(call, now) => CallGoesOn(w.fleet, call, now);
      case LateStep(call, now) => CallGoesOn(w.fleet, call, now);
      case AgentStep(host, act) =>
        ActGoesOn(w, host, act);
    }
  }

  lemma ActGoesOn(w: World, host: Host, act: Act)
    requires Coupled(w.fleet) && CanAct(At(w, host), host, act)
    ensures Coupled(ActOf(w, host, act).fleet) && ActOf(w, host, act).fleet.nextId >= w.fleet.nextId
  {
    ActedFleet(w, host, act);
    hide Apply, Coupled, ActOf, CallOf;
    if act.Request? && !act.net.LostRequest? { CallGoesOn(w.fleet, CallOf(At(w, host), host, act.required, act.healthy), act.now); }
  }

  lemma CallGoesOn(s: Fleet, call: Call, now: int)
    requires Coupled(s)
    ensures Coupled(Apply(s, call, now)) && Apply(s, call, now).nextId >= s.nextId
  {
    hide Apply, Coupled;
    ApplyKeepsCoupling(s, call, now);
    FleetHistory.IdsGrow(s, call, now);
  }

  lemma OwnCall(agent: Agent, host: Host, required: bool, healthy: bool)
    requires IsRequest(agent.pc)
    ensures var call := CallOf(agent, host, required, healthy);
            !call.CRecover? && !IsOutside(call) && call.host == host
  {
  }

  // ----- every agent stays in order -----

  lemma ActKeepsOrderly(w: World, host: Host, act: Act)
    requires Coupled(w.fleet) && Orderly(w.fleet, At(w, host), host) && CanAct(At(w, host), host, act)
    ensures Orderly(ActOf(w, host, act).fleet, At(ActOf(w, host, act), host), host)
  {
    hide Apply, Answered, CallOf, Moved, Orderly, Coupled;
    var agent := At(w, host);
    match act
    case Begin => BeginningIsOrderly(w.fleet, agent, host);
    case BeginUpdate => BeginningIsOrderly(w.fleet, agent, host);
    case Move(ok, effect, choice) => MoveKeepsOrderly(w.fleet, agent, host, ok, effect, choice);
    case Request(net, required, healthy, more, now) =>
      if net.LostRequest? { EndingIsOrderly(w.fleet, agent, host, 0); }
      else { RequestKeepsOrderly(w.fleet, agent, host, net, required, healthy, more, now); }
    case _ => EndingIsOrderly(w.fleet, agent, host, w.nextBoot);
  }

  /** A call of others, of the outside or of the host itself but late. */
  lemma OthersKeepOrderly(w: World, call: Call, now: int, host: Host)
    requires Coupled(w.fleet) && Orderly(w.fleet, At(w, host), host) && !call.CRecover?
    requires IsOutside(call) || call.host != host || SparesUpgrades(call, At(w, host), w.fleet.nextId)
    ensures Orderly(Apply(w.fleet, call, now), At(w, host), host)
  {
    hide Apply, Orderly, Coupled;
    CallKeepsOrderly(w.fleet, At(w, host), host, call, now);
  }

  lemma StepKeepsAgentOrderly(w: World, step: Step, host: Host)
    requires WorldIsOrderly(w) && CanStep(w, step)
    ensures Orderly(NextWorld(w, step).fleet, At(NextWorld(w, step), host), host)
  {
    assert Orderly(w.fleet, At(w, host), host);
    assert step.LateStep? ==> SparesUpgrades(step.call, HostAgent(w, step.call), w.fleet.nextId);
    hide WorldIsOrderly, Apply, Orderly, Coupled, CanAct, ActOf, SparesUpgrades;
    match step
    case OutsideStep(call, now) => OthersKeepOrderly(w, call, now, host);
    case LateStep(call, now) => LateCallIsOwn(w, call); OthersKeepOrderly(w, call, now, host);
    case AgentStep(h, act) => if h == host { ActKeepsOrderly(w, host, act); } else { OtherActKeepsOrderly(w, h, act, host); }
  }

  lemma OtherActKeepsOrderly(w: World, acting: Host, act: Act, host: Host)
    requires Coupled(w.fleet) && Orderly(w.fleet, At(w, host), host) && CanAct(At(w, acting), acting, act) && acting != host
    ensures Orderly(ActOf(w, acting, act).fleet, At(ActOf(w, acting, act), host), host)
  {
    OthersIdle(w, acting, act);
    ActedFleet(w, acting, act);
    hide Apply, CallOf, Orderly, Coupled, ActOf, SparesUpgrades;
    if act.Request? && !act.net.LostRequest? {
      OwnCall(At(w, acting), acting, act.required, act.healthy);
      OthersKeepOrderly(w, CallOf(At(w, acting), acting, act.required, act.healthy), act.now, host);
    }
  }

  lemma LateCallIsOwn(w: World, call: Call)
    requires SparesUpgrades(call, HostAgent(w, call), w.fleet.nextId)
    ensures !call.CRecover? && !call.CObserve? && HostAgent(w, call) == At(w, call.host)
  {
  }

  // ----- journals, logs and late requests -----

  lemma MovedJournals(agent: Agent, host: Host, ok: bool, effect: bool, choice: Choice, nextId: Id)
    requires CanAct(agent, host, Move(ok, effect, choice)) && SelfConsistent(agent, host) && JournalsAreOld(agent, nextId)
    requires Undecided(agent.pc).Some? ==> Undecided(agent.pc).value < nextId
    requires Unstarted(agent.pc).Some? ==> Unstarted(agent.pc).value < nextId
    ensures JournalsAreOld(Moved(agent, ok, effect, choice, host), nextId)
  {
    hide MarkerFits, Moved, JournalFits, UpdateFits;
    if IsUpdating(agent.pc) { UpdatingJournals(agent, host, ok, effect, choice, nextId); }
    else { OtherJournals(agent, host, ok, effect, choice, nextId); }
  }

  lemma UpdatingJournals(agent: Agent, host: Host, ok: bool, effect: bool, choice: Choice, nextId: Id)
    requires CanAct(agent, host, Move(ok, effect, choice)) && UpdateFits(agent) && JournalsAreOld(agent, nextId) && IsUpdating(agent.pc)
    requires Unstarted(agent.pc).Some? ==> Unstarted(agent.pc).value < nextId
    ensures JournalsAreOld(Moved(agent, ok, effect, choice, host), nextId)
  {
  }

  lemma OtherJournals(agent: Agent, host: Host, ok: bool, effect: bool, choice: Choice, nextId: Id)
    requires CanAct(agent, host, Move(ok, effect, choice)) && JournalFits(agent) && JournalsAreOld(agent, nextId) && !IsUpdating(agent.pc)
    requires Undecided(agent.pc).Some? ==> Undecided(agent.pc).value < nextId
    ensures JournalsAreOld(Moved(agent, ok, effect, choice, host), nextId)
  {
  }

  lemma ActKeepsJournalsOld(w: World, host: Host, act: Act)
    requires CanAct(At(w, host), host, act) && SelfConsistent(At(w, host), host)
    requires JournalsAreOld(At(w, host), w.fleet.nextId) && PcIsUnspent(w, host)
    ensures JournalsAreOld(At(ActOf(w, host, act), host), w.fleet.nextId)
  {
    hide SelfConsistent, Moved, Apply, Answered, CallOf, Undecided, Unstarted;
    if act.Move? { MovedJournals(At(w, host), host, act.ok, act.effect, act.choice, w.fleet.nextId); }
    else if act.Request? { Requesting(w, host, act); hide ActOf; }
    else { PlainAct(w, host, act); hide ActOf; }
  }

  lemma StepKeepsJournalsOld(w: World, step: Step, host: Host)
    requires WorldIsOrderly(w) && CanStep(w, step)
    ensures JournalsAreOld(At(NextWorld(w, step), host), NextWorld(w, step).fleet.nextId)
  {
    FleetGoesOn(w, step);
    assert Orderly(w.fleet, At(w, host), host) && JournalsAreOld(At(w, host), w.fleet.nextId) && PcIsUnspent(w, host);
    hide WorldIsOrderly, PcIsUnspent, Apply, Coupled, ActOf, CanAct, SelfConsistent, InstallIsLocked, UpdateGrantIsLocked;
    if step.AgentStep? {
      OthersIdle(w, step.host, step.act);
      if step.host == host { ActKeepsJournalsOld(w, host, step.act); }
    }
  }

  predicate PcIsOld(pc: Pc, nextId: Id) {
    (Undecided(pc).Some? ==> Undecided(pc).value < nextId) && (Unstarted(pc).Some? ==> Unstarted(pc).value < nextId)
  }

  /** Two agents of which one goes on differ still: it has what it had, or its news is newer. */
  lemma GrantsStayApart(p: Agent, p': Agent, q: Agent, nextId: Id)
    requires GrantsDiffer(p.pc, q.pc) && GrantsDiffer(q.pc, p.pc) && PcIsOld(q.pc, nextId) && Continues(p, p', nextId)
    ensures GrantsDiffer(p'.pc, q.pc) && GrantsDiffer(q.pc, p'.pc)
  {
    hide Undecided, Unstarted;
  }

  lemma StepKeepsGrantsApart(w: World, step: Step, a: Host, b: Host)
    requires WorldIsOrderly(w) && CanStep(w, step) && a != b
    ensures GrantsDiffer(At(NextWorld(w, step), a).pc, At(NextWorld(w, step), b).pc)
  {
    hide NextWorld, Continues, PcIsOld, Coupled;
    StepContinues(w, step, a);
    StepContinues(w, step, b);
    OneActs(w, step, a, b);
    assert GrantsDiffer(At(w, a).pc, At(w, b).pc) && GrantsDiffer(At(w, b).pc, At(w, a).pc);
    GrantsAreOld(w, a);
    GrantsAreOld(w, b);
    hide WorldIsOrderly, GrantsDiffer;
    if At(NextWorld(w, step), a) == At(w, a) { GrantsStayApart(At(w, b), At(NextWorld(w, step), b), At(w, a), w.fleet.nextId); }
    else { GrantsStayApart(At(w, a), At(NextWorld(w, step), a), At(w, b), w.fleet.nextId); }
  }

  lemma GrantsAreOld(w: World, host: Host)
    requires LogsAreSpent(w)
    ensures PcIsOld(At(w, host).pc, w.fleet.nextId)
  {
    assert PcIsUnspent(w, host);
  }

  lemma OneActs(w: World, step: Step, a: Host, b: Host)
    requires CanStep(w, step) && a != b
    ensures At(NextWorld(w, step), a) == At(w, a) || At(NextWorld(w, step), b) == At(w, b)
  {
    if step.AgentStep? { OthersIdle(w, step.host, step.act); }
    hide Apply, ActOf, CanAct;
  }

  /** The logs after a step: a reboot command and an apt run are the only additions. */
  lemma LogsGrow(w: World, step: Step)
    requires CanStep(w, step)
    ensures var w' := NextWorld(w, step);
      if step.AgentStep? && step.act.Move? then
        var pc := At(w, step.host).pc;
        && w'.reboots == (if pc.Ready? then w.reboots + [pc.execution] else w.reboots)
        && w'.installs == (if pc.UReady? then w.installs + [pc.execution] else w.installs)
      else w'.reboots == w.reboots && w'.installs == w.installs
  {
    hide Apply, Answered, CallOf, Moved;
  }

  lemma StepKeepsPcUnspent(w: World, step: Step, host: Host)
    requires WorldIsOrderly(w) && CanStep(w, step)
    ensures PcIsUnspent(NextWorld(w, step), host)
  {
    hide Apply, ActOf, CanAct, Coupled, LogsFollow, GrantsDiffer;
    assert LogsAreSpent(w) && PcIsUnspent(w, host);
    if step.AgentStep? {
      if step.host != host { assert GrantsDiffer(At(w, step.host).pc, At(w, host).pc); }
      hide WorldIsOrderly, LogsAreSpent, PcIsUnspent;
      ActedLogsFollow(w, step.host, step.act);
      ActKeepsPcUnspent(w, step.host, step.act, host);
    } else {
      FleetGoesOn(w, step);
      hide WorldIsOrderly, LogsAreSpent, PcIsUnspent;
      SamePcIsUnspent(w, NextWorld(w, step), host);
    }
  }

  lemma ActedLogsFollow(w: World, host: Host, act: Act)
    requires Coupled(w.fleet) && CanAct(At(w, host), host, act)
    ensures LogsFollow(w, ActOf(w, host, act), host, act.Move?)
  {
    ActGoesOn(w, host, act);
    hide Apply, Answered, CallOf, Moved, Coupled;
  }

  lemma ActKeepsPcUnspent(w: World, acting: Host, act: Act, host: Host)
    requires LogsAreSpent(w) && CanAct(At(w, acting), acting, act) && LogsFollow(w, ActOf(w, acting, act), acting, act.Move?)
    requires host != acting ==> GrantsDiffer(At(w, acting).pc, At(w, host).pc)
    ensures PcIsUnspent(ActOf(w, acting, act), host)
  {
    assert PcIsUnspent(w, host);
    hide PcIsUnspent, GrantsDiffer, LogsAreSpent, Apply, ActOf, CanAct, LogsFollow, Continues, Acted;
    if acting == host {
      ActContinues(w, host, act);
      ActedPc(w, host, act);
      ActedIsUnspent(w, ActOf(w, acting, act), host, act);
    } else {
      OthersIdle(w, acting, act);
      OtherIsUnspent(w, ActOf(w, acting, act), acting, host);
    }
  }

  lemma SamePcIsUnspent(w: World, w': World, host: Host)
    requires PcIsUnspent(w, host) && w'.agents == w.agents && w'.reboots == w.reboots && w'.installs == w.installs
    requires w'.fleet.nextId >= w.fleet.nextId
    ensures PcIsUnspent(w', host)
  {
  }

  predicate LogsFollow(w: World, w': World, host: Host, moved: bool) {
    var pc := At(w, host).pc;
    && w'.fleet.nextId >= w.fleet.nextId
    && w'.reboots == (if moved && pc.Ready? then w.reboots + [pc.execution] else w.reboots)
    && w'.installs == (if moved && pc.UReady? then w.installs + [pc.execution] else w.installs)
  }

  lemma OtherIsUnspent(w: World, w': World, host: Host, other: Host)
    requires PcIsUnspent(w, other) && GrantsDiffer(At(w, host).pc, At(w, other).pc) && At(w', other) == At(w, other)
    requires LogsFollow(w, w', host, true) || LogsFollow(w, w', host, false)
    ensures PcIsUnspent(w', other)
  {
  }

  lemma ActedIsUnspent(w: World, w': World, host: Host, act: Act)
    requires LogsAreSpent(w) && LogsFollow(w, w', host, act.Move?) && Continues(At(w, host), At(w', host), w.fleet.nextId)
    requires Acted(At(w, host).pc, At(w', host).pc, act.Move?, w'.fleet.nextId)
    ensures PcIsUnspent(w', host)
  {
    assert PcIsUnspent(w, host);
    hide Undecided, Unstarted;
  }

  predicate Acted(pc: Pc, pc': Pc, moved: bool, nextId: Id) {
    && (Undecided(pc').Some? && Undecided(pc') != Undecided(pc) ==> Undecided(pc').value < nextId)
    && (Unstarted(pc').Some? && Unstarted(pc') != Unstarted(pc) ==> Unstarted(pc').value < nextId)
    && (moved && Undecided(pc').Some? ==> Undecided(pc') == Undecided(pc) && !pc.Ready?)
    && (moved && Unstarted(pc').Some? ==> Unstarted(pc') == Unstarted(pc) && !pc.UReady?)
  }

  /** What an agent is about to do next was granted before or is now, and is not what it just did. */
  lemma ActedPc(w: World, host: Host, act: Act)
    requires CanAct(At(w, host), host, act)
    ensures Acted(At(w, host).pc, At(ActOf(w, host, act), host).pc, act.Move?, ActOf(w, host, act).fleet.nextId)
  {
    hide Apply, Answered, CallOf, Moved, Undecided, Unstarted;
    if act.Move? { MovedPc(At(w, host), host, act.ok, act.effect, act.choice); }
    else if act.Request? { Requesting(w, host, act); GrantIsFresh(w.fleet, At(w, host), host, act.required, act.healthy, act.more, act.now); IdleIsFree(); hide ActOf; }
    else { PlainAct(w, host, act); hide ActOf; }
  }

  lemma IdleIsFree()
    ensures Undecided(Idle).None? && Unstarted(Idle).None?
  {
  }

  lemma StepKeepsLogs(w: World, step: Step)
    requires WorldIsOrderly(w) && CanStep(w, step)
    ensures LogsAreSpent(NextWorld(w, step))
  {
    hide NextWorld, CanStep, Coupled;
    forall host ensures PcIsUnspent(NextWorld(w, step), host) { StepKeepsPcUnspent(w, step, host); }
    LogsGrow(w, step);
    FleetGoesOn(w, step);
    assert LogsAreSpent(w) && (step.AgentStep? ==> PcIsUnspent(w, step.host));
    hide WorldIsOrderly;
    if step.AgentStep? { ReadyIsUndecided(At(w, step.host).pc); }
    hide Undecided, Unstarted;
  }

  lemma ReadyIsUndecided(pc: Pc)
    ensures (pc.Ready? ==> Undecided(pc) == Some(pc.execution)) && (pc.UReady? ==> Unstarted(pc) == Some(pc.execution))
  {
  }

  /** A request its sender gives up spares the host's upgrades, whenever it arrives. */
  lemma GivenUpSparesUpgrades(s: Fleet, agent: Agent, host: Host, required: bool, healthy: bool)
    requires IsRequest(agent.pc) && Orderly(s, agent, host) && JournalsAreOld(agent, s.nextId)
    ensures SparesUpgrades(CallOf(agent, host, required, healthy), agent.(pc := Idle), s.nextId)
  {
    hide Locks, MarkerFits, JournalFits;
  }

  lemma SparingStays(call: Call, before: Agent, after: Agent, nextId: Id, nextId': Id)
    requires SparesUpgrades(call, before, nextId) && Continues(before, after, nextId) && nextId <= nextId'
    ensures SparesUpgrades(call, after, nextId')
  {
  }

  /** The requests under way after a step: one more when a sender gives up. */
  lemma LateGrows(w: World, step: Step, call: Call)
    requires CanStep(w, step) && call in NextWorld(w, step).late && call !in w.late
    ensures step.AgentStep? && step.act.Request? && step.act.net.LostRequest? && NextWorld(w, step).fleet == w.fleet
    ensures call == CallOf(At(w, step.host), step.host, step.act.required, step.act.healthy)
    ensures At(NextWorld(w, step), step.host) == At(w, step.host).(pc := Idle)
  {
    hide Apply, Answered, CallOf, Moved;
  }

  lemma StepKeepsLate(w: World, step: Step, call: Call)
    requires WorldIsOrderly(w) && CanStep(w, step) && call in NextWorld(w, step).late
    ensures SparesUpgrades(call, HostAgent(NextWorld(w, step), call), NextWorld(w, step).fleet.nextId)
  {
    hide NextWorld;
    if call in w.late {
      assert SparesUpgrades(call, HostAgent(w, call), w.fleet.nextId);
      FleetGoesOn(w, step);
      LateCallIsOwn(w, call);
      StepContinues(w, step, call.host);
      hide WorldIsOrderly, Continues;
      SparingStays(call, At(w, call.host), At(NextWorld(w, step), call.host), w.fleet.nextId, NextWorld(w, step).fleet.nextId);
    } else {
      LateGrows(w, step, call);
      assert Orderly(w.fleet, At(w, step.host), step.host) && JournalsAreOld(At(w, step.host), w.fleet.nextId);
      hide WorldIsOrderly, CallOf, Orderly, JournalsAreOld;
      OwnCall(At(w, step.host), step.host, step.act.required, step.act.healthy);
      GivenUpSparesUpgrades(w.fleet, At(w, step.host), step.host, step.act.required, step.act.healthy);
    }
  }

  lemma StepKeepsOrderly(w: World, step: Step)
    requires WorldIsOrderly(w)
    ensures WorldIsOrderly(NextWorld(w, step))
  {
    hide NextWorld, CanStep;
    if CanStep(w, step) {
      FleetGoesOn(w, step);
      StepKeepsLogs(w, step);
      hide Coupled, LogsAreSpent, Orderly, JournalsAreOld, GrantsDiffer, SparesUpgrades;
      forall host ensures Orderly(NextWorld(w, step).fleet, At(NextWorld(w, step), host), host) { StepKeepsAgentOrderly(w, step, host); }
      forall host ensures JournalsAreOld(At(NextWorld(w, step), host), NextWorld(w, step).fleet.nextId) { StepKeepsJournalsOld(w, step, host); }
      forall a, b | a != b ensures GrantsDiffer(At(NextWorld(w, step), a).pc, At(NextWorld(w, step), b).pc) { StepKeepsGrantsApart(w, step, a, b); }
      forall call | call in NextWorld(w, step).late ensures SparesUpgrades(call, HostAgent(NextWorld(w, step), call), NextWorld(w, step).fleet.nextId) {
        StepKeepsLate(w, step, call);
      }
    } else {
      ImpossibleStep(w, step);
    }
  }

  lemma ImpossibleStep(w: World, step: Step)
    requires !CanStep(w, step)
    ensures NextWorld(w, step) == w
  {
  }

  lemma StartIsOrderly()
    ensures WorldIsOrderly(EMPTY_WORLD)
  {
  }

  lemma {:induction false} EveryRunIsOrderly(steps: seq<Step>)
    ensures WorldIsOrderly(After(steps))
  {
    if steps == [] {
      StartIsOrderly();
    } else {
      hide WorldIsOrderly, NextWorld;
      EveryRunIsOrderly(steps[..|steps| - 1]);
      StepKeepsOrderly(After(steps[..|steps| - 1]), steps[|steps| - 1]);
    }
  }

  // ----- what it means -----

  /** A package upgrade under way belongs to the lock row that names the host and its execution. */
  lemma UpgradeBelongsToTheLock(steps: seq<Step>, host: Host)
    requires At(After(steps), host).installing.Some?
    ensures var lock := After(steps).fleet.lock;
      lock.Some? && lock.value.host == host && At(After(steps), host).installing == Some(lock.value.execution)
  {
    EveryRunIsOrderly(steps);
    assert Orderly(After(steps).fleet, At(After(steps), host), host);
  }

  /** No two hosts are ever inside a package upgrade at once. */
  lemma AtMostOneHostUpgrades(steps: seq<Step>, a: Host, b: Host)
    requires At(After(steps), a).installing.Some? && At(After(steps), b).installing.Some?
    ensures a == b
  {
    hide After;
    UpgradeBelongsToTheLock(steps, a);
    UpgradeBelongsToTheLock(steps, b);
  }

  /** Each execution causes at most one reboot command and at most one apt run. */
  lemma ExecutionsActAtMostOnce(steps: seq<Step>)
    ensures Distinct(After(steps).reboots) && Distinct(After(steps).installs)
  {
    EveryRunIsOrderly(steps);
  }

  /** A container the agent stopped and has not restarted is on record in the execution journal,
      at every crash point and on every failure path. */
  lemma StoppedContainerIsOnRecord(steps: seq<Step>, host: Host)
    ensures var agent := At(After(steps), host);
            agent.stopped ==> IsPve(host) && agent.journal.Some? && agent.journal.value.loockitStopped
  {
    EveryRunIsOrderly(steps);
    assert Orderly(After(steps).fleet, At(After(steps), host), host);
  }

  /** No reboot command is given while the marker is set or the container is down. */
  lemma RebootsOnlyWithTheContainerUp(steps: seq<Step>, step: Step)
    requires NextWorld(After(steps), step).reboots != After(steps).reboots
    ensures step.AgentStep?
    ensures var agent := At(After(steps), step.host);
            !agent.stopped && agent.journal.Some? && !agent.journal.value.loockitStopped
  {
    hide After, Moved, NextWorld;
    EveryRunIsOrderly(steps);
    var w := After(steps);
    RebootComesFromReady(w, step);
    assert Orderly(w.fleet, At(w, step.host), step.host);
    hide WorldIsOrderly;
    assert SelfConsistent(At(w, step.host), step.host);
  }

  lemma RebootComesFromReady(w: World, step: Step)
    requires NextWorld(w, step).reboots != w.reboots
    ensures step.AgentStep? && At(w, step.host).pc.Ready?
  {
    hide Moved, Apply, Answered, CallOf;
  }
}
