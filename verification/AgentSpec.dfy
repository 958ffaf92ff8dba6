/** The host agents as crash-prone clients of the fleet: every durable write, every external
    command and every request is one step, and the agent process or its host may die between
    any two of them. */
module AgentSpec {
  import opened Wrappers
  import opened Policy
  import opened FleetSpec

  /** execution.json and update.json */
  datatype Journal = Journal(bootId: Id, execution: Id, outcome: Option<Outcome>, loockitStopped: bool)
  datatype UpdateJournal = UpdateJournal(execution: Id, outcome: Option<Outcome>)

  /** Where the agent process is; Idle when none runs. */
  datatype Pc =
    | Idle
    // start of process(): journals of earlier runs
    | AtUpdateJournal
    | AtUpdateResend(execution: Id, outcome: Outcome)
    | AtUpdateUnlink
    | AtJournal
    | AtRestore(pending: Journal)
    | AtRestored(pending: Journal)
    | AtInterrupted(pending: Journal)
    // report and claim
    | AtReport
    | AtForget
    | AtClaim
    // a granted reboot execution
    | Granted(execution: Id)
    | Preflight(execution: Id)
    | MarkerSaved(execution: Id)
    | ContainerStopped(execution: Id)
    | ContainerRestarted(execution: Id)
    | Ready(execution: Id)
    | Saving(execution: Id, outcome: Outcome, loockitStopped: bool)
    | Sending(execution: Id, outcome: Outcome, loockitStopped: bool)
    | Unlinking
    // update_packages()
    | UStart
    | UReport
    | UClaim
    | UGranted(execution: Id)
    | UCheck(execution: Id)
    | UReady(execution: Id)
    | UInstalling(execution: Id)
    | USaving(execution: Id, outcome: Outcome)
    | USending(execution: Id, outcome: Outcome)
    | UUnlinking

  /** The host: its boot session, its agent, its journals, and what is physically going on.
      rebooting: a reboot command took effect and the host is not up again; installing: apt is
      running; stopped: the agent stopped the local Loockit container and did not restart it. */
  datatype Agent = Agent(
    boot: Id,
    pc: Pc,
    journal: Option<Journal>,
    update: Option<UpdateJournal>,
    rebooting: Option<Id>,
    installing: Option<Id>,
    stopped: bool)

  const NEW_AGENT := Agent(0, Idle, None, None, None, None, false)

  /** late: requests whose sender gave up before they arrived; they may still arrive, and more
      than once. reboots and installs: every reboot command and apt run ever started, by execution. */
  datatype World = World(fleet: Fleet, agents: map<Host, Agent>, nextBoot: Id, late: set<Call>, reboots: seq<Id>, installs: seq<Id>)

  const EMPTY_WORLD := World(EMPTY, map[], 1, {}, [], [])

  function At(w: World, host: Host): Agent {
    if host in w.agents then w.agents[host] else NEW_AGENT
  }

  function Put(w: World, host: Host, agent: Agent): (w': World)
    ensures At(w', host) == agent
    ensures forall other | other != host :: At(w', other) == At(w, other)
  {
    w.(agents := w.agents[host := agent])
  }

  /** A request may be given up before it arrives, or answered with the answer lost. */
  datatype Net = LostRequest | LostReply | Delivered

  datatype Choice = Pass | NotNeeded | Refuse | HandOff

  /** The answers of the world to the agent's next step: whether a command reports success and
      whether it took effect, which way the checks go, and what the network does. */
  datatype Act =
    | Begin
    | BeginUpdate
    | Crash
    | PowerCycle
    | AptEnds
    | Move(ok: bool, effect: bool, choice: Choice)
    | Request(net: Net, required: bool, healthy: bool, more: bool, now: int)

  predicate IsRequest(pc: Pc) {
    pc.AtUpdateResend? || pc.AtReport? || pc.AtClaim? || pc.Sending? || pc.UReport? || pc.UClaim? || pc.USending?
  }

  predicate CanAct(agent: Agent, host: Host, act: Act) {
    match act
    case Begin => agent.pc.Idle?
    case BeginUpdate => agent.pc.Idle? && IsPve(host)
    case Crash => true
    case PowerCycle => true
    case AptEnds => agent.installing.Some?
    case Move(ok, effect, choice) =>
      && !agent.pc.Idle? && !IsRequest(agent.pc)
      && (ok ==> effect)
      && (choice.HandOff? ==> IsPve(host))
      && (agent.pc.UInstalling? && ok ==> agent.installing.None?)
    case Request(_, _, _, _, _) => IsRequest(agent.pc)
  }

  /** How process() goes on with the journal of an earlier run once its container is back. */
  function AfterPending(pending: Journal, agent: Agent, host: Host, recovered: bool): Pc {
    if pending.bootId == agent.boot then
      (if pending.outcome.Some? then Sending(pending.execution, pending.outcome.value, false) else Idle)
    else if IsPve(host) && !recovered then Idle
    else AtReport
  }

  /** The journal an agent saves in this boot session. */
  function Saved(agent: Agent, execution: Id, outcome: Option<Outcome>, loockitStopped: bool): Agent {
    agent.(journal := Some(Journal(agent.boot, execution, outcome, loockitStopped)))
  }

  /** A local step: one durable write or one external command. */
  function Moved(agent: Agent, ok: bool, effect: bool, choice: Choice, host: Host): Agent {
    match agent.pc
    case AtUpdateJournal =>
      agent.(pc := if agent.update.None? then AtJournal
                   else if agent.update.value.outcome.Some? then AtUpdateResend(agent.update.value.execution, agent.update.value.outcome.value)
                   else Idle)
    case AtUpdateUnlink => agent.(update := None, pc := AtJournal)
    case AtJournal =>
      agent.(pc := if agent.journal.None? then AtReport
                   else if IsPve(host) && agent.journal.value.loockitStopped then AtRestore(agent.journal.value)
                   else AfterPending(agent.journal.value, agent, host, ok))
    case AtRestore(p) =>
      agent.(stopped := agent.stopped && !effect, pc := if ok then AtRestored(p.(loockitStopped := false)) else Idle)
    case AtRestored(p) =>
      agent.(journal := Some(p),
             pc := if p.bootId == agent.boot && p.outcome.None? then AtInterrupted(p.(outcome := Some(Blocked)))
                   else AfterPending(p, agent, host, ok))
    case AtInterrupted(p) => agent.(journal := Some(p), pc := Sending(p.execution, Blocked, false))
    case AtForget => agent.(journal := None, pc := AtClaim)
    case Granted(e) => Saved(agent, e, None, false).(pc := Preflight(e))
    case Preflight(e) =>
      (match choice
       case Pass => agent.(pc := Ready(e))
       case NotNeeded => agent.(pc := Saving(e, Complete, false))
       case Refuse => agent.(pc := Saving(e, Blocked, false))
       case HandOff => Saved(agent, e, None, true).(pc := MarkerSaved(e)))
    case MarkerSaved(e) => agent.(stopped := agent.stopped || effect, pc := ContainerStopped(e))
    case ContainerStopped(e) =>
      agent.(stopped := agent.stopped && !effect, pc := if ok then ContainerRestarted(e) else Saving(e, Blocked, true))
    case ContainerRestarted(e) => Saved(agent, e, None, false).(pc := if ok then Preflight(e) else Saving(e, Blocked, false))
    case Ready(e) =>
      agent.(rebooting := if effect then Some(e) else agent.rebooting, pc := if ok then Idle else Saving(e, FailedOutcome, false))
    case Saving(e, o, marker) => Saved(agent, e, Some(o), marker).(pc := Sending(e, o, marker))
    case Unlinking => agent.(journal := None, pc := Idle)
    case UStart => agent.(pc := if agent.journal.Some? || agent.update.Some? || !ok then Idle else UReport)
    case UGranted(e) => agent.(update := Some(UpdateJournal(e, None)), pc := UCheck(e))
    case UCheck(e) => agent.(pc := if ok then UReady(e) else USaving(e, Blocked))
    case UReady(e) => agent.(installing := Some(e), pc := UInstalling(e))
    case UInstalling(e) => agent.(pc := USaving(e, if ok then Complete else FailedOutcome))
    case USaving(e, o) => agent.(update := Some(UpdateJournal(e, Some(o))), pc := USending(e, o))
    case UUnlinking => agent.(update := None, pc := Idle)
    case _ => agent
  }

  /** The call a request makes. */
  function CallOf(agent: Agent, host: Host, required: bool, healthy: bool): Call
    requires IsRequest(agent.pc)
  {
    match agent.pc
    case AtUpdateResend(e, o) => CUpdateResult(host, e, o)
    case AtReport => CReport(host, agent.boot, required, healthy)
    case AtClaim => CClaim(host)
    case Sending(e, o, _) => CRebootResult(host, e, o)
    case UReport => CReport(host, agent.boot, required, healthy)
    case UClaim => CClaimUpdate(host)
    case USending(e, o) => CUpdateResult(host, e, o)
  }

  /** Where the agent goes on when the answer arrives; a refused call ends the process. */
  function Answered(agent: Agent, host: Host, fleet: Fleet, more: bool, now: int): Pc
    requires IsRequest(agent.pc)
  {
    match agent.pc
    case AtUpdateResend(e, o) =>
      if UpdateResult(fleet, host, e, o, now).Success? && !o.FailedOutcome? then AtUpdateUnlink else Idle
    case AtReport => AtForget
    case AtClaim =>
      var execution := Claim(fleet, host, now).1;
      if execution.Some? then Granted(execution.value) else if IsPve(host) && more then UStart else Idle
    case Sending(e, o, marker) =>
      if RebootResult(fleet, host, e, o, now).Failure? || (o.Blocked? && marker) then Idle else Unlinking
    case UReport => if more then UClaim else Idle
    case UClaim =>
      var execution := ClaimUpdate(fleet, host, now).1;
      if execution.Some? then UGranted(execution.value) else Idle
    case USending(e, o) =>
      if UpdateResult(fleet, host, e, o, now).Success? && !o.FailedOutcome? then UUnlinking else Idle
  }

  function ActOf(w: World, host: Host, act: Act): World
    requires CanAct(At(w, host), host, act)
  {
    var agent := At(w, host);
    match act
    case Begin => Put(w, host, agent.(pc := AtUpdateJournal))
    case BeginUpdate => Put(w, host, agent.(pc := UStart))
    case Crash => Put(w, host, agent.(pc := Idle))
    case PowerCycle =>
      Put(w, host, agent.(boot := w.nextBoot, pc := Idle, rebooting := None, installing := None)).(nextBoot := w.nextBoot + 1)
    case AptEnds => Put(w, host, agent.(installing := None))
    case Move(ok, effect, choice) =>
      Put(w, host, Moved(agent, ok, effect, choice, host)).(
        reboots := if agent.pc.Ready? then w.reboots + [agent.pc.execution] else w.reboots,
        installs := if agent.pc.UReady? then w.installs + [agent.pc.execution] else w.installs)
    case Request(net, required, healthy, more, now) =>
      if net.LostRequest? then Put(w, host, agent.(pc := Idle)).(late := w.late + {CallOf(agent, host, required, healthy)}) else
      var pc := if net.Delivered? then Answered(agent, host, w.fleet, more, now) else Idle;
      Put(w, host, agent.(pc := pc)).(fleet := Apply(w.fleet, CallOf(agent, host, required, healthy), now))
  }

  /** The fleet also serves buttons, the observer, the daily tick and finished publications. */
  predicate IsOutside(call: Call) {
    call.CTick? || call.CInteraction? || call.CNotified? || call.CObserve?
  }

  datatype Step = AgentStep(host: Host, act: Act) | OutsideStep(call: Call, now: int) | LateStep(call: Call, now: int)

  predicate CanStep(w: World, step: Step) {
    match step
    case AgentStep(host, act) => CanAct(At(w, host), host, act)
    case OutsideStep(call, now) => IsOutside(call)
    case LateStep(call, now) => call in w.late
  }

  /** A step that is not possible changes nothing. */
  function NextWorld(w: World, step: Step): World {
    if !CanStep(w, step) then w else
    match step
    case AgentStep(host, act) => ActOf(w, host, act)
    case OutsideStep(call, now) => w.(fleet := Apply(w.fleet, call, now))
    case LateStep(call, now) => w.(fleet := Apply(w.fleet, call, now))
  }

  function After(steps: seq<Step>): World {
    if steps == [] then EMPTY_WORLD else NextWorld(After(steps[..|steps| - 1]), steps[|steps| - 1])
  }
}
