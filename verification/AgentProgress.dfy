/** Where an agent gets when nothing disturbs it: what it makes of the journals it finds, how a granted
    execution goes through its checks, and that every result is delivered and then forgotten. */
module AgentProgress {
  import opened Wrappers
  import opened Policy
  import opened FleetSpec
  import opened AgentSpec

  /** The next local step, without trouble. */
  function Went(agent: Agent, host: Host): Agent { Moved(agent, true, true, Pass, host) }

  /** The process as it begins. */
  function Begun(agent: Agent): Agent { agent.(pc := AtUpdateJournal) }

  // ----- the journals it finds -----

  /** A package update that was interrupted without a result is left to an operator. */
  lemma InterruptedUpdateWaits(agent: Agent, host: Host, e: Id)
    requires agent.update == Some(UpdateJournal(e, None))
    ensures Went(Begun(agent), host) == agent.(pc := Idle)
  {
  }

  /** A result of a package update that was not delivered is delivered again, first of all. Once it is
      accepted it is forgotten and the process goes on, except for a failure, which stays. */
  lemma UpdateResultIsResent(agent: Agent, host: Host, e: Id, o: Outcome, s: Fleet, required: bool, healthy: bool, more: bool, now: int)
    requires agent.update == Some(UpdateJournal(e, Some(o)))
    ensures var resending := Went(Begun(agent), host);
      && IsRequest(resending.pc) && CallOf(resending, host, required, healthy) == CUpdateResult(host, e, o)
      && var pc := Answered(resending, host, s, more, now);
         if UpdateResult(s, host, e, o, now).Success? && o != FailedOutcome
         then Went(resending.(pc := pc), host) == agent.(update := None, pc := AtJournal)
         else resending.(pc := pc) == agent.(pc := Idle)
  {
    hide UpdateResult;
  }

  /** Without a package update in the way the execution journal is looked at. */
  lemma JournalIsNext(agent: Agent, host: Host)
    requires agent.update.None?
    ensures Went(Begun(agent), host) == agent.(pc := AtJournal)
  {
  }

  /** A container that an earlier process stopped is started again before anything else, and the mark
      goes; a decision that was interrupted by that ends as a refusal. */
  lemma StoppedContainerIsRestored(agent: Agent, host: Host, j: Journal)
    requires agent.pc.AtJournal? && agent.journal == Some(j) && j.loockitStopped && host != DevApp
    ensures var restored := Went(Went(Went(agent, host), host), host);
      && !restored.stopped && restored.journal == Some(j.(loockitStopped := false))
      && (j.bootId == agent.boot && j.outcome.None? ==>
            Went(restored, host) == restored.(journal := Some(j.(loockitStopped := false, outcome := Some(Blocked))), pc := Sending(j.execution, Blocked, false)))
      && (j.bootId == agent.boot && j.outcome.Some? ==> restored.pc == Sending(j.execution, j.outcome.value, false))
      && (j.bootId != agent.boot ==> restored.pc == AtReport)
  {
  }

  /** If it cannot be started the process ends and tries again the next time. */
  lemma FailedRestoreIsRetried(agent: Agent, host: Host, j: Journal, effect: bool)
    requires agent.pc.AtJournal? && agent.journal == Some(j) && j.loockitStopped && host != DevApp
    ensures Moved(Went(agent, host), false, effect, Pass, host) == agent.(stopped := agent.stopped && !effect, pc := Idle)
  {
  }

  /** A result of this boot session is delivered again; an execution without one waits for its reboot;
      a journal of an earlier session is answered with a report, by a PVE host once it has recovered. */
  lemma JournalDecides(agent: Agent, host: Host, j: Journal, recovered: bool)
    requires agent.pc.AtJournal? && agent.journal == Some(j) && (j.loockitStopped ==> host == DevApp)
    ensures Moved(agent, recovered, true, Pass, host) == agent.(pc :=
      if j.bootId == agent.boot then (if j.outcome.Some? then Sending(j.execution, j.outcome.value, false) else Idle)
      else if recovered || host == DevApp then AtReport else Idle)
  {
  }

  lemma NothingPendingIsReported(agent: Agent, host: Host)
    requires agent.pc.AtJournal? && agent.journal.None?
    ensures Went(agent, host) == agent.(pc := AtReport)
  {
  }

  // ----- report and claim -----

  /** The report tells the boot session and what the host found; then old journals are forgotten and a
      reboot is claimed. */
  lemma ReportThenClaim(agent: Agent, host: Host, s: Fleet, required: bool, healthy: bool, more: bool, now: int)
    requires agent.pc.AtReport?
    ensures CallOf(agent, host, required, healthy) == CReport(host, agent.boot, required, healthy)
    ensures var claiming := Went(agent.(pc := Answered(agent, host, s, more, now)), host);
      claiming == agent.(journal := None, pc := AtClaim) && CallOf(claiming, host, required, healthy) == CClaim(host)
  {
  }

  /** A granted claim is taken up; after a refused one a PVE host turns to its package updates. */
  lemma ClaimDecides(agent: Agent, host: Host, s: Fleet, more: bool, now: int)
    requires agent.pc.AtClaim?
    ensures Answered(agent, host, s, more, now) ==
      match Claim(s, host, now).1
      case Some(e) => Granted(e)
      case None => if host != DevApp && more then UStart else Idle
  {
    hide Claim;
  }

  // ----- a granted reboot -----

  /** The execution is journaled before its checks, and journaled still when the reboot is commanded. */
  lemma GrantedReboots(agent: Agent, host: Host, e: Id)
    requires agent.pc == Granted(e)
    ensures var ready := Went(Went(agent, host), host);
      && ready == agent.(journal := Some(Journal(agent.boot, e, None, false)), pc := Ready(e))
      && Went(ready, host) == ready.(rebooting := Some(e), pc := Idle)
  {
  }

  /** A reboot that is not needed is reported complete. */
  lemma NotNeededIsComplete(agent: Agent, host: Host, e: Id, required: bool, healthy: bool)
    requires agent.pc == Preflight(e)
    ensures Delivers(Moved(agent, true, true, NotNeeded, host), host, e, Complete, required, healthy)
  {
    assert Moved(agent, true, true, NotNeeded, host).pc == Saving(e, Complete, false);
  }

  /** One that the checks refuse is reported blocked. */
  lemma RefusalIsBlocked(agent: Agent, host: Host, e: Id, required: bool, healthy: bool)
    requires agent.pc == Preflight(e)
    ensures Delivers(Moved(agent, true, true, Refuse, host), host, e, Blocked, required, healthy)
  {
    assert Moved(agent, true, true, Refuse, host).pc == Saving(e, Blocked, false);
  }

  /** One whose command fails is reported failed. */
  lemma FailedCommandIsFailed(agent: Agent, host: Host, e: Id, effect: bool, required: bool, healthy: bool)
    requires agent.pc == Ready(e)
    ensures Delivers(Moved(agent, false, effect, Pass, host), host, e, FailedOutcome, required, healthy)
  {
    assert Moved(agent, false, effect, Pass, host).pc == Saving(e, FailedOutcome, false);
  }

  /** The next step journals the result, and the request after it tells it. */
  predicate Delivers(agent: Agent, host: Host, e: Id, o: Outcome, required: bool, healthy: bool) {
    var sending := Went(agent, host);
    && sending.journal.Some? && sending.journal.value.bootId == agent.boot
    && sending.journal.value.execution == e && sending.journal.value.outcome == Some(o)
    && IsRequest(sending.pc) && CallOf(sending, host, required, healthy) == CRebootResult(host, e, o)
  }

  /** The container is handed over by stopping and starting it, on record all the while; then the checks
      are made again. */
  lemma HandOverComesBack(agent: Agent, host: Host, e: Id)
    requires agent.pc == Preflight(e) && host != DevApp
    ensures var marked := Moved(agent, true, true, HandOff, host);
      && marked == agent.(journal := Some(Journal(agent.boot, e, None, true)), pc := MarkerSaved(e))
      && Went(marked, host).stopped && Went(marked, host).journal == marked.journal
      && Went(Went(Went(marked, host), host), host) == agent.(journal := Some(Journal(agent.boot, e, None, false)), stopped := false, pc := Preflight(e))
  {
  }

  /** A container that does not come back refuses the reboot; when it was not started it stays on record. */
  lemma HandOverFails(agent: Agent, host: Host, e: Id, effect: bool)
    ensures agent.pc == ContainerStopped(e) ==>
      var sending := Went(Moved(agent, false, effect, Pass, host), host);
      sending.journal == Some(Journal(agent.boot, e, Some(Blocked), true)) && sending.pc == Sending(e, Blocked, true)
    ensures agent.pc == ContainerRestarted(e) ==>
      var sending := Went(Moved(agent, false, effect, Pass, host), host);
      sending.journal == Some(Journal(agent.boot, e, Some(Blocked), false)) && sending.pc == Sending(e, Blocked, false)
  {
  }

  /** A delivered result is forgotten, unless it was refused or the container is still on record. */
  lemma DeliveredIsForgotten(agent: Agent, host: Host, s: Fleet, e: Id, o: Outcome, marker: bool, more: bool, now: int)
    requires agent.pc == Sending(e, o, marker)
    ensures var pc := Answered(agent, host, s, more, now);
      if RebootResult(s, host, e, o, now).Success? && !(o == Blocked && marker)
      then Went(agent.(pc := pc), host) == agent.(journal := None, pc := Idle)
      else pc == Idle
  {
    hide RebootResult;
  }

  // ----- a package upgrade -----

  /** Upgrades begin only without journals; the host reports, and claims if there is something to do. */
  lemma UpdateBegins(agent: Agent, host: Host, s: Fleet, required: bool, healthy: bool, more: bool, now: int)
    requires agent.pc.UStart?
    ensures var reporting := Went(agent, host);
      if agent.journal.Some? || agent.update.Some? then reporting == agent.(pc := Idle)
      else
        && reporting == agent.(pc := UReport) && CallOf(reporting, host, required, healthy) == CReport(host, agent.boot, required, healthy)
        && Answered(reporting, host, s, more, now) == (if more then UClaim else Idle)
        && (more ==> CallOf(reporting.(pc := UClaim), host, required, healthy) == CClaimUpdate(host))
  {
  }

  lemma UpdateClaimDecides(agent: Agent, host: Host, s: Fleet, more: bool, now: int)
    requires agent.pc.UClaim?
    ensures Answered(agent, host, s, more, now) == match ClaimUpdate(s, host, now).1 case Some(e) => UGranted(e) case None => Idle
  {
    hide ClaimUpdate;
  }

  /** A granted upgrade is journaled before its checks and begins after them; a failed check is reported
      as blocked. */
  lemma GrantedUpgrades(agent: Agent, host: Host, e: Id, effect: bool)
    requires agent.pc == UGranted(e)
    ensures var checking := Went(agent, host);
      && checking == agent.(update := Some(UpdateJournal(e, None)), pc := UCheck(e))
      && Went(Went(checking, host), host) == checking.(installing := Some(e), pc := UInstalling(e))
      && Moved(checking, false, effect, Pass, host) == checking.(pc := USaving(e, Blocked))
  {
  }

  /** What apt reported is journaled, delivered and, unless it is a failure or refused, forgotten. */
  lemma UpgradeIsReported(agent: Agent, host: Host, e: Id, ok: bool, effect: bool, s: Fleet, required: bool, healthy: bool, more: bool, now: int)
    requires agent.pc == UInstalling(e)
    ensures var o := if ok then Complete else FailedOutcome; var sending := Went(Moved(agent, ok, effect, Pass, host), host);
      && sending == agent.(update := Some(UpdateJournal(e, Some(o))), pc := USending(e, o))
      && CallOf(sending, host, required, healthy) == CUpdateResult(host, e, o)
      && var pc := Answered(sending, host, s, more, now);
         if UpdateResult(s, host, e, o, now).Success? && ok then Went(sending.(pc := pc), host) == agent.(update := None, pc := Idle) else pc == Idle
  {
    hide UpdateResult;
  }
}
