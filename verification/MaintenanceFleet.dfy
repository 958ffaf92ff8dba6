/** The durable object itself: five tables, and methods that read rows, change them and write
    them back. Each method's contract equates its effect with the value semantics of FleetSpec,
    so every theorem about runs of FleetSpec is a theorem about these methods. */
module FleetObject {
  import opened Wrappers
  import opened Policy
  import opened EnvironmentHealth
  import FleetSpec
  import FleetCoupling
  import Calendar

  class MaintenanceFleet {
    var hosts: map<Host, RecordState>
    var packageUpdate: Option<FleetSpec.Lock>
    var environment: FleetSpec.Environment
    var events: map<FleetSpec.EventId, int>
    var nextId: Id

    ghost function Tables(): FleetSpec.Fleet
      reads this
    {
      FleetSpec.Fleet(hosts, packageUpdate, environment, events, nextId)
    }

    /** The agreement of the tables, which every call keeps. */
    ghost predicate Valid()
      reads this
    {
      FleetCoupling.Coupled(Tables())
    }

    constructor ()
      ensures Tables() == FleetSpec.EMPTY && Valid()
    {
      hosts := map[];
      packageUpdate := None;
      environment := FleetSpec.Environment(None, None);
      events := map[];
      nextId := 0;
    }

    method Read(host: Host) returns (state: RecordState)
      ensures state == FleetSpec.Read(Tables(), host)
    {
      state := if host in hosts then hosts[host] else NO_RECORD;
    }

    method Write(host: Host, state: RecordState)
      modifies this`hosts
      ensures Tables() == FleetSpec.Write(old(Tables()), host, state)
    {
      hosts := hosts[host := state];
    }

    method RandomId() returns (id: Id)
      modifies this`nextId
      ensures id == old(nextId) && nextId == old(nextId) + 1
    {
      id := nextId;
      nextId := nextId + 1;
    }

    // ----- separation -----

    ghost predicate NoneBefore(host: Host, target: int, i: nat)
      requires i <= |HOSTS|
      reads this
    {
      forall j | 0 <= j < i :: !FleetSpec.OccupiedBy(Tables(), host, HOSTS[j], target)
    }

    /** The first other host, in the fixed order, whose plan or recorded start is too near. */
    method ConflictingReboot(host: Host, target: int) returns (conflict: Option<Host>)
      ensures conflict.Some? <==> FleetSpec.Conflicts(Tables(), host, target)
      ensures conflict.Some? ==> FleetSpec.OccupiedBy(Tables(), host, conflict.value, target)
      ensures conflict.Some? ==> exists i | 0 <= i < |HOSTS| :: HOSTS[i] == conflict.value && NoneBefore(host, target, i)
    {
      assert HOSTS == [DevApp, PveX570, PveB550m];
      for i := 0 to |HOSTS|
        invariant NoneBefore(host, target, i)
      {
        var other := HOSTS[i];
        if other != host {
          var state := Read(other);
          if FleetSpec.Occupies(state, target) { return Some(other); }
        }
      }
      assert forall j | 0 <= j < 3 :: !FleetSpec.OccupiedBy(Tables(), host, HOSTS[j], target);
      assert HOSTS[0] == DevApp && HOSTS[1] == PveX570 && HOSTS[2] == PveB550m;
      conflict := None;
    }

    method AvailableTarget(host: Host, wish: int) returns (target: int)
      ensures target == FleetSpec.AvailableTarget(Tables(), host, wish)
    {
      target := wish;
      var conflict := ConflictingReboot(host, target);
      while conflict.Some?
        invariant conflict.Some? <==> FleetSpec.Conflicts(Tables(), host, target)
        invariant FleetSpec.AvailableTarget(Tables(), host, target) == FleetSpec.AvailableTarget(Tables(), host, wish)
        decreases Max(0, FleetSpec.Horizon(Tables()) - target)
      {
        FleetSpec.ConflictsEndAtHorizon(Tables(), host, target);
        target := target + REBOOT_GAP;
        if IsPve(host) && JstHour(target) < 20 { target := JstAt(JstDay(target), 20); }
        conflict := ConflictingReboot(host, target);
      }
    }

    // ----- plans moved without a button -----

    method AlignLegacySlot(host: Host, start: RecordState, now: int) returns (state: RecordState, realigned: bool)
      modifies this`nextId
      ensures (state, realigned) == FleetSpec.AlignLegacySlot(old(Tables()), host, start, now, old(nextId))
      ensures nextId == if realigned then old(nextId) + 1 else old(nextId)
    {
      state := start;
      if state.plan.None? || !IsPve(host) || Busy(state.plan.value) { return state, false; }
      var plan := state.plan.value;
      var daytime := JstHour(plan.target) < 20;
      if !daytime && plan.eveningWindow { return state, false; }
      if daytime {
        var sameDay := JstAt(JstDay(plan.target), RebootHour(host));
        var target := AvailableTarget(host, if sameDay >= now + LEAD_TIME then sameDay else NextMorning(now, host));
        plan := plan.(target := target);
      }
      plan := plan.(eveningWindow := true);
      if !plan.phase.Held? { plan := plan.(phase := Approval); }
      var revision := RandomId();
      plan := plan.(revision := revision, notifiedRevision := None);
      return state.(plan := Some(plan)), true;
    }

    method CarryApprovedReboot(host: Host, start: RecordState, now: int) returns (state: RecordState, carried: bool)
      modifies this`nextId
      ensures (state, carried) == FleetSpec.CarryApprovedReboot(old(Tables()), host, start, now, old(nextId))
      ensures nextId == if carried then old(nextId) + 1 else old(nextId)
    {
      state := start;
      if !IsPve(host) || state.plan.None? || !state.plan.value.phase.Scheduled? || !state.plan.value.eveningWindow ||
         now < RebootWindowEnd(host, state.plan.value.target) { return state, false; }
      var earliest := CeilMinute(now + LEAD_TIME);
      var evening := JstAt(JstDay(earliest), 20);
      var target := AvailableTarget(host, Max(earliest, evening));
      var revision := RandomId();
      return state.(plan := Some(state.plan.value.(target := target, revision := revision, notifiedRevision := None))), true;
    }

    // ----- the environment row -----

    method EnvironmentReady(now: int) returns (ready: bool)
      ensures ready == FleetSpec.EnvironmentReady(Tables(), now)
      ensures ready ==> environment.inspection.Some?
    {
      var problems := HealthProblems(environment.inspection, now, None);
      ready := environment.gate.None? && problems == [];
    }

    method StartEnvironmentCheck(host: Host, execution: Id, kind: Kind, now: int)
      requires environment.inspection.Some?
      modifies this`environment
      ensures Tables() == FleetSpec.StartEnvironmentCheck(old(Tables()), host, execution, kind, now)
    {
      environment := environment.(gate := Some(NewGate(host, execution, kind, now, environment.inspection.value)));
    }

    method FinishEnvironmentStep(host: Host, execution: Id, now: int)
      modifies this`environment
      ensures environment == FleetSpec.FinishEnvironmentStep(old(environment), host, execution, now)
    {
      if environment.gate.None? { return; }
      var gate := environment.gate.value;
      if gate.host != host || gate.executionId != execution || gate.completedAt.Some? { return; }
      gate := gate.(completedAt := Some(now));
      gate := gate.(stableSince := None);
      environment := environment.(gate := Some(gate));
    }

    // ----- calls of the host agents -----

    /** The record a report leaves before slots are realigned. */
    method AfterSnapshot(host: Host, snapshot: Snapshot) returns (state: RecordState)
      modifies this`environment
      ensures state == FleetSpec.AfterSnapshot(old(Tables()), host, snapshot).0
      ensures environment == if FleetSpec.AfterSnapshot(old(Tables()), host, snapshot).1 && state.plan.value.executionId.Some?
        then FleetSpec.FinishEnvironmentStep(old(environment), host, state.plan.value.executionId.value, snapshot.observedAt)
        else old(environment)
    {
      state := Read(host);
      state := state.(snapshot := Some(snapshot));
      var recovered := state.plan.Some? && state.plan.value.phase.Running? && state.plan.value.bootId != snapshot.bootId && snapshot.healthy;
      if recovered && IsPve(host) && FleetSpec.GateExecution(environment) == state.plan.value.executionId {
        if state.plan.value.executionId.Some? { FinishEnvironmentStep(host, state.plan.value.executionId.value, snapshot.observedAt); }
      } else if recovered {
        state := state.(plan := None);
      } else if state.plan.Some? && !Busy(state.plan.value) {
        if state.plan.value.bootId != snapshot.bootId || !snapshot.required { state := state.(plan := None); }
      }
    }

    method Report(host: Host, bootId: Id, required: bool, healthy: bool, now: int)
      modifies this
      ensures Tables() == FleetSpec.Report(old(Tables()), host, bootId, required, healthy, now)
    {
      hide FleetSpec.AfterSnapshot, FleetSpec.FinishEnvironmentStep, FleetSpec.AlignLegacySlot, FleetSpec.CarryApprovedReboot;
      ghost var before := Tables();
      var state := AfterSnapshot(host, Snapshot(bootId, required, healthy, now));
      // Slots are compared with the other hosts only, whose rows this report does not touch.
      SlotsOfOthers(before, Tables(), host);
      var realigned, carried;
      state, realigned := AlignLegacySlot(host, state, now);
      SlotsOfOthers(before, Tables(), host);
      state, carried := CarryApprovedReboot(host, state, now);
      Write(host, state);
    }

    method OthersExclude(host: Host, now: int) returns (excluded: bool)
      ensures excluded == FleetSpec.OthersExclude(Tables(), host, now)
    {
      assert HOSTS == [DevApp, PveX570, PveB550m];
      excluded := false;
      for i := 0 to |HOSTS|
        invariant excluded <==> exists j | 0 <= j < i :: HOSTS[j] != host && FleetSpec.Excludes(FleetSpec.Read(Tables(), HOSTS[j]), now)
      {
        if HOSTS[i] != host {
          var other := Read(HOSTS[i]);
          excluded := excluded || BusyRecord(other) ||
            (other.lastRebootStartedAt.Some? && now - other.lastRebootStartedAt.value < REBOOT_GAP);
        }
      }
      assert HOSTS[0] == DevApp && HOSTS[1] == PveX570 && HOSTS[2] == PveB550m;
    }

    method AnyBusy() returns (busy: bool)
      ensures busy == FleetSpec.AnyBusy(Tables())
    {
      assert HOSTS == [DevApp, PveX570, PveB550m];
      busy := false;
      for i := 0 to |HOSTS|
        invariant busy <==> exists j | 0 <= j < i :: BusyRecord(FleetSpec.Read(Tables(), HOSTS[j]))
      {
        var other := Read(HOSTS[i]);
        busy := busy || BusyRecord(other);
      }
      assert HOSTS[0] == DevApp && HOSTS[1] == PveX570 && HOSTS[2] == PveB550m;
    }

    method Claim(host: Host, now: int) returns (execution: Option<Id>)
      modifies this
      ensures (Tables(), execution) == FleetSpec.Claim(old(Tables()), host, now)
    {
      var state := Read(host);
      if !Due(host, state, now) { return None; }
      var ready := EnvironmentReady(now);
      if IsPve(host) && !ready { return None; }
      if packageUpdate.Some? { return None; }
      var excluded := OthersExclude(host, now);
      if excluded { return None; }
      var id := RandomId();
      var plan := state.plan.value.(phase := Running, executionId := Some(id));
      state := state.(plan := Some(plan), lastRebootStartedAt := Some(now));
      Write(host, state);
      if IsPve(host) { StartEnvironmentCheck(host, id, Reboot, now); }
      return Some(id);
    }

    method ClaimUpdate(host: Host, now: int) returns (execution: Option<Id>)
      modifies this
      ensures (Tables(), execution) == FleetSpec.ClaimUpdate(old(Tables()), host, now)
    {
      var state := Read(host);
      var ready := EnvironmentReady(now);
      var busy := AnyBusy();
      if !IsPve(host) || !FleetSpec.FreshlyHealthy(state, now) || !ready || packageUpdate.Some? || busy { return None; }
      var id := RandomId();
      packageUpdate := Some(FleetSpec.Lock(host, id, false));
      StartEnvironmentCheck(host, id, Update, now);
      return Some(id);
    }

    method UpdateResult(host: Host, execution: Id, outcome: FleetSpec.Outcome, now: int) returns (accepted: bool)
      modifies this
      ensures Tables() == FleetSpec.Accepted(FleetSpec.UpdateResult(old(Tables()), host, execution, outcome, now), old(Tables()))
      ensures accepted == FleetSpec.UpdateResult(old(Tables()), host, execution, outcome, now).Success?
    {
      var event := FleetSpec.UpdateEvent(host, execution);
      if event in events { return true; }
      if packageUpdate.None? || packageUpdate.value.host != host || packageUpdate.value.execution != execution { return false; }
      match outcome {
        case FailedOutcome => packageUpdate := Some(packageUpdate.value.(failed := true));
        case Complete => FinishEnvironmentStep(host, execution, now);
        case Blocked => packageUpdate := None;
      }
      if !outcome.Complete? && FleetSpec.GateExecution(environment) == Some(execution) {
        if outcome.FailedOutcome? {
          environment := environment.(gate := Some(environment.gate.value.(held := true, holdCause := Some(Operation))));
        } else {
          environment := environment.(gate := None);
        }
      }
      events := events[event := now];
      return true;
    }

    method RebootResult(host: Host, execution: Id, outcome: FleetSpec.Outcome, now: int) returns (accepted: bool)
      modifies this
      ensures Tables() == FleetSpec.Accepted(FleetSpec.RebootResult(old(Tables()), host, execution, outcome, now), old(Tables()))
      ensures accepted == FleetSpec.RebootResult(old(Tables()), host, execution, outcome, now).Success?
    {
      var event := FleetSpec.ResultEvent(host, execution);
      if event in events { return true; }
      var state := Read(host);
      if state.plan.None? || !state.plan.value.phase.Running? || state.plan.value.executionId != Some(execution) { return false; }
      if FleetSpec.GateExecution(environment) == Some(execution) {
        if outcome.FailedOutcome? {
          environment := environment.(gate := Some(environment.gate.value.(held := true, holdCause := Some(Operation))));
        } else {
          environment := environment.(gate := None);
        }
      }
      if outcome.Complete? {
        state := state.(plan := None);
      } else {
        var plan := state.plan.value.(phase := if outcome.Blocked? then Held else Failed);
        var revision := RandomId();
        state := state.(plan := Some(plan.(revision := revision, notifiedRevision := None)));
      }
      Write(host, state);
      events := events[event := now];
      return true;
    }

    method Recover(host: Host, now: int) returns (accepted: bool)
      modifies this
      ensures Tables() == FleetSpec.Accepted(FleetSpec.Recover(old(Tables()), host, now), old(Tables()))
      ensures accepted == FleetSpec.Recover(old(Tables()), host, now).Success?
    {
      var state := Read(host);
      if !FleetSpec.FreshlyHealthy(state, now) { return false; }
      if environment.gate.Some? && environment.gate.value.host == host {
        var problems := HealthProblems(environment.inspection, now, Some(environment.gate.value.baseline));
        if !environment.gate.value.held || problems != [] { return false; }
        environment := environment.(gate := None);
      }
      if packageUpdate.Some? && packageUpdate.value.host == host { packageUpdate := None; }
      if state.plan.None? { return true; }
      var revision := RandomId();
      state := state.(plan := Some(state.plan.value.(phase := Held, revision := revision, notifiedRevision := None)));
      Write(host, state);
      return true;
    }

    // ----- the minute observer and the daily tick -----

    /** A passed gate takes its lock row or its reboot plan with it. */
    method Release(gate: HealthGate, inspection: Inspection)
      modifies this
      ensures Tables() == FleetSpec.Released(old(Tables()), gate, inspection)
    {
      var local := Read(gate.host);
      if gate.kind.Update? {
        if packageUpdate.Some? && packageUpdate.value.host == gate.host && packageUpdate.value.execution == gate.executionId {
          packageUpdate := None;
        }
      } else if local.plan.Some? && local.plan.value.phase.Running? && local.plan.value.executionId == Some(gate.executionId) {
        Write(gate.host, local.(plan := None));
      }
      environment := FleetSpec.Environment(Some(inspection), None);
    }

    method Observe(inspection: Inspection, now: int)
      modifies this
      ensures Tables() == FleetSpec.ObserveEnvironment(old(Tables()), inspection, now)
    {
      hide FleetSpec.Released, FleetSpec.Checked, Observed;
      if environment.gate.None? {
        environment := environment.(inspection := Some(inspection));
        return;
      }
      var start := environment.gate.value;
      var local := Read(start.host);
      if start.held && start.holdCause.None? && start.completedAt.Some? && !(local.plan.Some? && local.plan.value.phase.Failed?) &&
         !(packageUpdate.Some? && packageUpdate.value.host == start.host && packageUpdate.value.execution == start.executionId && packageUpdate.value.failed) {
        start := start.(holdCause := Some(Timeout));
      }
      var gate, verdict := ObserveGate(start, FleetSpec.Checked(local, inspection, now), now);
      if verdict.Passed? {
        Release(start, inspection);
      } else {
        environment := FleetSpec.Environment(Some(inspection), Some(gate));
      }
    }

    /** One turn of the daily loop over the hosts, up to its first message. */
    method Tick(host: Host, now: int)
      modifies this
      ensures Tables() == FleetSpec.Tick(old(Tables()), host, now)
    {
      ghost var start := Tables();
      var state := Read(host);
      var realigned;
      state, realigned := AlignLegacySlot(host, state, now);
      if realigned { Write(host, state); }
      ghost var aligned := Tables();
      assert aligned == FleetSpec.TickAlign(start, host, now);
      if state.plan.None? && state.snapshot.Some? && now - state.snapshot.value.observedAt <= 10 * MINUTE && state.snapshot.value.required {
        var target := AvailableTarget(host, NextMorning(now, host));
        var revision := RandomId();
        state := state.(plan := Some(Plan(revision, target, if IsPve(host) then Approval else Scheduled, None,
                                          state.snapshot.value.bootId, None, IsPve(host))));
        Write(host, state);
      }
      assert Tables() == FleetSpec.TickCreate(aligned, host, now);
      if state.plan.None? || Busy(state.plan.value) { return; }
      if state.plan.value.phase.Scheduled? && now >= RebootWindowEnd(host, state.plan.value.target) {
        var carried;
        state, carried := CarryApprovedReboot(host, state, now);
        if !carried {
          var target := AvailableTarget(host, NextMorning(now, host));
          var revision := RandomId();
          state := state.(plan := Some(state.plan.value.(phase := if IsPve(host) then Approval else Scheduled,
                                                         target := target, revision := revision, notifiedRevision := None)));
        }
        Write(host, state);
      }
    }

    // ----- buttons and publication -----

    /** The plan a button asks for, or a refusal. */
    method Requested(host: Host, plan: Plan, action: FleetSpec.Action, now: int) returns (asked: Option<Plan>)
      ensures match FleetSpec.Requested(host, plan, action, now)
        case Success(next) => asked == Some(next)
        case Failure(_) => asked.None?
    {
      match action {
        case Hold => return Some(plan.(phase := Held));
        case Defer => return Some(plan.(target := Postponed(plan.target, now), phase := if IsPve(host) then Approval else Scheduled));
        case DateSubmit(text) =>
          var parsed := Calendar.ParseJst(text, now);
          if parsed.Failure? { return None; }
          return Some(plan.(target := parsed.value, phase := if IsPve(host) then Approval else Scheduled));
        case Approve =>
          if !IsPve(host) || plan.target < now + LEAD_TIME { return None; }
          return Some(plan.(phase := Scheduled));
        case Unknown => return None;
      }
    }

    method Renew(host: Host, plan: Plan, request: Id, now: int)
      modifies this
      ensures Tables() == FleetSpec.Renewed(old(Tables()), host, plan, request, now)
    {
      var state := Read(host);
      var renewed := RandomId();
      events := map e | e in events && events[e] >= now - DAY :: events[e];
      events := events[FleetSpec.InteractionEvent(request) := now];
      Write(host, state.(plan := Some(plan.(revision := renewed, notifiedRevision := None))));
    }

    method ApplyInteraction(host: Host, revision: Id, action: FleetSpec.Action, request: Id, now: int) returns (accepted: bool)
      modifies this
      ensures Tables() == FleetSpec.Accepted(FleetSpec.Interaction(old(Tables()), host, revision, action, request, now), old(Tables()))
      ensures accepted == FleetSpec.Interaction(old(Tables()), host, revision, action, request, now).Success?
    {
      hide FleetSpec.Requested, FleetSpec.Renewed, FleetSpec.Conflicts, InEvening;
      var state := Read(host);
      if state.plan.None? { return false; }
      var plan := state.plan.value;
      if plan.revision != revision || Busy(plan) { return false; }
      if FleetSpec.InteractionEvent(request) in events { return true; }
      var asked := Requested(host, plan, action, now);
      if asked.None? { return false; }
      plan := asked.value;
      if !action.Hold? {
        var conflict := ConflictingReboot(host, plan.target);
        if conflict.Some? || !InEvening(host, plan.target) { return false; }
        plan := plan.(eveningWindow := IsPve(host));
      }
      Renew(host, plan, request, now);
      return true;
    }

    /** What publish does once Discord has answered. */
    method PublicationAccepted(host: Host, revision: Id)
      modifies this
      ensures Tables() == FleetSpec.Notified(old(Tables()), host, revision)
    {
      var current := Read(host);
      if current.plan.None? || current.plan.value.revision != revision { return; }
      Write(host, current.(plan := Some(current.plan.value.(notifiedRevision := Some(revision)))));
    }

    /** Every request reaches exactly one of the methods above and keeps the tables in agreement. */
    method Handle(call: FleetSpec.Call, now: int)
      requires Valid()
      modifies this
      ensures Tables() == FleetSpec.Apply(old(Tables()), call, now) && Valid()
    {
      FleetCoupling.ApplyKeepsCoupling(Tables(), call, now);
      match call {
        case CReport(host, bootId, required, healthy) => Report(host, bootId, required, healthy, now);
        case CClaim(host) => var _ := Claim(host, now);
        case CClaimUpdate(host) => var _ := ClaimUpdate(host, now);
        case CUpdateResult(host, execution, outcome) => var _ := UpdateResult(host, execution, outcome, now);
        case CRebootResult(host, execution, outcome) => var _ := RebootResult(host, execution, outcome, now);
        case CRecover(host) => var _ := Recover(host, now);
        case CTick(host) => Tick(host, now);
        case CInteraction(host, revision, action, request) => var _ := ApplyInteraction(host, revision, action, request, now);
        case CNotified(host, revision) => PublicationAccepted(host, revision);
        case CObserve(inspection) => Observe(inspection, now);
      }
    }
  }

  /** The free slots of a host depend only on the rows of the others. */
  lemma {:induction false} SameFreeSlot(a: FleetSpec.Fleet, b: FleetSpec.Fleet, host: Host, target: int)
    requires forall other | other != host :: FleetSpec.Read(a, other) == FleetSpec.Read(b, other)
    ensures FleetSpec.AvailableTarget(a, host, target) == FleetSpec.AvailableTarget(b, host, target)
    decreases Max(0, FleetSpec.Horizon(a) - target)
  {
    assert FleetSpec.Conflicts(a, host, target) == FleetSpec.Conflicts(b, host, target);
    if FleetSpec.Conflicts(a, host, target) {
      FleetSpec.ConflictsEndAtHorizon(a, host, target);
      SameFreeSlot(a, b, host, NextCandidate(host, target));
    }
  }

  lemma SameSlots(a: FleetSpec.Fleet, b: FleetSpec.Fleet, host: Host)
    requires forall other | other != host :: FleetSpec.Read(a, other) == FleetSpec.Read(b, other)
    ensures forall target :: FleetSpec.AvailableTarget(a, host, target) == FleetSpec.AvailableTarget(b, host, target)
  {
    forall target ensures FleetSpec.AvailableTarget(a, host, target) == FleetSpec.AvailableTarget(b, host, target) {
      SameFreeSlot(a, b, host, target);
    }
  }

  /** So do the moves of a plan without a button. */
  lemma SlotsOfOthers(a: FleetSpec.Fleet, b: FleetSpec.Fleet, host: Host)
    requires forall other | other != host :: FleetSpec.Read(a, other) == FleetSpec.Read(b, other)
    ensures forall st: RecordState, now: int, id: Id ::
      FleetSpec.AlignLegacySlot(a, host, st, now, id) == FleetSpec.AlignLegacySlot(b, host, st, now, id)
    ensures forall st: RecordState, now: int, id: Id ::
      FleetSpec.CarryApprovedReboot(a, host, st, now, id) == FleetSpec.CarryApprovedReboot(b, host, st, now, id)
  {
    SameSlots(a, b, host);
  }
}
