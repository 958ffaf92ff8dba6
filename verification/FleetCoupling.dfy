/** How the tables agree: at most one operation holds the fleet, and the environment gate is
    exactly the gate of that operation. Every call keeps it, from empty storage on. */
module FleetCoupling {
  import opened Wrappers
  import opened Policy
  import opened EnvironmentHealth
  import opened FleetSpec

  function One(b: bool): int { if b then 1 else 0 }

  /** Running or failed hosts plus package-update locks. */
  function Operations(s: Fleet): int {
    One(BusyRecord(Read(s, DevApp))) + One(BusyRecord(Read(s, PveX570))) + One(BusyRecord(Read(s, PveB550m))) + One(s.lock.Some?)
  }

  /** The gate is the one opened for the package update that holds the lock row. */
  predicate IsUpdateGate(s: Fleet, gate: HealthGate) {
    && gate.kind.Update? && s.lock.Some?
    && s.lock.value.host == gate.host && s.lock.value.execution == gate.executionId
    && (s.lock.value.failed ==> HeldForOperation(gate))
  }

  /** The gate is the one opened for the reboot execution of its PVE host. */
  predicate IsRebootGate(s: Fleet, gate: HealthGate) {
    var plan := Read(s, gate.host).plan;
    && gate.kind.Reboot? && IsPve(gate.host)
    && plan.Some? && Busy(plan.value) && plan.value.executionId == Some(gate.executionId)
    && (plan.value.phase.Failed? ==> HeldForOperation(gate))
  }

  predicate Coupled(s: Fleet) {
    && Operations(s) <= 1
    && (s.environment.gate.Some? ==>
          && (IsUpdateGate(s, s.environment.gate.value) || IsRebootGate(s, s.environment.gate.value))
          && (s.environment.gate.value.held ==> s.environment.gate.value.holdCause.Some?))
    && (s.environment.gate.None? ==> s.lock.None? && !BusyRecord(Read(s, PveX570)) && !BusyRecord(Read(s, PveB550m)))
    && (forall host :: BusyRecord(Read(s, host)) ==> Read(s, host).plan.value.executionId.Some?)
  }

  /** What the agreement means row by row: an update gate exists exactly when the lock row
      carries its host and execution, a reboot gate exactly when that PVE plan is running or
      failed with its execution, and a failed plan or lock row holds the gate for an operator. */
  lemma GateAgreesWithRows(s: Fleet, host: Host, execution: Id)
    requires Coupled(s)
    ensures
      (s.environment.gate.Some? && var g := s.environment.gate.value; g.kind.Update? && g.host == host && g.executionId == execution)
      <==> (s.lock.Some? && s.lock.value.host == host && s.lock.value.execution == execution)
    ensures
      (s.environment.gate.Some? && var g := s.environment.gate.value; g.kind.Reboot? && g.host == host && g.executionId == execution)
      <==> (IsPve(host) && BusyRecord(Read(s, host)) && Read(s, host).plan.value.executionId == Some(execution))
    ensures (s.lock.Some? && s.lock.value.failed) || (IsPve(host) && BusyRecord(Read(s, host)) && Read(s, host).plan.value.phase.Failed?)
            ==> s.environment.gate.Some? && HeldForOperation(s.environment.gate.value)
  {
    assert host in {DevApp, PveX570, PveB550m};
  }

  /** While a gate is open nobody is granted anything, not even the VM, whose reboot claim
      never looks at the gate. */
  lemma OpenGateStopsEveryClaim(s: Fleet, host: Host, now: int)
    requires Coupled(s) && s.environment.gate.Some?
    ensures Claim(s, host, now) == (s, None) && ClaimUpdate(s, host, now) == (s, None)
  {
    var g := s.environment.gate.value;
    assert g.host in {DevApp, PveX570, PveB550m} && host in {DevApp, PveX570, PveB550m};
    if g.kind.Reboot? && g.host != host { assert Excludes(Read(s, g.host), now); }
  }

  // ----- every call keeps the agreement -----

  /** Changing only an idle plan of one host changes no operation. */
  lemma IdleRewrite(s: Fleet, s': Fleet, host: Host)
    requires Coupled(s)
    requires !BusyRecord(Read(s, host)) && !BusyRecord(Read(s', host))
    requires forall other | other != host :: Read(s', other) == Read(s, other)
    requires s'.lock == s.lock && s'.environment.gate == s.environment.gate
    ensures Coupled(s')
  {
  }

  /** A busy plan whose phase and execution stay as they are. */
  predicate SameOperation(a: RecordState, b: RecordState) {
    (BusyRecord(a) <==> BusyRecord(b)) &&
    (BusyRecord(a) ==> a.plan.value.phase == b.plan.value.phase && a.plan.value.executionId == b.plan.value.executionId)
  }

  /** The gate may record completion, stability and timeouts while every operation stays. */
  predicate SameGate(a: Option<HealthGate>, b: Option<HealthGate>) {
    && (a.Some? <==> b.Some?)
    && (a.Some? ==>
          && b.value.host == a.value.host && b.value.executionId == a.value.executionId && b.value.kind == a.value.kind
          && (HeldForOperation(a.value) ==> HeldForOperation(b.value))
          && (b.value.held ==> b.value.holdCause.Some?))
  }

  lemma SameOperations(s: Fleet, s': Fleet)
    requires Coupled(s)
    requires forall host :: SameOperation(Read(s, host), Read(s', host))
    requires s'.lock == s.lock && SameGate(s.environment.gate, s'.environment.gate)
    ensures Coupled(s')
  {
  }

  /** A report drops a busy plan only when the host has recovered and no gate is open for that
      execution; otherwise it leaves busy plans as they are and creates none. */
  lemma ReportRow(s: Fleet, host: Host, bootId: Id, required: bool, healthy: bool, now: int)
    ensures
      var s', st := Report(s, host, bootId, required, healthy, now), Read(s, host);
      var recovered := Recovered(st, Snapshot(bootId, required, healthy, now));
      && (BusyRecord(st) ==>
            if recovered && !(IsPve(host) && GateExecution(s.environment) == st.plan.value.executionId)
            then Read(s', host).plan.None? else Read(s', host).plan == st.plan)
      && (!BusyRecord(st) ==> !BusyRecord(Read(s', host)))
      && s'.lock == s.lock
      && (s'.environment == s.environment ||
            (recovered && s.environment.gate.Some? && s.environment.gate.value.host == host &&
             st.plan.value.executionId == Some(s.environment.gate.value.executionId) &&
             s'.environment == s.environment.(gate := Some(Completed(s.environment.gate.value, now)))))
      && (forall other | other != host :: Read(s', other) == Read(s, other))
  {
  }

  lemma ReportKeeps(s: Fleet, host: Host, bootId: Id, required: bool, healthy: bool, now: int)
    requires Coupled(s)
    ensures Coupled(Report(s, host, bootId, required, healthy, now))
  {
    ReportRow(s, host, bootId, required, healthy, now);
    RowRewrite(s, Report(s, host, bootId, required, healthy, now), host);
  }

  /** The row of one host changes; its operation stays, or a VM's ends. */
  lemma RowRewrite(s: Fleet, s': Fleet, host: Host)
    requires Coupled(s)
    requires SameOperation(Read(s, host), Read(s', host)) || (!IsPve(host) && Read(s', host).plan.None?)
    requires forall other | other != host :: Read(s', other) == Read(s, other)
    requires s'.lock == s.lock && SameGate(s.environment.gate, s'.environment.gate)
    ensures Coupled(s')
  {
  }

  lemma ClaimKeeps(s: Fleet, host: Host, now: int)
    requires Coupled(s)
    ensures Coupled(Claim(s, host, now).0)
  {
    if Claimable(s, host, now) {
      assert Operations(s) == 0;
      assert forall other | other != host :: Read(Claim(s, host, now).0, other) == Read(s, other);
    }
  }

  lemma ClaimUpdateKeeps(s: Fleet, host: Host, now: int)
    requires Coupled(s)
    ensures Coupled(ClaimUpdate(s, host, now).0)
  {
    assert forall other :: Read(ClaimUpdate(s, host, now).0, other) == Read(s, other);
  }

  lemma UpdateResultKeeps(s: Fleet, host: Host, execution: Id, outcome: Outcome, now: int)
    requires Coupled(s)
    ensures Coupled(Accepted(UpdateResult(s, host, execution, outcome, now), s))
  {
    assert forall other :: Read(Accepted(UpdateResult(s, host, execution, outcome, now), s), other) == Read(s, other);
  }

  lemma RebootResultKeeps(s: Fleet, host: Host, execution: Id, outcome: Outcome, now: int)
    requires Coupled(s)
    ensures Coupled(Accepted(RebootResult(s, host, execution, outcome, now), s))
  {
    var s' := Accepted(RebootResult(s, host, execution, outcome, now), s);
    assert forall other | other != host :: Read(s', other) == Read(s, other);
  }

  function LockWithout(lock: Option<Lock>, host: Host): Option<Lock> {
    if lock.Some? && lock.value.host == host then None else lock
  }

  predicate IsGatedHost(s: Fleet, host: Host) { s.environment.gate.Some? && s.environment.gate.value.host == host }

  /** What a recovery changes: the host's gate and lock row go and its plan is held. */
  lemma RecoverRow(s: Fleet, host: Host, now: int)
    requires Recover(s, host, now).Success?
    ensures
      var s' := Recover(s, host, now).value;
      && s'.lock == LockWithout(s.lock, host)
      && s'.environment == (if IsGatedHost(s, host) then s.environment.(gate := None) else s.environment)
      && !BusyRecord(Read(s', host))
  {
    hide Healthy, FreshlyHealthy;
  }

  lemma RecoverOthers(s: Fleet, host: Host, now: int)
    requires Recover(s, host, now).Success?
    ensures forall other | other != host :: Read(Recover(s, host, now).value, other) == Read(s, other)
  {
    hide Healthy, FreshlyHealthy;
  }

  lemma GatedRecoveryKeeps(s: Fleet, s': Fleet, host: Host)
    requires Coupled(s) && IsGatedHost(s, host)
    requires s'.environment.gate.None? && s'.lock == LockWithout(s.lock, host) && !BusyRecord(Read(s', host))
    requires forall other | other != host :: Read(s', other) == Read(s, other)
    ensures Coupled(s')
  {
    assert s'.lock.None?;
  }

  lemma UngatedRecoveryKeeps(s: Fleet, s': Fleet, host: Host)
    requires Coupled(s) && !IsGatedHost(s, host)
    requires s'.environment == s.environment && s'.lock == LockWithout(s.lock, host) && !BusyRecord(Read(s', host))
    requires forall other | other != host :: Read(s', other) == Read(s, other)
    ensures Coupled(s')
  {
    assert s'.lock == s.lock;
  }

  lemma RecoverKeeps(s: Fleet, host: Host, now: int)
    requires Coupled(s)
    ensures Coupled(Accepted(Recover(s, host, now), s))
  {
    hide Coupled;
    if Recover(s, host, now).Success? {
      var s' := Recover(s, host, now).value;
      RecoverRow(s, host, now);
      RecoverOthers(s, host, now);
      hide Recover;
      if IsGatedHost(s, host) { GatedRecoveryKeeps(s, s', host); } else { UngatedRecoveryKeeps(s, s', host); }
    }
  }

  lemma TickKeeps(s: Fleet, host: Host, now: int)
    requires Coupled(s)
    ensures Coupled(Tick(s, host, now))
  {
    IdleKeeps(s, Tick(s, host, now), host);
  }

  lemma IdleKeeps(s: Fleet, s': Fleet, host: Host)
    requires Coupled(s) && Idle(s, s', host)
    ensures Coupled(s')
  {
    if s' != s { IdleRewrite(s, s', host); }
  }

  lemma InteractionRow(s: Fleet, host: Host, revision: Id, action: Action, request: Id, now: int)
    requires Accepted(Interaction(s, host, revision, action, request, now), s) != s
    ensures
      var s' := Accepted(Interaction(s, host, revision, action, request, now), s);
      && !BusyRecord(Read(s, host)) && !BusyRecord(Read(s', host))
      && s'.lock == s.lock && s'.environment == s.environment
      && forall other | other != host :: Read(s', other) == Read(s, other)
  {
  }

  lemma InteractionKeeps(s: Fleet, host: Host, revision: Id, action: Action, request: Id, now: int)
    requires Coupled(s)
    ensures Coupled(Accepted(Interaction(s, host, revision, action, request, now), s))
  {
    hide Coupled, Interaction;
    var s' := Accepted(Interaction(s, host, revision, action, request, now), s);
    if s' != s {
      InteractionRow(s, host, revision, action, request, now);
      IdleRewrite(s, s', host);
    }
  }

  lemma NotifiedKeeps(s: Fleet, host: Host, revision: Id)
    requires Coupled(s)
    ensures Coupled(Notified(s, host, revision))
  {
    forall other ensures SameOperation(Read(s, other), Read(Notified(s, host, revision), other)) {}
    SameOperations(s, Notified(s, host, revision));
  }

  lemma ObserveKeeps(s: Fleet, inspection: Inspection, now: int)
    requires Coupled(s)
    ensures Coupled(ObserveEnvironment(s, inspection, now))
  {
    if s.environment.gate.None? {
      EnvironmentRewrite(s, s.environment.(inspection := Some(inspection)));
    } else {
      var gate := s.environment.gate.value;
      assert WithLegacyCause(s, gate) == gate;
      var checked := Checked(Read(s, gate.host), inspection, now);
      ObservedIsSameGate(gate, checked, now);
      if Observed(gate, checked, now).1.Passed? {
        ReleasedKeeps(s, gate, inspection);
      } else {
        EnvironmentRewrite(s, Environment(Some(inspection), Some(Observed(gate, checked, now).0)));
      }
    }
  }

  lemma ObservedIsSameGate(gate: HealthGate, inspection: Inspection, now: int)
    requires gate.held ==> gate.holdCause.Some?
    ensures SameGate(Some(gate), Some(Observed(gate, inspection, now).0))
    ensures Observed(gate, inspection, now).1.Passed? ==> !HeldForOperation(gate)
  {
  }

  lemma EnvironmentRewrite(s: Fleet, environment: Environment)
    requires Coupled(s) && SameGate(s.environment.gate, environment.gate)
    ensures Coupled(s.(environment := environment))
  {
    assert forall host :: Read(s.(environment := environment), host) == Read(s, host);
  }

  lemma ReleasedKeeps(s: Fleet, gate: HealthGate, inspection: Inspection)
    requires Coupled(s) && s.environment.gate == Some(gate) && !HeldForOperation(gate)
    ensures Coupled(Released(s, gate, inspection))
  {
    var s' := Released(s, gate, inspection);
    assert forall other | other != gate.host :: Read(s', other) == Read(s, other);
    assert s'.lock.None?;
  }

  lemma ApplyKeepsCoupling(s: Fleet, call: Call, now: int)
    requires Coupled(s)
    ensures Coupled(Apply(s, call, now))
  {
    hide Coupled, Report, Claim, ClaimUpdate, UpdateResult, RebootResult, Recover, Tick, Interaction, Notified, ObserveEnvironment, Accepted;
    match call
    case CReport(host, bootId, required, healthy) => ReportKeeps(s, host, bootId, required, healthy, now);
    case CClaim(host) => ClaimKeeps(s, host, now);
    case CClaimUpdate(host) => ClaimUpdateKeeps(s, host, now);
    case CUpdateResult(host, execution, outcome) => UpdateResultKeeps(s, host, execution, outcome, now);
    case CRebootResult(host, execution, outcome) => RebootResultKeeps(s, host, execution, outcome, now);
    case CRecover(host) => RecoverKeeps(s, host, now);
    case CTick(host) => TickKeeps(s, host, now);
    case CInteraction(host, revision, action, request) => InteractionKeeps(s, host, revision, action, request, now);
    case CNotified(host, revision) => NotifiedKeeps(s, host, revision);
    case CObserve(inspection) => ObserveKeeps(s, inspection, now);
  }

  // ----- runs -----

  /** One atomic call and the clock it read. */
  datatype Event = Event(call: Call, now: int)

  function Run(events: seq<Event>): Fleet {
    if events == [] then EMPTY
    else var n := |events| - 1; Apply(Run(events[..n]), events[n].call, events[n].now)
  }

  /** The tables agree after any sequence of calls, whatever the clocks read. */
  lemma {:induction false} EveryRunIsCoupled(events: seq<Event>)
    ensures Coupled(Run(events))
  {
    if events != [] {
      var n := |events| - 1;
      EveryRunIsCoupled(events[..n]);
      ApplyKeepsCoupling(Run(events[..n]), events[n].call, events[n].now);
    }
  }
}
