/** The stored tables of the maintenance fleet as a value, and what each call does to them.
    A call is atomic up to its first network request. */
module FleetSpec {
  import opened Wrappers
  import opened Policy
  import opened EnvironmentHealth
  import Calendar

  datatype Lock = Lock(host: Host, execution: Id, failed: bool)

  datatype Outcome = Blocked | FailedOutcome | Complete

  datatype EventId = UpdateEvent(host: Host, execution: Id) | ResultEvent(host: Host, execution: Id) | InteractionEvent(id: Id)

  datatype Environment = Environment(inspection: Option<Inspection>, gate: Option<HealthGate>)

  /** hosts: one row per host; lock: the single package_update row; events: handled requests
      with their times; nextId: the next fresh identifier. */
  datatype Fleet = Fleet(
    hosts: map<Host, RecordState>,
    lock: Option<Lock>,
    environment: Environment,
    events: map<EventId, int>,
    nextId: Id)

  const EMPTY := Fleet(map[], None, Environment(None, None), map[], 0)

  function Read(s: Fleet, host: Host): RecordState {
    if host in s.hosts then s.hosts[host] else NO_RECORD
  }

  function Write(s: Fleet, host: Host, st: RecordState): (s': Fleet)
    ensures Read(s', host) == st
    ensures forall other | other != host :: Read(s', other) == Read(s, other)
  {
    s.(hosts := s.hosts[host := st])
  }

  /** Nothing but the row of one host differs, and no used identifier comes back. */
  predicate OnlyRow(s: Fleet, s': Fleet, host: Host) {
    && s'.lock == s.lock && s'.environment == s.environment && s'.events == s.events && s'.nextId >= s.nextId
    && forall other | other != host :: Read(s', other) == Read(s, other)
  }

  /** Records that differ in the plan only. */
  predicate OnlyPlan(a: RecordState, b: RecordState) { b == a.(plan := b.plan) }

  /** A step that changes one plan only, leaves busy plans alone and creates none. */
  predicate Idle(s: Fleet, s': Fleet, host: Host) {
    && OnlyRow(s, s', host) && OnlyPlan(Read(s, host), Read(s', host))
    && (s' == s || (!BusyRecord(Read(s, host)) && !BusyRecord(Read(s', host))))
  }

  // ----- separation of targets -----

  predicate Near(a: int, b: int) { -REBOOT_GAP < a - b < REBOOT_GAP }

  /** A plan that is neither held nor failed occupies its target; a recorded start always does. */
  predicate Occupies(st: RecordState, target: int) {
    || (st.plan.Some? && !st.plan.value.phase.Held? && !st.plan.value.phase.Failed? && Near(st.plan.value.target, target))
    || (st.lastRebootStartedAt.Some? && Near(st.lastRebootStartedAt.value, target))
  }

  predicate OccupiedBy(s: Fleet, host: Host, other: Host, target: int) {
    other != host && Occupies(Read(s, other), target)
  }

  predicate Conflicts(s: Fleet, host: Host, target: int) {
    OccupiedBy(s, host, DevApp, target) || OccupiedBy(s, host, PveX570, target) || OccupiedBy(s, host, PveB550m, target)
  }

  lemma ConflictsMeansSomeHost(s: Fleet, host: Host, target: int)
    ensures Conflicts(s, host, target) <==> exists other :: OccupiedBy(s, host, other, target)
  {
    if other :| OccupiedBy(s, host, other, target) { assert other in {DevApp, PveX570, PveB550m}; }
  }

  /** No target or start reaches beyond this instant. */
  function Reach(st: RecordState): int {
    Max(if st.plan.Some? then st.plan.value.target else 0, if st.lastRebootStartedAt.Some? then st.lastRebootStartedAt.value else 0)
  }

  function Horizon(s: Fleet): int {
    Max(Reach(Read(s, DevApp)), Max(Reach(Read(s, PveX570)), Reach(Read(s, PveB550m)))) + REBOOT_GAP
  }

  lemma ConflictsEndAtHorizon(s: Fleet, host: Host, target: int)
    requires Conflicts(s, host, target)
    ensures target < Horizon(s)
  {
  }

  /** The first free slot: step to the next candidate while another host is too near. */
  function AvailableTarget(s: Fleet, host: Host, target: int): (t: int)
    ensures t >= target && !Conflicts(s, host, t)
    ensures InEvening(host, target) ==> InEvening(host, t)
    decreases Max(0, Horizon(s) - target)
  {
    if Conflicts(s, host, target) then
      ConflictsEndAtHorizon(s, host, target);
      AvailableTarget(s, host, NextCandidate(host, target))
    else target
  }

  // ----- the environment row -----

  predicate EnvironmentReady(s: Fleet, now: int) {
    s.environment.gate.None? && Healthy(s.environment.inspection, now, None)
  }

  function StartEnvironmentCheck(s: Fleet, host: Host, execution: Id, kind: Kind, now: int): Fleet
    requires s.environment.inspection.Some?
  {
    s.(environment := s.environment.(gate := Some(NewGate(host, execution, kind, now, s.environment.inspection.value))))
  }

  function FinishEnvironmentStep(env: Environment, host: Host, execution: Id, now: int): Environment {
    if env.gate.Some? && env.gate.value.host == host && env.gate.value.executionId == execution
    then env.(gate := Some(Completed(env.gate.value, now)))
    else env
  }

  function GateExecution(env: Environment): Option<Id> {
    if env.gate.Some? then Some(env.gate.value.executionId) else None
  }

  function HoldGate(env: Environment): Environment
    requires env.gate.Some?
  {
    env.(gate := Some(env.gate.value.(held := true, holdCause := Some(Operation))))
  }

  // ----- plans moved without a button -----

  /** Legacy plans are moved to the evening and must be approved again. */
  function AlignLegacySlot(s: Fleet, host: Host, st: RecordState, now: int, revision: Id): (r: (RecordState, bool))
    ensures OnlyPlan(st, r.0)
  {
    if st.plan.None? || !IsPve(host) || Busy(st.plan.value) then (st, false) else
    var plan := st.plan.value;
    var daytime := JstHour(plan.target) < 20;
    if !daytime && plan.eveningWindow then (st, false) else
    var sameDay := JstAt(JstDay(plan.target), RebootHour(host));
    var target := if daytime then AvailableTarget(s, host, if sameDay >= now + LEAD_TIME then sameDay else NextMorning(now, host)) else plan.target;
    (st.(plan := Some(plan.(target := target, eveningWindow := true, phase := if plan.phase.Held? then Held else Approval,
                            revision := revision, notifiedRevision := None))), true)
  }

  /** An approved PVE reboot whose window has closed is still due: its approval moves to the
      next free evening. */
  predicate Overdue(host: Host, st: RecordState, now: int) {
    && IsPve(host) && st.plan.Some? && st.plan.value.phase.Scheduled? && st.plan.value.eveningWindow
    && now >= RebootWindowEnd(host, st.plan.value.target)
  }

  function CarryApprovedReboot(s: Fleet, host: Host, st: RecordState, now: int, revision: Id): (r: (RecordState, bool))
    ensures OnlyPlan(st, r.0)
  {
    if !Overdue(host, st, now) then (st, false) else
    (st.(plan := Some(st.plan.value.(target := AvailableTarget(s, host, CarrySlot(now)), revision := revision, notifiedRevision := None))), true)
  }

  // ----- calls of the host agents -----

  predicate Recovered(st: RecordState, snapshot: Snapshot) {
    st.plan.Some? && st.plan.value.phase.Running? && st.plan.value.bootId != snapshot.bootId && snapshot.healthy
  }

  /** The record a report leaves before slots are realigned, and whether it closes the host
      step of the current gate instead. */
  function AfterSnapshot(s: Fleet, host: Host, snapshot: Snapshot): (r: (RecordState, bool))
    ensures r.0 == Read(s, host).(snapshot := Some(snapshot), plan := r.0.plan)
  {
    var st := Read(s, host).(snapshot := Some(snapshot));
    if Recovered(st, snapshot) then
      if IsPve(host) && GateExecution(s.environment) == st.plan.value.executionId then (st, true)
      else (st.(plan := None), false)
    else if st.plan.Some? && !Busy(st.plan.value) && (st.plan.value.bootId != snapshot.bootId || !snapshot.required)
    then (st.(plan := None), false)
    else (st, false)
  }

  function Report(s: Fleet, host: Host, bootId: Id, required: bool, healthy: bool, now: int): Fleet {
    var (st, finishes) := AfterSnapshot(s, host, Snapshot(bootId, required, healthy, now));
    var environment :=
      if finishes && st.plan.value.executionId.Some?
      then FinishEnvironmentStep(s.environment, host, st.plan.value.executionId.value, now)
      else s.environment;
    var (aligned, realigned) := AlignLegacySlot(s, host, st, now, s.nextId);
    var id := if realigned then s.nextId + 1 else s.nextId;
    var (moved, carried) := CarryApprovedReboot(s, host, aligned, now, id);
    Write(s, host, moved).(environment := environment, nextId := if carried then id + 1 else id)
  }

  /** Another host is running, failed, or started less than the gap ago. */
  predicate Excludes(st: RecordState, now: int) {
    BusyRecord(st) || (st.lastRebootStartedAt.Some? && now - st.lastRebootStartedAt.value < REBOOT_GAP)
  }

  predicate OthersExclude(s: Fleet, host: Host, now: int) {
    || (host != DevApp && Excludes(Read(s, DevApp), now))
    || (host != PveX570 && Excludes(Read(s, PveX570), now))
    || (host != PveB550m && Excludes(Read(s, PveB550m), now))
  }

  predicate Claimable(s: Fleet, host: Host, now: int) {
    && Due(host, Read(s, host), now)
    && (IsPve(host) ==> EnvironmentReady(s, now))
    && s.lock.None?
    && !OthersExclude(s, host, now)
  }

  /** The reboot claim; the execution it grants is the fresh identifier. */
  function Claim(s: Fleet, host: Host, now: int): (Fleet, Option<Id>) {
    if !Claimable(s, host, now) then (s, None) else
    var st := Read(s, host);
    var plan := st.plan.value.(phase := Running, executionId := Some(s.nextId));
    var claimed := Write(s, host, st.(plan := Some(plan), lastRebootStartedAt := Some(now))).(nextId := s.nextId + 1);
    (if IsPve(host) then StartEnvironmentCheck(claimed, host, s.nextId, Reboot, now) else claimed, Some(s.nextId))
  }

  predicate AnyBusy(s: Fleet) {
    BusyRecord(Read(s, DevApp)) || BusyRecord(Read(s, PveX570)) || BusyRecord(Read(s, PveB550m))
  }

  predicate FreshlyHealthy(st: RecordState, now: int) {
    st.snapshot.Some? && st.snapshot.value.healthy && now - st.snapshot.value.observedAt <= 120 * SECOND
  }

  predicate UpdateClaimable(s: Fleet, host: Host, now: int) {
    IsPve(host) && FreshlyHealthy(Read(s, host), now) && EnvironmentReady(s, now) && s.lock.None? && !AnyBusy(s)
  }

  function ClaimUpdate(s: Fleet, host: Host, now: int): (Fleet, Option<Id>) {
    if !UpdateClaimable(s, host, now) then (s, None) else
    var locked := s.(lock := Some(Lock(host, s.nextId, false)), nextId := s.nextId + 1);
    (StartEnvironmentCheck(locked, host, s.nextId, Update, now), Some(s.nextId))
  }

  function UpdateResult(s: Fleet, host: Host, execution: Id, outcome: Outcome, now: int): Result<Fleet> {
    var event := UpdateEvent(host, execution);
    if event in s.events then Success(s) else
    if s.lock.None? || s.lock.value.host != host || s.lock.value.execution != execution then Failure("Update execution mismatch") else
    var mine := GateExecution(s.environment) == Some(execution);
    var s' := match outcome
      case FailedOutcome =>
        s.(lock := Some(s.lock.value.(failed := true)), environment := if mine then HoldGate(s.environment) else s.environment)
      case Complete =>
        s.(environment := FinishEnvironmentStep(s.environment, host, execution, now))
      case Blocked =>
        s.(lock := None, environment := if mine then s.environment.(gate := None) else s.environment);
    Success(s'.(events := s.events[event := now]))
  }

  function RebootResult(s: Fleet, host: Host, execution: Id, outcome: Outcome, now: int): Result<Fleet> {
    var event := ResultEvent(host, execution);
    if event in s.events then Success(s) else
    var st := Read(s, host);
    if st.plan.None? || !st.plan.value.phase.Running? || st.plan.value.executionId != Some(execution) then Failure("Execution mismatch") else
    var mine := GateExecution(s.environment) == Some(execution);
    var environment :=
      if !mine then s.environment
      else if outcome.FailedOutcome? then HoldGate(s.environment)
      else s.environment.(gate := None);
    var plan := st.plan.value.(phase := if outcome.Blocked? then Held else Failed, revision := s.nextId, notifiedRevision := None);
    var st' := st.(plan := if outcome.Complete? then None else Some(plan));
    Success(Write(s, host, st').(environment := environment, events := s.events[event := now],
                                 nextId := if outcome.Complete? then s.nextId else s.nextId + 1))
  }

  function Recover(s: Fleet, host: Host, now: int): Result<Fleet> {
    var st := Read(s, host);
    if !FreshlyHealthy(st, now) then Failure("Fresh healthy report required") else
    var gate := s.environment.gate;
    var mine := gate.Some? && gate.value.host == host;
    if mine && (!gate.value.held || !Healthy(s.environment.inspection, now, Some(gate.value.baseline)))
    then Failure("Environment recovery has not been verified") else
    var cleared := s.(
      environment := if mine then s.environment.(gate := None) else s.environment,
      lock := if s.lock.Some? && s.lock.value.host == host then None else s.lock);
    if st.plan.None? then Success(cleared) else
    Success(Write(cleared, host, st.(plan := Some(st.plan.value.(phase := Held, revision := s.nextId, notifiedRevision := None))))
              .(nextId := s.nextId + 1))
  }

  // ----- the minute observer and the daily tick -----

  /** The inspection judged for the gated host: an error unless its own report is healthy and fresh. */
  function Checked(st: RecordState, inspection: Inspection, now: int): Inspection {
    if st.snapshot.Some? && st.snapshot.value.healthy && now - st.snapshot.value.observedAt <= HEALTH_FRESH
    then inspection
    else inspection.(error := Some("no fresh healthy report of the host"))
  }

  predicate UpdateFailed(s: Fleet, gate: HealthGate) {
    s.lock.Some? && s.lock.value.host == gate.host && s.lock.value.execution == gate.executionId && s.lock.value.failed
  }

  /** Gates stored before holds had a cause: a finished step that did not fail was a timeout. */
  function WithLegacyCause(s: Fleet, gate: HealthGate): HealthGate {
    var plan := Read(s, gate.host).plan;
    if gate.held && gate.holdCause.None? && gate.completedAt.Some? &&
       !(plan.Some? && plan.value.phase.Failed?) && !UpdateFailed(s, gate)
    then gate.(holdCause := Some(Timeout)) else gate
  }

  /** The gate has passed: its lock row or its reboot plan goes with it. */
  function Released(s: Fleet, gate: HealthGate, inspection: Inspection): Fleet {
    var st := Read(s, gate.host);
    var open := s.(environment := Environment(Some(inspection), None));
    if gate.kind.Update? then
      if s.lock.Some? && s.lock.value.host == gate.host && s.lock.value.execution == gate.executionId
      then open.(lock := None) else open
    else if st.plan.Some? && st.plan.value.phase.Running? && st.plan.value.executionId == Some(gate.executionId)
    then Write(open, gate.host, st.(plan := None))
    else open
  }

  function ObserveEnvironment(s: Fleet, inspection: Inspection, now: int): Fleet {
    if s.environment.gate.None? then s.(environment := s.environment.(inspection := Some(inspection))) else
    var gate := WithLegacyCause(s, s.environment.gate.value);
    var (gate', verdict) := Observed(gate, Checked(Read(s, gate.host), inspection, now), now);
    if !verdict.Passed? then s.(environment := Environment(Some(inspection), Some(gate'))) else
    Released(s, gate, inspection)
  }

  function NewPlan(s: Fleet, host: Host, snapshot: Snapshot, now: int): Plan {
    Plan(s.nextId, AvailableTarget(s, host, NextMorning(now, host)), if IsPve(host) then Approval else Scheduled,
         None, snapshot.bootId, None, IsPve(host))
  }

  function TickAlign(s: Fleet, host: Host, now: int): (s': Fleet)
    ensures Idle(s, s', host)
  {
    var (aligned, realigned) := AlignLegacySlot(s, host, Read(s, host), now, s.nextId);
    if realigned then Write(s, host, aligned).(nextId := s.nextId + 1) else s
  }

  function TickCreate(s: Fleet, host: Host, now: int): (s': Fleet)
    ensures Idle(s, s', host)
  {
    var st := Read(s, host);
    if st.plan.None? && st.snapshot.Some? && now - st.snapshot.value.observedAt <= 10 * MINUTE && st.snapshot.value.required
    then Write(s, host, st.(plan := Some(NewPlan(s, host, st.snapshot.value, now)))).(nextId := s.nextId + 1)
    else s
  }

  /** A scheduled plan whose window has closed is carried when its approval can be, and
      otherwise proposed again. */
  function TickRoll(s: Fleet, host: Host, now: int): (s': Fleet)
    ensures Idle(s, s', host)
  {
    var st := Read(s, host);
    if st.plan.None? || !st.plan.value.phase.Scheduled? || now < RebootWindowEnd(host, st.plan.value.target) then s else
    var (moved, carried) := CarryApprovedReboot(s, host, st, now, s.nextId);
    if carried then Write(s, host, moved).(nextId := s.nextId + 1) else
    var plan := st.plan.value.(
      phase := if IsPve(host) then Approval else Scheduled,
      target := AvailableTarget(s, host, NextMorning(now, host)),
      revision := s.nextId, notifiedRevision := None);
    Write(s, host, st.(plan := Some(plan))).(nextId := s.nextId + 1)
  }

  /** The daily step for one host; `now` is read once at the start of the whole tick. */
  function Tick(s: Fleet, host: Host, now: int): (s': Fleet)
    ensures Idle(s, s', host)
  {
    TickRoll(TickCreate(TickAlign(s, host, now), host, now), host, now)
  }

  // ----- buttons -----

  datatype Action = Hold | Defer | DateSubmit(text: string) | Approve | Unknown

  /** The plan an action asks for, before the common checks. */
  function Requested(host: Host, plan: Plan, action: Action, now: int): Result<Plan> {
    match action
    case Hold => Success(plan.(phase := Held))
    case Defer => Success(plan.(target := Postponed(plan.target, now), phase := if IsPve(host) then Approval else Scheduled))
    case DateSubmit(text) =>
      (match Calendar.ParseJst(text, now)
       case Success(target) => Success(plan.(target := target, phase := if IsPve(host) then Approval else Scheduled))
       case Failure(reason) => Failure(reason))
    case Approve =>
      if !IsPve(host) then Failure("unknown action")
      else if plan.target < now + LEAD_TIME then Failure("too soon")
      else Success(plan.(phase := Scheduled))
    case Unknown => Failure("unknown action")
  }

  function Interaction(s: Fleet, host: Host, revision: Id, action: Action, request: Id, now: int): Result<Fleet> {
    var st := Read(s, host);
    if st.plan.None? then Failure("no plan") else
    var plan := st.plan.value;
    if plan.revision != revision then Failure("stale notification") else
    if Busy(plan) then Failure("running or failed") else
    if InteractionEvent(request) in s.events then Success(s) else
    match Requested(host, plan, action, now)
    case Failure(reason) => Failure(reason)
    case Success(asked) =>
      if !action.Hold? && Conflicts(s, host, asked.target) then Failure("too near another host") else
      if !action.Hold? && !InEvening(host, asked.target) then Failure("not in the evening") else
      Success(Renewed(s, host, asked.(eveningWindow := if action.Hold? then asked.eveningWindow else IsPve(host)), request, now))
  }

  /** An accepted button: the plan under a new revision, and the request on record; requests
      older than a day are forgotten. */
  function Renewed(s: Fleet, host: Host, plan: Plan, request: Id, now: int): Fleet {
    var next := plan.(revision := s.nextId, notifiedRevision := None);
    var kept := map e | e in s.events && s.events[e] >= now - DAY :: s.events[e];
    Write(s, host, Read(s, host).(plan := Some(next))).(events := kept[InteractionEvent(request) := now], nextId := s.nextId + 1)
  }

  // ----- the second half of a publication -----

  /** Discord accepted the message of a revision: recorded only while that revision stands. */
  function Notified(s: Fleet, host: Host, revision: Id): Fleet {
    var st := Read(s, host);
    if st.plan.None? || st.plan.value.revision != revision then s
    else Write(s, host, st.(plan := Some(st.plan.value.(notifiedRevision := Some(revision)))))
  }

  // ----- all calls together -----

  datatype Call =
    | CReport(host: Host, bootId: Id, required: bool, healthy: bool)
    | CClaim(host: Host)
    | CClaimUpdate(host: Host)
    | CUpdateResult(host: Host, execution: Id, outcome: Outcome)
    | CRebootResult(host: Host, execution: Id, outcome: Outcome)
    | CRecover(host: Host)
    | CTick(host: Host)
    | CInteraction(host: Host, revision: Id, action: Action, request: Id)
    | CNotified(host: Host, revision: Id)
    | CObserve(inspection: Inspection)

  /** A refused call leaves the tables as they were. */
  function Accepted(r: Result<Fleet>, s: Fleet): Fleet {
    match r case Success(s') => s' case Failure(_) => s
  }

  function Apply(s: Fleet, call: Call, now: int): Fleet {
    match call
    case CReport(host, bootId, required, healthy) => Report(s, host, bootId, required, healthy, now)
    case CClaim(host) => Claim(s, host, now).0
    case CClaimUpdate(host) => ClaimUpdate(s, host, now).0
    case CUpdateResult(host, execution, outcome) => Accepted(UpdateResult(s, host, execution, outcome, now), s)
    case CRebootResult(host, execution, outcome) => Accepted(RebootResult(s, host, execution, outcome, now), s)
    case CRecover(host) => Accepted(Recover(s, host, now), s)
    case CTick(host) => Tick(s, host, now)
    case CInteraction(host, revision, action, request) => Accepted(Interaction(s, host, revision, action, request, now), s)
    case CNotified(host, revision) => Notified(s, host, revision)
    case CObserve(inspection) => ObserveEnvironment(s, inspection, now)
  }
}
