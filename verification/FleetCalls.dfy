/** What each call changes, and what it leaves alone, told by the rows before and after it. */
module FleetCalls {
  import opened Wrappers
  import opened Policy
  import opened EnvironmentHealth
  import opened FleetSpec
  import opened FleetCoupling

  // ----- slots -----

  lemma LaterIsNoEarlierDay(a: int, b: int)
    requires a <= b
    ensures JstDay(a) <= JstDay(b)
  {
    SplitTime(a);
    SplitTime(b);
    hide JstDay, JstHour, JstMinute;
  }

  /** The default slot is the first at the host's own hour that lies ahead, for a PVE host by the lead time. */
  lemma NextMorningIsFirst(now: int, host: Host, day: int)
    requires var t := JstAt(day, RebootHour(host)); if IsPve(host) then t >= now + LEAD_TIME else JstDay(t) > JstDay(now)
    ensures NextMorning(now, host) <= JstAt(day, RebootHour(host))
  {
    var hour := RebootHour(host);
    var today := JstAt(JstDay(now), hour);
    JoinTime(day, hour, 0);
    SplitTime(now);
    hide JstDay, JstHour, JstMinute;
    assert if day > JstDay(now) then JstAt(day, hour) >= today + DAY else JstAt(day, hour) <= today;
  }

  /** The next candidate is the first instant a gap later that suits the host. */
  lemma NextCandidateIsFirst(host: Host, target: int, t: int)
    requires t >= target + REBOOT_GAP && InEvening(host, t)
    ensures NextCandidate(host, target) <= t
  {
    var later := target + REBOOT_GAP;
    if IsPve(host) && JstHour(later) < 20 { EveningIsFirst(later, t); }
  }

  lemma EveningIsFirst(from: int, t: int)
    requires t >= from && JstHour(t) >= 20
    ensures JstAt(JstDay(from), 20) <= t
  {
    LaterIsNoEarlierDay(from, t);
    SplitTime(t);
    hide JstDay, JstHour, JstMinute;
  }

  /** A carried approval gets the first evening minute that keeps the lead time. */
  lemma CarrySlotIsFirst(now: int, t: int)
    requires t >= now + LEAD_TIME && t % MINUTE == 0 && JstHour(t) >= 20
    ensures CarrySlot(now) <= t
  {
    var earliest := CeilMinute(now + LEAD_TIME);
    CeilMinuteIsNext(now + LEAD_TIME);
    MinutesApart(earliest, t);
    hide CeilMinute;
    if earliest <= t { EveningIsFirst(earliest, t); }
  }

  lemma MinutesApart(a: int, b: int)
    requires a % MINUTE == 0 && b % MINUTE == 0 && a < b + MINUTE
    ensures a <= b
  {
    var i, j := a / MINUTE, b / MINUTE;
    assert a == MINUTE * i && b == MINUTE * j;
  }

  // ----- plans moved without a button -----

  predicate IsWaiting(plan: Option<Plan>) { plan.Some? && !plan.value.phase.Running? && !plan.value.phase.Failed? }

  /** A waiting plan of a PVE host that is not an evening plan yet. */
  predicate IsLegacy(host: Host, plan: Option<Plan>) {
    host != DevApp && IsWaiting(plan) && (JstHour(plan.value.target) < 20 || !plan.value.eveningWindow)
  }

  /** An approved evening plan of a PVE host whose day is over. */
  predicate IsMissed(host: Host, plan: Option<Plan>, now: int) {
    && host != DevApp && plan.Some? && plan.value.phase.Scheduled? && plan.value.eveningWindow
    && JstDay(now) > JstDay(plan.value.target)
  }

  lemma WindowEndsWithTheDay(host: Host, target: int, now: int)
    requires host != DevApp
    ensures now >= RebootWindowEnd(host, target) <==> JstDay(now) > JstDay(target)
  {
    SplitTime(now);
    SplitTime(target);
    hide JstDay, JstHour, JstMinute;
  }

  /** A legacy plan, and no other, becomes an evening plan to be approved again, at its own time if that
      is in the evening, else at the first free slot from the default hour of its day or the next one. */
  lemma LegacyIsAligned(s: Fleet, host: Host, st: RecordState, now: int, revision: Id)
    ensures var (after, moved) := AlignLegacySlot(s, host, st, now, revision);
      && (moved <==> IsLegacy(host, st.plan)) && (!moved ==> after == st)
      && (moved ==>
            var p, q := st.plan.value, after.plan;
            && q == Some(p.(target := q.value.target, eveningWindow := true, phase := q.value.phase, revision := revision, notifiedRevision := None))
            && q.value.phase == (if p.phase == Held then Held else Approval)
            && (if JstHour(p.target) >= 20 then q.value.target == p.target
                else
                  var slot := JstAt(JstDay(p.target), if host == PveX570 then 20 else 21);
                  q.value.target == AvailableTarget(s, host, if slot >= now + 600_000 then slot else NextMorning(now, host))))
  {
    hide AvailableTarget, NextMorning, JstHour, JstDay;
  }

  /** A missed approval, and no other plan, moves to the first free slot from the next evening minute;
      it stays approved. */
  lemma MissedIsCarried(s: Fleet, host: Host, st: RecordState, now: int, revision: Id)
    ensures var (after, moved) := CarryApprovedReboot(s, host, st, now, revision);
      && (moved <==> IsMissed(host, st.plan, now)) && (!moved ==> after == st)
      && (moved ==>
            after == st.(plan := Some(st.plan.value.(
              target := AvailableTarget(s, host, CarrySlot(now)), revision := revision, notifiedRevision := None))))
  {
    if host != DevApp && st.plan.Some? { WindowEndsWithTheDay(host, st.plan.value.target, now); }
    hide AvailableTarget, CarrySlot, JstDay, RebootWindowEnd;
  }

  // ----- a report -----

  /** What a report makes of the plan: a running one of another boot session ends with a healthy report,
      unless its step is being watched; a waiting one ends when the reboot happened or is not needed. */
  function PlanAfterReport(s: Fleet, host: Host, plan: Option<Plan>, bootId: Id, required: bool, healthy: bool): Option<Plan> {
    if plan.None? then None else
    match plan.value.phase
    case Running =>
      if plan.value.bootId != bootId && healthy && !IsWatched(s, host, plan.value) then None else plan
    case Failed => plan
    case _ => if plan.value.bootId == bootId && required then plan else None
  }

  /** The gate watches this plan's execution; no gate counts as watching a plan without one. */
  predicate IsWatched(s: Fleet, host: Host, plan: Plan) {
    host != DevApp && plan.executionId == if s.environment.gate.Some? then Some(s.environment.gate.value.executionId) else None
  }

  lemma ReportClears(s: Fleet, host: Host, snapshot: Snapshot)
    ensures var (st, finishes) := AfterSnapshot(s, host, snapshot); var plan := Read(s, host).plan;
      && st == Read(s, host).(snapshot := Some(snapshot), plan := PlanAfterReport(s, host, plan, snapshot.bootId, snapshot.required, snapshot.healthy))
      && (finishes <==> plan.Some? && plan.value.phase.Running? && plan.value.bootId != snapshot.bootId && snapshot.healthy && IsWatched(s, host, plan.value))
  {
  }

  /** The whole effect of a report: the plan is cleared, then aligned, then carried; a watched step is
      completed; nothing else changes but the snapshot. */
  lemma ReportMeans(s: Fleet, host: Host, bootId: Id, required: bool, healthy: bool, now: int)
    ensures var s', plan := Report(s, host, bootId, required, healthy, now), Read(s, host).plan;
      var kept := PlanAfterReport(s, host, plan, bootId, required, healthy); var after := Read(s', host).plan;
      && Read(s', host) == Read(s, host).(snapshot := Some(Snapshot(bootId, required, healthy, now)), plan := after)
      && (!IsLegacy(host, kept) && !IsMissed(host, kept, now) ==> after == kept)
      && !IsLegacy(host, after) && !IsMissed(host, after, now)
      && s'.lock == s.lock && s'.events == s.events && s'.environment.inspection == s.environment.inspection
      && (if plan.Some? && plan.value.phase.Running? && plan.value.bootId != bootId && healthy && IsWatched(s, host, plan.value) && s.environment.gate.Some? && s.environment.gate.value.host == host
          then s'.environment.gate == Some(Completed(s.environment.gate.value, now)) else s'.environment.gate == s.environment.gate)
  {
    var snapshot := Snapshot(bootId, required, healthy, now);
    ReportClears(s, host, snapshot);
    var (st, finishes) := AfterSnapshot(s, host, snapshot);
    LegacyIsAligned(s, host, st, now, s.nextId);
    var (aligned, realigned) := AlignLegacySlot(s, host, st, now, s.nextId);
    var id := if realigned then s.nextId + 1 else s.nextId;
    MissedIsCarried(s, host, aligned, now, id);
    AlignedIsEvening(s, host, st, now);
    CarriedIsAhead(s, host, aligned, now, id);
    ReportedGate(s, host, bootId, required, healthy, now);
    hide AlignLegacySlot, CarryApprovedReboot, AfterSnapshot, AvailableTarget, IsLegacy, IsMissed, IsWatched, FinishEnvironmentStep;
  }

  lemma ReportedGate(s: Fleet, host: Host, bootId: Id, required: bool, healthy: bool, now: int)
    ensures var s', plan := Report(s, host, bootId, required, healthy, now), Read(s, host).plan;
      && s'.environment.inspection == s.environment.inspection
      && (if plan.Some? && plan.value.phase.Running? && plan.value.bootId != bootId && healthy && IsWatched(s, host, plan.value) && s.environment.gate.Some? && s.environment.gate.value.host == host
          then s'.environment.gate == Some(Completed(s.environment.gate.value, now)) else s'.environment.gate == s.environment.gate)
  {
    var snapshot := Snapshot(bootId, required, healthy, now);
    ReportClears(s, host, snapshot);
    var (st, finishes) := AfterSnapshot(s, host, snapshot);
    assert finishes ==> st.plan == Read(s, host).plan;
    var s' := Report(s, host, bootId, required, healthy, now);
    assert s'.environment == if finishes && st.plan.value.executionId.Some?
      then FinishEnvironmentStep(s.environment, host, st.plan.value.executionId.value, now) else s.environment;
    hide Report, AfterSnapshot, AlignLegacySlot, CarryApprovedReboot, AvailableTarget, PlanAfterReport;
  }

  lemma AlignedIsEvening(s: Fleet, host: Host, st: RecordState, now: int)
    ensures !IsLegacy(host, AlignLegacySlot(s, host, st, now, s.nextId).0.plan)
  {
    HourOfSameDay(now, RebootHour(host));
    if st.plan.Some? { HourOfSameDay(st.plan.value.target, RebootHour(host)); }
    hide JstDay, JstHour;
  }

  lemma CarriedIsAhead(s: Fleet, host: Host, st: RecordState, now: int, id: Id)
    requires !IsLegacy(host, st.plan)
    ensures var plan := CarryApprovedReboot(s, host, st, now, id).0.plan; !IsMissed(host, plan, now) && !IsLegacy(host, plan)
  {
    MissedIsCarried(s, host, st, now, id);
    SplitTime(now);
    SplitTime(AvailableTarget(s, host, CarrySlot(now)));
    LaterIsNoEarlierDay(now, AvailableTarget(s, host, CarrySlot(now)));
    hide JstDay, JstMinute, CarryApprovedReboot;
  }

  // ----- results -----

  /** What a package-update result does, the first time it comes: the row stays, and is watched, after a
      success; it stays and is held for an operator after a failure; it goes, and its gate with it, when
      the update never began. A repeated result changes nothing, one of another execution is refused. */
  lemma UpdateResultMeans(s: Fleet, host: Host, execution: Id, outcome: Outcome, now: int)
    requires Coupled(s)
    ensures var r := UpdateResult(s, host, execution, outcome, now); var event := UpdateEvent(host, execution);
      if event in s.events then r == Success(s)
      else if s.lock != Some(Lock(host, execution, false)) && s.lock != Some(Lock(host, execution, true)) then r.Failure?
      else
        && r.Success? && s.environment.gate.Some?
        && r.value == s.(lock := r.value.lock, environment := s.environment.(gate := r.value.environment.gate), events := s.events[event := now])
        && match outcome
           case Complete => r.value.lock == s.lock && r.value.environment.gate == Some(Completed(s.environment.gate.value, now))
           case FailedOutcome =>
             && r.value.lock == Some(Lock(host, execution, true))
             && r.value.environment.gate == Some(s.environment.gate.value.(held := true, holdCause := Some(Operation)))
           case Blocked => r.value.lock.None? && r.value.environment.gate.None?
  {
    if s.lock.Some? { LockedGate(s); }
    hide Coupled;
  }

  lemma LockedGate(s: Fleet)
    requires Coupled(s) && s.lock.Some?
    ensures s.environment.gate.Some? && s.environment.gate.value.host == s.lock.value.host && s.environment.gate.value.executionId == s.lock.value.execution
  {
    var gate := s.environment.gate.value;
    assert gate.host in {DevApp, PveX570, PveB550m};
  }

  /** Whatever a host reports again for an execution, the first result stands. */
  lemma FirstUpdateResultStands(s: Fleet, host: Host, execution: Id, first: Outcome, again: Outcome, now: int, later: int)
    requires UpdateResult(s, host, execution, first, now).Success?
    ensures var s' := UpdateResult(s, host, execution, first, now).value; UpdateResult(s', host, execution, again, later) == Success(s')
  {
  }

  lemma FirstRebootResultStands(s: Fleet, host: Host, execution: Id, first: Outcome, again: Outcome, now: int, later: int)
    requires RebootResult(s, host, execution, first, now).Success?
    ensures var s' := RebootResult(s, host, execution, first, now).value; RebootResult(s', host, execution, again, later) == Success(s')
  {
  }

  /** What a reboot result does, the first time it comes: the plan goes when no reboot was needed, is held
      when it was refused and failed when the command failed, under a new revision; the gate of the
      execution goes, or is held for an operator after a failure. */
  lemma RebootResultMeans(s: Fleet, host: Host, execution: Id, outcome: Outcome, now: int)
    ensures var r := RebootResult(s, host, execution, outcome, now); var event := ResultEvent(host, execution); var plan := Read(s, host).plan;
      var mine := s.environment.gate.Some? && s.environment.gate.value.executionId == execution;
      if event in s.events then r == Success(s)
      else if !(plan.Some? && plan.value.phase.Running? && plan.value.executionId == Some(execution)) then r.Failure?
      else
        && r.Success? && r.value.lock == s.lock && r.value.events == s.events[event := now]
        && (forall other | other != host :: Read(r.value, other) == Read(s, other))
        && Read(r.value, host) == Read(s, host).(plan := Read(r.value, host).plan)
        && Read(r.value, host).plan == (match outcome
             case Complete => None
             case Blocked => Some(plan.value.(phase := Held, revision := s.nextId, notifiedRevision := None))
             case FailedOutcome => Some(plan.value.(phase := Failed, revision := s.nextId, notifiedRevision := None)))
        && r.value.environment == (if !mine then s.environment
             else if outcome == FailedOutcome then s.environment.(gate := Some(s.environment.gate.value.(held := true, holdCause := Some(Operation))))
             else s.environment.(gate := None))
  {
  }

  /** An operator's recovery is accepted exactly when the host reported healthy within two minutes and,
      if its operation is being watched, that is on hold and the environment healthy against its baseline.
      It then ends the watch and the host's package update, and holds its plan. */
  lemma RecoverMeans(s: Fleet, host: Host, now: int)
    ensures var st, gate, r := Read(s, host), s.environment.gate, Recover(s, host, now);
      var mine := gate.Some? && gate.value.host == host;
      && (r.Success? <==>
            && st.snapshot.Some? && st.snapshot.value.healthy && now - st.snapshot.value.observedAt <= 120_000
            && (mine ==> gate.value.held && Healthy(s.environment.inspection, now, Some(gate.value.baseline))))
      && (r.Success? ==>
            && r.value.events == s.events && r.value.environment.inspection == s.environment.inspection
            && r.value.environment.gate == (if mine then None else gate)
            && r.value.lock == (if s.lock.Some? && s.lock.value.host == host then None else s.lock)
            && (forall other | other != host :: Read(r.value, other) == Read(s, other))
            && Read(r.value, host) == st.(plan := if st.plan.None? then None
                                                  else Some(st.plan.value.(phase := Held, revision := s.nextId, notifiedRevision := None))))
  {
    hide Healthy;
  }

  // ----- observations -----

  /** The gated host itself must have reported healthy within two minutes. */
  lemma CheckedMeans(st: RecordState, inspection: Inspection, now: int)
    ensures var checked := Checked(st, inspection, now);
      && checked == inspection.(error := checked.error)
      && (checked.error.None? <==>
            inspection.error.None? && st.snapshot.Some? && st.snapshot.value.healthy && now - st.snapshot.value.observedAt <= 120_000)
  {
  }

  /** An observation stores the inspection and moves the gate; one that passes the gate removes it and
      the package-update row, or the running plan, of its execution, and nothing else. */
  lemma ObservationMeans(s: Fleet, inspection: Inspection, now: int)
    requires s.environment.gate.Some? ==> !(s.environment.gate.value.held && s.environment.gate.value.holdCause.None?)
    ensures var s', gate := ObserveEnvironment(s, inspection, now), s.environment.gate;
      && s'.environment.inspection == Some(inspection) && s'.events == s.events && s'.nextId == s.nextId
      && (gate.None? ==> s' == s.(environment := s.environment.(inspection := Some(inspection))))
      && (gate.Some? ==>
            var (g, verdict) := Observed(gate.value, Checked(Read(s, gate.value.host), inspection, now), now);
            var host, e := gate.value.host, gate.value.executionId; var plan := Read(s, host).plan;
            && (verdict != Passed ==> s' == s.(environment := Environment(Some(inspection), Some(g))))
            && (verdict == Passed ==>
                  && s'.environment.gate.None?
                  && s'.lock == (if gate.value.kind.Update? && s.lock.Some? && s.lock.value.host == host && s.lock.value.execution == e then None else s.lock)
                  && (forall other | other != host :: Read(s', other) == Read(s, other))
                  && Read(s', host) == Read(s, host).(plan :=
                       if gate.value.kind.Reboot? && plan.Some? && plan.value.phase.Running? && plan.value.executionId == Some(e) then None else plan)))
  {
    hide Observed, Checked;
  }

  // ----- the daily tick -----

  /** A plan proposed by the tick. */
  predicate IsProposed(s: Fleet, host: Host, plan: Plan, bootId: Id, now: int) {
    && plan.phase == (if host == DevApp then Scheduled else Approval) && plan.notifiedRevision.None? && plan.bootId == bootId
    && plan.eveningWindow == (host != DevApp) && plan.target == AvailableTarget(s, host, NextMorning(now, host))
  }

  /** A scheduled plan whose time has passed, for a VM by five minutes, for a PVE host by its day. */
  predicate IsExpired(host: Host, plan: Option<Plan>, now: int) {
    plan.Some? && plan.value.phase.Scheduled? &&
    if host == DevApp then now >= plan.value.target + 300_000 else JstDay(now) > JstDay(plan.value.target)
  }

  lemma TickCreates(s: Fleet, host: Host, now: int)
    ensures var s', st := TickCreate(s, host, now), Read(s, host);
      if st.plan.None? && st.snapshot.Some? && now - st.snapshot.value.observedAt <= 600_000 && st.snapshot.value.required
      then Read(s', host).plan.Some? && Read(s', host) == st.(plan := Read(s', host).plan) && OnlyRow(s, s', host)
           && Read(s', host).plan.value.revision == s.nextId && Read(s', host).plan.value.executionId.None?
           && IsProposed(s, host, Read(s', host).plan.value, st.snapshot.value.bootId, now)
      else s' == s
  {
    hide AvailableTarget, NextMorning;
  }

  /** An expired plan is carried when its approval can be, and proposed again otherwise. */
  lemma TickRolls(s: Fleet, host: Host, now: int)
    ensures var s', st := TickRoll(s, host, now), Read(s, host);
      if !IsExpired(host, st.plan, now) then s' == s
      else
        && OnlyRow(s, s', host) && Read(s', host) == st.(plan := Read(s', host).plan) && Read(s', host).plan.Some?
        && var p, q := st.plan.value, Read(s', host).plan.value;
           q.revision == s.nextId && q.notifiedRevision.None? &&
           if IsMissed(host, st.plan, now)
           then q == p.(target := AvailableTarget(s, host, CarrySlot(now)), revision := s.nextId, notifiedRevision := None)
           else q == p.(phase := if host == DevApp then Scheduled else Approval, target := AvailableTarget(s, host, NextMorning(now, host)),
                        revision := s.nextId, notifiedRevision := None)
  {
    MissedIsCarried(s, host, Read(s, host), now, s.nextId);
    if host != DevApp && Read(s, host).plan.Some? { WindowEndsWithTheDay(host, Read(s, host).plan.value.target, now); }
    hide AvailableTarget, NextMorning, CarrySlot, JstDay, RebootWindowEnd, CarryApprovedReboot;
  }

  /** After the tick no plan is a legacy one or expired, and a host that asked for a reboot within ten
      minutes has a plan. */
  lemma TickLeaves(s: Fleet, host: Host, now: int)
    ensures var st := Read(Tick(s, host, now), host);
      && !IsLegacy(host, st.plan) && !IsExpired(host, st.plan, now)
      && (st.plan.None? ==> !(st.snapshot.Some? && now - st.snapshot.value.observedAt <= 600_000 && st.snapshot.value.required))
  {
    var a := TickAlign(s, host, now);
    var b := TickCreate(a, host, now);
    LegacyIsAligned(s, host, Read(s, host), now, s.nextId);
    AlignedIsEvening(s, host, Read(s, host), now);
    assert !IsLegacy(host, Read(a, host).plan);
    TickCreates(a, host, now);
    ProposedIsEvening(a, host, now);
    assert !IsLegacy(host, Read(b, host).plan);
    TickRolls(b, host, now);
    ProposedIsEvening(b, host, now);
    RolledIsAhead(b, host, now);
    hide AlignLegacySlot, TickCreate, TickRoll, TickAlign, AvailableTarget, NextMorning, CarrySlot, JstDay, JstHour, IsMissed;
  }

  lemma ProposedIsEvening(s: Fleet, host: Host, now: int)
    ensures var target := AvailableTarget(s, host, NextMorning(now, host)); target > now && InEvening(host, target)
    ensures var target := AvailableTarget(s, host, CarrySlot(now)); target > now && (host != DevApp ==> JstHour(target) >= 20)
  {
    hide JstHour, JstDay;
  }

  lemma RolledIsAhead(s: Fleet, host: Host, now: int)
    ensures JstDay(AvailableTarget(s, host, NextMorning(now, host))) >= JstDay(now)
    ensures JstDay(AvailableTarget(s, host, CarrySlot(now))) >= JstDay(now)
  {
    LaterIsNoEarlierDay(now, AvailableTarget(s, host, NextMorning(now, host)));
    LaterIsNoEarlierDay(now, AvailableTarget(s, host, CarrySlot(now)));
    hide JstDay, JstHour;
  }

  // ----- buttons and publications -----

  /** The time and phase a button asks for. */
  predicate IsAskedFor(host: Host, p: Plan, q: Plan, action: Action, now: int) {
    var unapproved := if host == DevApp then Scheduled else Approval;
    match action
    case Hold => q.phase == Held && q.target == p.target
    case Defer => q.phase == unapproved && q.target == Postponed(p.target, now)
    case DateSubmit(text) => q.phase == unapproved && Calendar.ParseJst(text, now) == Success(q.target)
    case Approve => host != DevApp && q.phase == Scheduled && q.target == p.target && p.target >= now + 600_000
    case Unknown => false
  }

  /** A button that is not repeated is accepted exactly when it names the current revision of a waiting
      plan and the plan it asks for exists, and, but for a hold, is free and in the evening; the plan then
      stands as asked for, under a new revision that is not shown yet. */
  lemma ButtonMeans(s: Fleet, host: Host, revision: Id, action: Action, request: Id, now: int)
    ensures var r, plan := Interaction(s, host, revision, action, request, now), Read(s, host).plan;
      if !IsWaiting(plan) || plan.value.revision != revision then r.Failure?
      else if InteractionEvent(request) in s.events then r == Success(s)
      else
        var p := plan.value;
        && (r.Failure? <==>
              forall q: Plan | IsAskedFor(host, p, q, action, now) ::
                action != Hold && (Conflicts(s, host, q.target) || (host != DevApp && JstHour(q.target) < 20)))
        && (r.Success? ==>
              && (forall other | other != host :: Read(r.value, other) == Read(s, other)) && r.value.lock == s.lock && r.value.environment == s.environment
              && InteractionEvent(request) in r.value.events && (forall e | e in s.events && s.events[e] >= now - 86_400_000 :: e in r.value.events)
              && Read(r.value, host).plan.Some? && Read(r.value, host) == Read(s, host).(plan := Read(r.value, host).plan)
              && var q := Read(r.value, host).plan.value;
                 && IsAskedFor(host, p, q, action, now)
                 && q == p.(phase := q.phase, target := q.target, revision := s.nextId, notifiedRevision := None,
                            eveningWindow := if action == Hold then p.eveningWindow else host != DevApp))
  {
    hide Conflicts, JstHour, Calendar.ParseJst, Postponed;
    var plan := Read(s, host).plan;
    if IsWaiting(plan) && plan.value.revision == revision && InteractionEvent(request) !in s.events {
      var asked := Requested(host, plan.value, action, now);
      AskedIff(host, plan.value, action, now);
      if asked.Success? {
        forall q: Plan | IsAskedFor(host, plan.value, q, action, now) ensures q.target == asked.value.target { AskedTarget(host, plan.value, q, action, now); }
      }
      hide Requested, IsAskedFor;
    }
  }

  lemma AskedIff(host: Host, p: Plan, action: Action, now: int)
    ensures var asked := Requested(host, p, action, now);
      if asked.Success?
      then IsAskedFor(host, p, asked.value, action, now) && asked.value == p.(phase := asked.value.phase, target := asked.value.target)
      else forall q: Plan :: !IsAskedFor(host, p, q, action, now)
  {
    hide Calendar.ParseJst, Postponed;
  }

  lemma AskedTarget(host: Host, p: Plan, q: Plan, action: Action, now: int)
    requires IsAskedFor(host, p, q, action, now) && Requested(host, p, action, now).Success?
    ensures q.target == Requested(host, p, action, now).value.target && q.phase == Requested(host, p, action, now).value.phase
  {
    hide Calendar.ParseJst, Postponed;
  }

  /** An accepted message marks the revision it showed, if that still stands, and nothing else. */
  lemma NotifiedMeans(s: Fleet, host: Host, revision: Id)
    ensures var s', plan := Notified(s, host, revision), Read(s, host).plan;
      if plan.Some? && plan.value.revision == revision
      then OnlyRow(s, s', host) && s'.nextId == s.nextId && Read(s', host) == Read(s, host).(plan := Some(plan.value.(notifiedRevision := Some(revision))))
      else s' == s
  {
  }

  /** What a granted reboot writes: a fresh execution, the start, and for a PVE host a watch from now on. */
  lemma ClaimMeans(s: Fleet, host: Host, now: int)
    requires Claim(s, host, now).1.Some?
    ensures var s', plan := Claim(s, host, now).0, Read(s, host).plan;
      && Claim(s, host, now).1 == Some(s.nextId) && s'.nextId == s.nextId + 1 && s'.lock == s.lock && s'.events == s.events && plan.Some?
      && (forall other | other != host :: Read(s', other) == Read(s, other))
      && Read(s', host) == Read(s, host).(plan := Some(plan.value.(phase := Running, executionId := Some(s.nextId))), lastRebootStartedAt := Some(now))
      && (if host == DevApp then s'.environment == s.environment
          else s.environment.inspection.Some? && s'.environment == s.environment.(gate :=
            Some(HealthGate(host, s.nextId, Reboot, now, s.environment.inspection.value, None, None, None, false, None))))
  {
    hide OthersExclude, AlarmBlocks, SignalOk, RebootWindowEnd, JstHour;
  }

  lemma ClaimUpdateMeans(s: Fleet, host: Host, now: int)
    requires ClaimUpdate(s, host, now).1.Some?
    ensures var s' := ClaimUpdate(s, host, now).0;
      && ClaimUpdate(s, host, now).1 == Some(s.nextId) && s.environment.inspection.Some?
      && s' == s.(lock := Some(Lock(host, s.nextId, false)), nextId := s.nextId + 1, environment := s.environment.(gate :=
           Some(HealthGate(host, s.nextId, Update, now, s.environment.inspection.value, None, None, None, false, None))))
  {
    hide FreshlyHealthy, AnyBusy, AlarmBlocks, SignalOk;
  }
}
