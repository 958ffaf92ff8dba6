/** How plans change, and what follows for whole runs: separated targets, starts an hour
    apart, approvals that only automatic carry-overs touch. */
module FleetHistory {
  import opened Wrappers
  import opened Policy
  import opened EnvironmentHealth
  import opened FleetSpec
  import opened FleetCoupling

  // ----- the ways a plan can change -----

  predicate Active(plan: Option<Plan>) {
    plan.Some? && !plan.value.phase.Held? && !plan.value.phase.Failed?
  }

  /** Approved by a button and not taken back: scheduled, or already running. */
  predicate Approved(plan: Option<Plan>) {
    plan.Some? && (plan.value.phase.Scheduled? || plan.value.phase.Running?)
  }

  function PlanOf(s: Fleet, host: Host): Option<Plan> { Read(s, host).plan }

  /** An operator pressed "approve" on the current revision. */
  predicate IsApproval(s: Fleet, event: Event, host: Host, q: Plan) {
    && event.call.CInteraction? && event.call.host == host && event.call.action.Approve?
    && PlanOf(s, host).Some?
    && var p := PlanOf(s, host).value;
    && event.call.revision == p.revision && q.target == p.target && q.bootId == p.bootId
    && p.target >= event.now + LEAD_TIME
  }

  /** The automatic carry-over of an approval whose evening has passed. */
  predicate IsCarry(s: Fleet, event: Event, host: Host, q: Plan) {
    && (event.call.CReport? || event.call.CTick?) && event.call.host == host
    && PlanOf(s, host).Some?
    && var p := PlanOf(s, host).value;
    && p.phase.Scheduled? && q.phase.Scheduled? && q.bootId == p.bootId
    && event.now >= RebootWindowEnd(host, p.target)
    && q.target >= event.now + LEAD_TIME && JstHour(q.target) >= 20
  }

  predicate IsClaim(s: Fleet, event: Event, host: Host, q: Plan) {
    && event.call == CClaim(host) && Claimable(s, host, event.now)
    && q == PlanOf(s, host).value.(phase := Running, executionId := Some(s.nextId))
  }

  predicate IsPublication(s: Fleet, event: Event, host: Host, q: Plan) {
    && event.call.CNotified? && event.call.host == host
    && PlanOf(s, host).Some? && event.call.revision == q.revision
    && q == PlanOf(s, host).value.(notifiedRevision := Some(q.revision))
  }

  /** A new revision, not yet shown to anyone; an active one stands where it stood or at a free
      slot, and a PVE one is approved only by an operator or by a carry-over. */
  predicate Renewed(s: Fleet, event: Event, host: Host, q: Plan, nextId: Id) {
    var p := PlanOf(s, host);
    && s.nextId <= q.revision < nextId && q.notifiedRevision.None?
    && (Active(Some(q)) ==> (Active(p) && q.target == p.value.target) || !Conflicts(s, host, q.target))
    && (IsPve(host) && Approved(Some(q)) ==> IsApproval(s, event, host, q) || IsCarry(s, event, host, q))
  }

  predicate PlanChange(s: Fleet, s': Fleet, event: Event, host: Host) {
    var q := PlanOf(s', host);
    || q == PlanOf(s, host)
    || q.None?
    || IsClaim(s, event, host, q.value)
    || IsPublication(s, event, host, q.value)
    || Renewed(s, event, host, q.value, s'.nextId)
  }

  // ----- call by call -----

  lemma ReportChange(s: Fleet, event: Event)
    requires event.call.CReport?
    ensures PlanChange(s, Apply(s, event.call, event.now), event, event.call.host)
  {
  }

  lemma ResultChange(s: Fleet, event: Event)
    requires event.call.CRebootResult? || event.call.CRecover?
    ensures PlanChange(s, Apply(s, event.call, event.now), event, event.call.host)
  {
  }

  lemma InteractionChange(s: Fleet, event: Event)
    requires event.call.CInteraction?
    ensures PlanChange(s, Apply(s, event.call, event.now), event, event.call.host)
  {
  }

  lemma TickAlignChange(s: Fleet, event: Event)
    requires event.call.CTick?
    ensures PlanChange(s, TickAlign(s, event.call.host, event.now), event, event.call.host)
    ensures TickAlign(s, event.call.host, event.now) != s ==>
              PlanOf(s, event.call.host).Some? && !Approved(PlanOf(TickAlign(s, event.call.host, event.now), event.call.host))
  {
  }

  lemma TickCreateChange(s: Fleet, event: Event)
    requires event.call.CTick?
    ensures PlanChange(s, TickCreate(s, event.call.host, event.now), event, event.call.host)
    ensures TickCreate(s, event.call.host, event.now) != s ==>
              PlanOf(s, event.call.host).None? && PlanOf(TickCreate(s, event.call.host, event.now), event.call.host).value.target > event.now
  {
  }

  lemma TickRollChange(s: Fleet, event: Event)
    requires event.call.CTick?
    ensures PlanChange(s, TickRoll(s, event.call.host, event.now), event, event.call.host)
    ensures TickRoll(s, event.call.host, event.now) != s ==>
              PlanOf(s, event.call.host).Some? && PlanOf(s, event.call.host).value.phase.Scheduled?
              && event.now >= RebootWindowEnd(event.call.host, PlanOf(s, event.call.host).value.target)
  {
  }

  lemma WindowEndsAfterTarget(host: Host, target: int)
    ensures RebootWindowEnd(host, target) > target
  {
    HourOfSameDay(target, 0);
    hide JstDay, JstHour;
  }

  lemma TickChange(s: Fleet, event: Event)
    requires event.call.CTick?
    ensures PlanChange(s, Apply(s, event.call, event.now), event, event.call.host)
  {
    var host := event.call.host;
    var s1 := TickAlign(s, host, event.now);
    var s2 := TickCreate(s1, host, event.now);
    TickAlignChange(s, event);
    TickCreateChange(s1, event);
    TickRollChange(s2, event);
    if s1 != s {
      assert s2 == s1 && TickRoll(s2, host, event.now) == s2;
    } else if s2 != s1 {
      WindowEndsAfterTarget(host, PlanOf(s2, host).value.target);
      assert TickRoll(s2, host, event.now) == s2;
    }
  }

  lemma ObserveChange(s: Fleet, event: Event, host: Host)
    requires event.call.CObserve?
    ensures PlanChange(s, Apply(s, event.call, event.now), event, host)
  {
  }

  /** A call about one host leaves the rows of the others alone. */
  lemma OnlyOwnRow(s: Fleet, event: Event, host: Host)
    requires !event.call.CObserve? && event.call.host != host
    ensures Read(Apply(s, event.call, event.now), host) == Read(s, host)
  {
    RowChange(s, event, host);
  }

  /** What a call does to a row beside its plan: nothing, unless it is the host's own report, which
      brings a snapshot, or its granted claim, which records the start. */
  predicate IsRowChange(s: Fleet, event: Event, host: Host, st: RecordState) {
    var own := event.call.CObserve? || event.call.host == host;
    && (!own ==> st == Read(s, host))
    && st == Read(s, host).(
        plan := st.plan,
        snapshot := if event.call.CReport? && own then Some(Snapshot(event.call.bootId, event.call.required, event.call.healthy, event.now))
                    else Read(s, host).snapshot,
        lastRebootStartedAt := if event.call == CClaim(host) && Claimable(s, host, event.now) then Some(event.now)
                               else Read(s, host).lastRebootStartedAt)
  }

  lemma RowChange(s: Fleet, event: Event, host: Host)
    ensures IsRowChange(s, event, host, Read(Apply(s, event.call, event.now), host))
  {
    hide Claimable, Apply;
    match event.call
    case CReport(_, _, _, _) => ReportRowChange(s, event, host);
    case CRebootResult(_, _, _) => ResultRowChange(s, event, host);
    case CRecover(_) => RecoverRowChange(s, event, host);
    case CInteraction(_, _, _, _) => InteractionRowChange(s, event, host);
    case CObserve(_) => ObserveRowChange(s, event, host);
    case CTick(h) => TickRowChange(s, event, host);
    case _ => ShortRowChange(s, event, host);
  }

  lemma ReportRowChange(s: Fleet, event: Event, host: Host)
    requires event.call.CReport?
    ensures IsRowChange(s, event, host, Read(Apply(s, event.call, event.now), host))
  {
    hide AlignLegacySlot, CarryApprovedReboot, AfterSnapshot, FinishEnvironmentStep;
  }

  lemma ResultRowChange(s: Fleet, event: Event, host: Host)
    requires event.call.CRebootResult?
    ensures IsRowChange(s, event, host, Read(Apply(s, event.call, event.now), host))
  {
    hide HoldGate, GateExecution;
  }

  lemma RecoverRowChange(s: Fleet, event: Event, host: Host)
    requires event.call.CRecover?
    ensures IsRowChange(s, event, host, Read(Apply(s, event.call, event.now), host))
  {
    hide Healthy, FreshlyHealthy;
  }

  lemma InteractionRowChange(s: Fleet, event: Event, host: Host)
    requires event.call.CInteraction?
    ensures IsRowChange(s, event, host, Read(Apply(s, event.call, event.now), host))
  {
    hide Requested, Conflicts, InEvening;
  }

  lemma ObserveRowChange(s: Fleet, event: Event, host: Host)
    requires event.call.CObserve?
    ensures IsRowChange(s, event, host, Read(Apply(s, event.call, event.now), host))
  {
    hide Observed, Checked, WithLegacyCause;
  }

  lemma TickRowChange(s: Fleet, event: Event, host: Host)
    requires event.call.CTick?
    ensures IsRowChange(s, event, host, Read(Apply(s, event.call, event.now), host))
  {
    hide Tick;
  }

  lemma ShortRowChange(s: Fleet, event: Event, host: Host)
    requires event.call.CClaim? || event.call.CClaimUpdate? || event.call.CUpdateResult? || event.call.CNotified?
    ensures IsRowChange(s, event, host, Read(Apply(s, event.call, event.now), host))
  {
    hide Due, Healthy, OthersExclude, AnyBusy, UpdateClaimable;
    if event.call.CClaim? { ClaimRowChange(s, event, host); }
  }

  lemma ClaimRowChange(s: Fleet, event: Event, host: Host)
    requires event.call.CClaim?
    ensures IsRowChange(s, event, host, Read(Apply(s, event.call, event.now), host))
  {
    hide EnvironmentReady, OthersExclude;
  }

  /** Every call changes every host's plan in one of the listed ways. */
  lemma EveryPlanChange(s: Fleet, event: Event, host: Host)
    ensures PlanChange(s, Apply(s, event.call, event.now), event, host)
  {
    if event.call.CObserve? { ObserveChange(s, event, host); }
    else if event.call.host != host { OnlyOwnRow(s, event, host); }
    else if event.call.CReport? { ReportChange(s, event); }
    else if event.call.CRebootResult? || event.call.CRecover? { ResultChange(s, event); }
    else if event.call.CInteraction? { InteractionChange(s, event); }
    else if event.call.CTick? { TickChange(s, event); }
    else { ShortCallChange(s, event); }
  }

  /** Identifiers are never handed out twice. */
  lemma IdsGrow(s: Fleet, call: Call, now: int)
    ensures Apply(s, call, now).nextId >= s.nextId
  {
    match call
    case CRebootResult(_, _, _) => ResultIdsGrow(s, call, now);
    case CInteraction(_, _, _, _) => InteractionIdsGrow(s, call, now);
    case CObserve(_) => ObserveIdsGrow(s, call, now);
    case _ =>
  }

  lemma ResultIdsGrow(s: Fleet, call: Call, now: int)
    requires call.CRebootResult?
    ensures Apply(s, call, now).nextId >= s.nextId
  {
  }

  lemma InteractionIdsGrow(s: Fleet, call: Call, now: int)
    requires call.CInteraction?
    ensures Apply(s, call, now).nextId >= s.nextId
  {
  }

  lemma ObserveIdsGrow(s: Fleet, call: Call, now: int)
    requires call.CObserve?
    ensures Apply(s, call, now).nextId >= s.nextId
  {
  }

  lemma ShortCallChange(s: Fleet, event: Event)
    requires event.call.CClaim? || event.call.CClaimUpdate? || event.call.CUpdateResult? || event.call.CNotified?
    ensures PlanChange(s, Apply(s, event.call, event.now), event, event.call.host)
  {
  }
}
