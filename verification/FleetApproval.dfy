/** Every approved PVE plan goes back to an operator's button, and every PVE start is inside
    the approved evening. */
module FleetApproval {
  import opened Policy
  import opened FleetSpec
  import opened FleetCoupling
  import opened FleetHistory

  /** Event k was an operator's approval that made the plan scheduled. */
  predicate ApprovedAt(events: seq<Event>, k: nat, host: Host)
    requires k < |events|
  {
    var q := PlanOf(Run(events[..k + 1]), host);
    q.Some? && q.value.phase.Scheduled? && IsApproval(Run(events[..k]), events[k], host, q.value)
  }

  /** Event j left the approval standing: nothing, a publication, the claim, or a carry-over. */
  predicate ApprovalKept(events: seq<Event>, j: nat, host: Host)
    requires j < |events|
  {
    var s, p, q := Run(events[..j]), PlanOf(Run(events[..j]), host), PlanOf(Run(events[..j + 1]), host);
    && Approved(p) && Approved(q)
    && (q == p || IsPublication(s, events[j], host, q.value) || IsClaim(s, events[j], host, q.value) || IsCarry(s, events[j], host, q.value))
  }

  /** An approval at event k that everything since has kept. */
  predicate StandsSince(events: seq<Event>, k: nat, host: Host)
    requires k < |events|
  {
    ApprovedAt(events, k, host) && forall j | k < j < |events| :: ApprovalKept(events, j, host)
  }

  lemma ApprovedStep(s: Fleet, event: Event, host: Host)
    requires IsPve(host) && Approved(PlanOf(Apply(s, event.call, event.now), host))
    ensures var q := PlanOf(Apply(s, event.call, event.now), host);
            || (q.value.phase.Scheduled? && IsApproval(s, event, host, q.value))
            || (Approved(PlanOf(s, host)) &&
                (q == PlanOf(s, host) || IsPublication(s, event, host, q.value) || IsClaim(s, event, host, q.value) || IsCarry(s, event, host, q.value)))
  {
    hide Apply;
    EveryPlanChange(s, event, host);
    if event.call.CInteraction? && event.call.host == host { ApprovalSchedules(s, event); }
  }

  /** What a successful "approve" does: only the phase and the revision change. */
  lemma ApprovalSchedules(s: Fleet, event: Event)
    requires event.call.CInteraction?
    ensures var q := PlanOf(Apply(s, event.call, event.now), event.call.host);
            q.Some? && event.call.action.Approve? && q != PlanOf(s, event.call.host) ==> q.value.phase.Scheduled?
  {
  }

  /** In every reachable state, a scheduled or running PVE plan was approved by an operator,
      and since then only publications, its own claim and automatic carry-overs touched it. */
  lemma {:induction false} EveryApprovedPlanWasApproved(events: seq<Event>, host: Host)
    requires IsPve(host) && Approved(PlanOf(Run(events), host))
    ensures exists k | 0 <= k < |events| :: StandsSince(events, k, host)
  {
    hide Apply, IsApproval, IsPublication, IsClaim, IsCarry;
    var n := |events| - 1;
    var before := events[..n];
    assert events[..n + 1] == events;
    ApprovedStep(Run(before), events[n], host);
    var q := PlanOf(Run(events), host).value;
    if q.phase.Scheduled? && IsApproval(Run(before), events[n], host, q) {
      assert StandsSince(events, n, host);
    } else {
      EveryApprovedPlanWasApproved(before, host);
      var k :| 0 <= k < n && StandsSince(before, k, host);
      PrefixAgrees(events, k, host);
      assert StandsSince(events, k, host);
    }
  }

  lemma PrefixAgrees(events: seq<Event>, k: nat, host: Host)
    requires k < |events| - 1 && StandsSince(events[..|events| - 1], k, host)
    ensures ApprovedAt(events, k, host)
    ensures forall j | k < j < |events| - 1 :: ApprovalKept(events, j, host)
  {
    hide Apply, IsApproval, IsPublication, IsClaim, IsCarry;
    var before := events[..|events| - 1];
    assert before[..k] == events[..k] && before[..k + 1] == events[..k + 1];
    forall j | k < j < |before| ensures ApprovalKept(events, j, host) {
      assert before[..j] == events[..j] && before[..j + 1] == events[..j + 1];
      assert ApprovalKept(before, j, host);
    }
  }

  /** A PVE claim is granted only on a plan an operator approved, between its target and
      midnight of the same Japan-time day, at 20:00 or later. */
  lemma PveStartsAreApprovedAndTimely(events: seq<Event>, host: Host, now: int)
    requires IsPve(host) && Claim(Run(events), host, now).1.Some?
    ensures exists k | 0 <= k < |events| :: StandsSince(events, k, host)
    ensures PlanOf(Run(events), host).Some?
    ensures var target := PlanOf(Run(events), host).value.target;
            target <= now && JstDay(now) == JstDay(target) && 20 <= JstHour(now) <= 23
  {
    EveryApprovedPlanWasApproved(events, host);
    DueIsInsideTheWindow(host, Read(Run(events), host), now);
  }
}
