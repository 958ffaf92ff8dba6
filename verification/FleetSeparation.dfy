/** Targets of different hosts stay an hour apart, and so do the starts. */
module FleetSeparation {
  import opened Wrappers
  import opened Policy
  import opened FleetSpec
  import opened FleetCoupling
  import opened FleetHistory

  /** Plans that are neither held nor failed keep the gap between any two hosts. */
  predicate Separated(s: Fleet) {
    forall a, b | a != b && Active(PlanOf(s, a)) && Active(PlanOf(s, b)) ::
      !Near(PlanOf(s, a).value.target, PlanOf(s, b).value.target)
  }

  lemma FreeSlotIsSeparate(s: Fleet, host: Host, other: Host, target: int)
    requires other != host && Active(PlanOf(s, other)) && !Conflicts(s, host, target)
    ensures !Near(PlanOf(s, other).value.target, target)
  {
    ConflictsMeansSomeHost(s, host, target);
    assert !OccupiedBy(s, host, other, target);
  }

  lemma ApplyKeepsSeparation(s: Fleet, event: Event)
    requires Separated(s)
    ensures Separated(Apply(s, event.call, event.now))
  {
    hide Apply;
    var s' := Apply(s, event.call, event.now);
    forall a, b | a != b && Active(PlanOf(s', a)) && Active(PlanOf(s', b))
      ensures !Near(PlanOf(s', a).value.target, PlanOf(s', b).value.target)
    {
      if event.call.CObserve? {
        ObservedPlan(s, event, a); ObservedPlan(s, event, b);
        assert Active(PlanOf(s, a)) && Active(PlanOf(s, b));
      } else if event.call.host == b {
        KeptOrFree(s, event, a, b);
      } else {
        OnlyOwnRow(s, event, b);
        if event.call.host == a {
          KeptOrFree(s, event, b, a);
        } else {
          OnlyOwnRow(s, event, a);
          assert Active(PlanOf(s, a)) && Active(PlanOf(s, b));
        }
      }
    }
  }

  lemma ObservedPlan(s: Fleet, event: Event, host: Host)
    requires event.call.CObserve?
    ensures var q := PlanOf(Apply(s, event.call, event.now), host); q.None? || q == PlanOf(s, host)
  {
  }

  /** The changed plan of `host` still keeps away from the untouched one of `other`. */
  lemma KeptOrFree(s: Fleet, event: Event, other: Host, host: Host)
    requires Separated(s) && !event.call.CObserve? && event.call.host == host && other != host
    requires Active(PlanOf(Apply(s, event.call, event.now), host)) && Active(PlanOf(Apply(s, event.call, event.now), other))
    ensures !Near(PlanOf(Apply(s, event.call, event.now), other).value.target, PlanOf(Apply(s, event.call, event.now), host).value.target)
  {
    EveryPlanChange(s, event, host);
    OnlyOwnRow(s, event, other);
    hide Apply;
    var q := PlanOf(Apply(s, event.call, event.now), host).value;
    assert Active(PlanOf(s, other));
    if Active(PlanOf(s, host)) && q.target == PlanOf(s, host).value.target {
      assert !Near(PlanOf(s, other).value.target, PlanOf(s, host).value.target);
    } else {
      FreeSlotIsSeparate(s, host, other, q.target);
    }
  }

  /** In every reachable state the targets of any two hosts are at least an hour apart. */
  lemma {:induction false} EveryRunIsSeparated(events: seq<Event>)
    ensures Separated(Run(events))
  {
    if events != [] {
      var n := |events| - 1;
      EveryRunIsSeparated(events[..n]);
      ApplyKeepsSeparation(Run(events[..n]), events[n]);
    }
  }

  /** The automatic slot is the first free one: every candidate before it is taken. */
  lemma {:induction false} AvailableTargetIsFirstFree(s: Fleet, host: Host, target: int, k: nat)
    ensures Candidate(host, target, k) < AvailableTarget(s, host, target) ==> Conflicts(s, host, Candidate(host, target, k))
    ensures exists n: nat :: AvailableTarget(s, host, target) == Candidate(host, target, n)
    decreases Max(0, Horizon(s) - target), k
  {
    if Conflicts(s, host, target) {
      ConflictsEndAtHorizon(s, host, target);
      var next := NextCandidate(host, target);
      AvailableTargetIsFirstFree(s, host, next, if k == 0 then 0 else k - 1);
      var n: nat :| AvailableTarget(s, host, next) == Candidate(host, next, n);
      assert AvailableTarget(s, host, target) == Candidate(host, target, n + 1);
    } else {
      CandidatesGrow(host, target, k);
      assert AvailableTarget(s, host, target) == Candidate(host, target, 0);
    }
  }

  /** The k-th slot tried from a wished target. */
  function Candidate(host: Host, target: int, k: nat): int
    decreases k
  {
    if k == 0 then target else Candidate(host, NextCandidate(host, target), k - 1)
  }

  lemma {:induction false} CandidatesGrow(host: Host, target: int, k: nat)
    ensures Candidate(host, target, k) >= target + k * REBOOT_GAP
    decreases k
  {
    if k > 0 { CandidatesGrow(host, NextCandidate(host, target), k - 1); }
  }

  // ----- starts -----

  /** The clock never runs backwards between calls; a daily tick may still work with the time
      it read when it began. */
  predicate Clocked(events: seq<Event>) {
    forall i, j | 0 <= i < j < |events| && !events[j].call.CTick? :: events[i].now <= events[j].now
  }

  /** Event k is a reboot claim that was granted. */
  predicate Granted(events: seq<Event>, k: nat)
    requires k < |events|
  {
    events[k].call.CClaim? && Claim(Run(events[..k]), events[k].call.host, events[k].now).1.Some?
  }

  /** A start is recorded by a granted claim and never removed or changed otherwise. */
  lemma StartsComeFromClaims(s: Fleet, event: Event, host: Host)
    ensures
      var s' := Apply(s, event.call, event.now);
      Read(s', host).lastRebootStartedAt ==
        if event.call == CClaim(host) && Claimable(s, host, event.now) then Some(event.now)
        else Read(s, host).lastRebootStartedAt
  {
    RowChange(s, event, host);
    hide Apply, Claimable;
  }

  lemma GrantedIsClaimable(s: Fleet, host: Host, now: int)
    ensures Claim(s, host, now).1.Some? <==> Claimable(s, host, now)
    ensures Claimable(s, host, now) ==> forall other | other != host :: !Excludes(Read(s, other), now)
  {
    forall other | other != host && Claimable(s, host, now) ensures !Excludes(Read(s, other), now) {
      assert other in {DevApp, PveX570, PveB550m};
    }
  }

  /** The recorded start of a host is never older than any claim granted to it. */
  lemma {:induction false} LastStartCoversClaims(events: seq<Event>, k: nat)
    requires Clocked(events) && k < |events| && Granted(events, k)
    ensures var last := Read(Run(events), events[k].call.host).lastRebootStartedAt;
            last.Some? && last.value >= events[k].now
  {
    hide Apply, Claim, Claimable;
    var n := |events| - 1;
    GrantedIsClaimable(Run(events[..k]), events[k].call.host, events[k].now);
    StartsComeFromClaims(Run(events[..n]), events[n], events[k].call.host);
    if k < n {
      assert events[..n][..k] == events[..k];
      LastStartCoversClaims(events[..n], k);
    }
  }

  /** Claims granted to different hosts start at least an hour apart, whatever happened to the
      earlier plan in between. */
  lemma ClaimsAreAnHourApart(events: seq<Event>, i: nat, j: nat)
    requires Clocked(events) && i < j < |events| && Granted(events, i) && Granted(events, j)
    requires events[i].call.host != events[j].call.host
    ensures events[j].now - events[i].now >= REBOOT_GAP
  {
    hide Apply, Claim, Claimable, Run;
    var before := events[..j];
    assert before[..i] == events[..i];
    LastStartCoversClaims(before, i);
    GrantedIsClaimable(Run(before), events[j].call.host, events[j].now);
    assert !Excludes(Read(Run(before), events[i].call.host), events[j].now);
  }
}
