/** What a granted claim rests on, told by the calls that were made: the last observation, the
    host's last report, and the rows of everybody. */
module FleetEnvironment {
  import opened Wrappers
  import opened Policy
  import opened EnvironmentHealth
  import opened FleetSpec
  import opened FleetCoupling
  import opened FleetHistory

  predicate IsLastObservation(events: seq<Event>, i: nat) {
    i < |events| && events[i].call.CObserve? && forall j | i < j < |events| :: !events[j].call.CObserve?
  }

  predicate IsLastReport(events: seq<Event>, host: Host, i: nat) {
    && i < |events| && events[i].call.CReport? && events[i].call.host == host
    && forall j | i < j < |events| :: !(events[j].call.CReport? && events[j].call.host == host)
  }

  lemma OnlyObservationsInspect(s: Fleet, event: Event)
    ensures Apply(s, event.call, event.now).environment.inspection ==
      if event.call.CObserve? then Some(event.call.inspection) else s.environment.inspection
  {
    hide Healthy, WithLegacyCause, Observed, Checked, AlignLegacySlot, CarryApprovedReboot, AfterSnapshot, Requested, Due;
  }

  lemma OnlyReportsShow(s: Fleet, event: Event, host: Host)
    ensures Read(Apply(s, event.call, event.now), host).snapshot ==
      if event.call.CReport? && event.call.host == host
      then Some(Snapshot(event.call.bootId, event.call.required, event.call.healthy, event.now)) else Read(s, host).snapshot
  {
    RowChange(s, event, host);
    hide Apply, Claimable;
  }

  /** The stored inspection is that of the last observation. */
  lemma {:induction false} StoredInspection(events: seq<Event>) returns (i: nat)
    requires Run(events).environment.inspection.Some?
    ensures IsLastObservation(events, i) && Run(events).environment.inspection == Some(events[i].call.inspection)
  {
    var n := |events| - 1;
    hide Apply;
    OnlyObservationsInspect(Run(events[..n]), events[n]);
    i := n;
    if !events[n].call.CObserve? { i := StoredInspection(events[..n]); }
  }

  /** The stored snapshot is that of the host's last report. */
  lemma {:induction false} StoredReport(events: seq<Event>, host: Host) returns (i: nat)
    requires Read(Run(events), host).snapshot.Some?
    ensures IsLastReport(events, host, i)
    ensures var call := events[i].call; Read(Run(events), host).snapshot == Some(Snapshot(call.bootId, call.required, call.healthy, events[i].now))
  {
    var n := |events| - 1;
    hide Apply;
    OnlyReportsShow(Run(events[..n]), events[n], host);
    i := n;
    if !(events[n].call.CReport? && events[n].call.host == host) { i := StoredReport(events[..n], host); }
  }

  lemma {:induction false} ObservedIsStored(events: seq<Event>, i: nat)
    requires IsLastObservation(events, i)
    ensures Run(events).environment.inspection == Some(events[i].call.inspection)
  {
    var n := |events| - 1;
    hide Apply;
    OnlyObservationsInspect(Run(events[..n]), events[n]);
    if i < n { ObservedIsStored(events[..n], i); }
  }

  lemma {:induction false} ReportedIsStored(events: seq<Event>, host: Host, i: nat)
    requires IsLastReport(events, host, i)
    ensures var call := events[i].call; Read(Run(events), host).snapshot == Some(Snapshot(call.bootId, call.required, call.healthy, events[i].now))
  {
    var n := |events| - 1;
    hide Apply;
    OnlyReportsShow(Run(events[..n]), events[n], host);
    if i < n { ReportedIsStored(events[..n], host, i); }
  }

  /** Two minutes old at most, readable, no critical alarm that may block, and every signal a
      number, taken within three minutes, and up. */
  predicate FindsNothing(inspection: Inspection, now: int) {
    && -30_000 <= now - inspection.at <= 120_000 && inspection.error.None?
    && (forall alarm | alarm in inspection.alarms && alarm.blocking :: !alarm.severity.Critical?)
    && forall signal | signal in inspection.signals :: IsGood(signal)
  }

  predicate LastFindsNothing(events: seq<Event>, now: int) {
    exists i | 0 <= i < |events| :: IsLastObservation(events, i) && FindsNothing(events[i].call.inspection, now)
  }

  /** Without a baseline an inspection is healthy exactly when it finds nothing. */
  lemma HealthyFindsNothing(inspection: Inspection, now: int)
    ensures Healthy(Some(inspection), now, None) <==> FindsNothing(inspection, now)
  {
    HealthyIff(inspection, now, None);
  }

  lemma ReadyIff(events: seq<Event>, now: int)
    ensures EnvironmentReady(Run(events), now) <==> Run(events).environment.gate.None? && LastFindsNothing(events, now)
  {
    hide Run;
    var stored := Run(events).environment.inspection;
    if stored.Some? {
      var i := StoredInspection(events);
      HealthyFindsNothing(stored.value, now);
      hide Healthy, FindsNothing;
      if LastFindsNothing(events, now) {
        var j :| 0 <= j < |events| && IsLastObservation(events, j) && FindsNothing(events[j].call.inspection, now);
        assert i == j;
      }
    } else if LastFindsNothing(events, now) {
      var j :| 0 <= j < |events| && IsLastObservation(events, j) && FindsNothing(events[j].call.inspection, now);
      ObservedIsStored(events, j);
    }
  }

  /** The host's last report: healthy, and at most this old. */
  predicate LastReportIsHealthy(events: seq<Event>, host: Host, now: int) {
    exists i | 0 <= i < |events| :: IsLastReport(events, host, i) && events[i].call.healthy && now - events[i].now <= 120_000
  }

  lemma FreshIff(events: seq<Event>, host: Host, now: int)
    ensures FreshlyHealthy(Read(Run(events), host), now) <==> LastReportIsHealthy(events, host, now)
  {
    hide Run;
    if Read(Run(events), host).snapshot.Some? {
      var i := StoredReport(events, host);
      if LastReportIsHealthy(events, host, now) {
        var j :| 0 <= j < |events| && IsLastReport(events, host, j) && events[j].call.healthy && now - events[j].now <= 120_000;
        assert i == j;
      }
    } else if LastReportIsHealthy(events, host, now) {
      var j :| 0 <= j < |events| && IsLastReport(events, host, j) && events[j].call.healthy && now - events[j].now <= 120_000;
      ReportedIsStored(events, host, j);
    }
  }

  predicate IsRunningOrFailed(plan: Option<Plan>) { plan.Some? && (plan.value.phase.Running? || plan.value.phase.Failed?) }

  lemma BusyIff(s: Fleet)
    ensures AnyBusy(s) <==> exists other :: IsRunningOrFailed(PlanOf(s, other))
  {
    assert forall host :: IsRunningOrFailed(PlanOf(s, host)) == BusyRecord(Read(s, host));
    assert AnyBusy(s) ==>
      IsRunningOrFailed(PlanOf(s, DevApp)) || IsRunningOrFailed(PlanOf(s, PveX570)) || IsRunningOrFailed(PlanOf(s, PveB550m));
    if other: Host :| IsRunningOrFailed(PlanOf(s, other)) {
      assert other.DevApp? || other.PveX570? || other.PveB550m?;
    }
  }

  lemma ExcludedIff(s: Fleet, host: Host, now: int)
    ensures OthersExclude(s, host, now) <==>
      exists other | other != host :: IsRunningOrFailed(PlanOf(s, other)) || StartedWithinTheHour(Read(s, other), now)
  {
    if other :| other != host && (IsRunningOrFailed(PlanOf(s, other)) || StartedWithinTheHour(Read(s, other), now)) {
      assert other in {DevApp, PveX570, PveB550m};
    }
  }

  /** In every run a package update is granted if and only if a PVE host asks whose last report is
      healthy and fresh, the last observation found nothing, no operation is under way and none is
      being watched. */
  lemma UpdateGrantedIff(events: seq<Event>, host: Host, now: int)
    ensures ClaimUpdate(Run(events), host, now).1.Some? <==>
      && host in {PveX570, PveB550m} && LastReportIsHealthy(events, host, now) && LastFindsNothing(events, now)
      && Run(events).environment.gate.None? && Run(events).lock.None?
      && forall other :: !IsRunningOrFailed(PlanOf(Run(events), other))
  {
    ReadyIff(events, now);
    FreshIff(events, host, now);
    hide Run, EnvironmentReady, FreshlyHealthy, LastReportIsHealthy, LastFindsNothing;
    BusyIff(Run(events));
  }

  /** The plan is approved, shown, and its time has come. */
  predicate IsDue(host: Host, plan: Plan, now: int) {
    && plan.phase.Scheduled? && plan.notifiedRevision == Some(plan.revision) && plan.target <= now
    && (if host == DevApp then now < plan.target + 300_000
        else plan.eveningWindow && JstDay(now) == JstDay(plan.target) && JstHour(plan.target) >= 20 && JstHour(now) >= 20)
  }

  /** The host's last report is fresh, healthy, of the plan's boot session, and asks for the reboot. */
  predicate LastReportAsks(events: seq<Event>, host: Host, plan: Plan, now: int) {
    exists i | 0 <= i < |events| ::
      && IsLastReport(events, host, i) && now - events[i].now < 120_000
      && events[i].call.healthy && events[i].call.required && events[i].call.bootId == plan.bootId
  }

  predicate StartedWithinTheHour(st: RecordState, now: int) {
    st.lastRebootStartedAt.Some? && now - st.lastRebootStartedAt.value < 3_600_000
  }

  lemma WindowIsTheDay(target: int, now: int)
    requires target <= now
    ensures now < RebootWindowEnd(PveX570, target) <==> JstDay(now) == JstDay(target)
    ensures RebootWindowEnd(PveB550m, target) == RebootWindowEnd(PveX570, target)
  {
    SplitTime(now);
    SplitTime(target);
    hide JstDay, JstHour, JstMinute;
  }

  lemma DueIff(events: seq<Event>, host: Host, now: int)
    ensures Due(host, Read(Run(events), host), now) <==>
      var plan := PlanOf(Run(events), host); plan.Some? && IsDue(host, plan.value, now) && LastReportAsks(events, host, plan.value, now)
  {
    hide Run;
    var st := Read(Run(events), host);
    if st.plan.Some? {
      if st.plan.value.target <= now { WindowIsTheDay(st.plan.value.target, now); }
      hide JstDay, JstHour;
      if st.snapshot.Some? {
        var i := StoredReport(events, host);
        if LastReportAsks(events, host, st.plan.value, now) {
          var j :| 0 <= j < |events| && IsLastReport(events, host, j);
          assert i == j;
        }
      } else if LastReportAsks(events, host, st.plan.value, now) {
        var j :| 0 <= j < |events| && IsLastReport(events, host, j);
        ReportedIsStored(events, host, j);
      }
    }
  }

  /** In every run a reboot is granted if and only if the host's plan is due, its last report asks
      for it, no package update is under way, no other host is at it or started within the hour,
      and, for a PVE host, the last observation found nothing and no operation is being watched. */
  lemma RebootGrantedIff(events: seq<Event>, host: Host, now: int)
    ensures Claim(Run(events), host, now).1.Some? <==>
      var s := Run(events); var plan := PlanOf(s, host);
      && plan.Some? && IsDue(host, plan.value, now) && LastReportAsks(events, host, plan.value, now)
      && s.lock.None?
      && (forall other | other != host :: !IsRunningOrFailed(PlanOf(s, other)) && !StartedWithinTheHour(Read(s, other), now))
      && (host != DevApp ==> s.environment.gate.None? && LastFindsNothing(events, now))
  {
    ReadyIff(events, now);
    DueIff(events, host, now);
    hide Run, EnvironmentReady, Due, IsDue, LastReportAsks, LastFindsNothing;
    ExcludedIff(Run(events), host, now);
  }
}
