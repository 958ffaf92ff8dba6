/** When observation releases an operation: the host step was reported complete, and since then
    every observation in a ten-minute window was good and close to the one before. */
module FleetRelease {
  import opened Wrappers
  import opened Policy
  import opened EnvironmentHealth
  import opened FleetSpec
  import opened FleetCoupling
  import opened FleetHistory

  function GateOf(s: Fleet): Option<HealthGate> { s.environment.gate }

  /** Event r completed the gated host step: for a reboot, the host reported itself healthy
      under another boot session than the one its running plan was made for; for an update,
      the agent reported that it was installed. */
  predicate CompletedBy(events: seq<Event>, r: nat, host: Host, execution: Id, kind: Kind)
    requires r < |events|
  {
    var s, call := Run(events[..r]), events[r].call;
    && GateOf(s).Some? && GateOf(s).value.executionId == execution && GateOf(s).value.host == host && GateOf(s).value.kind == kind
    && (kind.Reboot? ==>
          && call.CReport? && call.host == host && call.healthy
          && PlanOf(s, host).Some? && PlanOf(s, host).value.phase.Running?
          && PlanOf(s, host).value.executionId == Some(execution) && PlanOf(s, host).value.bootId != call.bootId)
    && (kind.Update? ==> call == CUpdateResult(host, execution, Complete))
  }

  /** Observation j found this execution's gate, no problem against the baseline, and a healthy
      report of the host at most 120 seconds old. */
  predicate GoodObservation(events: seq<Event>, j: nat, execution: Id)
    requires j < |events| && events[j].call.CObserve?
  {
    var s, now := Run(events[..j]), events[j].now;
    && GateOf(s).Some? && GateOf(s).value.executionId == execution
    && FreshlyHealthy(Read(s, GateOf(s).value.host), now)
    && Healthy(Some(events[j].call.inspection), now, Some(GateOf(s).value.baseline))
  }

  /** The clock of the latest observation. */
  function LastObservation(events: seq<Event>): Option<int> {
    if events == [] then None
    else if events[|events| - 1].call.CObserve? then Some(events[|events| - 1].now)
    else LastObservation(events[..|events| - 1])
  }

  /** From observation w on, every observation is good and at most 120 seconds after the one before. */
  predicate StableSince(events: seq<Event>, w: nat, execution: Id) {
    && w < |events| && events[w].call.CObserve?
    && forall j | w <= j < |events| && events[j].call.CObserve? :: StableAt(events, w, j, execution)
  }

  predicate StableAt(events: seq<Event>, w: nat, j: nat, execution: Id)
    requires w <= j < |events| && events[j].call.CObserve?
  {
    && GoodObservation(events, j, execution)
    && (j > w ==> LastObservation(events[..j]).Some? && events[j].now - LastObservation(events[..j]).value <= 120_000)
  }

  /** What the fields of the open gate mean in terms of the run so far. */
  predicate GateMeans(events: seq<Event>, gate: HealthGate) {
    !Latched(gate) ==>
      && (gate.lastObservationAt.Some? ==> gate.lastObservationAt == LastObservation(events))
      && (gate.stableSince.Some? ==> gate.completedAt.Some? && gate.lastObservationAt.Some?)
      && (gate.completedAt.Some? ==> exists r | 0 <= r < |events| :: Story(events, r, gate))
  }

  /** Event r completed the step, and the stability window recorded in the gate began after it. */
  predicate Story(events: seq<Event>, r: nat, gate: HealthGate)
    requires r < |events|
  {
    && CompletedBy(events, r, gate.host, gate.executionId, gate.kind)
    && (gate.stableSince.Some? ==> exists w | r < w < |events| :: WindowStarts(events, w, gate))
  }

  predicate WindowStarts(events: seq<Event>, w: nat, gate: HealthGate)
    requires w < |events|
  {
    StableSince(events, w, gate.executionId) && gate.stableSince == Some(events[w].now)
  }

  predicate Meaningful(events: seq<Event>) {
    GateOf(Run(events)).Some? ==> GateMeans(events, GateOf(Run(events)).value)
  }

  // ----- how a gate changes -----

  predicate IsCompletion(s: Fleet, event: Event, gate: HealthGate) {
    && (gate.kind.Reboot? ==>
          && event.call.CReport? && event.call.host == gate.host && event.call.healthy
          && PlanOf(s, gate.host).Some? && PlanOf(s, gate.host).value.phase.Running?
          && PlanOf(s, gate.host).value.executionId == Some(gate.executionId) && PlanOf(s, gate.host).value.bootId != event.call.bootId)
    && (gate.kind.Update? ==> event.call == CUpdateResult(gate.host, gate.executionId, Complete))
  }

  predicate GateChange(s: Fleet, event: Event, g': HealthGate) {
    if event.call.CObserve? then
      GateOf(s).Some? && var g := GateOf(s).value;
      g' == Observed(g, Checked(Read(s, g.host), event.call.inspection, event.now), event.now).0
    else
      || GateOf(s) == Some(g')
      || (g'.completedAt.None? && g'.stableSince.None? && g'.lastObservationAt.None? && !g'.held)
      || (GateOf(s).Some? && g' == GateOf(s).value.(held := true, holdCause := Some(Operation)))
      || (GateOf(s).Some? && g' == Completed(GateOf(s).value, event.now) && IsCompletion(s, event, GateOf(s).value))
  }

  lemma EveryGateChange(s: Fleet, event: Event)
    requires Coupled(s) && GateOf(Apply(s, event.call, event.now)).Some?
    ensures GateChange(s, event, GateOf(Apply(s, event.call, event.now)).value)
  {
    if event.call.CReport? { ReportGate(s, event); }
    else if event.call.CUpdateResult? || event.call.CRebootResult? || event.call.CRecover? { ResultGate(s, event); }
    else if event.call.CObserve? { ObserveGateChange(s, event); }
    else { OtherGate(s, event); }
  }

  lemma ReportGate(s: Fleet, event: Event)
    requires Coupled(s) && event.call.CReport? && GateOf(Apply(s, event.call, event.now)).Some?
    ensures GateChange(s, event, GateOf(Apply(s, event.call, event.now)).value)
  {
    ReportRow(s, event.call.host, event.call.bootId, event.call.required, event.call.healthy, event.now);
    hide Report;
    assert event.call.host in {DevApp, PveX570, PveB550m};
  }

  lemma ResultGate(s: Fleet, event: Event)
    requires Coupled(s) && GateOf(Apply(s, event.call, event.now)).Some?
    requires event.call.CUpdateResult? || event.call.CRebootResult? || event.call.CRecover?
    ensures GateChange(s, event, GateOf(Apply(s, event.call, event.now)).value)
  {
    if event.call.CUpdateResult? { UpdateResultGate(s, event); } else { RebootResultGate(s, event); }
  }

  lemma UpdateResultGate(s: Fleet, event: Event)
    requires Coupled(s) && GateOf(Apply(s, event.call, event.now)).Some? && event.call.CUpdateResult?
    ensures GateChange(s, event, GateOf(Apply(s, event.call, event.now)).value)
  {
  }

  lemma RebootResultGate(s: Fleet, event: Event)
    requires GateOf(Apply(s, event.call, event.now)).Some? && (event.call.CRebootResult? || event.call.CRecover?)
    ensures GateChange(s, event, GateOf(Apply(s, event.call, event.now)).value)
  {
    hide Healthy, FreshlyHealthy;
  }

  lemma ObserveGateChange(s: Fleet, event: Event)
    requires Coupled(s) && GateOf(Apply(s, event.call, event.now)).Some? && event.call.CObserve?
    ensures GateChange(s, event, GateOf(Apply(s, event.call, event.now)).value)
  {
    if GateOf(s).Some? {
      assert WithLegacyCause(s, GateOf(s).value) == GateOf(s).value;
      hide Observed, Checked, WithLegacyCause, Coupled;
    }
  }

  lemma OtherGate(s: Fleet, event: Event)
    requires GateOf(Apply(s, event.call, event.now)).Some?
    requires event.call.CClaim? || event.call.CClaimUpdate? || event.call.CTick? || event.call.CInteraction? || event.call.CNotified?
    ensures GateChange(s, event, GateOf(Apply(s, event.call, event.now)).value)
  {
  }

  // ----- the story of the open gate, event by event -----

  lemma CompletionInPrefix(events: seq<Event>, n: nat, r: nat, gate: HealthGate)
    requires r < n <= |events| && CompletedBy(events[..n], r, gate.host, gate.executionId, gate.kind)
    ensures CompletedBy(events, r, gate.host, gate.executionId, gate.kind)
  {
    hide Apply;
    assert events[..n][..r] == events[..r];
  }

  /** A stable window of all but the last event goes on when the last one is not an observation,
      or is a good one at most 120 seconds after the previous. */
  lemma WindowGoesOn(events: seq<Event>, w: nat, execution: Id)
    requires |events| > 0
    requires StableSince(events[..|events| - 1], w, execution)
    requires events[|events| - 1].call.CObserve? ==> StableAt(events, w, |events| - 1, execution)
    ensures StableSince(events, w, execution)
  {
    hide Apply;
    var n := |events| - 1;
    forall j | w <= j < n && events[j].call.CObserve? ensures StableAt(events, w, j, execution) {
      assert events[..n][..j] == events[..j];
      assert StableAt(events[..n], w, j, execution);
    }
  }

  lemma StoryGoesOn(events: seq<Event>, r: nat, gate: HealthGate)
    requires |events| > 0 && r < |events| - 1 && Story(events[..|events| - 1], r, gate)
    requires !events[|events| - 1].call.CObserve?
    ensures Story(events, r, gate)
  {
    hide Apply;
    var n := |events| - 1;
    CompletionInPrefix(events, n, r, gate);
    if gate.stableSince.Some? {
      var w :| r < w < n && WindowStarts(events[..n], w, gate);
      WindowGoesOn(events, w, gate.executionId);
      assert WindowStarts(events, w, gate);
    }
  }

  lemma StoryAfterObservation(events: seq<Event>, gate: HealthGate)
    requires |events| > 0 && events[|events| - 1].call.CObserve?
    requires var s := Run(events[..|events| - 1]); GateOf(s) == Some(gate)
    requires GateMeans(events[..|events| - 1], gate) && !Latched(gate)
    ensures var s, event := Run(events[..|events| - 1]), events[|events| - 1];
            var g' := Observed(gate, Checked(Read(s, gate.host), event.call.inspection, event.now), event.now).0;
            g'.completedAt.Some? ==> exists r | 0 <= r < |events| :: Story(events, r, g')
  {
    hide Apply;
    var n := |events| - 1;
    var s, event := Run(events[..n]), events[n];
    var checked := Checked(Read(s, gate.host), event.call.inspection, event.now);
    var g' := Observed(gate, checked, event.now).0;
    if g'.completedAt.Some? {
      var r :| 0 <= r < n && Story(events[..n], r, gate);
      CompletionInPrefix(events, n, r, gate);
      if g'.stableSince.Some? {
        ObservedStable(gate, checked, event.now);
        GoodMeans(gate, Read(s, gate.host), event.call.inspection, event.now);
        hide Observed, Checked, Good;
        assert GoodObservation(events, n, gate.executionId);
        WindowAfterObservation(events, r, gate, g');
      }
      hide GoodObservation, StableSince;
      assert Story(events, r, g');
    }
  }

  /** After a good observation the recorded window is the old one, gone on, or starts there. */
  lemma WindowAfterObservation(events: seq<Event>, r: nat, gate: HealthGate, g': HealthGate)
    requires |events| > 0 && events[|events| - 1].call.CObserve? && r < |events| - 1
    requires GoodObservation(events, |events| - 1, gate.executionId) && g'.executionId == gate.executionId
    requires Story(events[..|events| - 1], r, gate) && GateMeans(events[..|events| - 1], gate) && !Latched(gate)
    requires
      var now := events[|events| - 1].now;
      g'.stableSince == Some(now) ||
      (g'.stableSince == gate.stableSince && gate.stableSince.Some? && gate.lastObservationAt.Some? && now - gate.lastObservationAt.value <= HEALTH_FRESH)
    ensures exists w | r < w < |events| :: WindowStarts(events, w, g')
  {
    hide Apply, GoodObservation, CompletedBy;
    var n := |events| - 1;
    if g'.stableSince == Some(events[n].now) {
      assert StableAt(events, n, n, gate.executionId);
      assert WindowStarts(events, n, g');
    } else {
      var w :| r < w < n && WindowStarts(events[..n], w, gate);
      assert StableAt(events, w, n, gate.executionId);
      WindowGoesOn(events, w, gate.executionId);
      assert WindowStarts(events, w, g');
    }
  }

  /** A recorded stability start after an observation is the old one, uninterrupted, or now. */
  lemma ObservedStable(gate: HealthGate, inspection: Inspection, now: int)
    requires !Latched(gate) && gate.completedAt.Some? && (gate.stableSince.Some? ==> gate.lastObservationAt.Some?)
    ensures var g' := Observed(gate, inspection, now).0;
            g'.stableSince.Some? ==>
              && Good(gate, inspection, now)
              && (g'.stableSince == Some(now) || (g'.stableSince == gate.stableSince && now - gate.lastObservationAt.value <= HEALTH_FRESH))
  {
  }

  lemma GoodMeans(gate: HealthGate, st: RecordState, inspection: Inspection, now: int)
    requires Good(gate, Checked(st, inspection, now), now)
    ensures FreshlyHealthy(st, now) && Healthy(Some(inspection), now, Some(gate.baseline))
  {
  }

  /** The fields of an open gate always tell the truth about the run. */
  lemma {:induction false} EveryGateIsMeaningful(events: seq<Event>)
    ensures Meaningful(events)
  {
    if events != [] && GateOf(Run(events)).Some? {
      hide Apply, CompletedBy, StableAt;
      var n := |events| - 1;
      var s, event, g' := Run(events[..n]), events[n], GateOf(Run(events)).value;
      EveryGateIsMeaningful(events[..n]);
      EveryRunIsCoupled(events[..n]);
      EveryGateChange(s, event);
      if !Latched(g') {
        if event.call.CObserve? {
          UnlatchedBefore(GateOf(s).value, Checked(Read(s, GateOf(s).value.host), event.call.inspection, event.now), event.now);
          StoryAfterObservation(events, GateOf(s).value);
        } else if GateOf(s) == Some(g') {
          if g'.completedAt.Some? {
            var r :| 0 <= r < n && Story(events[..n], r, g');
            StoryGoesOn(events, r, g');
          }
        } else if GateOf(s).Some? && g'.completedAt.Some? {
          CompletionTellsTheStory(events, GateOf(s).value);
        }
      }
    }
  }

  lemma UnlatchedBefore(gate: HealthGate, inspection: Inspection, now: int)
    requires !Latched(Observed(gate, inspection, now).0)
    ensures !Latched(gate)
    ensures var g' := Observed(gate, inspection, now).0;
            g'.lastObservationAt == Some(now) && (g'.stableSince.Some? ==> g'.completedAt.Some? || gate.stableSince.Some?)
  {
  }

  lemma CompletionTellsTheStory(events: seq<Event>, gate: HealthGate)
    requires |events| > 0 && GateOf(Run(events[..|events| - 1])) == Some(gate) && gate.completedAt.None?
    requires IsCompletion(Run(events[..|events| - 1]), events[|events| - 1], gate)
    ensures Story(events, |events| - 1, Completed(gate, events[|events| - 1].now))
  {
  }

  /** Observation releases an execution only after that host step was completed by a healthy
      report of another boot session (or by the update's own result), and only at the end of a
      window of at least ten minutes in which every observation was good, had a healthy host
      report at most 120 seconds old, and came at most 120 seconds after the previous one. */
  lemma ReleaseNeedsCompletionAndStability(events: seq<Event>)
    requires |events| > 0 && events[|events| - 1].call.CObserve?
    requires GateOf(Run(events[..|events| - 1])).Some? && GateOf(Run(events)).None?
    ensures var gate, n := GateOf(Run(events[..|events| - 1])).value, |events| - 1;
            exists r, w | 0 <= r < w <= n :: ReleaseStory(events, r, w, gate)
  {
    hide Apply;
    var n := |events| - 1;
    var s, event := Run(events[..n]), events[n];
    var gate := GateOf(s).value;
    EveryGateIsMeaningful(events[..n]);
    EveryRunIsCoupled(events[..n]);
    ReleasedMeansPassed(s, event);
    var checked := Checked(Read(s, gate.host), event.call.inspection, event.now);
    StoryAfterObservation(events, gate);
    PassedMeansSpan(gate, checked, event.now);
    var g' := Observed(gate, checked, event.now).0;
    var r :| 0 <= r < |events| && Story(events, r, g');
    var w :| r < w < |events| && WindowStarts(events, w, g');
    assert ReleaseStory(events, r, w, gate);
  }

  predicate ReleaseStory(events: seq<Event>, r: nat, w: nat, gate: HealthGate)
    requires r < w < |events|
  {
    && CompletedBy(events, r, gate.host, gate.executionId, gate.kind)
    && StableSince(events, w, gate.executionId)
    && events[|events| - 1].now - events[w].now >= 600_000
  }

  lemma ReleasedMeansPassed(s: Fleet, event: Event)
    requires Coupled(s) && event.call.CObserve? && GateOf(s).Some? && GateOf(Apply(s, event.call, event.now)).None?
    ensures !Latched(GateOf(s).value)
    ensures Observed(GateOf(s).value, Checked(Read(s, GateOf(s).value.host), event.call.inspection, event.now), event.now).1.Passed?
  {
    assert WithLegacyCause(s, GateOf(s).value) == GateOf(s).value;
  }

  lemma PassedMeansSpan(gate: HealthGate, inspection: Inspection, now: int)
    requires Observed(gate, inspection, now).1.Passed?
    ensures var g' := Observed(gate, inspection, now).0;
            g'.completedAt.Some? && g'.stableSince.Some? && now - g'.stableSince.value >= HEALTH_STABLE
  {
  }

  // ----- holds for an operator -----

  predicate OnlyObservations(events: seq<Event>) { forall e | e in events :: e.call.CObserve? }

  function ApplyAll(s: Fleet, events: seq<Event>): Fleet {
    if events == [] then s
    else var n := |events| - 1; Apply(ApplyAll(s, events[..n]), events[n].call, events[n].now)
  }

  /** However long the environment stays healthy, no sequence of observations lifts the hold of
      a failed operation, releases its lock row or removes its plan. */
  lemma {:induction false} ObservationNeverLiftsAnOperationHold(s: Fleet, events: seq<Event>)
    requires Coupled(s) && GateOf(s).Some? && HeldForOperation(GateOf(s).value) && OnlyObservations(events)
    ensures var s' := ApplyAll(s, events);
            GateOf(s') == GateOf(s) && s'.lock == s.lock && s'.hosts == s.hosts
  {
    if events != [] {
      hide Apply, HeldForOperation;
      var n := |events| - 1;
      assert events[n] in events;
      ObservationNeverLiftsAnOperationHold(s, events[..n]);
      ObservationKeepsOperationHold(s, ApplyAll(s, events[..n]), events[n]);
    }
  }

  lemma ObservationKeepsOperationHold(s: Fleet, s': Fleet, event: Event)
    requires Coupled(s) && GateOf(s).Some? && HeldForOperation(GateOf(s).value) && event.call.CObserve?
    requires GateOf(s') == GateOf(s) && s'.lock == s.lock && s'.hosts == s.hosts
    ensures var t := Apply(s', event.call, event.now);
            GateOf(t) == GateOf(s) && t.lock == s.lock && t.hosts == s.hosts
  {
    var gate := GateOf(s).value;
    assert WithLegacyCause(s', gate) == gate;
    hide Observed, Checked, WithLegacyCause, Coupled;
  }
}
