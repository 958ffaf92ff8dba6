/** Comparison of a monitoring inspection with the baseline taken before a host operation,
    and the gate that stays closed until the environment has been stable for ten minutes. */
module EnvironmentHealth {
  import opened Wrappers
  import opened Policy

  const HEALTH_STABLE := 10 * MINUTE
  const HEALTH_TIMEOUT := 60 * MINUTE
  const HEALTH_FRESH := 120 * SECOND

  datatype Severity = Critical | Warn | Info
  datatype AlarmState = Pending | Firing
  datatype Alarm = Alarm(key: string, severity: Severity, state: AlarmState, blocking: bool)
  datatype Number = Finite(value: real) | NotFinite
  datatype SignalKind = Scrape | Probe | Functional
  datatype Signal = Signal(key: string, kind: SignalKind, value: Number, age: Number)
  datatype Inspection = Inspection(at: int, error: Option<string>, alarms: seq<Alarm>, signals: seq<Signal>, rules: seq<string>)

  datatype Problem =
    | StaleInspection
    | ObserverError(message: string)
    | BlockingAlarm(alarm: Alarm)
    | BadValue(signal: Signal)
    | StaleSignal(signal: Signal)
    | ScrapeDown(signal: Signal)
    | MissingSignal(before: Signal)
    | MissingRule

  // ----- what counts as a problem -----

  /** The entry a later duplicate would overwrite: the last one with the key. */
  function LastAlarm(alarms: seq<Alarm>, key: string): Option<Alarm> {
    if alarms == [] then None
    else if alarms[|alarms| - 1].key == key then Some(alarms[|alarms| - 1])
    else LastAlarm(alarms[..|alarms| - 1], key)
  }

  function LastSignal(signals: seq<Signal>, key: string): Option<Signal> {
    if signals == [] then None
    else if signals[|signals| - 1].key == key then Some(signals[|signals| - 1])
    else LastSignal(signals[..|signals| - 1], key)
  }

  predicate Available(inspection: Option<Inspection>, now: int) {
    inspection.Some? && now - inspection.value.at <= HEALTH_FRESH && inspection.value.at <= now + 30 * SECOND
  }

  /** A critical alarm always blocks; a firing warning blocks when the baseline did not have
      it, or had it only pending. */
  predicate AlarmBlocks(alarm: Alarm, baseline: Option<Inspection>) {
    && alarm.blocking
    && (alarm.severity.Critical? ||
        (baseline.Some? && alarm.severity.Warn? && alarm.state.Firing? &&
         var previous := LastAlarm(baseline.value.alarms, alarm.key);
         previous.None? || previous.value.state.Pending?))
  }

  predicate IsStale(signal: Signal) {
    signal.age.NotFinite? || signal.age.value > 180.0 || signal.age.value < -30.0
  }

  predicate IsDown(signal: Signal) { signal.kind.Scrape? && signal.value != Finite(1.0) }

  /** A signal of the baseline has disappeared, or was good and is no longer. */
  predicate IsLost(before: Signal, signals: seq<Signal>) {
    var now := LastSignal(signals, before.key);
    now.None? || (before.value == Finite(1.0) && now.value.value != Finite(1.0))
  }

  predicate RuleLost(baseline: Inspection, inspection: Inspection) {
    exists uid | uid in baseline.rules :: uid !in inspection.rules
  }

  predicate SignalOk(signal: Signal) {
    signal.value.Finite? && !IsStale(signal) && !IsDown(signal)
  }

  /** No problem at all: recent, readable, no blocking alarm, every signal good and nothing
      lost against the baseline. */
  predicate Healthy(inspection: Option<Inspection>, now: int, baseline: Option<Inspection>) {
    && Available(inspection, now)
    && inspection.value.error.None?
    && (forall alarm | alarm in inspection.value.alarms :: !AlarmBlocks(alarm, baseline))
    && (forall signal | signal in inspection.value.signals :: SignalOk(signal))
    && (baseline.Some? ==>
          && (forall before | before in baseline.value.signals :: !IsLost(before, inspection.value.signals))
          && !RuleLost(baseline.value, inspection.value))
  }

  /** The last entry with a key counts. */
  lemma {:induction false} LastAlarmIsLast(alarms: seq<Alarm>, key: string)
    ensures match LastAlarm(alarms, key)
      case None => forall alarm | alarm in alarms :: alarm.key != key
      case Some(alarm) => exists i | 0 <= i < |alarms| :: alarms[i] == alarm && alarm.key == key && forall j | i < j < |alarms| :: alarms[j].key != key
  {
    if alarms != [] && alarms[|alarms| - 1].key != key {
      var before := alarms[..|alarms| - 1];
      LastAlarmIsLast(before, key);
      assert alarms == before + [alarms[|alarms| - 1]];
      if LastAlarm(before, key).Some? {
        var i :| 0 <= i < |before| && before[i] == LastAlarm(before, key).value && forall j | i < j < |before| :: before[j].key != key;
        assert alarms[i] == before[i];
      }
    }
  }

  lemma {:induction false} LastSignalIsLast(signals: seq<Signal>, key: string)
    ensures match LastSignal(signals, key)
      case None => forall signal | signal in signals :: signal.key != key
      case Some(signal) => exists i | 0 <= i < |signals| :: signals[i] == signal && signal.key == key && forall j | i < j < |signals| :: signals[j].key != key
  {
    if signals != [] && signals[|signals| - 1].key != key {
      var before := signals[..|signals| - 1];
      LastSignalIsLast(before, key);
      assert signals == before + [signals[|signals| - 1]];
      if LastSignal(before, key).Some? {
        var i :| 0 <= i < |before| && before[i] == LastSignal(before, key).value && forall j | i < j < |before| :: before[j].key != key;
        assert signals[i] == before[i];
      }
    }
  }

  /** A signal that is a number, taken within three minutes, and, for a scrape, up. */
  predicate IsGood(signal: Signal) {
    && signal.value.Finite? && signal.age.Finite? && -30.0 <= signal.age.value <= 180.0
    && (signal.kind.Scrape? ==> signal.value == Finite(1.0))
  }

  /** An alarm is known when the baseline's last entry for it was firing. */
  predicate WasFiring(baseline: Inspection, alarm: Alarm) {
    exists i | 0 <= i < |baseline.alarms| ::
      && baseline.alarms[i].key == alarm.key && baseline.alarms[i].state.Firing?
      && forall j | i < j < |baseline.alarms| :: baseline.alarms[j].key != alarm.key
  }

  /** A signal still stands when its last value is there, and still 1 if it was. */
  predicate StillStands(before: Signal, signals: seq<Signal>) {
    exists i | 0 <= i < |signals| ::
      && signals[i].key == before.key && (forall j | i < j < |signals| :: signals[j].key != before.key)
      && (before.value == Finite(1.0) ==> signals[i].value == Finite(1.0))
  }

  /** An inspection is healthy if and only if it is two minutes old at most and readable, no alarm that
      may block is critical or, against the baseline, a warning that newly fires, every signal is good,
      and, against the baseline, no signal is lost and no rule missing. */
  lemma HealthyIff(inspection: Inspection, now: int, baseline: Option<Inspection>)
    ensures Healthy(Some(inspection), now, baseline) <==>
      && -30_000 <= now - inspection.at <= 120_000 && inspection.error.None?
      && (forall alarm | alarm in inspection.alarms && alarm.blocking ::
            !alarm.severity.Critical? && (baseline.Some? && alarm.severity.Warn? && alarm.state.Firing? ==> WasFiring(baseline.value, alarm)))
      && (forall signal | signal in inspection.signals :: IsGood(signal))
      && (baseline.Some? ==>
            && (forall before | before in baseline.value.signals :: StillStands(before, inspection.signals))
            && forall rule | rule in baseline.value.rules :: rule in inspection.rules)
  {
    assert forall signal | signal in inspection.signals :: SignalOk(signal) <==> IsGood(signal);
    forall alarm | alarm in inspection.alarms
      ensures AlarmBlocks(alarm, baseline) <==>
        (alarm.blocking &&
         (alarm.severity.Critical? || (baseline.Some? && alarm.severity.Warn? && alarm.state.Firing? && !WasFiring(baseline.value, alarm))))
    {
      if baseline.Some? { KnownIff(baseline.value, alarm); }
    }
    if baseline.Some? {
      forall before | before in baseline.value.signals ensures IsLost(before, inspection.signals) <==> !StillStands(before, inspection.signals) {
        StandsIff(before, inspection.signals);
      }
    }
    hide AlarmBlocks, SignalOk, IsGood, IsLost, StillStands, WasFiring;
  }

  lemma KnownIff(baseline: Inspection, alarm: Alarm)
    ensures WasFiring(baseline, alarm) <==> LastAlarm(baseline.alarms, alarm.key).Some? && LastAlarm(baseline.alarms, alarm.key).value.state.Firing?
  {
    LastAlarmIsLast(baseline.alarms, alarm.key);
    hide LastAlarm;
    if WasFiring(baseline, alarm) {
      var i :| 0 <= i < |baseline.alarms| && baseline.alarms[i].key == alarm.key && baseline.alarms[i].state.Firing?
        && forall j | i < j < |baseline.alarms| :: baseline.alarms[j].key != alarm.key;
      assert baseline.alarms[i] in baseline.alarms;
    }
  }

  lemma StandsIff(before: Signal, signals: seq<Signal>)
    ensures StillStands(before, signals) <==> !IsLost(before, signals)
  {
    LastSignalIsLast(signals, before.key);
    hide LastSignal;
    if StillStands(before, signals) {
      var i :| 0 <= i < |signals| && signals[i].key == before.key && (forall j | i < j < |signals| :: signals[j].key != before.key)
        && (before.value == Finite(1.0) ==> signals[i].value == Finite(1.0));
      assert signals[i] in signals;
    }
  }

  /** When the inspection is usable, the reported problems are exactly these. */
  predicate Reported(p: Problem, inspection: Inspection, baseline: Option<Inspection>) {
    match p
    case StaleInspection => false
    case ObserverError(_) => false
    case BlockingAlarm(alarm) => alarm in inspection.alarms && AlarmBlocks(alarm, baseline)
    case BadValue(signal) => signal in inspection.signals && signal.value.NotFinite?
    case StaleSignal(signal) => signal in inspection.signals && IsStale(signal)
    case ScrapeDown(signal) => signal in inspection.signals && IsDown(signal)
    case MissingSignal(before) => baseline.Some? && before in baseline.value.signals && IsLost(before, inspection.signals)
    case MissingRule => baseline.Some? && RuleLost(baseline.value, inspection)
  }

  function SignalProblems(signal: Signal): (ps: seq<Problem>)
    ensures ps == [] <==> SignalOk(signal)
    ensures forall p :: p in ps <==>
      || (p == BadValue(signal) && signal.value.NotFinite?)
      || (p == StaleSignal(signal) && IsStale(signal))
      || (p == ScrapeDown(signal) && IsDown(signal))
  {
    (if signal.value.NotFinite? then [BadValue(signal)] else []) +
    (if IsStale(signal) then [StaleSignal(signal)] else []) +
    (if IsDown(signal) then [ScrapeDown(signal)] else [])
  }

  predicate IsSignalProblem(p: Problem, signals: seq<Signal>) {
    (p.BadValue? || p.StaleSignal? || p.ScrapeDown?) && p.signal in signals && p in SignalProblems(p.signal)
  }

  method AlarmProblems(alarms: seq<Alarm>, baseline: Option<Inspection>) returns (problems: seq<Problem>)
    ensures forall p :: p in problems <==> (p.BlockingAlarm? && p.alarm in alarms && AlarmBlocks(p.alarm, baseline))
  {
    problems := [];
    for i := 0 to |alarms|
      invariant forall p :: p in problems <==> (p.BlockingAlarm? && p.alarm in alarms[..i] && AlarmBlocks(p.alarm, baseline))
    {
      if AlarmBlocks(alarms[i], baseline) { problems := problems + [BlockingAlarm(alarms[i])]; }
    }
  }

  method CurrentSignalProblems(signals: seq<Signal>) returns (problems: seq<Problem>)
    ensures forall p :: p in problems <==> IsSignalProblem(p, signals)
  {
    problems := [];
    for i := 0 to |signals|
      invariant forall p :: p in problems <==> IsSignalProblem(p, signals[..i])
    {
      problems := problems + SignalProblems(signals[i]);
    }
  }

  method LostSignals(known: seq<Signal>, current: seq<Signal>) returns (problems: seq<Problem>)
    ensures forall p :: p in problems <==> (p.MissingSignal? && p.before in known && IsLost(p.before, current))
  {
    problems := [];
    for i := 0 to |known|
      invariant forall p :: p in problems <==> (p.MissingSignal? && p.before in known[..i] && IsLost(p.before, current))
    {
      if IsLost(known[i], current) { problems := problems + [MissingSignal(known[i])]; }
    }
  }

  method HealthProblems(inspection: Option<Inspection>, now: int, baseline: Option<Inspection>) returns (problems: seq<Problem>)
    ensures problems == [] <==> Healthy(inspection, now, baseline)
    ensures Available(inspection, now) && inspection.value.error.None? ==>
              forall p :: p in problems <==> Reported(p, inspection.value, baseline)
  {
    if !Available(inspection, now) { return [StaleInspection]; }
    var current := inspection.value;
    if current.error.Some? { return [ObserverError(current.error.value)]; }
    problems := AlarmProblems(current.alarms, baseline);
    var more := CurrentSignalProblems(current.signals);
    problems := problems + more;
    if baseline.Some? {
      more := LostSignals(baseline.value.signals, current.signals);
      problems := problems + more;
      if RuleLost(baseline.value, current) { problems := problems + [MissingRule]; }
    }
    NothingReportedIsHealthy(current, now, baseline, problems);
  }

  lemma NothingReportedIsHealthy(inspection: Inspection, now: int, baseline: Option<Inspection>, problems: seq<Problem>)
    requires Available(Some(inspection), now) && inspection.error.None?
    requires forall p :: p in problems <==> Reported(p, inspection, baseline)
    ensures problems == [] <==> Healthy(Some(inspection), now, baseline)
  {
    if problems == [] {
      forall alarm | alarm in inspection.alarms ensures !AlarmBlocks(alarm, baseline) {
        assert BlockingAlarm(alarm) !in problems;
      }
      forall signal | signal in inspection.signals ensures SignalOk(signal) {
        assert BadValue(signal) !in problems && StaleSignal(signal) !in problems && ScrapeDown(signal) !in problems;
      }
      if baseline.Some? {
        forall before | before in baseline.value.signals ensures !IsLost(before, inspection.signals) {
          assert MissingSignal(before) !in problems;
        }
        assert MissingRule !in problems;
      }
    } else {
      assert problems[0] in problems;
    }
  }

  // ----- the gate -----

  datatype Kind = Update | Reboot
  datatype HoldCause = Timeout | Operation
  datatype Verdict = Waiting | Passed | OnHold

  datatype HealthGate = HealthGate(
    host: Host,
    executionId: Id,
    kind: Kind,
    startedAt: int,
    baseline: Inspection,
    completedAt: Option<int>,
    stableSince: Option<int>,
    lastObservationAt: Option<int>,
    held: bool,
    holdCause: Option<HoldCause>)

  function NewGate(host: Host, executionId: Id, kind: Kind, now: int, baseline: Inspection): HealthGate {
    HealthGate(host, executionId, kind, now, baseline, None, None, None, false, None)
  }

  predicate HeldForOperation(gate: HealthGate) { gate.held && gate.holdCause == Some(Operation) }

  /** A hold that only an operator lifts. */
  predicate Latched(gate: HealthGate) { gate.held && gate.holdCause != Some(Timeout) }

  predicate Good(gate: HealthGate, inspection: Inspection, now: int) {
    Healthy(Some(inspection), now, Some(gate.baseline))
  }

  /** The gate and the verdict after one observation. */
  function Observed(gate: HealthGate, inspection: Inspection, now: int): (r: (HealthGate, Verdict))
    ensures r.1.Passed? ==> r.0.completedAt.Some? && !Latched(gate)
    ensures r.0 == gate.(stableSince := r.0.stableSince, lastObservationAt := r.0.lastObservationAt, held := r.0.held, holdCause := r.0.holdCause)
    ensures HeldForOperation(gate) ==> r == (gate, OnHold)
    ensures !gate.held ==> (r.0.held ==> r.0.holdCause.Some?)
  {
    if Latched(gate) then (gate, OnHold) else
    var good := Good(gate, inspection, now);
    var interrupted := !good || (gate.lastObservationAt.Some? && now - gate.lastObservationAt.value > HEALTH_FRESH);
    var g := gate.(stableSince := if interrupted then None else gate.stableSince, lastObservationAt := Some(now));
    if g.completedAt.None? then
      if now - g.startedAt >= HEALTH_TIMEOUT then (g.(held := true, holdCause := Some(Operation)), OnHold)
      else (g, Waiting)
    else
      var s := if good && g.stableSince.None? then g.(stableSince := Some(now)) else g;
      if good && now - s.stableSince.value >= HEALTH_STABLE then (s, Passed)
      else if now - s.completedAt.value >= HEALTH_TIMEOUT then (s.(held := true, holdCause := Some(Timeout)), OnHold)
      else (s, Waiting)
  }

  /** The observer itself, changing its gate field by field. */
  method ObserveGate(start: HealthGate, inspection: Inspection, now: int) returns (gate: HealthGate, verdict: Verdict)
    ensures (gate, verdict) == Observed(start, inspection, now)
  {
    gate := start;
    if gate.held && gate.holdCause != Some(Timeout) { return gate, OnHold; }
    var problems := HealthProblems(Some(inspection), now, Some(gate.baseline));
    if problems != [] || (gate.lastObservationAt.Some? && now - gate.lastObservationAt.value > HEALTH_FRESH) {
      gate := gate.(stableSince := None);
    }
    gate := gate.(lastObservationAt := Some(now));
    if gate.completedAt.None? {
      if now - gate.startedAt >= HEALTH_TIMEOUT {
        gate := gate.(held := true, holdCause := Some(Operation));
        return gate, OnHold;
      }
      return gate, Waiting;
    }
    if problems == [] {
      if gate.stableSince.None? { gate := gate.(stableSince := Some(now)); }
      if now - gate.stableSince.value >= HEALTH_STABLE { return gate, Passed; }
    }
    if now - gate.completedAt.value >= HEALTH_TIMEOUT {
      gate := gate.(held := true, holdCause := Some(Timeout));
      return gate, OnHold;
    }
    return gate, Waiting;
  }

  /** The host step is done: the stability window starts over. Later reports change nothing. */
  function Completed(gate: HealthGate, now: int): HealthGate {
    if gate.completedAt.Some? then gate else gate.(completedAt := Some(now), stableSince := None)
  }

  // ----- the incremental window against its declarative meaning -----

  datatype Observation = Observation(inspection: Inspection, now: int)

  function ObserveAll(gate: HealthGate, obs: seq<Observation>): HealthGate {
    if obs == [] then gate
    else var n := |obs| - 1; Observed(ObserveAll(gate, obs[..n]), obs[n].inspection, obs[n].now).0
  }

  predicate GoodAt(gate: HealthGate, o: Observation) { Good(gate, o.inspection, o.now) }

  /** From observation i on, every observation is problem-free and follows its predecessor
      within 120 seconds. */
  predicate StableFrom(gate: HealthGate, obs: seq<Observation>, i: nat) {
    && i < |obs|
    && (forall j | i <= j < |obs| :: GoodAt(gate, obs[j]))
    && (forall j | i < j < |obs| :: obs[j].now - obs[j - 1].now <= 120_000)
  }

  predicate Ordered(obs: seq<Observation>) {
    forall i, j | 0 <= i < j < |obs| :: obs[i].now <= obs[j].now
  }

  /** One more observation keeps a stable suffix that it does not interrupt. */
  lemma StableGrows(gate: HealthGate, obs: seq<Observation>, k: nat)
    requires k < |obs| - 1
    ensures
      var n := |obs| - 1;
      StableFrom(gate, obs, k) <==>
        StableFrom(gate, obs[..n], k) && GoodAt(gate, obs[n]) && obs[n].now - obs[n - 1].now <= HEALTH_FRESH
  {
    hide GoodAt;
    var n := |obs| - 1;
    var before := obs[..n];
    if StableFrom(gate, obs, k) {
      forall j | k <= j < n ensures GoodAt(gate, before[j]) { assert GoodAt(gate, obs[j]); }
      forall j | k < j < n ensures before[j].now - before[j - 1].now <= HEALTH_FRESH { assert obs[j].now - obs[j - 1].now <= HEALTH_FRESH; }
    }
    if StableFrom(gate, before, k) && GoodAt(gate, obs[n]) && obs[n].now - obs[n - 1].now <= HEALTH_FRESH {
      forall j | k <= j < |obs| ensures GoodAt(gate, obs[j]) { if j < n { assert GoodAt(gate, before[j]); } }
      forall j | k < j < |obs| ensures obs[j].now - obs[j - 1].now <= HEALTH_FRESH {
        if j < n { assert before[j].now - before[j - 1].now <= HEALTH_FRESH; }
      }
    }
  }

  lemma StableStartGrows(gate: HealthGate, shorter: seq<Observation>, obs: seq<Observation>, before: nat, start: nat)
    requires obs != [] && shorter == obs[..|obs| - 1]
    requires forall k: nat :: StableFrom(gate, shorter, k) <==> before <= k < |shorter|
    requires before <= |obs| - 1
    requires start == StartAfter(gate, obs, before)
    ensures forall k: nat :: StableFrom(gate, obs, k) <==> start <= k < |obs|
  {
    hide GoodAt;
    var n := |obs| - 1;
    forall k: nat ensures StableFrom(gate, obs, k) <==> start <= k < |obs| {
      if k < n { StableGrows(gate, obs, k); }
    }
  }

  /** Where the longest stable suffix starts after the last observation, given where it started before. */
  function StartAfter(gate: HealthGate, obs: seq<Observation>, before: nat): nat
    requires obs != []
  {
    var n := |obs| - 1;
    if !GoodAt(gate, obs[n]) then n + 1
    else if n > 0 && obs[n].now - obs[n - 1].now > HEALTH_FRESH then n
    else before
  }

  /** Where the longest stable suffix starts; the length when there is none. */
  function StableStart(gate: HealthGate, obs: seq<Observation>): (i: nat)
    ensures i <= |obs|
    ensures forall k: nat :: StableFrom(gate, obs, k) <==> i <= k < |obs|
  {
    if obs == [] then 0 else
    var shorter := obs[..|obs| - 1];
    var before := StableStart(gate, shorter);
    StableStartGrows(gate, shorter, obs, before, StartAfter(gate, obs, before));
    StartAfter(gate, obs, before)
  }

  lemma {:induction false} BaselineIsFixed(gate: HealthGate, obs: seq<Observation>)
    ensures ObserveAll(gate, obs).baseline == gate.baseline
    ensures ObserveAll(gate, obs).completedAt == gate.completedAt
    ensures ObserveAll(gate, obs).startedAt == gate.startedAt
  {
    if obs != [] { BaselineIsFixed(gate, obs[..|obs| - 1]); }
  }

  /** After completion the two fields of the incremental window are the start of the longest
      stable suffix and the time of the last observation, and no hold but a timeout occurs. */
  lemma {:induction false} WindowFields(gate: HealthGate, obs: seq<Observation>)
    requires gate.completedAt.Some? && gate.stableSince.None? && !Latched(gate)
    ensures var g, i := ObserveAll(gate, obs), StableStart(gate, obs);
            && !Latched(g)
            && g.stableSince == (if i < |obs| then Some(obs[i].now) else None)
            && (obs != [] ==> g.lastObservationAt == Some(obs[|obs| - 1].now))
  {
    BaselineIsFixed(gate, obs);
    if obs != [] {
      var n := |obs| - 1;
      WindowFields(gate, obs[..n]);
      BaselineIsFixed(gate, obs[..n]);
    }
  }

  /** Before completion an observation either leaves the gate open or, an hour after the
      start, latches it for an operator. */
  lemma {:induction false} BeforeCompletion(gate: HealthGate, obs: seq<Observation>)
    requires gate.completedAt.None? && !gate.held
    ensures Latched(ObserveAll(gate, obs)) <==> exists k :: 0 <= k < |obs| && obs[k].now - gate.startedAt >= 3_600_000
    ensures !Latched(ObserveAll(gate, obs)) ==> !ObserveAll(gate, obs).held
  {
    BaselineIsFixed(gate, obs);
    if obs != [] {
      var n := |obs| - 1;
      BeforeCompletion(gate, obs[..n]);
      BaselineIsFixed(gate, obs[..n]);
      if exists k :: 0 <= k < |obs| && obs[k].now - gate.startedAt >= HEALTH_TIMEOUT {
        var k :| 0 <= k < |obs| && obs[k].now - gate.startedAt >= HEALTH_TIMEOUT;
        assert k < n ==> obs[..n][k].now - gate.startedAt >= HEALTH_TIMEOUT;
      }
    }
  }

  /** No observation passes a gate whose host step has not completed. */
  lemma NeverPassedBeforeCompletion(gate: HealthGate, obs: seq<Observation>, last: Observation)
    requires gate.completedAt.None? && !gate.held
    ensures !Observed(ObserveAll(gate, obs), last.inspection, last.now).1.Passed?
  {
    BaselineIsFixed(gate, obs);
  }

  /** The gate refines the declarative window: an observation passes it exactly when the host
      step completed, no observation before completion came an hour or more after the start,
      and some stable suffix of the observations after completion spans ten minutes. Timeout
      holds in between make no difference. */
  lemma PassedIffStableWindow(gate: HealthGate, before: seq<Observation>, completedAt: int, after: seq<Observation>)
    requires gate.completedAt.None? && gate.stableSince.None? && !gate.held
    requires after != [] && Ordered(after)
    ensures
      var n := |after| - 1;
      var g := ObserveAll(Completed(ObserveAll(gate, before), completedAt), after[..n]);
      Observed(g, after[n].inspection, after[n].now).1.Passed? <==>
        && (forall k | 0 <= k < |before| :: before[k].now - gate.startedAt < 3_600_000)
        && (exists i: nat :: StableFrom(gate, after, i) && after[n].now - after[i].now >= 600_000)
  {
    var mid := ObserveAll(gate, before);
    var start := Completed(mid, completedAt);
    BeforeCompletion(gate, before);
    BaselineIsFixed(gate, before);
    SameBaseline(gate, start, after);
    LongestIsBest(start, after);
    if Latched(mid) {
      LatchedStays(start, after[..|after| - 1]);
    } else {
      PassedIffLongestSpans(start, after);
    }
  }

  /** The longest stable suffix spans ten minutes. */
  predicate LongestSpans(gate: HealthGate, obs: seq<Observation>)
    requires obs != []
  {
    var i := StableStart(gate, obs);
    i < |obs| && obs[|obs| - 1].now - obs[i].now >= HEALTH_STABLE
  }

  lemma LongestIsBest(gate: HealthGate, obs: seq<Observation>)
    requires obs != [] && Ordered(obs)
    ensures LongestSpans(gate, obs) <==>
            exists k: nat :: StableFrom(gate, obs, k) && obs[|obs| - 1].now - obs[k].now >= 600_000
  {
    var i := StableStart(gate, obs);
    if LongestSpans(gate, obs) { assert StableFrom(gate, obs, i); }
  }

  lemma PassedIffLongestSpans(gate: HealthGate, obs: seq<Observation>)
    requires gate.completedAt.Some? && gate.stableSince.None? && !Latched(gate) && obs != []
    ensures var n := |obs| - 1;
            Observed(ObserveAll(gate, obs[..n]), obs[n].inspection, obs[n].now).1.Passed? <==> LongestSpans(gate, obs)
  {
    var n := |obs| - 1;
    BaselineIsFixed(gate, obs[..n]);
    WindowFields(gate, obs[..n]);
    WindowFields(gate, obs);
  }

  lemma SameBaseline(a: HealthGate, b: HealthGate, obs: seq<Observation>)
    requires a.baseline == b.baseline
    ensures forall i: nat :: StableFrom(a, obs, i) <==> StableFrom(b, obs, i)
  {
    assert forall o: Observation :: GoodAt(a, o) == GoodAt(b, o);
  }

  /** No sequence of observations lifts a hold that is not a timeout. */
  lemma {:induction false} LatchedStays(gate: HealthGate, obs: seq<Observation>)
    requires Latched(gate)
    ensures ObserveAll(gate, obs) == gate
  {
    if obs != [] { LatchedStays(gate, obs[..|obs| - 1]); }
  }
}
