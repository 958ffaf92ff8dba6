/** Hosts, plans and the Japan-time arithmetic of the reboot policy.
    Instants are integer milliseconds since 1970-01-01T00:00Z; Japan time is a fixed +9h. */
module Policy {
  import opened Wrappers

  datatype Host = DevApp | PveX570 | PveB550m

  const HOSTS: seq<Host> := [DevApp, PveX570, PveB550m]

  predicate IsPve(host: Host) { !host.DevApp? }

  const SECOND := 1_000
  const MINUTE := 60_000
  const HOUR := 3_600_000
  const DAY := 86_400_000
  const REBOOT_GAP := HOUR
  const LEAD_TIME := 10 * MINUTE

  type Id = nat

  datatype Snapshot = Snapshot(bootId: Id, required: bool, healthy: bool, observedAt: int)

  datatype Phase = Scheduled | Approval | Held | Running | Failed

  datatype Plan = Plan(
    revision: Id,
    target: int,
    phase: Phase,
    notifiedRevision: Option<Id>,
    bootId: Id,
    executionId: Option<Id>,
    eveningWindow: bool)

  datatype RecordState = RecordState(
    snapshot: Option<Snapshot>,
    plan: Option<Plan>,
    lastRebootStartedAt: Option<int>)

  const NO_RECORD := RecordState(None, None, None)

  /** Running or failed: the phases in which a plan holds the whole fleet. */
  predicate Busy(plan: Plan) { plan.phase.Running? || plan.phase.Failed? }

  predicate BusyRecord(st: RecordState) { st.plan.Some? && Busy(st.plan.value) }

  function JstDay(t: int): int { (t + 9 * HOUR) / DAY }

  function JstHour(t: int): int { (t + 9 * HOUR) % DAY / HOUR }

  function JstMinute(t: int): int { (t + 9 * HOUR) % HOUR / MINUTE }

  /** The instant at which the given Japan-time hour of a day starts. */
  function JstAt(day: int, hour: int): int { day * DAY + hour * HOUR - 9 * HOUR }

  // ----- day, hour and minute by quotient and remainder -----

  lemma Remainder(q: int, r: int, n: int)
    requires n in {MINUTE, HOUR, DAY} && 0 <= r < n
    ensures (n * q + r) / n == q && (n * q + r) % n == r
  {
    if n == MINUTE {} else if n == HOUR {} else {}
  }

  lemma HourOfDay(x: int)
    ensures x == x / DAY * DAY + x % DAY / HOUR * HOUR + x % HOUR
    ensures 0 <= x % DAY / HOUR <= 23
  {
    var q, r := x / DAY, x % DAY;
    assert x == HOUR * (24 * q) + r;
    assert r == HOUR * (r / HOUR) + r % HOUR;
    assert x == HOUR * (24 * q + r / HOUR) + r % HOUR;
    Remainder(24 * q + r / HOUR, r % HOUR, HOUR);
  }

  /** An instant is its Japan-time day, hour and minute plus the part below a minute. */
  lemma SplitTime(t: int)
    ensures t == JstAt(JstDay(t), JstHour(t)) + JstMinute(t) * MINUTE + t % MINUTE
    ensures 0 <= JstHour(t) <= 23 && 0 <= JstMinute(t) <= 59 && 0 <= t % MINUTE < MINUTE
  {
    var x := t + 9 * HOUR;
    HourOfDay(x);
    var r := x % HOUR;
    assert x == MINUTE * (60 * (x / HOUR) + r / MINUTE) + r % MINUTE;
    Remainder(60 * (x / HOUR) + r / MINUTE, r % MINUTE, MINUTE);
    Remainder(60 * (x / HOUR) + r / MINUTE - 540, r % MINUTE, MINUTE);
  }

  lemma JoinTime(day: int, hour: int, minute: int)
    requires 0 <= hour <= 23 && 0 <= minute <= 59
    ensures var t := JstAt(day, hour) + minute * MINUTE;
            JstDay(t) == day && JstHour(t) == hour && JstMinute(t) == minute
  {
    Remainder(day, hour * HOUR + minute * MINUTE, DAY);
    Remainder(hour, minute * MINUTE, HOUR);
    Remainder(24 * day + hour, minute * MINUTE, HOUR);
  }

  /** An hour of the day of an instant is less than a day away from it. */
  lemma HourOfSameDay(t: int, hour: int)
    requires 0 <= hour <= 23
    ensures var slot := JstAt(JstDay(t), hour);
            && t - DAY < slot - hour * HOUR <= t
            && JstHour(slot) == hour && JstHour(slot + DAY) == hour && JstDay(slot) == JstDay(t)
  {
    SplitTime(t);
    JoinTime(JstDay(t), hour, 0);
    JoinTime(JstDay(t) + 1, hour, 0);
    hide JstDay, JstHour, JstMinute;
  }

  /** Before 20:00 the evening of the day is still ahead. */
  lemma EveningIsAhead(t: int)
    ensures JstHour(JstAt(JstDay(t), 20)) == 20
    ensures JstHour(t) < 20 ==> JstAt(JstDay(t), 20) > t
  {
    HourOfSameDay(t, 20);
    SplitTime(t);
    hide JstDay, JstHour, JstMinute;
  }

  function RebootHour(host: Host): int {
    match host
    case DevApp => 5
    case PveX570 => 20
    case PveB550m => 21
  }

  function CeilMinute(t: int): int { (t + MINUTE - 1) / MINUTE * MINUTE }

  lemma CeilMinuteIsNext(t: int)
    ensures t <= CeilMinute(t) < t + MINUTE && CeilMinute(t) % MINUTE == 0
  {
    Remainder((t + MINUTE - 1) / MINUTE, 0, MINUTE);
  }

  function NextMorning(now: int, host: Host): (t: int)
    ensures now < t <= now + 2 * DAY
    ensures JstHour(t) == RebootHour(host)
  {
    var today := JstAt(JstDay(now), RebootHour(host));
    HourOfSameDay(now, RebootHour(host));
    hide JstDay, JstHour;
    if IsPve(host) && today >= now + LEAD_TIME then today else today + DAY
  }

  function RebootWindowEnd(host: Host, target: int): int {
    if IsPve(host) then JstAt(JstDay(target), 0) + DAY else target + 5 * MINUTE
  }

  /** The evening rule for a target or a start: a PVE host reboots at 20:00 or later. */
  predicate InEvening(host: Host, t: int) { IsPve(host) ==> JstHour(t) >= 20 }

  predicate Due(host: Host, st: RecordState, now: int) {
    && st.plan.Some?
    && st.snapshot.Some?
    && var plan, snapshot := st.plan.value, st.snapshot.value;
    && plan.phase.Scheduled?
    && plan.notifiedRevision == Some(plan.revision)
    && snapshot.healthy
    && now - snapshot.observedAt < 120 * SECOND
    && now >= plan.target
    && now < RebootWindowEnd(host, plan.target)
    && (!IsPve(host) || (plan.eveningWindow && JstHour(now) >= 20 && JstHour(plan.target) >= 20))
    && snapshot.bootId == plan.bootId
    && snapshot.required
  }

  /** The next slot tried after a conflict: one gap later, moved to 20:00 when that is
      too early in the day for a PVE host. */
  function NextCandidate(host: Host, target: int): (t: int)
    ensures t >= target + REBOOT_GAP
    ensures InEvening(host, t)
  {
    var later := target + REBOOT_GAP;
    EveningIsAhead(later);
    hide JstDay, JstHour;
    if IsPve(host) && JstHour(later) < 20 then JstAt(JstDay(later), 20) else later
  }

  /** The first evening minute an overdue approval can be carried to. */
  function CarrySlot(now: int): (t: int)
    ensures t >= now + LEAD_TIME
    ensures JstHour(t) >= 20
  {
    var earliest := CeilMinute(now + LEAD_TIME);
    CeilMinuteIsNext(now + LEAD_TIME);
    EveningIsAhead(earliest);
    hide JstDay, JstHour, CeilMinute;
    Max(earliest, JstAt(JstDay(earliest), 20))
  }

  /** The postponed target: the same Japan-time minute on the day after the later of the
      current target and today. */
  function Postponed(target: int, now: int): int {
    var clock := (target + 9 * HOUR) % DAY / MINUTE * MINUTE;
    Max(target, JstAt(JstDay(now), 0) + clock) + DAY
  }

  /** A deferred reboot keeps its minute of the day, on the day after the later of its own and today. */
  lemma PostponedIsTheNextDay(target: int, now: int)
    ensures var p := Postponed(target, now);
            && JstDay(p) == Max(JstDay(target), JstDay(now)) + 1
            && JstHour(p) == JstHour(target) && JstMinute(p) == JstMinute(target) && p > Max(target, now)
  {
    var x := target + 9 * HOUR;
    HourOfDay(x);
    SplitTime(target);
    SplitTime(now);
    var hour, minute := JstHour(target), JstMinute(target);
    MinuteOfDay(target);
    var today := JstAt(JstDay(now), hour) + minute * MINUTE;
    assert JstAt(JstDay(now), 0) + (x % DAY) / MINUTE * MINUTE == today;
    JoinTime(JstDay(now) + 1, hour, minute);
    JoinTime(JstDay(now), hour, minute);
    ADayLater(target);
    hide JstDay, JstHour, JstMinute;
  }

  /** The minute of the day by its hour. */
  lemma MinuteOfDay(target: int)
    ensures (target + 9 * HOUR) % DAY / MINUTE == 60 * JstHour(target) + JstMinute(target)
  {
    var x := target + 9 * HOUR;
    HourOfDay(x);
    var r := x % HOUR;
    assert x % DAY == MINUTE * (60 * (x % DAY / HOUR) + r / MINUTE) + r % MINUTE;
    Remainder(60 * (x % DAY / HOUR) + r / MINUTE, r % MINUTE, MINUTE);
  }

  lemma ADayLater(t: int)
    ensures JstDay(t + DAY) == JstDay(t) + 1 && JstHour(t + DAY) == JstHour(t) && JstMinute(t + DAY) == JstMinute(t)
  {
    var x := t + 9 * HOUR;
    Remainder(x / DAY + 1, x % DAY, DAY);
    Remainder(x / HOUR + 24, x % HOUR, HOUR);
  }

  /** A claim admitted by the policy starts inside its own window: no earlier than the
      target, on the same Japan-time day, and in the evening. */
  lemma DueIsInsideTheWindow(host: Host, st: RecordState, now: int)
    requires IsPve(host) && Due(host, st, now)
    ensures st.plan.value.target <= now
    ensures JstDay(now) == JstDay(st.plan.value.target)
    ensures 20 <= JstHour(now) <= 23
  {
    var target := st.plan.value.target;
    SplitTime(now);
    SplitTime(target);
    hide JstDay, JstHour, JstMinute;
  }
}
