/** Publishing a plan is two atomic halves with a network request in between, interleaved with
    every other call. A revision counts as notified only after Discord accepted a message that
    showed exactly that plan, so nothing unshown is ever started. */
module FleetPublication {
  import opened Wrappers
  import opened Policy
  import opened FleetSpec
  import opened FleetCoupling
  import opened FleetHistory

  /** What a message shows of a plan. */
  datatype Message = Message(host: Host, revision: Id, target: int, phase: Phase)

  datatype World = World(fleet: Fleet, sent: set<Message>, accepted: set<Message>)

  /** Capture: publish reads the plan and sends its message. Accept: Discord accepts a sent
      message, whether or not the answer arrives. Answer: the answer arrives and publish
      finishes. Other: any other call, at any time. */
  datatype Step = Capture(host: Host) | Accept(message: Message) | Answer(message: Message) | Other(event: Event)

  function MessageOf(host: Host, plan: Plan): Message {
    Message(host, plan.revision, plan.target, plan.phase)
  }

  predicate Enabled(w: World, step: Step) {
    match step
    case Capture(host) => true
    case Accept(message) => message in w.sent
    case Answer(message) => message in w.accepted
    case Other(event) => !event.call.CNotified?
  }

  function Next(w: World, step: Step): World {
    match step
    case Capture(host) =>
      var plan := PlanOf(w.fleet, host);
      if plan.None? then w else w.(sent := w.sent + {MessageOf(host, plan.value)})
    case Accept(message) => w.(accepted := w.accepted + {message})
    case Answer(message) => w.(fleet := Notified(w.fleet, message.host, message.revision))
    case Other(event) => w.(fleet := Apply(w.fleet, event.call, event.now))
  }

  function After(steps: seq<Step>): World {
    if steps == [] then World(EMPTY, {}, {})
    else Next(After(steps[..|steps| - 1]), steps[|steps| - 1])
  }

  predicate IsRun(steps: seq<Step>) {
    steps == [] || (IsRun(steps[..|steps| - 1]) && Enabled(After(steps[..|steps| - 1]), steps[|steps| - 1]))
  }

  /** The message shows the plan as it is, except that a shown schedule may have been claimed. */
  predicate Shows(message: Message, host: Host, plan: Plan) {
    && message.host == host && message.revision == plan.revision && message.target == plan.target
    && (message.phase == plan.phase || (message.phase.Scheduled? && plan.phase.Running?))
  }

  predicate RevisionsAreOld(w: World) {
    && w.accepted <= w.sent
    && (forall m | m in w.sent :: m.revision < w.fleet.nextId)
    && (forall host | PlanOf(w.fleet, host).Some? :: PlanOf(w.fleet, host).value.revision < w.fleet.nextId)
  }

  /** Every message of a current revision shows the current plan. */
  predicate MessagesAreExact(w: World) {
    forall host, m | m in w.sent && m.host == host && PlanOf(w.fleet, host).Some? && m.revision == PlanOf(w.fleet, host).value.revision ::
      Shows(m, host, PlanOf(w.fleet, host).value)
  }

  predicate WasShown(w: World, host: Host, plan: Plan) {
    exists m | m in w.accepted :: Shows(m, host, plan)
  }

  predicate NotifiedWasShown(w: World) {
    forall host | PlanOf(w.fleet, host).Some? && PlanOf(w.fleet, host).value.notifiedRevision == Some(PlanOf(w.fleet, host).value.revision) ::
      WasShown(w, host, PlanOf(w.fleet, host).value)
  }

  predicate Published(w: World) { RevisionsAreOld(w) && MessagesAreExact(w) && NotifiedWasShown(w) }

  /** Any other call leaves a shown plan, claims it, or replaces its revision by a fresh one. */
  lemma OtherKeeps(w: World, event: Event)
    requires Published(w) && !event.call.CNotified?
    ensures Published(Next(w, Other(event)))
  {
    var w' := Next(w, Other(event));
    hide Apply, IsApproval, IsCarry, Claimable;
    IdsGrow(w.fleet, event.call, event.now);
    forall host ensures PlanOf(w'.fleet, host).Some? ==>
        var q := PlanOf(w'.fleet, host).value;
        && q.revision < w'.fleet.nextId
        && (forall m | m in w'.sent && m.host == host && m.revision == q.revision :: Shows(m, host, q))
        && (q.notifiedRevision == Some(q.revision) ==> WasShown(w', host, q))
    {
      PlanOrClaimOrFresh(w.fleet, event, host);
      var p, q := PlanOf(w.fleet, host), PlanOf(w'.fleet, host);
      if q.Some? && p.Some? && q.value.revision < w.fleet.nextId && q.value.notifiedRevision == Some(q.value.revision) {
        var m :| m in w.accepted && Shows(m, host, p.value);
        assert m in w'.accepted && Shows(m, host, q.value);
      }
    }
  }

  lemma PlanOrClaimOrFresh(s: Fleet, event: Event, host: Host)
    requires !event.call.CNotified?
    ensures
      var p, s' := PlanOf(s, host), Apply(s, event.call, event.now);
      var q := PlanOf(s', host);
      || q.None? || q == p
      || (p.Some? && p.value.phase.Scheduled? && q.value.phase.Running? && q.value.revision == p.value.revision
          && q.value.target == p.value.target && q.value.notifiedRevision == p.value.notifiedRevision)
      || (s.nextId <= q.value.revision < s'.nextId && q.value.notifiedRevision.None?)
  {
    hide Apply, IsApproval, IsCarry;
    EveryPlanChange(s, event, host);
  }

  lemma AnswerKeeps(w: World, message: Message)
    requires Published(w) && message in w.accepted
    ensures Published(Next(w, Answer(message)))
  {
    var w' := Next(w, Answer(message));
    forall host | PlanOf(w'.fleet, host).Some?
      ensures PlanOf(w.fleet, host).Some?
      ensures var p, q := PlanOf(w.fleet, host).value, PlanOf(w'.fleet, host).value; q == p.(notifiedRevision := q.notifiedRevision) {}
    forall host | PlanOf(w'.fleet, host).Some? && PlanOf(w'.fleet, host).value.notifiedRevision == Some(PlanOf(w'.fleet, host).value.revision)
      ensures WasShown(w', host, PlanOf(w'.fleet, host).value)
    {
      var p, q := PlanOf(w.fleet, host).value, PlanOf(w'.fleet, host).value;
      if q == p {
        var m :| m in w.accepted && Shows(m, host, p);
        assert Shows(m, host, q);
      } else {
        assert message in w.sent && Shows(message, host, q);
      }
    }
  }

  lemma StepKeeps(w: World, step: Step)
    requires Published(w) && Enabled(w, step)
    ensures Published(Next(w, step))
  {
    match step
    case Capture(host) =>
    case Accept(message) => AcceptKeeps(w, message);
    case Answer(message) => AnswerKeeps(w, message);
    case Other(event) => OtherKeeps(w, event);
  }

  lemma AcceptKeeps(w: World, message: Message)
    requires Published(w) && message in w.sent
    ensures Published(Next(w, Accept(message)))
  {
    var w' := Next(w, Accept(message));
    forall host, plan | WasShown(w, host, plan) ensures WasShown(w', host, plan) {
      var m :| m in w.accepted && Shows(m, host, plan);
      assert m in w'.accepted;
    }
  }

  /** In every interleaving, a notified revision was shown exactly as it stands. */
  lemma {:induction false} NotifiedRevisionsWereShown(steps: seq<Step>)
    requires IsRun(steps)
    ensures Published(After(steps))
  {
    if steps != [] {
      NotifiedRevisionsWereShown(steps[..|steps| - 1]);
      StepKeeps(After(steps[..|steps| - 1]), steps[|steps| - 1]);
    }
  }

  /** No host is granted a reboot whose target and schedule an accepted message did not show. */
  lemma NothingUnshownIsClaimed(steps: seq<Step>, host: Host, now: int)
    requires IsRun(steps) && Claim(After(steps).fleet, host, now).1.Some?
    ensures PlanOf(After(steps).fleet, host).Some?
    ensures var p := PlanOf(After(steps).fleet, host).value;
            Message(host, p.revision, p.target, Scheduled) in After(steps).accepted
  {
    NotifiedRevisionsWereShown(steps);
    var w := After(steps);
    var p := PlanOf(w.fleet, host).value;
    var m :| m in w.accepted && Shows(m, host, p);
    assert m == Message(host, p.revision, p.target, Scheduled);
  }
}
