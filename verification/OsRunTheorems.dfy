/** Every run of two update controllers is safe: the steps outside a journal write, and the
    theorems about the journal, the upgrades and the return to service. */
module OsRunTheorems {
  import opened Wrappers
  import opened OsRunSpec
  import opened OsRunSafety

  predicate ReadsJournal(pc: Pc) { pc.Loading? || pc.Acquiring? || pc.Reload? }

  predicate OnRecovery(pc: Pc) {
    match pc
    case Revive | ReviveCatchUp | ReviveActivate | Restart | RestartCatchUp | RestartActivate => true
    case Rollback | CreateVolume | SwapBoot | Reload | AssertOwnership | RestartStorage => true
    case _ => false
  }

  lemma FailedKnows(w: World, s: Side, p: Proc)
    requires p.Up? && !p.pc.Saving? && Knows(w, s, p) && Failed(p, s, w).Up?
    ensures Knows(w.(stamp := w.stamp + 1), s, Failed(p, s, w))
  {
    if OnRecovery(p.pc) { FailedRecoveryKnows(w, s, p); } else { FailedUpdateKnows(w, s, p); }
  }

  lemma FailedRecoveryKnows(w: World, s: Side, p: Proc)
    requires p.Up? && !p.pc.Saving? && OnRecovery(p.pc) && Knows(w, s, p) && Failed(p, s, w).Up?
    ensures Knows(w.(stamp := w.stamp + 1), s, Failed(p, s, w))
  {
  }

  lemma FailedUpdateKnows(w: World, s: Side, p: Proc)
    requires p.Up? && !p.pc.Saving? && !OnRecovery(p.pc) && Knows(w, s, p) && Failed(p, s, w).Up?
    ensures Knows(w.(stamp := w.stamp + 1), s, Failed(p, s, w))
  {
  }

  lemma ReadKnows(w: World, s: Side, p: Proc)
    requires p.Up? && ReadsJournal(p.pc) && Knows(w, s, p) && Succeeded(p, s, w).Up? && JournalFits(w)
    requires Owns(p.pc) ==> w.journal == p.state
    ensures Knows(w.(stamp := w.stamp + 1), s, Succeeded(p, s, w))
  {
  }

  lemma RecoveryKnows(w: World, s: Side, p: Proc)
    requires p.Up? && !ReadsJournal(p.pc) && OnRecovery(p.pc) && Knows(w, s, p) && Succeeded(p, s, w).Up?
    ensures Knows(w.(stamp := w.stamp + 1), s, Succeeded(p, s, w))
  {
  }

  /** The places of a validation, of an update or of a rollback. */
  predicate OnValidation(pc: Pc) { pc.Ready? || pc.CatchUp? || pc.Observe? || pc.Activate? || pc.MarkVerified? }

  lemma ValidationKnows(w: World, s: Side, p: Proc)
    requires p.Up? && OnValidation(p.pc) && Knows(w, s, p) && Succeeded(p, s, w).Up?
    ensures Knows(w.(stamp := w.stamp + 1), s, Succeeded(p, s, w))
  {
  }

  lemma UpdateKnows(w: World, s: Side, p: Proc)
    requires p.Up? && !p.pc.Saving? && !ReadsJournal(p.pc) && !OnRecovery(p.pc) && Knows(w, s, p) && Succeeded(p, s, w).Up?
    ensures Knows(w.(stamp := w.stamp + 1), s, Succeeded(p, s, w))
  {
    if OnValidation(p.pc) { ValidationKnows(w, s, p); } else { PreparationKnows(w, s, p); }
  }

  lemma PreparationKnows(w: World, s: Side, p: Proc)
    requires p.Up? && !p.pc.Saving? && !ReadsJournal(p.pc) && !OnRecovery(p.pc) && !OnValidation(p.pc)
    requires Knows(w, s, p) && Succeeded(p, s, w).Up?
    ensures Knows(w.(stamp := w.stamp + 1), s, Succeeded(p, s, w))
  {
  }

  /** The hosts after a move that failed or succeeded. */
  function Tended(w: World, s: Side, p: Proc, ok: bool, effect: bool): World
    requires p.Up?
  {
    w.(nodes := w.nodes[Peer(s) := NodeAfter(NodeAt(w, Peer(s)), p, ok, effect, w.now)])
  }

  lemma FailedTends(w: World, s: Side, p: Proc, effect: bool)
    requires p.Up? && !p.pc.Saving? && Tends(w, s, p) && Knows(w, s, p) && Failed(p, s, w).Up?
    ensures Tends(Tended(w, s, p, false, effect), s, Failed(p, s, w))
  {
    FailedIsNoOwner(w, s, p);
    FailedAdoptsNothing(w, s, p);
    hide Failed, Adopted, IsRepaired, IsActivated, BackedUp, PhaseAt, BeforeGap, StartsRollback, OnUpdatePath, Owns, BeforeUpgrade, AfterUpgrade;
  }

  lemma FailedAdoptsNothing(w: World, s: Side, p: Proc)
    requires p.Up? && !p.pc.Saving? && Failed(p, s, w).Up?
    ensures var q := Failed(p, s, w); Adopted(p.pc) && !IsRepaired(q.pc) && !IsActivated(q.pc) && !BackedUp(q.pc)
  {
  }

  lemma ReadTends(w: World, s: Side, p: Proc)
    requires p.Up? && ReadsJournal(p.pc) && Tends(w, s, p) && Knows(w, s, p) && Succeeded(p, s, w).Up? && Withheld(w)
    requires Owns(p.pc) ==> w.journal == p.state
    ensures Tends(Tended(w, s, p, true, true), s, Succeeded(p, s, w))
  {
    assert NodeAt(w, Peer(s)).withheld.Some? ==> CoversGap(w.journal.gapStart, NodeAt(w, Peer(s)).withheld);
  }

  lemma RecoveryTends(w: World, s: Side, p: Proc)
    requires p.Up? && !ReadsJournal(p.pc) && OnRecovery(p.pc) && Tends(w, s, p) && Succeeded(p, s, w).Up?
    ensures Tends(Tended(w, s, p, true, true), s, Succeeded(p, s, w))
  {
  }

  lemma ValidationTends(w: World, s: Side, p: Proc)
    requires p.Up? && OnValidation(p.pc) && Tends(w, s, p) && Succeeded(p, s, w).Up?
    ensures Tends(Tended(w, s, p, true, true), s, Succeeded(p, s, w))
  {
  }

  lemma UpdateTends(w: World, s: Side, p: Proc)
    requires p.Up? && !p.pc.Saving? && !ReadsJournal(p.pc) && !OnRecovery(p.pc) && Tends(w, s, p) && Knows(w, s, p) && Succeeded(p, s, w).Up?
    requires p.pc.AwaitBackup? ==> p.state.backupId.Some? && p.state.backupId.value in w.available
    ensures Tends(Tended(w, s, p, true, true), s, Succeeded(p, s, w))
  {
    if OnValidation(p.pc) { ValidationTends(w, s, p); } else { PreparationTends(w, s, p); }
  }

  lemma PrepareTends(w: World, s: Side, p: Proc)
    requires p.Up? && p.pc.Prepare? && Knows(w, s, p)
    ensures Tends(Tended(w, s, p, true, true), s, Succeeded(p, s, w))
  {
  }

  lemma PreparationTends(w: World, s: Side, p: Proc)
    requires p.Up? && !p.pc.Saving? && !ReadsJournal(p.pc) && !OnRecovery(p.pc) && !OnValidation(p.pc)
    requires Tends(w, s, p) && Knows(w, s, p) && Succeeded(p, s, w).Up?
    requires p.pc.AwaitBackup? ==> p.state.backupId.Some? && p.state.backupId.value in w.available
    ensures Tends(Tended(w, s, p, true, true), s, Succeeded(p, s, w))
  {
    if p.pc.Prepare? { PrepareTends(w, s, p); }
    hide Knows;
    if !p.pc.Prepare? { assert Tended(w, s, p, true, true).nodes[Peer(s)] == NodeAt(w, Peer(s)); }
  }

  lemma FailedIsNoOwner(w: World, s: Side, p: Proc)
    requires p.Up? && !p.pc.Saving? && Failed(p, s, w).Up?
    ensures var q := Failed(p, s, w); q.pc.Saving? && !Owns(q.pc) && !BeforeUpgrade(q.pc) && !AfterUpgrade(q.pc) && q == Save(p, s, q.pc.write, w)
  {
  }

  lemma SucceededHasDone(w: World, v: World, s: Side, p: Proc)
    requires p.Up? && !p.pc.Saving? && HasDone(w, s, p) && Knows(w, s, p) && Succeeded(p, s, w).Up?
    requires Owns(p.pc) ==> w.journal == p.state
    requires v.log == w.log + Logged(w, s, p, true)
    ensures HasDone(v, s, Succeeded(p, s, w))
  {
    var q := Succeeded(p, s, w);
    assert p.run == q.run;
    assert BeforeUpgrade(q.pc) ==> BeforeUpgrade(p.pc) && !p.pc.Upgrade?;
    if AfterUpgrade(q.pc) { SucceededUpgraded(w, v, s, p); }
  }

  lemma SucceededUpgraded(w: World, v: World, s: Side, p: Proc)
    requires p.Up? && !p.pc.Saving? && HasDone(w, s, p) && Knows(w, s, p) && Succeeded(p, s, w).Up?
    requires Owns(p.pc) ==> w.journal == p.state
    requires v.log == w.log + Logged(w, s, p, true) && AfterUpgrade(Succeeded(p, s, w).pc)
    ensures exists e | e in v.log :: UpgradedBy(e, p.run)
    ensures IsActivated(Succeeded(p, s, w).pc) ==> Validated(v.log, p.run)
  {
    var more := Logged(w, s, p, true);
    if p.pc.Upgrade? {
      assert UpgradedBy(more[0], p.run) && more[0] in v.log;
    } else {
      assert AfterUpgrade(p.pc);
      var e :| e in w.log && UpgradedBy(e, p.run);
      assert e in v.log;
      if p.pc.Activate? {
        var i :| 0 <= i < |w.log| && w.log[i] == e;
        assert v.log[i] == e && ValidatedBy(v.log[|w.log|], p.run);
      } else if IsActivated(p.pc) {
        ValidatedStays(w.log, more, p.run);
      }
    }
  }

  /** A write that begins waits for its outcome, and an owner still holds the journal. */
  lemma SucceededWrites(w: World, v: World, s: Side, p: Proc)
    requires p.Up? && !p.pc.Saving? && Succeeded(p, s, w).Up? && p.state.stamp <= w.stamp
    requires Requests(w) && Commits(w) && JournalFits(w) && SameWrites(w, v) && v.stamp == w.stamp + 1
    requires Owns(p.pc) ==> w.journal == p.state && Quiet(w, s, None)
    ensures var q := Succeeded(p, s, w); (q.pc.Saving? ==> Pending(v, s, q)) && (Owns(q.pc) ==> Holding(v, s, q))
  {
    var q := Succeeded(p, s, w);
    var base := if ReadsJournal(p.pc) then p.(state := w.journal) else p;
    if q.pc.Saving? {
      assert q == Save(base, s, q.pc.write, w);
      SaveIsPending(w, v, s, base, q.pc.write);
    }
    hide Requests, Commits, Pending, JournalFits, IsCommitted;
    if Owns(q.pc) {
      assert Owns(p.pc);
      if q.pc.Saving? { SaveHolds(w, v, s, base, q.pc.write); }
    }
  }

  /** While a process owns the maintenance and waits for no write, nothing of anybody's can change
      the journal: it is the process's state, open for its peer, and no request is live. */
  lemma OwnerIsAlone(w: World, s: Side)
    requires Safe(w) && At(w, s).Up? && Owns(At(w, s).pc) && !At(w, s).pc.Saving?
    ensures w.journal == At(w, s).state && IsOpen(w.journal, Peer(s))
    ensures forall r | r in w.requests :: r.etag != w.etag
  {
    assert Sound(w, s);
    forall r | r in w.requests ensures r.etag != w.etag { assert RequestFits(w, r); }
  }

  lemma MoveKeepsRequests(w: World, s: Side, ok: bool, effect: bool, doomed: set<nat>)
    requires Safe(w) && CanAct(w, s, Move(ok, effect, doomed))
    ensures Requests(MoveOf(w, s, ok, effect, doomed)) && LiveRequests(MoveOf(w, s, ok, effect, doomed))
  {
    var v := MoveOf(w, s, ok, effect, doomed);
    var p := At(w, s);
    forall r | r in w.requests ensures RequestFits(v, r) { assert RequestFits(w, r); }
    if Owns(p.pc) { OwnerIsAlone(w, s); }
    forall r | r in w.requests && r.etag == w.etag ensures Harmless(v, r) {
      assert Harmless(w, r);
      if r.write.WIdle? { ValidatedStays(w.log, Logged(w, s, p, effect), r.before.owner); }
      hide Validated;
    }
  }

  lemma MoveKeepsJournal(w: World, s: Side, ok: bool, effect: bool, doomed: set<nat>)
    requires Safe(w) && CanAct(w, s, Move(ok, effect, doomed))
    ensures Withheld(MoveOf(w, s, ok, effect, doomed)) && JournalFits(MoveOf(w, s, ok, effect, doomed))
  {
    var v := MoveOf(w, s, ok, effect, doomed);
    var p := At(w, s);
    assert Sound(w, s);
    if Owns(p.pc) { OwnerIsAlone(w, s); }
    hide Requests, LiveRequests, Commits, Log, Runs, HasDone, Tends, Pending, Holding;
    forall o: Side | NodeAt(v, Peer(o)).withheld.Some?
      ensures IsOpen(v.journal, Peer(o)) && CoversGap(v.journal.gapStart, NodeAt(v, Peer(o)).withheld)
    {
      if NodeAt(v, Peer(o)) != NodeAt(w, Peer(o)) { assert o == s; }
      if NodeAt(w, Peer(o)).withheld.Some? { assert IsOpen(w.journal, Peer(o)) && CoversGap(w.journal.gapStart, NodeAt(w, Peer(o)).withheld); }
    }
  }

  lemma MoveKeepsCommits(w: World, s: Side, ok: bool, effect: bool, doomed: set<nat>)
    requires Safe(w) && CanAct(w, s, Move(ok, effect, doomed))
    ensures Commits(MoveOf(w, s, ok, effect, doomed))
  {
    var v := MoveOf(w, s, ok, effect, doomed);
    forall c | c in w.commits ensures CommitFits(v, c) {
      assert CommitFits(w, c);
      if c.updated.phase.Idle? { ValidatedStays(w.log, Logged(w, s, At(w, s), effect), c.before.owner); }
    }
  }

  lemma LoggedFits(w: World, s: Side, ok: bool, effect: bool, doomed: set<nat>)
    requires Safe(w) && CanAct(w, s, Move(ok, effect, doomed))
    ensures forall e | e in Logged(w, s, At(w, s), effect) :: EventFits(e) && (e.command.CUpgrade? ==> e.owner == At(w, s).run && At(w, s).pc.Upgrade?)
  {
    var p := At(w, s);
    assert Sound(w, s);
    if Owns(p.pc) { OwnerIsAlone(w, s); }
    hide Requests, LiveRequests, Withheld, Commits, Log, Runs, HasDone, Pending, Holding;
  }

  lemma MoveKeepsLog(w: World, s: Side, ok: bool, effect: bool, doomed: set<nat>)
    requires Safe(w) && CanAct(w, s, Move(ok, effect, doomed))
    ensures Log(MoveOf(w, s, ok, effect, doomed))
  {
    var v := MoveOf(w, s, ok, effect, doomed);
    var p := At(w, s);
    LoggedFits(w, s, ok, effect, doomed);
    assert Sound(w, s);
    hide EventFits, Requests, LiveRequests, Withheld, JournalFits, Commits, Knows, Tends, Pending, Holding;
    assert p.run < w.nextRun;
    forall i, k | 0 <= i < k < |v.log| && v.log[i].command.CUpgrade? && v.log[k].command.CUpgrade?
      ensures v.log[i].owner != v.log[k].owner
    {
      if k >= |w.log| {
        assert v.log[k] in Logged(w, s, p, effect);
        assert v.log[i] in w.log && !UpgradedBy(v.log[i], p.run);
      }
    }
  }

  /** Backups are pruned in a phase in which the peer relies on none. */
  lemma PruningIsAlone(w: World, s: Side)
    requires Safe(w) && At(w, s).Up? && At(w, s).pc.Check?
    ensures At(w, Peer(s)).Up? ==> !BackedUp(At(w, Peer(s)).pc)
  {
    OwnerIsAlone(w, s);
    hide Requests, LiveRequests, Withheld, JournalFits, Commits, Log, Runs, HasDone, Tends;
    assert Sound(w, s) && Sound(w, Peer(s));
  }

  lemma MoveKeepsOther(w: World, s: Side, ok: bool, effect: bool, doomed: set<nat>)
    requires Safe(w) && CanAct(w, s, Move(ok, effect, doomed))
    ensures Sound(MoveOf(w, s, ok, effect, doomed), Peer(s))
  {
    var v := MoveOf(w, s, ok, effect, doomed);
    var p, q := At(w, s), At(w, Peer(s));
    hide Requests, LiveRequests, Withheld, JournalFits, Commits, Log, Sound, Succeeded, Failed, BackedUp, EventFits;
    LoggedFits(w, s, ok, effect, doomed);
    if p.pc.Check? { PruningIsAlone(w, s); }
    assert q.Up? ==> Apart(p, q);
    assert Sound(w, Peer(s));
    assert v.log[|w.log|..] == Logged(w, s, p, effect);
    UndisturbedStaysSound(w, v, Peer(s));
  }

  lemma MoveKeepsOwn(w: World, s: Side, ok: bool, effect: bool, doomed: set<nat>)
    requires Safe(w) && CanAct(w, s, Move(ok, effect, doomed))
    ensures Sound(MoveOf(w, s, ok, effect, doomed), s)
  {
    var v := MoveOf(w, s, ok, effect, doomed);
    var p := At(w, s);
    var q := At(v, s);
    assert Sound(w, s);
    if q.Up? {
      if ok {
        MoveSucceeds(w, s, doomed);
      } else {
        MoveFails(w, s, effect, doomed);
      }
    }
  }

  lemma MoveFails(w: World, s: Side, effect: bool, doomed: set<nat>)
    requires Safe(w) && CanAct(w, s, Move(false, effect, doomed)) && Failed(At(w, s), s, w).Up?
    ensures Sound(MoveOf(w, s, false, effect, doomed), s)
  {
    var v := MoveOf(w, s, false, effect, doomed);
    var p := At(w, s);
    var q := Failed(p, s, w);
    assert Sound(w, s);
    FailedIsNoOwner(w, s, p);
    FailedKnows(w, s, p);
    FailedTends(w, s, p, effect);
    SaveIsPending(w, v, s, p, q.pc.write);
    hide Failed, Requests, LiveRequests, Withheld, JournalFits, Commits, Log, Runs, Holding, Pending;
    assert Knows(v, s, q);
    assert Tends(v, s, q);
    assert HasDone(v, s, q);
  }

  lemma SucceededIsSound(w: World, s: Side, p: Proc)
    requires p.Up? && !p.pc.Saving? && Knows(w, s, p) && Tends(w, s, p) && Succeeded(p, s, w).Up? && JournalFits(w) && Withheld(w)
    requires Owns(p.pc) ==> w.journal == p.state
    requires p.pc.AwaitBackup? ==> p.state.backupId.Some? && p.state.backupId.value in w.available
    ensures Knows(w.(stamp := w.stamp + 1), s, Succeeded(p, s, w)) && Tends(Tended(w, s, p, true, true), s, Succeeded(p, s, w))
  {
    hide Knows, Tends, Succeeded, JournalFits, Withheld, Owns;
    if ReadsJournal(p.pc) { ReadKnows(w, s, p); ReadTends(w, s, p); }
    else if OnRecovery(p.pc) { RecoveryKnows(w, s, p); RecoveryTends(w, s, p); }
    else { UpdateKnows(w, s, p); UpdateTends(w, s, p); }
  }

  lemma CheckIsNotBackedUp(w: World, s: Side, p: Proc)
    requires p.Up? && p.pc.Check?
    ensures Succeeded(p, s, w).Up? ==> !BackedUp(Succeeded(p, s, w).pc)
  {
  }

  lemma MoveSucceeds(w: World, s: Side, doomed: set<nat>)
    requires Safe(w) && CanAct(w, s, Move(true, true, doomed)) && Succeeded(At(w, s), s, w).Up?
    ensures Sound(MoveOf(w, s, true, true, doomed), s)
  {
    var v := MoveOf(w, s, true, true, doomed);
    var p := At(w, s);
    var q := Succeeded(p, s, w);
    hide Requests, LiveRequests, Withheld, JournalFits, Commits, Log, Runs, Knows, Tends, HasDone, Pending, Succeeded, BackedUp, Owns;
    assert Sound(w, s);
    StateIsOld(w, s, p);
    SucceededIsSound(w, s, p);
    SucceededHasDone(w, v, s, p);
    SucceededWrites(w, v, s, p);
    SameClockSameKnowledge(w.(stamp := w.stamp + 1), v, s, q);
    if p.pc.Check? { CheckIsNotBackedUp(w, s, p); }
    SameHostSameCare(Tended(w, s, p, true, true), v, s, q);
  }

  lemma StateIsOld(w: World, s: Side, p: Proc)
    requires p.Up? && Knows(w, s, p)
    ensures p.state.stamp <= w.stamp
  {
  }

  /** What a move writes, if it begins a write. */
  lemma MoveBegins(w: World, s: Side, p: Proc, ok: bool)
    requires p.Up? && !p.pc.Saving?
    ensures var q := if ok then Succeeded(p, s, w) else Failed(p, s, w);
      var base := if ok && ReadsJournal(p.pc) then p.(state := w.journal) else p;
      q.Up? ==> q.run == p.run && (q.pc.Saving? ==> q == Save(base, s, q.pc.write, w))
  {
  }

  lemma MoveKeepsRuns(w: World, s: Side, ok: bool, effect: bool, doomed: set<nat>)
    requires Safe(w) && CanAct(w, s, Move(ok, effect, doomed))
    ensures Runs(MoveOf(w, s, ok, effect, doomed))
  {
    var v := MoveOf(w, s, ok, effect, doomed);
    var p, q := At(w, s), At(v, s);
    hide Requests, LiveRequests, Withheld, JournalFits, Commits, Log, Sound, Succeeded, Failed, Save;
    MoveBegins(w, s, p, ok);
    if q.Up? && At(w, Peer(s)).Up? {
      assert Apart(p, At(w, Peer(s)));
      if q.pc.Saving? { SaveIsApart(w, s, if ok && ReadsJournal(p.pc) then p.(state := w.journal) else p, q.pc.write); }
    }
    RunsStay(w, v, s);
  }

  lemma MoveKeepsSafe(w: World, s: Side, ok: bool, effect: bool, doomed: set<nat>)
    requires Safe(w) && CanAct(w, s, Move(ok, effect, doomed))
    ensures Safe(ActOf(w, s, Move(ok, effect, doomed)))
  {
    MoveKeepsRequests(w, s, ok, effect, doomed);
    MoveKeepsJournal(w, s, ok, effect, doomed);
    MoveKeepsCommits(w, s, ok, effect, doomed);
    MoveKeepsLog(w, s, ok, effect, doomed);
    MoveKeepsRuns(w, s, ok, effect, doomed);
    MoveKeepsOwn(w, s, ok, effect, doomed);
    MoveKeepsOther(w, s, ok, effect, doomed);
    hide Requests, LiveRequests, Withheld, JournalFits, Commits, Log, Sound, Runs, CanAct, MoveOf;
    Assemble(MoveOf(w, s, ok, effect, doomed), s);
  }

  lemma ActKeepsSafe(w: World, s: Side, act: Act)
    requires Safe(w) && CanAct(w, s, act)
    ensures Safe(ActOf(w, s, act))
  {
    hide Safe, CanAct, ActOf;
    match act
    case Start => StartOrCrashKeepsSafe(w, s, act);
    case Crash => StartOrCrashKeepsSafe(w, s, act);
    case Move(ok, effect, doomed) => MoveKeepsSafe(w, s, ok, effect, doomed);
    case Send => SendKeepsSafe(w, s);
    case Return => ReturnKeepsSafe(w, s);
    case Raise => RaiseKeepsSafe(w, s);
  }

  lemma StepKeepsSafe(w: World, step: Step)
    requires Safe(w)
    ensures Safe(Next(w, step))
  {
    hide Safe, CanAct, ActOf;
    match step
    case ProcessStep(s, act) => if CanAct(w, s, act) { ActKeepsSafe(w, s, act); }
    case CommitStep(k) => if k < |w.requests| && w.requests[k].etag == w.etag { CommitKeepsSafe(w, w.requests[k]); }
    case _ => SurroundingsKeepSafe(w, step);
  }

  /** From an unused journal, every run of both controllers keeps the invariant. */
  lemma {:induction false} EveryRunIsSafe(steps: seq<Step>)
    ensures Safe(After(steps))
  {
    if steps != [] {
      hide Safe;
      EveryRunIsSafe(steps[..|steps| - 1]);
      StepKeepsSafe(After(steps[..|steps| - 1]), steps[|steps| - 1]);
    }
  }

  // ----- the theorems -----

  /** While a maintenance is open, only the controller whose peer is the target writes the journal. */
  lemma OnlyTheTargetsPeerWrites(steps: seq<Step>, c: Commit)
    requires c in After(steps).commits && !c.before.phase.Idle?
    ensures c.before.target == Some(Peer(c.author))
  {
    EveryRunIsSafe(steps);
    assert CommitFits(After(steps), c);
  }

  /** The journal returns to idle only from a validation whose owner upgraded the host and, after
      that, put it back into service. */
  lemma IdleOnlyAfterValidation(steps: seq<Step>, c: Commit)
    requires c in After(steps).commits && c.updated.phase.Idle?
    ensures c.before.phase.Validating? && Validated(After(steps).log, c.before.owner)
  {
    EveryRunIsSafe(steps);
    assert CommitFits(After(steps), c);
  }

  /** An upgrade is sent under its own open journal, in phase upgrading, with the backup available. */
  lemma UpgradeNeedsJournalAndBackup(steps: seq<Step>, e: Event)
    requires e in After(steps).log && e.command.CUpgrade?
    ensures e.journal.phase.Upgrading? && e.journal.target == Some(e.target) && e.journal.owner == e.owner
    ensures e.journal.backupId.Some? && e.journal.backupId.value in e.available
  {
    EveryRunIsSafe(steps);
    assert EventFits(e);
  }

  /** At most one upgrade is sent for each acquisition of the journal. */
  lemma OneUpgradePerAcquisition(steps: seq<Step>, i: nat, k: nat)
    requires i < |After(steps).log| && k < |After(steps).log|
    requires After(steps).log[i].command.CUpgrade? && After(steps).log[k].command.CUpgrade?
    requires After(steps).log[i].owner == After(steps).log[k].owner
    ensures i == k
  {
    EveryRunIsSafe(steps);
    var log := After(steps).log;
    assert forall a, b | 0 <= a < b < |log| && log[a].command.CUpgrade? && log[b].command.CUpgrade? :: log[a].owner != log[b].owner;
  }

  /** A host kept out of service is put back only after a catch-up that began no later. */
  lemma ActivationFollowsCatchUp(steps: seq<Step>, e: Event)
    requires e in After(steps).log && e.command.CActivate? && e.node.withheld.Some?
    ensures e.node.repaired.Some? && e.node.repaired.value <= e.node.withheld.value
  {
    EveryRunIsSafe(steps);
    assert EventFits(e);
  }

  // ----- after a rollback put the backup back -----

  /** The host's disk was restored by event i, and nothing activated the host since. */
  predicate RestoredBy(log: seq<Event>, i: nat, target: Side) {
    && i < |log| && log[i].command.CRestore? && log[i].target == target
    && forall k | i < k < |log| :: !(log[k].command.CActivate? && log[k].target == target)
  }

  /** Restored hosts are out of service until they are activated, which every activation saw. */
  ghost predicate RestoredAreOut(w: World) {
    && (forall i: nat, target: Side | RestoredBy(w.log, i, target) :: NodeAt(w, target).withheld.Some?)
    && (forall i: nat, k: nat | k < |w.log| && w.log[k].command.CActivate? && RestoredBy(w.log[..k], i, w.log[k].target) ::
          w.log[k].node.withheld.Some?)
  }

  /** The command a step sends, and the host afterwards. */
  lemma LogStep(w: World, step: Step)
    requires Safe(w)
    ensures var v := Next(w, step);
      || (v.log == w.log && forall target: Side | NodeAt(w, target).withheld.Some? :: NodeAt(v, target).withheld.Some?)
      || (exists e :: v.log == w.log + [e] && EventOf(w, v, e))
  {
    hide Succeeded, Failed, SaveReturned, SaveRaised, Safe, MoveOf;
    if step.ProcessStep? && step.act.Move? && CanAct(w, step.side, step.act) {
      MoveLogs(w, step.side, step.act.ok, step.act.effect, step.act.doomed);
    }
  }

  predicate EventOf(w: World, v: World, e: Event) {
    && e.node == NodeAt(w, e.target)
    && (forall target: Side | target != e.target :: NodeAt(v, target) == NodeAt(w, target))
    && (!e.command.CActivate? && e.node.withheld.Some? ==> NodeAt(v, e.target).withheld.Some?)
    && (e.command.CRestore? ==> NodeAt(v, e.target).withheld.Some?)
  }

  lemma MoveLogs(w: World, s: Side, ok: bool, effect: bool, doomed: set<nat>)
    requires Safe(w) && CanAct(w, s, Move(ok, effect, doomed))
    ensures var v := MoveOf(w, s, ok, effect, doomed);
      || (v.log == w.log && forall target: Side | NodeAt(w, target).withheld.Some? :: NodeAt(v, target).withheld.Some?)
      || (exists e :: v.log == w.log + [e] && EventOf(w, v, e))
  {
    var v, p := MoveOf(w, s, ok, effect, doomed), At(w, s);
    hide Succeeded, Failed, Requests, LiveRequests, Withheld, JournalFits, Commits, Log, Runs, Tends, HasDone, Pending, Holding;
    assert Sound(w, s);
    assert forall target: Side | target != Peer(s) :: NodeAt(v, target) == NodeAt(w, target);
    if Logged(w, s, p, effect) != [] { assert v.log == w.log + [v.log[|w.log|]] && EventOf(w, v, v.log[|w.log|]); }
  }

  lemma StepKeepsRestoredOut(w: World, step: Step)
    requires Safe(w) && RestoredAreOut(w)
    ensures RestoredAreOut(Next(w, step))
  {
    var v := Next(w, step);
    LogStep(w, step);
    hide Safe, Next;
    if v.log != w.log {
      var e :| v.log == w.log + [e] && EventOf(w, v, e);
      forall i: nat, target: Side | RestoredBy(v.log, i, target) ensures NodeAt(v, target).withheld.Some? {
        if i < |w.log| { RestoredBefore(w.log, e, i, target); }
      }
      forall i: nat, k: nat | k < |v.log| && v.log[k].command.CActivate? && RestoredBy(v.log[..k], i, v.log[k].target)
        ensures v.log[k].node.withheld.Some?
      {
        if k < |w.log| { assert v.log[..k] == w.log[..k]; } else { assert v.log[..k] == w.log; }
      }
    }
  }

  lemma RestoredBefore(log: seq<Event>, e: Event, i: nat, target: Side)
    requires RestoredBy(log + [e], i, target) && i < |log|
    ensures RestoredBy(log, i, target) && !(e.command.CActivate? && e.target == target)
  {
    assert (log + [e])[|log|] == e && forall k | 0 <= k < |log| :: (log + [e])[k] == log[k];
  }

  lemma {:induction false} EveryRunKeepsRestoredOut(steps: seq<Step>)
    ensures RestoredAreOut(After(steps))
  {
    if steps != [] {
      hide Safe, Next, RestoredAreOut;
      EveryRunKeepsRestoredOut(steps[..|steps| - 1]);
      EveryRunIsSafe(steps[..|steps| - 1]);
      StepKeepsRestoredOut(After(steps[..|steps| - 1]), steps[|steps| - 1]);
    }
  }

  /** The first activation of a host after its disk was restored follows a catch-up finished since
      then that began no later than what it may lack, even if the host had been activated before. */
  lemma RestoredHostCatchesUpFirst(steps: seq<Step>, i: nat, k: nat)
    requires k < |After(steps).log| && After(steps).log[k].command.CActivate?
    requires RestoredBy(After(steps).log[..k], i, After(steps).log[k].target)
    ensures var node := After(steps).log[k].node;
      node.withheld.Some? && node.repaired.Some? && node.repaired.value <= node.withheld.value
  {
    EveryRunKeepsRestoredOut(steps);
    ActivationFollowsCatchUp(steps, After(steps).log[k]);
    hide After;
  }

  /** From the upgrade to the end of a rollback the recovery point of the journal stays available. */
  lemma RecoveryPointStays(steps: seq<Step>)
    requires NeedsBackup(After(steps).journal.phase)
    ensures After(steps).journal.backupId.Some? && After(steps).journal.backupId.value in After(steps).available
  {
    EveryRunIsSafe(steps);
  }

  /** The two hosts are never out of service at the same time. */
  lemma NeverBothHostsOut(steps: seq<Step>)
    ensures NodeAt(After(steps), North).withheld.None? || NodeAt(After(steps), South).withheld.None?
  {
    EveryRunIsSafe(steps);
    var w := After(steps);
    assert NodeAt(w, Peer(South)).withheld.Some? ==> IsOpen(w.journal, Peer(South));
    assert NodeAt(w, Peer(North)).withheld.Some? ==> IsOpen(w.journal, Peer(North));
  }
}
