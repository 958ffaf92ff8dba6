/** A host that was told to upgrade is not put back into service as it is: first it is restored, or
    its upgrade was validated. This holds whatever fails, dies, is lost or arrives late. */
module OsRollback {
  import opened OsRunSpec
  import opened OsRunSafety
  import opened OsRunTheorems

  /** What settles an upgrade: the host is restored, or activated by the upgrade's owner while the
      journal says it validates. */
  predicate Settles(e: Event, target: Side, owner: nat) {
    e.target == target && (e.command.CRestore? || (e.command.CActivate? && e.owner == owner && e.journal.phase.Validating?))
  }

  predicate UpgradedAt(log: seq<Event>, i: nat, target: Side, owner: nat) {
    i < |log| && log[i].command.CUpgrade? && log[i].target == target && log[i].owner == owner
  }

  /** An upgrade of the owner that nothing has settled since. */
  predicate Unsettled(log: seq<Event>, target: Side, owner: nat) {
    exists i | 0 <= i < |log| :: UpgradedAt(log, i, target, owner) && forall m | i < m < |log| :: !Settles(log[m], target, owner)
  }

  // ----- what holds while an upgrade is not settled -----

  predicate Damaged(phase: Phase) { phase.Upgrading? || phase.Validating? || phase.Restoring? || phase.Blocked? }

  /** The places from which only a validation, a restore or nothing at all can follow. */
  predicate Mends(pc: Pc) {
    match pc
    case Loading | Acquiring | AwaitReboot | Rollback | CreateVolume | SwapBoot | AssertOwnership | RestartStorage => true
    case Ready(r) => !r
    case CatchUp(r) => !r
    case Observe(r) => !r
    case Activate(r) => !r
    case Saving(write, _) =>
      write.WAcquire? || write.WValidating? || write.WFailure? || write.WRestoring? || write.WRecovery? || write.WRecoveryFailed? || write.WRestartFailed?
    case _ => false
  }

  predicate ProcMends(p: Proc) {
    p.Up? ==> Mends(p.pc) && (Adopted(p.pc) ==> Damaged(p.state.phase) && p.state.backupId.Some?)
  }

  predicate JournalMends(w: World, s: Side, owner: nat) {
    IsOpen(w.journal, Peer(s)) && w.journal.owner == owner && Damaged(w.journal.phase)
  }

  predicate RequestsMend(w: World) { forall r | r in w.requests && r.etag == w.etag :: Damaged(r.updated.phase) }

  predicate Mended(w: World, s: Side, owner: nat) { JournalMends(w, s, owner) && RequestsMend(w) && ProcMends(At(w, s)) }

  ghost predicate AllMended(w: World) { forall s: Side, owner: nat | Unsettled(w.log, Peer(s), owner) :: Mended(w, s, owner) }

  // ----- one process -----

  lemma RaisedMends(w: World, s: Side, p: Proc)
    requires p.Up? && p.pc.Saving? && ProcMends(p) && Knows(w, s, p)
    ensures ProcMends(SaveRaised(p, s, w))
  {
  }

  lemma ReturnedMends(w: World, s: Side, p: Proc)
    requires p.Up? && p.pc.Saving? && !p.pc.write.WAcquire? && ProcMends(p) && Knows(w, s, p) && Pending(w, s, p)
    ensures ProcMends(SaveReturned(p))
  {
    hide IsCommitted, Quiet;
  }

  lemma FailedMends(w: World, s: Side, p: Proc)
    requires p.Up? && !p.pc.Saving? && ProcMends(p)
    ensures ProcMends(Failed(p, s, w))
  {
  }

  lemma SucceededMends(w: World, s: Side, p: Proc, owner: nat)
    requires p.Up? && !p.pc.Saving? && ProcMends(p) && JournalMends(w, s, owner) && JournalFits(w)
    requires !p.pc.SwapBoot? && !p.pc.Activate?
    ensures ProcMends(Succeeded(p, s, w))
  {
  }

  lemma UpgradeStarts(w: World, s: Side, p: Proc, ok: bool)
    requires p.Up? && p.pc.Upgrade? && Knows(w, s, p) && Tends(w, s, p)
    ensures ProcMends(if ok then Succeeded(p, s, w) else Failed(p, s, w))
  {
  }

  lemma PendingMends(w: World, s: Side, p: Proc)
    requires p.Up? && p.pc.Saving? && !p.pc.write.WAcquire? && ProcMends(p) && Knows(w, s, p) && Pending(w, s, p)
    ensures Damaged(p.pc.updated.phase)
  {
    hide IsCommitted, Quiet;
  }

  // ----- one step -----

  /** A new command settles what it settles, and only an upgrade unsettles. */
  lemma LogGrows(log: seq<Event>, e: Event, target: Side, owner: nat)
    requires Unsettled(log + [e], target, owner)
    ensures (Unsettled(log, target, owner) && !Settles(e, target, owner)) || (e.command.CUpgrade? && e.target == target && e.owner == owner)
  {
    var more := log + [e];
    var i :| 0 <= i < |more| && UpgradedAt(more, i, target, owner) && forall m | i < m < |more| :: !Settles(more[m], target, owner);
    if i < |log| {
      assert UpgradedAt(log, i, target, owner) && more[|log|] == e;
      assert forall m | i < m < |log| :: log[m] == more[m];
    }
  }

  /** While an upgrade is not settled a process of its side sends and returns no acquisition. */
  lemma NoAcquisition(w: World, s: Side, owner: nat)
    requires Safe(w) && JournalMends(w, s, owner) && At(w, s).Up? && At(w, s).pc.Saving? && At(w, s).pc.write.WAcquire?
    ensures !CanAct(w, s, Send) && !CanAct(w, s, Return)
  {
    assert Sound(w, s);
    hide Requests, LiveRequests, Withheld, JournalFits, Commits, Log, Runs, Tends, HasDone, Holding;
  }

  /** Nor does the other side send anything. */
  lemma OtherSendsNothing(w: World, s: Side, owner: nat)
    requires Safe(w) && JournalMends(w, s, owner)
    ensures !CanAct(w, Peer(s), Send)
  {
    assert Sound(w, Peer(s));
    hide Requests, LiveRequests, Withheld, JournalFits, Commits, Log, Runs, Tends, HasDone, Holding, Pending;
  }

  lemma ActKeepsProcMended(w: World, s: Side, owner: nat, act: Act)
    requires Safe(w) && Mended(w, s, owner) && CanAct(w, s, act) && !act.Move?
    ensures ProcMends(At(ActOf(w, s, act), s))
  {
    assert Sound(w, s) && JournalFits(w);
    var p := At(w, s);
    if p.Up? && p.pc.Saving? && p.pc.write.WAcquire? { NoAcquisition(w, s, owner); }
    hide Requests, LiveRequests, Withheld, JournalFits, Commits, Log, Runs, Tends, HasDone, Holding, SaveReturned, SaveRaised, MoveOf, Knows, Pending, JournalMends, RequestsMend;
    match act
    case Return => ReturnedMends(w, s, p);
    case Raise => RaisedMends(w, s, p);
    case _ =>
  }

  /** What a local step sends to a host whose upgrade is not settled: a restore, or its owner's
      activation after validation, and nothing else that could follow. */
  lemma MoveMends(w: World, s: Side, owner: nat, ok: bool, effect: bool, doomed: set<nat>)
    requires Safe(w) && Mended(w, s, owner) && CanAct(w, s, Move(ok, effect, doomed))
    ensures var p := At(w, s);
      if effect && (p.pc.SwapBoot? || p.pc.Activate?) then Logged(w, s, p, effect) != [] && Settles(Logged(w, s, p, effect)[0], Peer(s), owner)
      else Logged(w, s, p, effect) == [] && ProcMends(At(MoveOf(w, s, ok, effect, doomed), s))
  {
    var p := At(w, s);
    assert Sound(w, s) && JournalFits(w);
    if effect && (p.pc.SwapBoot? || p.pc.Activate?) {
      OwnerIsAlone(w, s);
      hide Requests, LiveRequests, Withheld, JournalFits, Commits, Log, Runs, Tends, HasDone, Holding, Pending, Succeeded, Failed, RequestsMend;
    } else {
      hide Requests, LiveRequests, Withheld, JournalFits, Commits, Log, Runs, Tends, HasDone, Holding, Pending, Knows, Succeeded, Failed, RequestsMend, JournalMends;
      if ok { SucceededMends(w, s, p, owner); } else { FailedMends(w, s, p); }
      MendsSendsNothing(p.pc);
    }
  }

  lemma MendsSendsNothing(pc: Pc)
    ensures Mends(pc) && !pc.SwapBoot? && !pc.Activate? ==> CommandAt(pc).None?
  {
  }

  lemma MendedReads(w: World, v: World, s: Side, owner: nat)
    requires Mended(w, s, owner) && v.journal == w.journal && v.etag == w.etag && v.requests == w.requests && ProcMends(At(v, s))
    ensures Mended(v, s, owner)
  {
    hide ProcMends;
  }

  lemma MoveFrame(w: World, s: Side, ok: bool, effect: bool, doomed: set<nat>)
    requires CanAct(w, s, Move(ok, effect, doomed))
    ensures var v := MoveOf(w, s, ok, effect, doomed);
      && v.journal == w.journal && v.etag == w.etag && v.requests == w.requests && v.log == w.log + Logged(w, s, At(w, s), effect)
      && At(v, Peer(s)) == At(w, Peer(s)) && |Logged(w, s, At(w, s), effect)| <= 1
      && forall e | e in Logged(w, s, At(w, s), effect) :: e.target == Peer(s)
  {
    hide Succeeded, Failed;
  }

  lemma UpgradeIsMended(w: World, s: Side, ok: bool, effect: bool, doomed: set<nat>)
    requires Safe(w) && CanAct(w, s, Move(ok, effect, doomed)) && At(w, s).pc.Upgrade?
    ensures Mended(MoveOf(w, s, ok, effect, doomed), s, At(w, s).state.owner)
  {
    assert Sound(w, s);
    OwnerIsAlone(w, s);
    UpgradeStarts(w, s, At(w, s), ok);
    hide Requests, LiveRequests, Withheld, JournalFits, Commits, Log, Runs, HasDone, Holding, Pending, Succeeded, Failed, ProcMends;
  }

  lemma MoveKeepsMended(w: World, s: Side, ok: bool, effect: bool, doomed: set<nat>, o: Side, owner: nat)
    requires Safe(w) && AllMended(w) && CanAct(w, s, Move(ok, effect, doomed))
    requires Unsettled(MoveOf(w, s, ok, effect, doomed).log, Peer(o), owner)
    ensures Mended(MoveOf(w, s, ok, effect, doomed), o, owner)
  {
    var v, p := MoveOf(w, s, ok, effect, doomed), At(w, s);
    hide Safe, CanAct, MoveOf, Unsettled, Mended;
    MoveFrame(w, s, ok, effect, doomed);
    if Logged(w, s, p, effect) == [] {
      assert v.log == w.log;
      MovedMended(w, s, ok, effect, doomed, o, owner);
    } else {
      var e := Logged(w, s, p, effect)[0];
      assert v.log == w.log + [e];
      LogGrows(w.log, e, Peer(o), owner);
      if Unsettled(w.log, Peer(o), owner) && !Settles(e, Peer(o), owner) { MovedMended(w, s, ok, effect, doomed, o, owner); }
      else { LoggedUpgrade(w, s, effect); UpgradeIsMended(w, s, ok, effect, doomed); }
    }
  }

  lemma LoggedUpgrade(w: World, s: Side, effect: bool)
    requires At(w, s).Up? && Logged(w, s, At(w, s), effect) != [] && Logged(w, s, At(w, s), effect)[0].command.CUpgrade?
    ensures At(w, s).pc.Upgrade? && Logged(w, s, At(w, s), effect)[0].owner == At(w, s).state.owner
  {
  }

  lemma MovedMended(w: World, s: Side, ok: bool, effect: bool, doomed: set<nat>, o: Side, owner: nat)
    requires Safe(w) && CanAct(w, s, Move(ok, effect, doomed)) && Mended(w, o, owner)
    requires o == s ==> forall e | e in Logged(w, s, At(w, s), effect) :: !Settles(e, Peer(s), owner)
    ensures Mended(MoveOf(w, s, ok, effect, doomed), o, owner)
  {
    var v := MoveOf(w, s, ok, effect, doomed);
    MoveFrame(w, s, ok, effect, doomed);
    if o == s { MoveMends(w, s, owner, ok, effect, doomed); } else { assert o == Peer(s); MendedStays(w, o, owner); }
    hide Safe, CanAct, MoveOf, Mended, ProcMends, Logged, Settles;
    MendedReads(w, v, o, owner);
  }

  lemma MendedStays(w: World, s: Side, owner: nat)
    requires Mended(w, s, owner)
    ensures ProcMends(At(w, s))
  {
  }

  lemma SendKeepsMended(w: World, s: Side, o: Side, owner: nat)
    requires Safe(w) && CanAct(w, s, Send) && Mended(w, o, owner)
    ensures Mended(ActOf(w, s, Send), o, owner)
  {
    if s != o {
      assert s == Peer(o);
      OtherSendsNothing(w, o, owner);
    } else {
      assert Sound(w, s);
      if At(w, s).pc.write.WAcquire? { NoAcquisition(w, s, owner); }
      PendingMends(w, s, At(w, s));
      hide Safe, Knows, Pending, Tends, HasDone, Holding, Sound, ProcMends;
      forall r | r in ActOf(w, s, Send).requests && r.etag == w.etag ensures Damaged(r.updated.phase) {
        if r !in w.requests { assert r == Sent(w, s); }
      }
    }
  }

  lemma ActKeepsMended(w: World, s: Side, act: Act, o: Side, owner: nat)
    requires Safe(w) && AllMended(w) && CanAct(w, s, act) && Unsettled(ActOf(w, s, act).log, Peer(o), owner)
    ensures Mended(ActOf(w, s, act), o, owner)
  {
    hide Safe, CanAct, Unsettled, Mended, MoveOf, SaveReturned, SaveRaised;
    if act.Move? {
      MoveKeepsMended(w, s, act.ok, act.effect, act.doomed, o, owner);
    } else if act.Send? {
      SendKeepsMended(w, s, o, owner);
    } else {
      if o == s { ActKeepsProcMended(w, s, owner, act); } else { MendedStays(w, o, owner); }
      hide ProcMends;
      MendedReads(w, ActOf(w, s, act), o, owner);
    }
  }

  lemma CommitKeepsMended(w: World, r: Request, s: Side, owner: nat)
    requires Safe(w) && r in w.requests && r.etag == w.etag && Mended(w, s, owner)
    ensures Mended(Committed(w, r), s, owner)
  {
    assert RequestFits(w, r);
    CommitSilences(w, r);
    assert forall x | x in w.requests :: RequestFits(w, x);
    hide LiveRequests, Withheld, JournalFits, Commits, Log, Runs, Sound, ProcMends;
  }

  lemma EditKeepsMended(w: World, s: Side, owner: nat)
    requires Safe(w) && Mended(w, s, owner)
    ensures Mended(w.(etag := w.etag + 1), s, owner)
  {
    assert forall r | r in w.requests :: RequestFits(w, r);
    hide LiveRequests, Withheld, JournalFits, Commits, Log, Runs, Sound, ProcMends;
  }

  lemma StepKeepsMended(w: World, step: Step)
    requires Safe(w) && AllMended(w)
    ensures AllMended(Next(w, step))
  {
    var v := Next(w, step);
    hide Safe, CanAct, ActOf, Unsettled, Mended;
    forall s: Side, owner: nat | Unsettled(v.log, Peer(s), owner) ensures Mended(v, s, owner) {
      match step
      case ProcessStep(o, act) => if CanAct(w, o, act) { ActKeepsMended(w, o, act, s, owner); }
      case CommitStep(k) => if k < |w.requests| && w.requests[k].etag == w.etag { CommitKeepsMended(w, w.requests[k], s, owner); }
      case EditStep => EditKeepsMended(w, s, owner);
      case _ => MendedStays(w, s, owner); hide ProcMends; MendedReads(w, v, s, owner);
    }
  }

  // ----- every run -----

  /** Every activation at event k comes after what settles the upgrades before it, or settles them. */
  ghost predicate SettledAt(log: seq<Event>, k: nat) {
    k < |log| && log[k].command.CActivate? ==>
      forall i: nat, owner: nat | i < k && UpgradedAt(log, i, log[k].target, owner) :: exists m | i < m <= k :: Settles(log[m], log[k].target, owner)
  }

  lemma NewIsSettled(w: World, s: Side, ok: bool, effect: bool, doomed: set<nat>)
    requires Safe(w) && AllMended(w) && CanAct(w, s, Move(ok, effect, doomed))
    ensures SettledAt(MoveOf(w, s, ok, effect, doomed).log, |w.log|)
  {
    var v := MoveOf(w, s, ok, effect, doomed);
    MoveFrame(w, s, ok, effect, doomed);
    hide Safe, CanAct, MoveOf, Mended;
    if |w.log| < |v.log| && v.log[|w.log|].command.CActivate? {
      var e := v.log[|w.log|];
      assert Logged(w, s, At(w, s), effect) == [e];
      forall i: nat, owner: nat | i < |w.log| && UpgradedAt(v.log, i, e.target, owner)
        ensures exists m | i < m <= |w.log| :: Settles(v.log[m], e.target, owner)
      {
        assert UpgradedAt(w.log, i, e.target, owner);
        if forall m | i < m < |w.log| :: !Settles(w.log[m], e.target, owner) {
          assert Unsettled(w.log, Peer(s), owner);
          MoveMends(w, s, owner, ok, effect, doomed);
          assert Settles(v.log[|w.log|], e.target, owner);
        } else {
          var m :| i < m < |w.log| && Settles(w.log[m], e.target, owner);
          assert Settles(v.log[m], e.target, owner);
        }
      }
    }
  }

  lemma OldIsSettled(log: seq<Event>, more: seq<Event>, k: nat)
    requires SettledAt(log, k) && log <= more && k < |log|
    ensures SettledAt(more, k)
  {
    if log[k].command.CActivate? {
      forall i: nat, owner: nat | i < k && UpgradedAt(more, i, more[k].target, owner)
        ensures exists m | i < m <= k :: Settles(more[m], more[k].target, owner)
      {
        assert UpgradedAt(log, i, log[k].target, owner);
        var m :| i < m <= k && Settles(log[m], log[k].target, owner);
        assert Settles(more[m], more[k].target, owner);
      }
    }
  }

  lemma StepLogs(w: World, step: Step)
    requires Safe(w) && AllMended(w)
    ensures w.log <= Next(w, step).log && |Next(w, step).log| <= |w.log| + 1
    ensures SettledAt(Next(w, step).log, |w.log|)
  {
    hide Safe, AllMended, SettledAt, Committed, SaveReturned, SaveRaised, MoveOf;
    NothingIsSettled(w.log);
    if step.ProcessStep? && step.act.Move? && CanAct(w, step.side, step.act) {
      NewIsSettled(w, step.side, step.act.ok, step.act.effect, step.act.doomed);
      MoveFrame(w, step.side, step.act.ok, step.act.effect, step.act.doomed);
    } else {
      QuietLog(w, step);
    }
  }

  lemma NothingIsSettled(log: seq<Event>)
    ensures SettledAt(log, |log|)
  {
  }

  lemma QuietLog(w: World, step: Step)
    requires !(step.ProcessStep? && step.act.Move? && CanAct(w, step.side, step.act))
    ensures Next(w, step).log == w.log
  {
    hide SaveReturned, SaveRaised, MoveOf;
  }

  lemma {:induction false} EveryRunIsMended(steps: seq<Step>)
    ensures AllMended(After(steps)) && forall k: nat :: SettledAt(After(steps).log, k)
  {
    if steps != [] {
      var before, step := steps[..|steps| - 1], steps[|steps| - 1];
      EveryRunIsMended(before);
      EveryRunIsSafe(before);
      hide Safe, AllMended, SettledAt, Next;
      StepKeepsMended(After(before), step);
      StepLogs(After(before), step);
      var log, more := After(before).log, After(steps).log;
      forall k: nat ensures SettledAt(more, k) {
        if k < |log| { OldIsSettled(log, more, k); } else if k > |log| { BeyondIsSettled(more, k); }
      }
    }
  }

  lemma BeyondIsSettled(log: seq<Event>, k: nat)
    requires k >= |log|
    ensures SettledAt(log, k)
  {
  }

  /** Between an upgrade and the next activation of its host lies a restore, unless that activation is
      its owner's, after validation: a failed upgrade is never put back into service as it is. */
  lemma FailedUpgradeIsRestoredFirst(steps: seq<Step>, i: nat, k: nat)
    requires i < k < |After(steps).log| && After(steps).log[i].command.CUpgrade? && After(steps).log[k].command.CActivate?
    requires After(steps).log[k].target == After(steps).log[i].target
    ensures exists m | i < m <= k ::
      var e := After(steps).log[m];
      && e.target == After(steps).log[i].target
      && (e.command.CRestore? || (e.command.CActivate? && e.owner == After(steps).log[i].owner && e.journal.phase.Validating?))
  {
    var log := After(steps).log;
    EveryRunIsMended(steps);
    assert SettledAt(log, k) && UpgradedAt(log, i, log[k].target, log[i].owner);
    hide After, AllMended;
    var m :| i < m <= k && Settles(log[m], log[k].target, log[i].owner);
  }
}
