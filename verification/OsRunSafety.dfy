/** What every step of two update controllers keeps, whatever dies, is lost or arrives late. */
module OsRunSafety {
  import opened Wrappers
  import opened OsRunSpec

  // ----- what the place in the program says -----

  /** The process acquired or reopened the journal and no write of its own has failed since. */
  predicate Owns(pc: Pc) {
    match pc
    case Check | Budget | Prepare | CreateBackup | AwaitBackup | Upgrade | AwaitReboot => true
    case Ready(_) | CatchUp(_) | Observe(_) | Activate(_) | MarkVerified(_) | CreateVolume | SwapBoot | Reload => true
    case Saving(write, _) =>
      write.WStatus? || write.WGap? || write.WBackupId? || write.WUpgrading? || write.WValidating? || write.WIdle? ||
      write.WRecovery? || write.WRollbackValidation? || write.WRolledBack?
    case _ => false
  }

  function PhaseAt(pc: Pc): Option<Phase> {
    match pc
    case Check | Budget => Some(Checking)
    case Prepare | CreateBackup | AwaitBackup => Some(BackingUp)
    case Upgrade | AwaitReboot => Some(Upgrading)
    case Ready(r) => Some(if r then RollbackValidation else Validating)
    case CatchUp(r) => Some(if r then RollbackValidation else Validating)
    case Observe(r) => Some(if r then RollbackValidation else Validating)
    case Activate(r) => Some(if r then RollbackValidation else Validating)
    case MarkVerified(r) => Some(if r then RollbackValidation else Validating)
    case CreateVolume | SwapBoot | Reload => Some(Restoring)
    case Saving(write, _) =>
      (match write
       case WAcquire => Some(Idle)
       case WStatus | WGap => Some(Checking)
       case WBackupId(_) | WUpgrading => Some(BackingUp)
       case WValidating => Some(Upgrading)
       case WIdle => Some(Validating)
       case WRecovery(_) | WRollbackValidation => Some(Restoring)
       case WRolledBack => Some(RollbackValidation)
       case _ => None)
    case _ => None
  }

  /** The journal the process holds is an open one for its own peer. */
  predicate Adopted(pc: Pc) {
    match pc
    case Loading | Acquiring => false
    case Saving(write, _) => !write.WAcquire?
    case _ => true
  }

  predicate BeforeGap(pc: Pc) { pc.Check? || pc.Budget? || (pc.Saving? && (pc.write.WStatus? || pc.write.WGap?)) }

  /** The recovery point is chosen and has to be there. */
  predicate BackedUp(pc: Pc) { pc.Upgrade? || (pc.Saving? && pc.write.WUpgrading?) }

  predicate StartsRollback(pc: Pc) { pc.Rollback? || (pc.Saving? && pc.write.WRestoring?) }

  predicate BeforeUpgrade(pc: Pc) {
    match pc
    case Loading | Acquiring | Check | Budget | Prepare | CreateBackup | AwaitBackup | Upgrade => true
    case Saving(write, _) =>
      write.WAcquire? || write.WStatus? || write.WGap? || write.WBackupId? || write.WUpgrading?
    case _ => false
  }

  /** The update path once the host was told to upgrade. */
  predicate AfterUpgrade(pc: Pc) {
    match pc
    case AwaitReboot => true
    case Ready(r) => !r
    case CatchUp(r) => !r
    case Observe(r) => !r
    case Activate(r) => !r
    case MarkVerified(r) => !r
    case Saving(write, _) => write.WValidating? || write.WIdle?
    case _ => false
  }

  predicate OnUpdatePath(pc: Pc) { AfterUpgrade(pc) || (BeforeUpgrade(pc) && Adopted(pc)) }

  predicate IsRepaired(pc: Pc) { pc.Observe? || pc.Activate? || pc.ReviveActivate? || pc.RestartActivate? }

  predicate IsActivated(pc: Pc) { pc.MarkVerified? || (pc.Saving? && (pc.write.WIdle? || pc.write.WRolledBack?)) }

  // ----- the invariant, piece by piece -----

  /** No write of this author can take effect any more, except the one given. */
  predicate Quiet(w: World, s: Side, except: Option<Journal>) {
    forall r | r in w.requests && r.author == s && r.etag == w.etag :: except == Some(r.updated)
  }

  predicate RequestFits(w: World, r: Request) {
    && r.etag <= w.etag && (r.etag == w.etag ==> r.before == w.journal)
    && (if r.write.WAcquire? then r.before.phase.Idle? else IsOpen(r.before, Peer(r.author)))
    && r.updated == Change(r.before, r.author, r.run, r.write, r.updated.gapStart, r.updated.stamp)
    && r.updated.stamp <= w.stamp
  }

  predicate Requests(w: World) { forall r | r in w.requests :: RequestFits(w, r) }

  function Recoverable(w: World, j: Journal): bool { NeedsBackup(j.phase) ==> j.backupId.Some? && j.backupId.value in w.available }

  /** From the preparation on the journal remembers since when data may be missing. */
  predicate HasGap(j: Journal) { NeedsBackup(j.phase) || j.phase.BackingUp? ==> j.gapStart.Some? }

  /** The host was upgraded and later taken back into service by the owner of a maintenance. */
  predicate Validated(log: seq<Event>, owner: nat) {
    exists i, k | 0 <= i < k < |log| :: UpgradedBy(log[i], owner) && ValidatedBy(log[k], owner)
  }

  predicate UpgradedBy(e: Event, owner: nat) { e.command.CUpgrade? && e.owner == owner }

  predicate ValidatedBy(e: Event, owner: nat) { e.command.CActivate? && e.owner == owner && e.journal.phase.Validating? }

  /** What a write that can still take effect would do no harm to. */
  predicate Harmless(w: World, r: Request) {
    && Recoverable(w, r.updated) && HasGap(r.updated)
    && (r.write.WIdle? ==> NodeAt(w, Peer(r.author)).withheld.None? && r.before.phase.Validating? && Validated(w.log, r.before.owner))
    && (r.write.WGap? ==> r.before.gapStart.None?)
  }

  predicate LiveRequests(w: World) { forall r | r in w.requests && r.etag == w.etag :: Harmless(w, r) }

  predicate CoversGap(gap: Option<int>, withheld: Option<int>) {
    withheld.Some? ==> gap.Some? && gap.value <= withheld.value
  }

  /** A host is out of service only under an open journal that remembers since when. */
  predicate Withheld(w: World) {
    forall s: Side | NodeAt(w, Peer(s)).withheld.Some? ::
      IsOpen(w.journal, Peer(s)) && CoversGap(w.journal.gapStart, NodeAt(w, Peer(s)).withheld)
  }

  predicate JournalFits(w: World) { w.journal.stamp <= w.stamp && Recoverable(w, w.journal) && HasGap(w.journal) }

  /** An open journal is written for its target's peer only, and closed only after validation. */
  predicate CommitFits(w: World, c: Commit) {
    && c.updated.stamp <= w.stamp
    && (!c.before.phase.Idle? ==> c.before.target == Some(Peer(c.author)))
    && (c.updated.phase.Idle? ==> c.before.phase.Validating? && Validated(w.log, c.before.owner))
  }

  predicate Commits(w: World) { forall c | c in w.commits :: CommitFits(w, c) }

  /** Destructive commands are sent under the right journal, activation after a catch-up that
      reaches back before the host was withheld. */
  predicate EventFits(e: Event) {
    && (!e.command.CActivate? ==> IsOpen(e.journal, e.target) && e.journal.owner == e.owner)
    && (e.command.CUpgrade? ==> e.journal.phase.Upgrading? && e.journal.backupId.Some? && e.journal.backupId.value in e.available)
    && (e.command.CPrepare? ==> e.journal.phase.BackingUp? && e.journal.gapStart.Some?)
    && (e.command.CRestore? ==> e.journal.phase.Restoring? && e.journal.backupId.Some? && e.journal.backupId.value in e.available)
    && (e.command.CActivate? ==> CoversGap(e.node.repaired, e.node.withheld))
  }

  predicate Log(w: World) {
    && (forall e | e in w.log :: EventFits(e))
    && (forall e | e in w.log && e.command.CUpgrade? :: e.owner < w.nextRun)
    && (forall i, k | 0 <= i < k < |w.log| && w.log[i].command.CUpgrade? && w.log[k].command.CUpgrade? :: w.log[i].owner != w.log[k].owner)
  }

  predicate Runs(w: World) {
    && (forall s: Side :: At(w, s).Up? ==> At(w, s).run < w.nextRun)
    && (forall s: Side | At(w, s).Up? && At(w, Peer(s)).Up? :: Apart(At(w, s), At(w, Peer(s))))
  }

  predicate Apart(p: Proc, q: Proc)
    requires p.Up? && q.Up?
  {
    p.run != q.run && (p.pc.Saving? && q.pc.Saving? ==> p.pc.updated.stamp != q.pc.updated.stamp)
  }

  /** The write a process waits for. */
  predicate Pending(w: World, s: Side, p: Proc)
    requires p.Up? && p.pc.Saving?
  {
    var u := p.pc.updated;
    && u == Change(p.state, s, p.run, p.pc.write, u.gapStart, u.stamp) && p.state.stamp < u.stamp <= w.stamp
    && (forall r | r in w.requests && r.updated == u :: r.author == s)
    && (IsCommitted(w, u) && !u.phase.Idle? ==> w.journal == u && Quiet(w, s, None))
    && (p.pc.write.WGap? ==> u.gapStart.Some? && u.gapStart.value <= w.now)
  }

  /** An owner's state is the journal, until the write it waits for takes effect. */
  predicate Holding(w: World, s: Side, p: Proc)
    requires p.Up?
  {
    if p.pc.Saving? then !IsCommitted(w, p.pc.updated) ==> w.journal == p.state && Quiet(w, s, Some(p.pc.updated))
    else w.journal == p.state && Quiet(w, s, None)
  }

  /** What a process knows of its own state. */
  predicate Knows(w: World, s: Side, p: Proc)
    requires p.Up?
  {
    && p.state.stamp <= w.stamp && HasGap(p.state)
    && (Adopted(p.pc) ==> IsOpen(p.state, Peer(s)))
    && (PhaseAt(p.pc).Some? ==> p.state.phase == PhaseAt(p.pc).value)
    && (BeforeGap(p.pc) ==> p.state.gapStart.None?)
    && (p.pc.Prepare? ==> p.state.gapStart.Some? && p.state.gapStart.value <= w.now)
    && (StartsRollback(p.pc) ==> NeedsBackup(p.state.phase))
    && (p.pc.Saving? && p.pc.write.WFailure? ==> !p.state.phase.Blocked?)
    && (OnUpdatePath(p.pc) ==> p.state.owner == p.run)
  }

  /** What a process knows of its host. */
  predicate Tends(w: World, s: Side, p: Proc)
    requires p.Up?
  {
    var node := NodeAt(w, Peer(s));
    && (Adopted(p.pc) ==> CoversGap(p.state.gapStart, node.withheld))
    && (IsRepaired(p.pc) ==> CoversGap(node.repaired, node.withheld))
    && (IsActivated(p.pc) ==> node.withheld.None?)
    && (BackedUp(p.pc) ==> p.state.backupId.Some? && p.state.backupId.value in w.available)
  }

  /** What a process has done. */
  predicate HasDone(w: World, s: Side, p: Proc)
    requires p.Up?
  {
    && (BeforeUpgrade(p.pc) ==> forall e | e in w.log :: !UpgradedBy(e, p.run))
    && (AfterUpgrade(p.pc) ==> exists e | e in w.log :: UpgradedBy(e, p.run))
    && (AfterUpgrade(p.pc) && IsActivated(p.pc) ==> Validated(w.log, p.run))
  }

  predicate Sound(w: World, s: Side) {
    var p := At(w, s);
    p.Up? ==>
      && Knows(w, s, p) && Tends(w, s, p) && HasDone(w, s, p)
      && (p.pc.Saving? ==> Pending(w, s, p)) && (Owns(p.pc) ==> Holding(w, s, p))
  }

  predicate Safe(w: World) {
    && Requests(w) && LiveRequests(w) && Withheld(w) && JournalFits(w) && Commits(w) && Log(w) && Runs(w)
    && forall s: Side :: Sound(w, s)
  }

  // ----- frames -----

  lemma ValidatedStays(log: seq<Event>, more: seq<Event>, owner: nat)
    requires Validated(log, owner)
    ensures Validated(log + more, owner)
  {
    var i, k :| 0 <= i < k < |log| && UpgradedBy(log[i], owner) && ValidatedBy(log[k], owner);
    assert UpgradedBy((log + more)[i], owner) && ValidatedBy((log + more)[k], owner);
  }

  /** The tables a process step other than a write leaves alone, as seen by a process. */
  predicate Undisturbed(w: World, v: World, s: Side) {
    && At(v, s) == At(w, s) && NodeAt(v, Peer(s)) == NodeAt(w, Peer(s))
    && v.journal == w.journal && v.etag == w.etag && v.requests == w.requests && v.commits == w.commits
    && v.now >= w.now && v.stamp >= w.stamp && w.log <= v.log
  }

  lemma UndisturbedStaysSound(w: World, v: World, s: Side)
    requires Sound(w, s) && Undisturbed(w, v, s)
    requires At(w, s).Up? && BackedUp(At(w, s).pc) ==> forall id | id in w.available && At(w, s).state.backupId == Some(id) :: id in v.available
    requires forall e | e in v.log[|w.log|..] && At(w, s).Up? :: !UpgradedBy(e, At(w, s).run)
    ensures Sound(v, s)
  {
    var p := At(w, s);
    if p.Up? {
      assert v.log == w.log + v.log[|w.log|..];
      if AfterUpgrade(p.pc) && IsActivated(p.pc) { ValidatedStays(w.log, v.log[|w.log|..], p.run); }
      assert Knows(v, s, p) && Tends(v, s, p);
      hide Knows, Tends, Validated, Undisturbed;
      assert HasDone(v, s, p);
    }
  }

  /** The shared tables, everything but the two processes. */
  predicate Shared(w: World) {
    Requests(w) && LiveRequests(w) && Withheld(w) && JournalFits(w) && Commits(w) && Log(w)
  }

  /** Nothing shared changes but time, the version and the backups that appear. */
  lemma CalmStepKeepsShared(w: World, v: World)
    requires Shared(w)
    requires v.journal == w.journal && v.requests == w.requests && v.commits == w.commits && v.nodes == w.nodes && v.log == w.log
    requires w.available <= v.available && v.stamp >= w.stamp && v.now >= w.now && v.nextRun >= w.nextRun && v.etag >= w.etag
    ensures Shared(v)
  {
    assert Requests(v) by { assert forall r | r in w.requests :: RequestFits(w, r); }
    assert LiveRequests(v) by { hide Validated, Recoverable; assert forall r | r in w.requests && r.etag == w.etag :: Harmless(w, r) && Recoverable(v, r.updated); }
  }

  lemma RunsStay(w: World, v: World, s: Side)
    requires Runs(w) && v.nextRun >= w.nextRun && At(v, Peer(s)) == At(w, Peer(s))
    requires At(v, s).Up? ==> At(v, s).run < v.nextRun
    requires At(v, s).Up? && At(v, Peer(s)).Up? ==> Apart(At(v, s), At(v, Peer(s)))
    ensures Runs(v)
  {
    forall o: Side | At(v, o).Up?
      ensures At(v, o).run < v.nextRun
      ensures At(v, Peer(o)).Up? ==> Apart(At(v, o), At(v, Peer(o)))
    {
      if o != s { assert o == Peer(s); }
      if At(w, o).Up? && At(w, Peer(o)).Up? { assert Apart(At(w, o), At(w, Peer(o))); }
    }
  }

  lemma Assemble(v: World, s: Side)
    requires Shared(v) && Runs(v) && Sound(v, s) && Sound(v, Peer(s))
    ensures Safe(v)
  {
    hide Sound, Runs, Requests, LiveRequests, Withheld, JournalFits, Commits, Log;
    forall o: Side ensures Sound(v, o) { assert o == s || o == Peer(s); }
  }

  // ----- steps of the surroundings -----

  lemma EditKeepsSound(w: World, s: Side)
    requires Sound(w, s) && Requests(w)
    ensures Sound(w.(etag := w.etag + 1), s)
  {
    var v := w.(etag := w.etag + 1);
    var p := At(w, s);
    assert forall r | r in w.requests :: RequestFits(w, r);
    if p.Up? {
      assert forall j :: IsCommitted(v, j) == IsCommitted(w, j);
      assert Quiet(v, s, None);
      assert Knows(v, s, p) && Tends(v, s, p) && HasDone(v, s, p);
    }
  }

  lemma SurroundingsKeepSound(w: World, step: Step, s: Side)
    requires Safe(w) && (step.EditStep? || step.BackupStep? || step.WaitStep?)
    ensures Sound(Next(w, step), s)
  {
    hide Requests, LiveRequests, Withheld, JournalFits, Commits, Log, Runs, Sound;
    assert Sound(w, s);
    if step.EditStep? {
      EditKeepsSound(w, s);
    } else {
      UndisturbedStaysSound(w, Next(w, step), s);
    }
  }

  lemma SurroundingsKeepSafe(w: World, step: Step)
    requires Safe(w) && (step.EditStep? || step.BackupStep? || step.WaitStep?)
    ensures Safe(Next(w, step))
  {
    var v := Next(w, step);
    hide Requests, LiveRequests, Withheld, JournalFits, Commits, Log, Sound;
    CalmStepKeepsShared(w, v);
    SurroundingsKeepSound(w, step, North);
    SurroundingsKeepSound(w, step, South);
    assert Runs(v) by {
      if At(w, North).Up? && At(w, Peer(North)).Up? { assert Apart(At(w, North), At(w, Peer(North))); }
      RunsStay(w, v, North);
    }
    hide Shared, Runs;
    Assemble(v, North);
  }

  lemma StartOrCrashKeepsSafe(w: World, s: Side, act: Act)
    requires Safe(w) && CanAct(w, s, act) && (act.Start? || act.Crash?)
    ensures Safe(ActOf(w, s, act))
  {
    var v := ActOf(w, s, act);
    CalmStepKeepsShared(w, v);
    assert Sound(w, Peer(s));
    UndisturbedStaysSound(w, v, Peer(s));
    hide Requests, LiveRequests, Withheld, JournalFits, Commits;
    assert Sound(v, s) by { assert forall e | e in w.log && e.command.CUpgrade? :: e.owner < w.nextRun; }
    assert At(w, Peer(s)).Up? ==> At(w, Peer(s)).run < w.nextRun;
    hide Sound, Log;
    RunsStay(w, v, s);
    hide Shared, Runs;
    Assemble(v, s);
  }

  // ----- a write is sent, takes effect, returns or raises -----

  lemma SendKeepsSafe(w: World, s: Side)
    requires Safe(w) && CanAct(w, s, Send)
    ensures Safe(ActOf(w, s, Send))
  {
    SentFits(w, s);
    SendKeepsOwn(w, s);
    SendKeepsOther(w, s);
    var v := ActOf(w, s, Send);
    assert Shared(v) by { hide RequestFits, Harmless, Sound; }
    assert Runs(v) by {
      if At(w, Peer(s)).Up? { assert Apart(At(w, s), At(w, Peer(s))); }
      RunsStay(w, v, s);
    }
    hide Shared, Sound, Runs;
    Assemble(v, s);
  }

  function Sent(w: World, s: Side): Request
    requires CanAct(w, s, Send)
  {
    var p := At(w, s);
    Request(w.etag, s, p.run, p.pc.write, p.state, p.pc.updated)
  }

  lemma SentRequestFits(w: World, s: Side)
    requires CanAct(w, s, Send) && Knows(w, s, At(w, s)) && Pending(w, s, At(w, s))
    ensures RequestFits(w, Sent(w, s))
  {
    hide IsCommitted, Quiet, BeforeGap, StartsRollback, OnUpdatePath;
  }

  lemma SentIsHarmless(w: World, s: Side)
    requires CanAct(w, s, Send) && Knows(w, s, At(w, s)) && Tends(w, s, At(w, s)) && HasDone(w, s, At(w, s)) && Pending(w, s, At(w, s))
    requires JournalFits(w)
    ensures Harmless(w, Sent(w, s))
  {
    hide IsCommitted, Quiet, Validated;
  }

  lemma SentFits(w: World, s: Side)
    requires Safe(w) && CanAct(w, s, Send)
    ensures var v := ActOf(w, s, Send); Requests(v) && LiveRequests(v)
  {
    var v := ActOf(w, s, Send);
    hide RequestFits, Harmless, Withheld, Commits, Log, Runs;
    assert Sound(w, s);
    SentRequestFits(w, s);
    SentIsHarmless(w, s);
    hide JournalFits, Knows, Tends, HasDone, Pending, Holding, Sound;
    assert v.requests == w.requests + [Sent(w, s)];
    forall x | x in v.requests ensures RequestFits(v, x) && (x.etag == v.etag ==> Harmless(v, x)) {
      if x != Sent(w, s) { assert x in w.requests; }
      SentChangesNoFit(w, s, x);
    }
  }

  lemma SentChangesNoFit(w: World, s: Side, r: Request)
    requires CanAct(w, s, Send)
    ensures RequestFits(ActOf(w, s, Send), r) == RequestFits(w, r)
    ensures Harmless(ActOf(w, s, Send), r) == Harmless(w, r)
  {
    hide Validated;
  }

  lemma SendKeepsOwn(w: World, s: Side)
    requires Safe(w) && CanAct(w, s, Send)
    ensures Sound(ActOf(w, s, Send), s)
  {
    var v := ActOf(w, s, Send);
    var p := At(w, s);
    assert Sound(w, s);
    hide Requests, LiveRequests, Withheld, JournalFits, Commits, Log, Runs;
    assert Knows(v, s, p) && Tends(v, s, p) && HasDone(v, s, p);
    hide Knows, Tends, HasDone;
    assert Quiet(w, s, Some(p.pc.updated)) ==> Quiet(v, s, Some(p.pc.updated));
    assert Pending(v, s, p);
    assert Owns(p.pc) ==> Holding(v, s, p);
  }

  lemma SendKeepsOther(w: World, s: Side)
    requires Safe(w) && CanAct(w, s, Send)
    ensures Sound(ActOf(w, s, Send), Peer(s))
  {
    var v := ActOf(w, s, Send);
    var q := At(w, Peer(s));
    assert Sound(w, Peer(s));
    hide Requests, LiveRequests, Withheld, JournalFits, Commits, Log;
    if q.Up? {
      assert Apart(At(w, s), q);
      hide Runs;
      assert Knows(v, Peer(s), q) && Tends(v, Peer(s), q) && HasDone(v, Peer(s), q);
      hide Knows, Tends, HasDone;
      assert forall e :: Quiet(w, Peer(s), e) ==> Quiet(v, Peer(s), e);
      assert q.pc.Saving? ==> Pending(v, Peer(s), q);
    }
  }

  /** No request can take effect after one has. */
  lemma CommitSilences(w: World, r: Request)
    requires Requests(w) && r in w.requests && r.etag == w.etag
    ensures Requests(Committed(w, r)) && LiveRequests(Committed(w, r))
    ensures forall s: Side, e: Option<Journal> :: Quiet(Committed(w, r), s, e)
  {
    var v := Committed(w, r);
    assert forall x | x in w.requests :: RequestFits(w, x);
    assert forall x | x in w.requests :: x.etag < v.etag && RequestFits(v, x);
  }

  lemma CommitKeepsShared(w: World, r: Request)
    requires Shared(w) && r in w.requests && r.etag == w.etag
    ensures Shared(Committed(w, r))
  {
    var v := Committed(w, r);
    assert RequestFits(w, r) && Harmless(w, r);
    CommitSilences(w, r);
    hide Requests, LiveRequests, Quiet;
    forall c | c in v.commits ensures CommitFits(v, c) {
      if c in w.commits { assert CommitFits(w, c); }
    }
    hide Validated;
    assert Withheld(v);
  }

  /** Another's write takes effect only while nobody of this side holds an open journal. */
  lemma CommitKeepsSound(w: World, r: Request, s: Side)
    requires Safe(w) && r in w.requests && r.etag == w.etag
    ensures Sound(Committed(w, r), s)
  {
    var v := Committed(w, r);
    var p := At(w, s);
    assert Sound(w, s);
    assert RequestFits(w, r);
    CommitSilences(w, r);
    hide LiveRequests, Withheld, JournalFits, Commits, Log, Runs;
    if p.Up? {
      assert Knows(v, s, p) && Tends(v, s, p) && HasDone(v, s, p);
      hide Tends, HasDone;
      CommitSeen(w, r);
      if p.pc.Saving? { PendingAfterCommit(w, r, s); }
      if Owns(p.pc) { HoldingAfterCommit(w, r, s); }
    }
  }

  lemma CommitSeen(w: World, r: Request)
    ensures forall j :: IsCommitted(Committed(w, r), j) <==> IsCommitted(w, j) || j == r.updated
  {
    var v := Committed(w, r);
    forall j ensures IsCommitted(v, j) <==> IsCommitted(w, j) || j == r.updated {
      if IsCommitted(w, j) {
        var c :| c in w.commits && c.updated == j;
        assert c in v.commits;
      }
      assert Commit(r.author, w.journal, r.updated) in v.commits;
    }
  }

  lemma PendingAfterCommit(w: World, r: Request, s: Side)
    requires Safe(w) && r in w.requests && r.etag == w.etag && At(w, s).Up? && At(w, s).pc.Saving?
    ensures Pending(Committed(w, r), s, At(w, s))
  {
    var v := Committed(w, r);
    var p := At(w, s);
    assert Sound(w, s) && RequestFits(w, r);
    CommitSilences(w, r);
    CommitSeen(w, r);
    assert IsCommitted(w, p.pc.updated) ==> p.pc.updated.phase.Idle? by { LiveMeansUncommitted(w, r, s); }
    hide Requests, LiveRequests, Withheld, JournalFits, Commits, Log, Runs, Knows, Tends, HasDone, Holding, IsCommitted, Quiet, RequestFits, Change;
  }

  /** While a request is live the write a process waits for has not taken effect. */
  lemma LiveMeansUncommitted(w: World, r: Request, s: Side)
    requires RequestFits(w, r) && r in w.requests && r.etag == w.etag
    requires At(w, s).Up? && At(w, s).pc.Saving? && Knows(w, s, At(w, s)) && Pending(w, s, At(w, s))
    ensures IsCommitted(w, At(w, s).pc.updated) ==> At(w, s).pc.updated.phase.Idle?
  {
    hide IsCommitted, PhaseAt, BeforeGap, StartsRollback, OnUpdatePath;
  }

  lemma HoldingAfterCommit(w: World, r: Request, s: Side)
    requires Safe(w) && r in w.requests && r.etag == w.etag && At(w, s).Up? && Owns(At(w, s).pc)
    ensures Holding(Committed(w, r), s, At(w, s))
  {
    var v := Committed(w, r);
    var p := At(w, s);
    assert Sound(w, s) && RequestFits(w, r);
    CommitSilences(w, r);
    CommitSeen(w, r);
    hide LiveRequests, Withheld, JournalFits, Commits, Log, Runs, Tends, HasDone, Pending, IsCommitted;
    if !(p.pc.Saving? && IsCommitted(w, p.pc.updated)) {
      assert IsOpen(w.journal, Peer(s));
      assert r.author == s;
    }
  }

  lemma CommitKeepsSafe(w: World, r: Request)
    requires Safe(w) && r in w.requests && r.etag == w.etag
    ensures Safe(Committed(w, r))
  {
    var v := Committed(w, r);
    CommitKeepsShared(w, r);
    CommitKeepsSound(w, r, North);
    CommitKeepsSound(w, r, South);
    assert Runs(v) by {
      hide Shared, Sound;
      if At(w, North).Up? && At(w, South).Up? { assert Apart(At(w, North), At(w, South)); }
      RunsStay(w, v, North);
    }
    hide Shared, Sound, Runs;
    Assemble(v, North);
  }

  lemma ReturnedKnows(w: World, s: Side, p: Proc)
    requires p.Up? && p.pc.Saving? && SaveReturned(p).Up? && Knows(w, s, p) && Pending(w, s, p)
    ensures Knows(w, s, SaveReturned(p))
  {
    hide Quiet, IsCommitted;
  }

  lemma ReturnedTends(w: World, s: Side, p: Proc)
    requires p.Up? && p.pc.Saving? && SaveReturned(p).Up? && Knows(w, s, p) && Pending(w, s, p) && Tends(w, s, p)
    requires Withheld(w) && IsCommitted(w, p.pc.updated)
    ensures Tends(w, s, SaveReturned(p))
  {
    hide Quiet, IsCommitted;
    assert NodeAt(w, Peer(s)).withheld.Some? ==> CoversGap(w.journal.gapStart, NodeAt(w, Peer(s)).withheld);
    hide Withheld;
    if p.pc.write.WAcquire? || p.pc.write.WStatus? || p.pc.write.WGap? || p.pc.write.WBackupId? || p.pc.write.WUpgrading? {
      assert CoversGap(p.pc.updated.gapStart, NodeAt(w, Peer(s)).withheld);
    }
  }

  lemma ReturnedHasDone(w: World, s: Side, p: Proc)
    requires p.Up? && p.pc.Saving? && SaveReturned(p).Up? && HasDone(w, s, p)
    ensures HasDone(w, s, SaveReturned(p))
  {
    hide UpgradedBy, Validated;
  }

  lemma ReturnedHolds(w: World, s: Side, p: Proc)
    requires p.Up? && p.pc.Saving? && SaveReturned(p).Up? && Pending(w, s, p) && Knows(w, s, p)
    requires IsCommitted(w, p.pc.updated)
    ensures Owns(SaveReturned(p).pc) ==> Holding(w, s, SaveReturned(p))
  {
    hide Quiet, IsCommitted;
  }

  lemma SameClockSameKnowledge(w: World, v: World, s: Side, p: Proc)
    requires p.Up? && Knows(w, s, p) && v.stamp == w.stamp && v.now == w.now
    ensures Knows(v, s, p)
  {
    hide Owns, Adopted, PhaseAt, BeforeGap, StartsRollback, OnUpdatePath;
  }

  lemma SameHostSameCare(w: World, v: World, s: Side, p: Proc)
    requires p.Up? && Tends(w, s, p) && NodeAt(v, Peer(s)) == NodeAt(w, Peer(s))
    requires BackedUp(p.pc) && p.state.backupId.Some? && p.state.backupId.value in w.available ==> p.state.backupId.value in v.available
    ensures Tends(v, s, p)
  {
    hide Adopted, IsRepaired, IsActivated, BackedUp, CoversGap;
  }

  lemma ReturnedIsIdle(p: Proc)
    requires p.Up? && p.pc.Saving? && SaveReturned(p).Up?
    ensures !SaveReturned(p).pc.Saving?
  {
  }

  /** A process of a world that differs in the processes only is as sound as there. */
  lemma SameWorldSameSoundness(w: World, v: World, s: Side, p: Proc)
    requires v == w.(procs := v.procs, stamp := v.stamp, nextRun := v.nextRun) && v.stamp >= w.stamp && p.Up? && At(v, s) == p
    requires Knows(w, s, p) && Tends(w, s, p) && HasDone(w, s, p) && (Owns(p.pc) ==> Holding(w, s, p)) && !p.pc.Saving?
    ensures Sound(v, s)
  {
    hide UpgradedBy, Validated, Owns, Adopted, PhaseAt, BeforeGap, StartsRollback, OnUpdatePath, IsRepaired, IsActivated, BackedUp, BeforeUpgrade, AfterUpgrade;
  }

  lemma ReturnKeepsOwn(w: World, s: Side)
    requires Safe(w) && CanAct(w, s, Return)
    ensures Sound(ActOf(w, s, Return), s)
  {
    var v := ActOf(w, s, Return);
    var p := At(w, s);
    hide Requests, LiveRequests, Withheld, JournalFits, Commits, Log, Runs, Knows, Tends, HasDone, Pending, Holding, IsCommitted;
    hide SaveReturned, Owns;
    assert Sound(w, s);
    if SaveReturned(p).Up? {
      ReturnedKnows(w, s, p);
      ReturnedTends(w, s, p);
      ReturnedHasDone(w, s, p);
      ReturnedHolds(w, s, p);
      ReturnedIsIdle(p);
      SameWorldSameSoundness(w, v, s, SaveReturned(p));
    }
  }

  lemma ReturnKeepsSafe(w: World, s: Side)
    requires Safe(w) && CanAct(w, s, Return)
    ensures Safe(ActOf(w, s, Return))
  {
    var v := ActOf(w, s, Return);
    hide Requests, LiveRequests, Withheld, JournalFits, Commits, Log, Runs, Sound, IsCommitted, SaveReturned;
    ReturnKeepsOwn(w, s);
    ReturnKeepsRuns(w, s);
    CalmStepKeepsShared(w, v);
    UndisturbedStaysSound(w, v, Peer(s));
    Assemble(v, s);
  }

  lemma ReturnKeepsRuns(w: World, s: Side)
    requires Safe(w) && CanAct(w, s, Return)
    ensures Runs(ActOf(w, s, Return))
  {
    hide Requests, LiveRequests, Withheld, JournalFits, Commits, Log, Sound;
    if At(w, Peer(s)).Up? { assert Apart(At(w, s), At(w, Peer(s))); }
    RunsStay(w, ActOf(w, s, Return), s);
  }

  // ----- a write begins -----

  /** Only time, stamps, hosts and backups differ: the journal and its writes are the same. */
  predicate SameWrites(w: World, v: World) {
    v.journal == w.journal && v.etag == w.etag && v.requests == w.requests && v.commits == w.commits && v.now == w.now
  }

  lemma SaveIsPending(w: World, v: World, s: Side, p: Proc, write: Write)
    requires p.Up? && p.state.stamp <= w.stamp && Requests(w) && Commits(w) && SameWrites(w, v) && v.stamp == w.stamp + 1
    ensures Pending(v, s, Save(p, s, write, w)) && !IsCommitted(v, Save(p, s, write, w).pc.updated)
  {
    var u := Save(p, s, write, w).pc.updated;
    assert u.stamp == w.stamp + 1;
    forall c | c in v.commits ensures c.updated != u { assert CommitFits(w, c); }
    forall r | r in v.requests ensures r.updated != u { assert RequestFits(w, r); }
  }

  lemma SaveHolds(w: World, v: World, s: Side, p: Proc, write: Write)
    requires p.Up? && w.journal == p.state && Quiet(w, s, None) && SameWrites(w, v)
    ensures Holding(v, s, Save(p, s, write, w))
  {
  }

  lemma SaveIsApart(w: World, s: Side, p: Proc, write: Write)
    requires p.Up? && Safe(w) && At(w, s).Up? && p.run == At(w, s).run && At(w, Peer(s)).Up?
    ensures Apart(Save(p, s, write, w), At(w, Peer(s)))
  {
    assert Sound(w, Peer(s)) && Apart(At(w, s), At(w, Peer(s)));
    hide Requests, LiveRequests, Withheld, JournalFits, Commits, Log, Knows, Tends, HasDone, Holding;
  }

  // ----- a write raises -----

  lemma RaisedKnows(w: World, s: Side, p: Proc)
    requires p.Up? && p.pc.Saving? && SaveRaised(p, s, w).Up? && Knows(w, s, p)
    ensures Knows(w.(stamp := w.stamp + 1), s, SaveRaised(p, s, w))
  {
  }

  lemma RaisedTends(w: World, s: Side, p: Proc)
    requires p.Up? && p.pc.Saving? && SaveRaised(p, s, w).Up? && Tends(w, s, p)
    ensures Tends(w, s, SaveRaised(p, s, w))
  {
  }

  lemma RaisedWrites(w: World, v: World, s: Side, p: Proc)
    requires p.Up? && p.pc.Saving? && p.state.stamp <= w.stamp && Requests(w) && Commits(w) && SameWrites(w, v) && v.stamp == w.stamp + 1
    ensures var q := SaveRaised(p, s, w); q.Up? ==>
      (q.pc.Saving? ==> Pending(v, s, q)) && !Owns(q.pc) && !BeforeUpgrade(q.pc) && !AfterUpgrade(q.pc)
  {
    SaveIsPending(w, v, s, p, WFailure);
    SaveIsPending(w, v, s, p, WRecoveryFailed);
    hide Pending, Requests, Commits;
  }

  lemma RaiseKeepsOwn(w: World, s: Side)
    requires Safe(w) && CanAct(w, s, Raise)
    ensures Sound(ActOf(w, s, Raise), s)
  {
    var v := ActOf(w, s, Raise);
    var p := At(w, s);
    var q := SaveRaised(p, s, w);
    hide Requests, LiveRequests, Withheld, JournalFits, Commits, Log, Runs, Holding, Pending;
    assert Sound(w, s);
    assert Knows(w, s, p);
    RaisedWrites(w, v, s, p);
    if q.Up? {
      RaisedKnows(w, s, p);
      RaisedTends(w, s, p);
      hide SaveRaised;
      SameClockSameKnowledge(w.(stamp := w.stamp + 1), v, s, q);
      SameHostSameCare(w, v, s, q);
      hide Knows, Tends, Owns;
      assert HasDone(v, s, q);
    }
  }

  lemma RaiseKeepsRuns(w: World, s: Side)
    requires Safe(w) && CanAct(w, s, Raise)
    ensures Runs(ActOf(w, s, Raise))
  {
    var v := ActOf(w, s, Raise);
    var p := At(w, s);
    hide Requests, LiveRequests, Withheld, JournalFits, Commits, Log, Sound, Apart;
    if At(w, Peer(s)).Up? {
      assert Apart(p, At(w, Peer(s)));
      SaveIsApart(w, s, p, WFailure);
      SaveIsApart(w, s, p, WRecoveryFailed);
      IdlersStayApart(w, s);
    }
    RunsStay(w, v, s);
  }

  /** A process that waits for no write is apart as soon as the runs differ. */
  lemma IdlersStayApart(w: World, s: Side)
    requires At(w, s).Up? && At(w, s).pc.Saving? && At(w, Peer(s)).Up? && Apart(At(w, s), At(w, Peer(s)))
    ensures var q := SaveRaised(At(w, s), s, w); q.Up? && !q.pc.Saving? ==> Apart(q, At(w, Peer(s)))
  {
  }

  lemma RaiseKeepsSafe(w: World, s: Side)
    requires Safe(w) && CanAct(w, s, Raise)
    ensures Safe(ActOf(w, s, Raise))
  {
    var v := ActOf(w, s, Raise);
    hide Requests, LiveRequests, Withheld, JournalFits, Commits, Log, Runs, Sound, SaveRaised;
    RaiseKeepsOwn(w, s);
    RaiseKeepsRuns(w, s);
    CalmStepKeepsShared(w, v);
    UndisturbedStaysSound(w, v, Peer(s));
    Assemble(v, s);
  }
}
