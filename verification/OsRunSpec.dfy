/** Two controllers, each patching the other's host under one shared journal. Every command to a
    host or to the cloud and every half of a journal write is one step; a process may die between
    any two of them, and an old write may still take effect later. */
module OsRunSpec {
  import opened Wrappers

  datatype Side = North | South

  function Peer(s: Side): Side { if s.North? then South else North }

  datatype Phase = Idle | Checking | BackingUp | Upgrading | Validating | Restoring | RollbackValidation | Blocked

  /** owner: the process that acquired the maintenance; stamp: when the entry was written. */
  datatype Journal = Journal(
    phase: Phase, owner: nat, target: Option<Side>, backupId: Option<nat>, recovery: Option<nat>, gapStart: Option<int>, stamp: nat)

  const UNUSED := Journal(Idle, 0, None, None, None, None, 0)

  /** The phases in which only the saved backup can bring the host back. */
  predicate NeedsBackup(phase: Phase) {
    phase.Upgrading? || phase.Validating? || phase.Restoring? || phase.RollbackValidation?
  }

  predicate IsOpen(j: Journal, target: Side) { !j.phase.Idle? && j.target == Some(target) }

  datatype Write =
    | WAcquire | WStatus | WGap | WBackupId(id: nat) | WUpgrading | WValidating | WIdle | WFailure
    | WRestoring | WRecovery(id: nat) | WRollbackValidation | WRolledBack | WRecoveryFailed | WRestartFailed
    | WInterrupted | WPreUpdateFailed

  /** What a write makes of the caller's state; gap is used by WGap only. */
  function Change(j: Journal, author: Side, run: nat, write: Write, gap: Option<int>, stamp: nat): Journal {
    match write
    case WAcquire => Journal(Checking, run, Some(Peer(author)), None, None, None, stamp)
    case WGap => j.(phase := BackingUp, gapStart := gap, stamp := stamp)
    case WBackupId(id) => j.(backupId := Some(id), stamp := stamp)
    case WUpgrading => j.(phase := Upgrading, stamp := stamp)
    case WValidating => j.(phase := Validating, stamp := stamp)
    case WIdle => j.(phase := Idle, owner := 0, target := None, stamp := stamp)
    case WRestoring => j.(phase := Restoring, stamp := stamp)
    case WRecovery(id) => j.(recovery := Some(id), stamp := stamp)
    case WRollbackValidation => j.(phase := RollbackValidation, stamp := stamp)
    case WRolledBack | WRecoveryFailed | WInterrupted | WPreUpdateFailed => j.(phase := Blocked, stamp := stamp)
    case WStatus | WFailure | WRestartFailed => j.(stamp := stamp)
  }

  datatype Pc =
    | Loading
    | Acquiring
    // an earlier process died before the upgrade
    | Revive | ReviveCatchUp | ReviveActivate
    // the update
    | Check | Budget | Prepare | CreateBackup | AwaitBackup | Upgrade | AwaitReboot
    // validation, of the update or of a rollback
    | Ready(rollback: bool) | CatchUp(rollback: bool) | Observe(rollback: bool) | Activate(rollback: bool) | MarkVerified(rollback: bool)
    // after a failure
    | Restart | RestartCatchUp | RestartActivate
    | Rollback | CreateVolume | SwapBoot | Reload
    | AssertOwnership | RestartStorage
    // waiting for a journal write to be known
    | Saving(write: Write, updated: Journal)

  /** state: the journal as this process last read or wrote it; guarded: a rollback that fails is
      journaled, as it is inside the failure handler of an update. */
  datatype Proc = Down | Up(run: nat, pc: Pc, state: Journal, guarded: bool)

  /** withheld: since when the host is kept out of service, or may lack what was collected because
      its disk was restored; repaired: the start of the last catch-up finished since then. */
  datatype Node = Node(withheld: Option<int>, repaired: Option<int>)

  /** A write that takes effect only while the metadata has the version it was derived from. */
  datatype Request = Request(etag: nat, author: Side, run: nat, write: Write, before: Journal, updated: Journal)

  datatype Commit = Commit(author: Side, before: Journal, updated: Journal)

  datatype Command = CPrepare | CUpgrade | CRestore | CActivate

  /** A command that reached a host, with what was true at that moment. */
  datatype Event = Event(command: Command, target: Side, owner: nat, journal: Journal, available: set<nat>, node: Node)

  datatype World = World(
    journal: Journal, etag: nat, requests: seq<Request>, commits: seq<Commit>, procs: map<Side, Proc>, nodes: map<Side, Node>,
    available: set<nat>, log: seq<Event>, nextRun: nat, nextId: nat, stamp: nat, now: int)

  const START := World(UNUSED, 0, [], [], map[], map[], {}, [], 1, 1, 0, 0)

  function At(w: World, s: Side): Proc { if s in w.procs then w.procs[s] else Down }

  function NodeAt(w: World, s: Side): Node { if s in w.nodes then w.nodes[s] else Node(None, None) }

  /** ok: the step reports success; effect: its command took effect; doomed: backups pruned. */
  datatype Act = Start | Crash | Move(ok: bool, effect: bool, doomed: set<nat>) | Send | Return | Raise

  datatype Step = ProcessStep(side: Side, act: Act) | CommitStep(k: nat) | EditStep | BackupStep(id: nat) | WaitStep(duration: nat)

  predicate IsCommitted(w: World, j: Journal) { exists c | c in w.commits :: c.updated == j }

  predicate CanAct(w: World, s: Side, act: Act) {
    var p := At(w, s);
    match act
    case Start => p.Down?
    case Crash => p.Up?
    case Move(ok, effect, doomed) =>
      && p.Up? && !p.pc.Saving? && (ok ==> effect)
      && (p.pc.AwaitBackup? && ok ==> p.state.backupId.Some? && p.state.backupId.value in w.available)
      && (p.pc.Rollback? && ok ==> p.state.backupId.Some?)
      && (p.pc.AssertOwnership? && ok ==> w.journal == p.state)
      && (p.state.backupId.Some? ==> p.state.backupId.value !in doomed)
    case Send => p.Up? && p.pc.Saving? && w.journal == p.state
    case Return => p.Up? && p.pc.Saving? && IsCommitted(w, p.pc.updated)
    case Raise => p.Up? && p.pc.Saving?
  }

  /** A process begins a write; the gap starts five seconds back. */
  function Save(p: Proc, s: Side, write: Write, w: World): Proc
    requires p.Up?
  {
    p.(pc := Saving(write, Change(p.state, s, p.run, write, Some(w.now - 5), w.stamp + 1)))
  }

  /** Inside the failure handler, once the failure was journaled or not. */
  function Decide(p: Proc): Proc
    requires p.Up?
  {
    if p.state.backupId.Some? && !p.state.phase.Checking? && !p.state.phase.BackingUp? then p.(pc := Rollback, guarded := true)
    else p.(pc := Restart)
  }

  function RollbackFails(p: Proc, s: Side, w: World): Proc
    requires p.Up?
  {
    if p.guarded then Save(p, s, WRecoveryFailed, w) else Down
  }

  /** A step other than a journal write raises. */
  function Failed(p: Proc, s: Side, w: World): Proc
    requires p.Up?
  {
    match p.pc
    case Loading | Acquiring | Revive | ReviveCatchUp | ReviveActivate => Down
    case Check | Budget | Prepare | CreateBackup | AwaitBackup | Upgrade | AwaitReboot => Save(p, s, WFailure, w)
    case Ready(r) => if r then RollbackFails(p, s, w) else Save(p, s, WFailure, w)
    case CatchUp(r) => if r then RollbackFails(p, s, w) else Save(p, s, WFailure, w)
    case Observe(r) => if r then RollbackFails(p, s, w) else Save(p, s, WFailure, w)
    case Activate(r) => if r then RollbackFails(p, s, w) else Save(p, s, WFailure, w)
    case MarkVerified(r) => if r then RollbackFails(p, s, w) else Save(p, s, WFailure, w)
    case Restart | RestartCatchUp | RestartActivate => Save(p, s, WPreUpdateFailed, w)
    case Rollback | CreateVolume | SwapBoot | Reload => RollbackFails(p, s, w)
    case AssertOwnership | RestartStorage => Save(p, s, WRestartFailed, w)
    case Saving(_, _) => p
  }

  /** Where run() goes on after reading the journal. */
  function Loaded(p: Proc, s: Side, journal: Journal): Proc
    requires p.Up?
  {
    var q := p.(state := journal);
    if journal.phase.Idle? then q.(pc := Acquiring)
    else if journal.target != Some(Peer(s)) then Down
    else if journal.phase.Checking? || journal.phase.BackingUp? then q.(pc := Revive)
    else if journal.backupId.Some? && !journal.phase.Blocked? then q.(pc := Rollback)
    else Down
  }

  /** A step other than a journal write succeeds. */
  function Succeeded(p: Proc, s: Side, w: World): Proc
    requires p.Up?
  {
    match p.pc
    case Loading => Loaded(p, s, w.journal)
    case Acquiring => if w.journal.phase.Idle? then Save(p.(state := w.journal), s, WAcquire, w) else Down
    case Revive => p.(pc := if p.state.gapStart.Some? then ReviveCatchUp else ReviveActivate)
    case ReviveCatchUp => p.(pc := ReviveActivate)
    case ReviveActivate => Save(p, s, WInterrupted, w)
    case Check => Save(p, s, WStatus, w)
    case Budget => Save(p, s, WGap, w)
    case Prepare => p.(pc := CreateBackup)
    case CreateBackup => Save(p, s, WBackupId(w.nextId), w)
    case AwaitBackup => Save(p, s, WUpgrading, w)
    case Upgrade => p.(pc := AwaitReboot)
    case AwaitReboot => Save(p, s, WValidating, w)
    case Ready(r) => p.(pc := CatchUp(r))
    case CatchUp(r) => p.(pc := Observe(r))
    case Observe(r) => p.(pc := Activate(r))
    case Activate(r) => p.(pc := MarkVerified(r))
    case MarkVerified(r) => Save(p, s, if r then WRolledBack else WIdle, w)
    case Restart => p.(pc := if p.state.gapStart.Some? then RestartCatchUp else RestartActivate)
    case RestartCatchUp => p.(pc := RestartActivate)
    case RestartActivate => Save(p, s, WPreUpdateFailed, w)
    case Rollback => Save(p, s, WRestoring, w)
    case CreateVolume => if p.state.recovery.Some? then p.(pc := SwapBoot) else Save(p, s, WRecovery(w.nextId), w)
    case SwapBoot => p.(pc := Reload)
    case Reload =>
      var q := p.(state := w.journal);
      if w.journal == p.state then Save(q, s, WRollbackValidation, w) else RollbackFails(q, s, w)
    case AssertOwnership => p.(pc := RestartStorage)
    case RestartStorage => Down
    case Saving(_, _) => p
  }

  /** A journal write returned. */
  function SaveReturned(p: Proc): Proc
    requires p.Up? && p.pc.Saving?
  {
    var q := p.(state := p.pc.updated);
    match p.pc.write
    case WAcquire => q.(pc := Check)
    case WStatus => q.(pc := Budget)
    case WGap => q.(pc := Prepare)
    case WBackupId(_) => q.(pc := AwaitBackup)
    case WUpgrading => q.(pc := Upgrade)
    case WValidating => q.(pc := Ready(false))
    case WFailure => Decide(q)
    case WRestoring => q.(pc := CreateVolume)
    case WRecovery(_) => q.(pc := SwapBoot)
    case WRollbackValidation => q.(pc := Ready(true))
    case WRecoveryFailed => q.(pc := AssertOwnership)
    case WIdle | WRolledBack | WRestartFailed | WInterrupted | WPreUpdateFailed => Down
  }

  /** A journal write raised; whether it took effect is not known. */
  function SaveRaised(p: Proc, s: Side, w: World): Proc
    requires p.Up? && p.pc.Saving?
  {
    match p.pc.write
    case WAcquire | WRestartFailed | WInterrupted | WPreUpdateFailed => Down
    case WStatus | WGap | WBackupId(_) | WUpgrading | WValidating | WIdle => Save(p, s, WFailure, w)
    case WFailure => Decide(p)
    case WRestoring | WRecovery(_) | WRollbackValidation | WRolledBack => RollbackFails(p, s, w)
    case WRecoveryFailed => p.(pc := AssertOwnership)
  }

  /** The command a step sends to the peer's host. */
  function CommandAt(pc: Pc): Option<Command> {
    match pc
    case Prepare => Some(CPrepare)
    case Upgrade => Some(CUpgrade)
    case SwapBoot => Some(CRestore)
    case Activate(_) | ReviveActivate | RestartActivate => Some(CActivate)
    case _ => None
  }

  function NodeAfter(node: Node, p: Proc, ok: bool, effect: bool, now: int): Node
    requires p.Up?
  {
    match p.pc
    case Prepare => if effect then Node(Some(now), None) else node
    // the backup was begun after the gap's start: the restored disk lacks nothing older
    case SwapBoot => if effect then Node(p.state.gapStart, None) else node
    case CatchUp(_) | ReviveCatchUp | RestartCatchUp => if ok then node.(repaired := p.state.gapStart) else node
    case Activate(_) | ReviveActivate | RestartActivate => if effect then Node(None, None) else node
    case _ => node
  }

  function Logged(w: World, s: Side, p: Proc, effect: bool): seq<Event>
    requires p.Up?
  {
    if effect && CommandAt(p.pc).Some? then
      [Event(CommandAt(p.pc).value, Peer(s), p.state.owner, w.journal, w.available, NodeAt(w, Peer(s)))]
    else []
  }

  function MoveOf(w: World, s: Side, ok: bool, effect: bool, doomed: set<nat>): World
    requires At(w, s).Up?
  {
    var p := At(w, s);
    w.(procs := w.procs[s := if ok then Succeeded(p, s, w) else Failed(p, s, w)],
       nodes := w.nodes[Peer(s) := NodeAfter(NodeAt(w, Peer(s)), p, ok, effect, w.now)],
       available := if p.pc.Check? then w.available - doomed else w.available,
       log := w.log + Logged(w, s, p, effect),
       nextId := w.nextId + 1,
       stamp := w.stamp + 1)
  }

  function ActOf(w: World, s: Side, act: Act): World
    requires CanAct(w, s, act)
  {
    var p := At(w, s);
    match act
    case Start => w.(procs := w.procs[s := Up(w.nextRun, Loading, UNUSED, false)], nextRun := w.nextRun + 1)
    case Crash => w.(procs := w.procs[s := Down])
    case Move(ok, effect, doomed) => MoveOf(w, s, ok, effect, doomed)
    case Send => w.(requests := w.requests + [Request(w.etag, s, p.run, p.pc.write, p.state, p.pc.updated)])
    case Return => w.(procs := w.procs[s := SaveReturned(p)])
    case Raise => w.(procs := w.procs[s := SaveRaised(p, s, w)], stamp := w.stamp + 1)
  }

  /** The write takes effect: the journal moves and the version changes. */
  function Committed(w: World, r: Request): World {
    w.(journal := r.updated, etag := w.etag + 1, commits := w.commits + [Commit(r.author, w.journal, r.updated)])
  }

  /** A step that is not possible changes nothing. */
  function Next(w: World, step: Step): World {
    match step
    case ProcessStep(s, act) => if CanAct(w, s, act) then ActOf(w, s, act) else w
    case CommitStep(k) => if k < |w.requests| && w.requests[k].etag == w.etag then Committed(w, w.requests[k]) else w
    case EditStep => w.(etag := w.etag + 1)
    case BackupStep(id) => w.(available := w.available + {id})
    case WaitStep(duration) => w.(now := w.now + duration)
  }

  function After(steps: seq<Step>): World {
    if steps == [] then START else Next(After(steps[..|steps| - 1]), steps[|steps| - 1])
  }
}
