/** Where a run of one controller gets. Left alone it finishes what it began: an update, a rollback, or
    bringing back a host that was not upgraded; and it reports whatever fails on the way. */
module OsProgress {
  import opened Wrappers
  import opened OsRunSpec

  // ----- one undisturbed step -----

  /** A step that succeeds: a journal write is sent, takes effect and returns; a backup that is waited
      for has become available. */
  function Calmly(w: World, s: Side): World {
    var p := At(w, s);
    if p.Down? then w
    else if p.pc.Saving? then
      var sent := Next(w, ProcessStep(s, Send));
      Next(Next(sent, CommitStep(|w.requests|)), ProcessStep(s, Return))
    else
      var ready := if p.pc.AwaitBackup? && p.state.backupId.Some? then Next(w, BackupStep(p.state.backupId.value)) else w;
      Next(ready, ProcessStep(s, Move(true, true, {})))
  }

  /** A step that fails: a command with or without effect, a write without. */
  function Badly(w: World, s: Side, effect: bool): World {
    Next(w, ProcessStep(s, if At(w, s).Up? && At(w, s).pc.Saving? then Raise else Move(false, effect, {})))
  }

  function Undisturbed(w: World, s: Side, n: nat): World
    decreases n
  {
    if n == 0 then w else Undisturbed(Calmly(w, s), s, n - 1)
  }

  // ----- the order of the stages -----

  datatype Stage = Stage(way: Way, n: nat)

  datatype Way = Entry | Update | Recovery | Unchanged | Revival | Report | Aftermath

  /** The stages of each way, in their order. */
  function StageOf(pc: Pc): Stage {
    match pc
    case Loading => Stage(Entry, 0)
    case Acquiring => Stage(Entry, 1)
    case Check => Stage(Update, 0)
    case Budget => Stage(Update, 2)
    case Prepare => Stage(Update, 4)
    case CreateBackup => Stage(Update, 5)
    case AwaitBackup => Stage(Update, 7)
    case Upgrade => Stage(Update, 9)
    case AwaitReboot => Stage(Update, 10)
    case Ready(r) => if r then Stage(Recovery, 7) else Stage(Update, 12)
    case CatchUp(r) => if r then Stage(Recovery, 8) else Stage(Update, 13)
    case Observe(r) => if r then Stage(Recovery, 9) else Stage(Update, 14)
    case Activate(r) => if r then Stage(Recovery, 10) else Stage(Update, 15)
    case MarkVerified(r) => if r then Stage(Recovery, 11) else Stage(Update, 16)
    case Rollback => Stage(Recovery, 0)
    case CreateVolume => Stage(Recovery, 2)
    case SwapBoot => Stage(Recovery, 4)
    case Reload => Stage(Recovery, 5)
    case Restart => Stage(Unchanged, 0)
    case RestartCatchUp => Stage(Unchanged, 1)
    case RestartActivate => Stage(Unchanged, 2)
    case Revive => Stage(Revival, 0)
    case ReviveCatchUp => Stage(Revival, 1)
    case ReviveActivate => Stage(Revival, 2)
    case AssertOwnership => Stage(Aftermath, 1)
    case RestartStorage => Stage(Aftermath, 2)
    case Saving(write, _) => StageOfWrite(write)
  }

  function StageOfWrite(write: Write): Stage {
    match write
    case WAcquire => Stage(Entry, 2)
    case WStatus => Stage(Update, 1)
    case WGap => Stage(Update, 3)
    case WBackupId(_) => Stage(Update, 6)
    case WUpgrading => Stage(Update, 8)
    case WValidating => Stage(Update, 11)
    case WIdle => Stage(Update, 17)
    case WRestoring => Stage(Recovery, 1)
    case WRecovery(_) => Stage(Recovery, 3)
    case WRollbackValidation => Stage(Recovery, 6)
    case WRolledBack => Stage(Recovery, 12)
    case WPreUpdateFailed => Stage(Unchanged, 3)
    case WInterrupted => Stage(Revival, 3)
    case WFailure => Stage(Report, 0)
    case WRecoveryFailed => Stage(Aftermath, 0)
    case WRestartFailed => Stage(Aftermath, 3)
  }

  function LastOf(way: Way): nat {
    match way
    case Update => 17
    case Recovery => 12
    case Unchanged | Revival | Aftermath => 3
    case Entry => 2
    case Report => 0
  }

  predicate IsWork(way: Way) { way.Update? || way.Recovery? || way.Unchanged? || way.Revival? }

  /** What is not done again: a volume that exists, a catch-up where nothing was interrupted. */
  predicate IsSkipped(stage: Stage, j: Journal) {
    || (stage == Stage(Recovery, 3) && j.recovery.Some?)
    || ((stage == Stage(Unchanged, 1) || stage == Stage(Revival, 1)) && j.gapStart.None?)
  }

  function FollowingOf(stage: Stage, j: Journal): Stage {
    var next := stage.(n := stage.n + 1);
    if IsSkipped(next, j) then next.(n := next.n + 1) else next
  }

  /** The commands a way still sends. */
  function CommandsFrom(stage: Stage): seq<Command> {
    match stage.way
    case Update => if stage.n <= 4 then [CPrepare, CUpgrade, CActivate] else if stage.n <= 9 then [CUpgrade, CActivate] else if stage.n <= 15 then [CActivate] else []
    case Recovery => if stage.n <= 4 then [CRestore, CActivate] else if stage.n <= 10 then [CActivate] else []
    case Unchanged | Revival => if stage.n <= 2 then [CActivate] else []
    case _ => []
  }

  /** These commands were sent to the target since, in this order, and no others. */
  predicate Grew(before: seq<Event>, after: seq<Event>, target: Side, commands: seq<Command>) {
    && |after| == |before| + |commands| && before <= after
    && forall k | 0 <= k < |commands| :: after[|before| + k].command == commands[k] && after[|before| + k].target == target
  }

  // ----- a process that is alone with its journal -----

  /** The process knows the journal, and what it is about to write derives from that. */
  predicate IsCalm(w: World, s: Side) {
    var p := At(w, s);
    && p.Up? && p.state == w.journal
    && (p.pc.Saving? ==> p.pc.updated == Change(p.state, s, p.run, p.pc.write, p.pc.updated.gapStart, p.pc.updated.stamp))
  }

  /** What the journal must hold at a stage. */
  predicate HasFound(stage: Stage, j: Journal) {
    && (stage.way.Update? && stage.n >= 7 ==> j.backupId.Some?)
    && (stage.way.Recovery? ==> j.backupId.Some?)
    && (stage == Stage(Recovery, 3) ==> j.recovery.None?)
    && (stage.way.Recovery? && stage.n >= 4 ==> j.recovery.Some?)
  }

  predicate IsAt(w: World, s: Side, stage: Stage) {
    IsCalm(w, s) && StageOf(At(w, s).pc) == stage && HasFound(stage, w.journal)
  }

  /** The process with the step it takes when nothing fails. */
  function Advanced(p: Proc, s: Side, w: World): Proc
    requires p.Up?
  {
    if p.pc.Saving? then SaveReturned(p) else Succeeded(p, s, w)
  }

  predicate Follows(q: Proc, stage: Stage, j: Journal) {
    if stage.n == LastOf(stage.way) then q.Down? else q.Up? && StageOf(q.pc) == FollowingOf(stage, j)
  }

  lemma UpgradingMoves(w: World, s: Side, p: Proc)
    requires p.Up? && (p.pc.Check? || p.pc.Budget? || p.pc.Prepare? || p.pc.CreateBackup? || p.pc.AwaitBackup? || p.pc.Upgrade? || p.pc.AwaitReboot?)
    requires p.state == w.journal
    ensures Follows(Succeeded(p, s, w), StageOf(p.pc), w.journal)
  {
    hide Change;
  }

  lemma RestoringMoves(w: World, s: Side, p: Proc)
    requires p.Up? && (p.pc.Rollback? || p.pc.CreateVolume? || p.pc.SwapBoot? || p.pc.Reload?) && p.state == w.journal
    ensures Follows(Succeeded(p, s, w), StageOf(p.pc), w.journal)
  {
    hide Change;
  }

  lemma ValidatingMoves(w: World, s: Side, p: Proc)
    requires p.Up? && (p.pc.Ready? || p.pc.CatchUp? || p.pc.Observe? || p.pc.Activate? || p.pc.MarkVerified?) && p.state == w.journal
    ensures Follows(Succeeded(p, s, w), StageOf(p.pc), w.journal)
  {
    hide Change;
  }

  lemma OtherMoves(w: World, s: Side, p: Proc)
    requires p.Up? && !p.pc.Saving? && p.state == w.journal && (StageOf(p.pc).way.Unchanged? || StageOf(p.pc).way.Revival?)
    ensures Follows(Succeeded(p, s, w), StageOf(p.pc), w.journal)
  {
    hide Change;
  }

  lemma SaveMoves(w: World, s: Side, p: Proc)
    requires p.Up? && p.pc.Saving? && p.state == w.journal && IsWork(StageOf(p.pc).way)
    ensures Follows(SaveReturned(p), StageOf(p.pc), w.journal)
  {
  }

  /** Every way is gone through stage by stage to its end. */
  lemma StagesFollow(w: World, s: Side)
    requires IsCalm(w, s) && IsWork(StageOf(At(w, s).pc).way)
    ensures Follows(Advanced(At(w, s), s, w), StageOf(At(w, s).pc), w.journal)
  {
    var p := At(w, s);
    hide Follows, Succeeded, SaveReturned;
    match p.pc
    case Saving(_, _) => SaveMoves(w, s, p);
    case Check | Budget | Prepare | CreateBackup | AwaitBackup | Upgrade | AwaitReboot => UpgradingMoves(w, s, p);
    case Rollback | CreateVolume | SwapBoot | Reload => RestoringMoves(w, s, p);
    case Ready(_) | CatchUp(_) | Observe(_) | Activate(_) | MarkVerified(_) => ValidatingMoves(w, s, p);
    case _ => OtherMoves(w, s, p);
  }

  // ----- one undisturbed step of the whole -----

  /** A write that nothing disturbs becomes the journal. */
  lemma WriteTakesEffect(w: World, s: Side)
    requires IsCalm(w, s) && At(w, s).pc.Saving?
    ensures var v := Calmly(w, s);
      v.journal == At(w, s).pc.updated && At(v, s) == SaveReturned(At(w, s)) && v.log == w.log && v.now == w.now
  {
    hide SaveReturned;
    var sent := Next(w, ProcessStep(s, Send));
    assert |sent.requests| == |w.requests| + 1;
    var committed := Next(sent, CommitStep(|w.requests|));
    assert committed.commits[|w.commits|].updated == At(w, s).pc.updated;
    assert IsCommitted(committed, At(w, s).pc.updated);
  }

  lemma MoveTakesEffect(w: World, s: Side)
    requires IsCalm(w, s) && !At(w, s).pc.Saving? && IsWork(StageOf(At(w, s).pc).way) && HasFound(StageOf(At(w, s).pc), w.journal)
    ensures var v, p := Calmly(w, s), At(w, s);
      && v.journal == w.journal && At(v, s) == Succeeded(p, s, w) && v.now == w.now
      && (if CommandAt(p.pc).Some? then Grew(w.log, v.log, Peer(s), [CommandAt(p.pc).value]) else v.log == w.log)
  {
    var p := At(w, s);
    if p.pc.AwaitBackup? {
      assert Succeeded(p, s, Next(w, BackupStep(p.state.backupId.value))) == Succeeded(p, s, w);
    }
    hide Succeeded, CommandAt;
  }

  // ----- what it makes of the journal -----

  /** The start of the gap the journal will have: five seconds before it is written. */
  function GapAhead(w: World, s: Side): Option<int>
    requires At(w, s).Up?
  {
    var pc := At(w, s).pc;
    if pc.Check? || pc.Budget? || (pc.Saving? && pc.write.WStatus?) then Some(w.now - 5)
    else if pc.Saving? && pc.write.WGap? then pc.updated.gapStart
    else w.journal.gapStart
  }

  /** What the stages still to come leave of the journal: a backup and a volume that are known stay. */
  predicate Keeps(stage: Stage, j: Journal, end: Journal) {
    if stage.way.Update? then end.recovery == j.recovery && (stage.n >= 7 ==> end.backupId == j.backupId)
    else end.owner == j.owner && end.target == j.target && end.backupId == j.backupId && (j.recovery.Some? ==> end.recovery == j.recovery)
  }

  /** A finished update leaves the journal free, everything else leaves it to an operator. */
  predicate Ends(stage: Stage, j: Journal, end: Journal) {
    && Keeps(stage, j, end)
    && (if stage.way.Update? then end.phase.Idle? && end.owner == 0 && end.target.None? && end.backupId.Some? else end.phase.Blocked?)
    && (stage.way.Recovery? ==> end.recovery.Some?)
  }

  lemma SucceededIsCalm(w: World, s: Side, p: Proc)
    requires p.Up? && !p.pc.Saving? && p.state == w.journal && IsWork(StageOf(p.pc).way)
    ensures var q := Succeeded(p, s, w);
      q.Up? ==> q.run == p.run && q.state == p.state && (q.pc.Saving? ==> q == Save(p, s, q.pc.write, w))
  {
    hide Change;
  }

  lemma SaveIsCalm(w: World, s: Side, p: Proc, write: Write)
    requires p.Up?
    ensures var q := Save(p, s, write, w);
      q.pc.updated == Change(p.state, s, p.run, write, q.pc.updated.gapStart, q.pc.updated.stamp) && (write.WGap? ==> q.pc.updated.gapStart == Some(w.now - 5))
  {
  }

  lemma FollowingIsFound(stage: Stage, j: Journal)
    requires IsWork(stage.way) && HasFound(stage, j) && stage.n < LastOf(stage.way) && stage != Stage(Update, 6) && stage != Stage(Recovery, 3)
    ensures HasFound(FollowingOf(stage, j), j)
  {
  }

  lemma WriteIsFound(w: World, s: Side, p: Proc)
    requires p.Up? && p.pc.Saving? && IsWork(StageOf(p.pc).way) && HasFound(StageOf(p.pc), p.state)
    requires p.pc.updated == Change(p.state, s, p.run, p.pc.write, p.pc.updated.gapStart, p.pc.updated.stamp)
    ensures var stage, j := StageOf(p.pc), p.pc.updated;
      if stage.n == LastOf(stage.way) then Ends(stage, p.state, j) && j.gapStart == p.state.gapStart
      else HasFound(FollowingOf(stage, p.state), j) && Keeps(stage, p.state, j)
  {
  }

  // ----- to the end -----

  /** One step: to the following stage, keeping what is known, or to the end. */
  predicate StepsOn(w: World, v: World, s: Side)
    requires At(w, s).Up?
  {
    var stage := StageOf(At(w, s).pc);
    if stage.n == LastOf(stage.way) then At(v, s).Down? && Ends(stage, w.journal, v.journal) && v.journal.gapStart == w.journal.gapStart
    else IsAt(v, s, FollowingOf(stage, w.journal)) && Keeps(stage, w.journal, v.journal) && GapAhead(v, s) == GapAhead(w, s)
  }

  lemma WriteStepsOn(w: World, s: Side)
    requires IsCalm(w, s) && At(w, s).pc.Saving? && IsWork(StageOf(At(w, s).pc).way) && HasFound(StageOf(At(w, s).pc), w.journal)
    ensures StepsOn(w, Calmly(w, s), s)
  {
    var v, p := Calmly(w, s), At(w, s);
    WriteTakesEffect(w, s);
    SaveMoves(w, s, p);
    WriteIsFound(w, s, p);
    WriteIsCalm(w, s, p);
    hide Calmly, Ends, Keeps, HasFound, FollowingOf, StageOf, LastOf, IsWork, Change, SaveReturned;
  }

  lemma WriteIsCalm(w: World, s: Side, p: Proc)
    requires p.Up? && p.pc.Saving? && IsWork(StageOf(p.pc).way) && p.state == w.journal
    requires p.pc.updated == Change(p.state, s, p.run, p.pc.write, p.pc.updated.gapStart, p.pc.updated.stamp)
    ensures var q := SaveReturned(p);
      q.Up? ==> q.state == p.pc.updated && !q.pc.Saving? && (forall v: World | v.journal == q.state && v.now == w.now && At(v, s) == q && At(w, s) == p :: GapAhead(v, s) == GapAhead(w, s))
  {
  }

  lemma GapIsAhead(w: World, v: World, s: Side, p: Proc)
    requires p.Up? && !p.pc.Saving? && p.state == w.journal && IsWork(StageOf(p.pc).way) && Succeeded(p, s, w).Up?
    requires At(w, s) == p && At(v, s) == Succeeded(p, s, w) && v.journal == w.journal && v.now == w.now
    ensures GapAhead(v, s) == GapAhead(w, s)
  {
  }

  lemma MoveStepsOn(w: World, s: Side)
    requires IsCalm(w, s) && !At(w, s).pc.Saving? && IsWork(StageOf(At(w, s).pc).way) && HasFound(StageOf(At(w, s).pc), w.journal)
    ensures StepsOn(w, Calmly(w, s), s)
  {
    var v, p := Calmly(w, s), At(w, s);
    MoveTakesEffect(w, s);
    StagesFollow(w, s);
    SucceededIsCalm(w, s, p);
    var q := Succeeded(p, s, w);
    MoveIsNotLast(p.pc);
    assert q.Up?;
    GapIsAhead(w, v, s, p);
    FollowingIsFound(StageOf(p.pc), w.journal);
    if q.pc.Saving? { SaveIsCalm(w, s, p, q.pc.write); }
    hide Calmly, Succeeded, HasFound, FollowingOf, StageOf, LastOf, IsWork, Change, GapAhead;
  }

  /** Every way ends with a write. */
  lemma MoveIsNotLast(pc: Pc)
    requires !pc.Saving? && IsWork(StageOf(pc).way)
    ensures StageOf(pc).n < LastOf(StageOf(pc).way) && StageOf(pc) != Stage(Update, 6) && StageOf(pc) != Stage(Recovery, 3)
  {
  }

  lemma CalmlyStepsOn(w: World, s: Side)
    requires IsCalm(w, s) && IsWork(StageOf(At(w, s).pc).way) && HasFound(StageOf(At(w, s).pc), w.journal)
    ensures StepsOn(w, Calmly(w, s), s) && Calmly(w, s).now == w.now
    ensures var stage := StageOf(At(w, s).pc);
      exists commands :: Grew(w.log, Calmly(w, s).log, Peer(s), commands) && CommandsFrom(stage) == commands + if stage.n == LastOf(stage.way) then [] else CommandsFrom(FollowingOf(stage, w.journal))
  {
    var v, p, stage := Calmly(w, s), At(w, s), StageOf(At(w, s).pc);
    var commands := if !p.pc.Saving? && CommandAt(p.pc).Some? then [CommandAt(p.pc).value] else [];
    CommandsShrink(p.pc, w.journal);
    if p.pc.Saving? { WriteStepsOn(w, s); WriteTakesEffect(w, s); } else { MoveStepsOn(w, s); MoveTakesEffect(w, s); }
    hide Calmly, CommandAt, CommandsFrom, FollowingOf, StepsOn, StageOf, IsCalm, IsWork, HasFound, LastOf;
    assert Grew(w.log, v.log, Peer(s), commands);
  }

  /** Each stage sends what is listed for it. */
  lemma CommandsShrink(pc: Pc, j: Journal)
    requires IsWork(StageOf(pc).way)
    ensures var stage := StageOf(pc);
      CommandsFrom(stage) == (if !pc.Saving? && CommandAt(pc).Some? then [CommandAt(pc).value] else []) + if stage.n == LastOf(stage.way) then [] else CommandsFrom(FollowingOf(stage, j))
  {
    if pc.Saving? { WriteSendsNothing(pc.write, j); }
  }

  lemma WriteSendsNothing(write: Write, j: Journal)
    requires IsWork(StageOfWrite(write).way)
    ensures var stage := StageOfWrite(write);
      CommandsFrom(stage) == if stage.n == LastOf(stage.way) then [] else CommandsFrom(FollowingOf(stage, j))
  {
  }

  lemma GrewTwice(a: seq<Event>, b: seq<Event>, c: seq<Event>, target: Side, first: seq<Command>, rest: seq<Command>)
    requires Grew(a, b, target, first) && Grew(b, c, target, rest)
    ensures Grew(a, c, target, first + rest)
  {
    forall k | 0 <= k < |first + rest| ensures c[|a| + k].command == (first + rest)[k] && c[|a| + k].target == target {
      if k < |first| { assert c[|a| + k] == b[|a| + k]; } else { assert c[|a| + k] == c[|b| + (k - |first|)]; }
    }
  }

  lemma KeepsThenEnds(stage: Stage, next: Stage, a: Journal, b: Journal, c: Journal)
    requires Keeps(stage, a, b) && Ends(next, b, c) && next.way == stage.way && stage.n <= next.n
    ensures Ends(stage, a, c)
  {
  }

  lemma {:induction false} EndedStays(w: World, s: Side, n: nat)
    requires At(w, s).Down?
    ensures Undisturbed(w, s, n) == w
  {
    if n > 0 { EndedStays(w, s, n - 1); }
  }

  predicate EndsFrom(w: World, v: World, s: Side, stage: Stage) {
    && At(w, s).Up? && At(v, s).Down? && Grew(w.log, v.log, Peer(s), CommandsFrom(stage))
    && Ends(stage, w.journal, v.journal) && v.journal.gapStart == GapAhead(w, s)
  }

  lemma NextIsLater(stage: Stage, j: Journal)
    ensures FollowingOf(stage, j).way == stage.way && stage.n < FollowingOf(stage, j).n
  {
  }

  lemma EndsThroughNext(w: World, v: World, end: World, s: Side, stage: Stage)
    requires IsAt(w, s, stage) && stage.n != LastOf(stage.way) && v == Calmly(w, s) && IsWork(stage.way)
    requires EndsFrom(v, end, s, FollowingOf(stage, w.journal))
    ensures EndsFrom(w, end, s, stage)
  {
    var next := FollowingOf(stage, w.journal);
    CalmlyStepsOn(w, s);
    var commands :| Grew(w.log, v.log, Peer(s), commands) && CommandsFrom(stage) == commands + CommandsFrom(next);
    hide Calmly, IsCalm, CommandsFrom, Ends, Keeps, GapAhead, Grew, IsWork, LastOf, HasFound, FollowingOf, StageOf;
    NextIsLater(stage, w.journal);
    KeepsThenEnds(stage, next, w.journal, v.journal, end.journal);
    GrewTwice(w.log, v.log, end.log, Peer(s), commands, CommandsFrom(next));
  }

  lemma EndsAtLast(w: World, s: Side, stage: Stage)
    requires IsAt(w, s, stage) && stage.n == LastOf(stage.way) && IsWork(stage.way)
    ensures EndsFrom(w, Calmly(w, s), s, stage)
  {
    CalmlyStepsOn(w, s);
    GapAtTheEnd(w, s);
    hide Calmly, Ends, Keeps, GapAhead;
  }

  lemma Unrolled(w: World, s: Side, n: nat)
    ensures n > 0 ==> Undisturbed(w, s, n) == Undisturbed(Calmly(w, s), s, n - 1)
  {
    hide Calmly;
  }

  lemma LastStageEnds(w: World, s: Side, stage: Stage, n: nat)
    requires IsAt(w, s, stage) && stage.n == LastOf(stage.way) && IsWork(stage.way) && n > 0
    ensures EndsFrom(w, Undisturbed(w, s, n), s, stage)
  {
    hide *;
    EndsAtLast(w, s, stage);
    LastIsDown(w, s, stage);
    EndedStays(Calmly(w, s), s, n - 1);
    Unrolled(w, s, n);
  }

  /** From every stage an undisturbed process ends its way: it sends what is left to send, in order, to
      its peer's host, and the journal is free after an update and left to an operator otherwise. */
  lemma {:induction false} UndisturbedEnds(w: World, s: Side, stage: Stage, n: nat)
    requires IsAt(w, s, stage) && IsWork(stage.way) && stage.n + n > LastOf(stage.way)
    ensures EndsFrom(w, Undisturbed(w, s, n), s, stage)
    decreases n
  {
    hide *;
    AtIsListed(w, s, stage);
    Unrolled(w, s, n);
    if stage.n == LastOf(stage.way) {
      LastStageEnds(w, s, stage, n);
    } else {
      CalmlyReaches(w, s, stage);
      NextIsLater(stage, w.journal);
      UndisturbedEnds(Calmly(w, s), s, FollowingOf(stage, w.journal), n - 1);
      EndsThroughNext(w, Calmly(w, s), Undisturbed(w, s, n), s, stage);
    }
  }

  lemma LastIsDown(w: World, s: Side, stage: Stage)
    requires EndsFrom(w, Calmly(w, s), s, stage)
    ensures At(Calmly(w, s), s).Down?
  {
  }

  lemma CalmlyReaches(w: World, s: Side, stage: Stage)
    requires IsAt(w, s, stage) && stage.n != LastOf(stage.way) && IsWork(stage.way)
    ensures IsAt(Calmly(w, s), s, FollowingOf(stage, w.journal))
  {
    CalmlyStepsOn(w, s);
    hide Calmly, HasFound;
  }

  lemma AtIsListed(w: World, s: Side, stage: Stage)
    requires IsAt(w, s, stage)
    ensures stage.n <= LastOf(stage.way)
  {
  }

  lemma GapAtTheEnd(w: World, s: Side)
    requires At(w, s).Up? && IsWork(StageOf(At(w, s).pc).way) && StageOf(At(w, s).pc).n == LastOf(StageOf(At(w, s).pc).way)
    ensures GapAhead(w, s) == w.journal.gapStart
  {
  }

  // ----- what a failure leads to -----

  /** The journal says that the host may have been upgraded and that there is a backup. */
  predicate CanRestore(j: Journal) { j.backupId.Some? && !j.phase.Checking? && !j.phase.BackingUp? }

  predicate Saves(q: Proc, w: World, s: Side, p: Proc, write: Write)
    requires p.Up?
  {
    q == Save(p, s, write, w)
  }

  /** What the process makes of a failure: in an update it is journaled first; what was to be left to an
      operator anyway is marked so if that can be written; a rollback inside an update leaves a mark and
      starts the storage again; everything else just ends. */
  predicate AnswersFailure(q: Proc, w: World, s: Side, p: Proc)
    requires p.Up?
  {
    var stage := StageOf(p.pc);
    match stage.way
    case Update => Saves(q, w, s, p, WFailure)
    case Report => q.Up? && q.state == p.state && Decides(q, p.state)
    case Recovery => if p.guarded then Saves(q, w, s, p, WRecoveryFailed) else q.Down?
    case Unchanged => if stage.n < 3 then Saves(q, w, s, p, WPreUpdateFailed) else q.Down?
    case Aftermath => if stage.n == 0 then q == p.(pc := AssertOwnership) else if stage.n < 3 then Saves(q, w, s, p, WRestartFailed) else q.Down?
    case Revival | Entry => q.Down?
  }

  /** The host is restored if it can be, and brought back as it is otherwise. */
  predicate Decides(q: Proc, j: Journal)
    requires q.Up?
  {
    StageOf(q.pc) == (if CanRestore(j) then Stage(Recovery, 0) else Stage(Unchanged, 0)) && (CanRestore(j) ==> q.guarded)
  }

  lemma FailedIsAnswered(w: World, s: Side, p: Proc)
    requires p.Up? && !p.pc.Saving?
    ensures AnswersFailure(Failed(p, s, w), w, s, p)
  {
    hide Save;
  }

  lemma RaisedIsAnswered(w: World, s: Side, p: Proc)
    requires p.Up? && p.pc.Saving?
    ensures AnswersFailure(SaveRaised(p, s, w), w, s, p)
  {
    hide Save;
  }

  /** A failed step writes no journal, and is answered as its stage demands. */
  lemma FailureIsAnswered(w: World, s: Side, effect: bool)
    requires At(w, s).Up?
    ensures var v := Badly(w, s, effect); v.journal == w.journal && v.now == w.now && AnswersFailure(At(v, s), w, s, At(w, s))
  {
    var p := At(w, s);
    if p.pc.Saving? { RaisedIsAnswered(w, s, p); } else { FailedIsAnswered(w, s, p); }
    hide AnswersFailure, SaveRaised, Failed, CommandAt, NodeAfter;
  }

  // ----- a failed update -----

  lemma SavingIsAt(w: World, v: World, s: Side, p: Proc, write: Write)
    requires p.Up? && p.state == w.journal && v.journal == w.journal && At(v, s) == Save(p, s, write, w) && HasFound(StageOfWrite(write), w.journal)
    ensures IsAt(v, s, StageOfWrite(write))
  {
    SaveIsCalm(w, s, p, write);
    hide Change;
  }

  lemma FailedUpdateIsReported(w: World, s: Side, stage: Stage, effect: bool)
    requires IsAt(w, s, stage) && stage.way.Update?
    ensures IsAt(Badly(w, s, effect), s, Stage(Report, 0)) && Badly(w, s, effect).journal == w.journal
  {
    FailureIsAnswered(w, s, effect);
    SavingIsAt(w, Badly(w, s, effect), s, At(w, s), WFailure);
    hide Badly, Save;
  }

  lemma ReportReturns(p: Proc)
    requires p.Up? && p.pc.Saving? && p.pc.write.WFailure? && p.pc.updated == p.state.(stamp := p.pc.updated.stamp)
    ensures var q := SaveReturned(p); q.Up? && q.state == p.pc.updated && !q.pc.Saving? && Decides(q, p.state)
  {
  }

  /** The failure was handled: from here the host is restored or brought back as it is. */
  predicate IsAnswered(w: World, v: World, s: Side) {
    && IsAt(v, s, if CanRestore(w.journal) then Stage(Recovery, 0) else Stage(Unchanged, 0))
    && v.journal == w.journal.(stamp := v.journal.stamp) && (CanRestore(w.journal) ==> At(v, s).guarded)
  }

  lemma JournaledFailureIsAnswered(w: World, s: Side)
    requires IsAt(w, s, Stage(Report, 0))
    ensures IsAnswered(w, Calmly(w, s), s)
  {
    ReportIsWrite(At(w, s).pc);
    WriteTakesEffect(w, s);
    ReportReturns(At(w, s));
    hide Calmly, SaveReturned, Change;
  }

  lemma LostReportIsAnswered(w: World, s: Side, effect: bool)
    requires IsAt(w, s, Stage(Report, 0))
    ensures IsAnswered(w, Badly(w, s, effect), s)
  {
    ReportIsWrite(At(w, s).pc);
    FailureIsAnswered(w, s, effect);
    hide Badly, Save, Change;
  }

  lemma ReportIsWrite(pc: Pc)
    requires StageOf(pc).way.Report?
    ensures pc.Saving? && pc.write.WFailure?
  {
  }

  /** A failed update, wherever it fails and whether its failure could be journaled or not, ends with the
      host restored from its backup if the journal can restore it, and else with the host as it was. The
      journal is left to an operator. */
  lemma FailedUpdateEnds(w: World, s: Side, stage: Stage, effect: bool, journaled: bool, n: nat)
    requires IsAt(w, s, stage) && stage.way.Update? && n > 12
    ensures var report := Badly(w, s, effect);
      var v := if journaled then Calmly(report, s) else Badly(report, s, effect);
      var end := Undisturbed(v, s, n);
      && At(end, s).Down? && end.journal.phase.Blocked? && end.journal.owner == w.journal.owner
      && end.journal.target == w.journal.target && end.journal.backupId == w.journal.backupId
      && Grew(v.log, end.log, Peer(s), if CanRestore(w.journal) then [CRestore, CActivate] else [CActivate])
  {
    var report := Badly(w, s, effect);
    var v := if journaled then Calmly(report, s) else Badly(report, s, effect);
    FailedUpdateIsReported(w, s, stage, effect);
    if journaled { JournaledFailureIsAnswered(report, s); } else { LostReportIsAnswered(report, s, effect); }
    UndisturbedEnds(v, s, if CanRestore(w.journal) then Stage(Recovery, 0) else Stage(Unchanged, 0), n);
    hide Undisturbed, Badly, Calmly, IsAt, Grew;
  }

  // ----- a failed rollback -----

  lemma MarkReturns(p: Proc)
    requires p.Up? && p.pc.Saving? && p.pc.write.WRecoveryFailed?
    ensures SaveReturned(p) == p.(state := p.pc.updated, pc := AssertOwnership)
  {
  }

  lemma MarkIsWrite(pc: Pc)
    ensures StageOf(pc) == Stage(Aftermath, 0) <==> pc.Saving? && pc.write.WRecoveryFailed?
  {
  }

  lemma FailedRollbackIsReported(w: World, s: Side, stage: Stage, effect: bool)
    requires IsAt(w, s, stage) && stage.way.Recovery? && At(w, s).guarded
    ensures IsAt(Badly(w, s, effect), s, Stage(Aftermath, 0)) && Badly(w, s, effect).journal == w.journal
  {
    FailureIsAnswered(w, s, effect);
    SavingIsAt(w, Badly(w, s, effect), s, At(w, s), WRecoveryFailed);
    hide Badly, Save;
  }

  lemma MarkIsWritten(w: World, s: Side)
    requires IsAt(w, s, Stage(Aftermath, 0))
    ensures var v := Calmly(w, s); IsAt(v, s, Stage(Aftermath, 1)) && v.journal == w.journal.(phase := Blocked, stamp := v.journal.stamp)
  {
    MarkIsWrite(At(w, s).pc);
    WriteTakesEffect(w, s);
    MarkReturns(At(w, s));
    hide Calmly, SaveReturned;
  }

  lemma MarkIsLost(w: World, s: Side, effect: bool)
    requires IsAt(w, s, Stage(Aftermath, 0))
    ensures var v := Badly(w, s, effect); IsAt(v, s, Stage(Aftermath, 1)) && v.journal == w.journal
  {
    MarkIsWrite(At(w, s).pc);
    FailureIsAnswered(w, s, effect);
    hide Badly, Save, Change, StageOfWrite;
  }

  /** A rollback that fails within an update marks the journal for an operator, if it still can, and
      either way goes on to the storage, for which it has to be the journal's owner. */
  lemma FailedRollbackIsMarked(w: World, s: Side, stage: Stage, effect: bool, journaled: bool)
    requires IsAt(w, s, stage) && stage.way.Recovery? && At(w, s).guarded
    ensures var failed := Badly(w, s, effect); var v := if journaled then Calmly(failed, s) else Badly(failed, s, effect);
      && IsAt(v, s, Stage(Aftermath, 1))
      && v.journal == if journaled then w.journal.(phase := Blocked, stamp := v.journal.stamp) else w.journal
  {
    var failed := Badly(w, s, effect);
    FailedRollbackIsReported(w, s, stage, effect);
    if journaled { MarkIsWritten(failed, s); } else { MarkIsLost(failed, s, effect); }
    hide Badly, Calmly, IsAt;
  }

  /** Outside an update it just ends, so that it can begin again. */
  lemma FailedRevivedRollbackEnds(w: World, s: Side, stage: Stage, effect: bool)
    requires IsAt(w, s, stage) && stage.way.Recovery? && !At(w, s).guarded
    ensures At(Badly(w, s, effect), s).Down? && Badly(w, s, effect).journal == w.journal
  {
    FailureIsAnswered(w, s, effect);
    hide Badly;
  }

  /** A rollback that finds another journal than its own does not validate. */
  lemma ChangedJournalStopsRollback(w: World, s: Side, p: Proc)
    requires p.Up? && p.pc.Reload? && w.journal != p.state
    ensures var q := Succeeded(p, s, w); q.Up? ==> q.pc.Saving? && q.pc.write.WRecoveryFailed? && p.guarded
  {
  }

  /** Only the owner of the journal starts the storage again. */
  lemma StorageNeedsOwnership(w: World, s: Side)
    requires At(w, s).Up? && At(w, s).pc.AssertOwnership?
    ensures var v := Calmly(w, s);
      if w.journal == At(w, s).state then At(v, s) == At(w, s).(pc := RestartStorage) && v.log == w.log && v.journal == w.journal else v == w
  {
  }

  lemma StorageIsLast(w: World, s: Side)
    requires At(w, s).Up? && At(w, s).pc.RestartStorage?
    ensures At(Calmly(w, s), s).Down? && Calmly(w, s).log == w.log && Calmly(w, s).journal == w.journal
  {
  }

  // ----- where a process begins -----

  function Begun(w: World, s: Side): World { Next(w, ProcessStep(s, Start)) }

  /** What a process makes of the journal it finds: only an interrupted maintenance of its own peer is
      taken up, and one that was blocked is left alone. */
  lemma FoundJournalDecides(w: World, s: Side)
    requires At(w, s).Down?
    ensures var v := Calmly(Begun(w, s), s); var j := w.journal;
      && v.journal == j && v.log == w.log && v.now == w.now
      && (if j.phase.Idle? then IsAt(v, s, Stage(Entry, 1)) && At(v, s).run == w.nextRun
          else if j.target == Some(Peer(s)) && (j.phase.Checking? || j.phase.BackingUp?) then IsAt(v, s, Stage(Revival, 0))
          else if j.target == Some(Peer(s)) && !j.phase.Blocked? && j.backupId.Some? then IsAt(v, s, Stage(Recovery, 0)) && !At(v, s).guarded
          else At(v, s).Down?)
  {
  }

  predicate IsFresh(j: Journal, s: Side, run: nat) { j == Journal(Checking, run, Some(Peer(s)), None, None, None, j.stamp) }

  lemma AcquisitionBegins(w: World, s: Side)
    requires IsCalm(w, s) && At(w, s).pc.Acquiring? && w.journal.phase.Idle?
    ensures var v, p := Calmly(w, s), At(w, s);
      && v.journal == w.journal && v.log == w.log && v.now == w.now
      && IsCalm(v, s) && At(v, s).run == p.run && At(v, s).pc.Saving? && At(v, s).pc.write.WAcquire? && IsFresh(At(v, s).pc.updated, s, p.run)
  {
  }

  lemma AcquisitionReturns(p: Proc)
    requires p.Up? && p.pc.Saving? && p.pc.write.WAcquire?
    ensures SaveReturned(p) == p.(state := p.pc.updated, pc := Check)
  {
  }

  /** A free journal is acquired for the peer, with nothing left in it of what was before. */
  lemma FreeJournalIsAcquired(w: World, s: Side)
    requires IsCalm(w, s) && At(w, s).pc.Acquiring? && w.journal.phase.Idle?
    ensures var v := Calmly(Calmly(w, s), s);
      && IsAt(v, s, Stage(Update, 0)) && v.log == w.log && v.now == w.now
      && IsFresh(v.journal, s, At(w, s).run)
  {
    AcquisitionBegins(w, s);
    var saving := Calmly(w, s);
    WriteTakesEffect(saving, s);
    AcquisitionReturns(At(saving, s));
    hide Calmly, SaveReturned, Change, StageOfWrite, IsFresh;
  }

  lemma EntryIsAcquiring(pc: Pc)
    requires StageOf(pc) == Stage(Entry, 1)
    ensures pc.Acquiring?
  {
  }

  // ----- the theorems -----

  /** A process that finds the journal free, and that nothing disturbs, updates its peer's host: it
      prepares, upgrades and activates it, and leaves the journal free again. */
  lemma UndisturbedRunUpdates(w: World, s: Side, n: nat)
    requires At(w, s).Down? && w.journal.phase.Idle? && n > 20
    ensures var end := Undisturbed(Begun(w, s), s, n);
      && At(end, s).Down? && Grew(w.log, end.log, Peer(s), [CPrepare, CUpgrade, CActivate])
      && end.journal.phase.Idle? && end.journal.owner == 0 && end.journal.target.None?
      && end.journal.backupId.Some? && end.journal.gapStart == Some(w.now - 5)
  {
    var acquired := Calmly(Calmly(Calmly(Begun(w, s), s), s), s);
    hide Undisturbed, Calmly, Begun, IsAt, Grew;
    FreeJournalIsTaken(w, s);
    ThreeSteps(Begun(w, s), s, n);
    UndisturbedEnds(acquired, s, Stage(Update, 0), n - 3);
    CheckIsAhead(acquired, s);
  }

  lemma FreeJournalIsTaken(w: World, s: Side)
    requires At(w, s).Down? && w.journal.phase.Idle?
    ensures var v := Calmly(Calmly(Calmly(Begun(w, s), s), s), s); IsAt(v, s, Stage(Update, 0)) && v.log == w.log && v.now == w.now
  {
    FoundJournalDecides(w, s);
    EntryIsAcquiring(At(Calmly(Begun(w, s), s), s).pc);
    FreeJournalIsAcquired(Calmly(Begun(w, s), s), s);
    hide Calmly, Begun, HasFound;
  }

  lemma ThreeSteps(w: World, s: Side, n: nat)
    requires n >= 3
    ensures Undisturbed(w, s, n) == Undisturbed(Calmly(Calmly(Calmly(w, s), s), s), s, n - 3)
  {
    hide *;
    Unrolled(w, s, n);
    Unrolled(Calmly(w, s), s, n - 1);
    Unrolled(Calmly(Calmly(w, s), s), s, n - 2);
  }

  lemma CheckIsAhead(w: World, s: Side)
    requires IsAt(w, s, Stage(Update, 0))
    ensures GapAhead(w, s) == Some(w.now - 5)
  {
  }

  /** A process that finds an interrupted maintenance of its peer, and that nothing disturbs, restores the
      host from the backup if an upgrade may have begun, and brings it back as it is if none has. Either
      way the journal is left to an operator. */
  lemma InterruptedMaintenanceIsEnded(w: World, s: Side, n: nat)
    requires At(w, s).Down? && w.journal.target == Some(Peer(s)) && !w.journal.phase.Idle? && !w.journal.phase.Blocked?
    requires CanRestore(w.journal) || w.journal.phase.Checking? || w.journal.phase.BackingUp?
    requires n > 13
    ensures var end := Undisturbed(Begun(w, s), s, n);
      && At(end, s).Down? && Grew(w.log, end.log, Peer(s), if CanRestore(w.journal) then [CRestore, CActivate] else [CActivate])
      && end.journal.phase.Blocked? && end.journal.owner == w.journal.owner && end.journal.target == w.journal.target
      && end.journal.backupId == w.journal.backupId && end.journal.gapStart == w.journal.gapStart
      && (w.journal.recovery.Some? ==> end.journal.recovery == w.journal.recovery)
  {
    var begun := Begun(w, s);
    var found := Calmly(begun, s);
    FoundJournalDecides(w, s);
    Unrolled(begun, s, n);
    var stage := if CanRestore(w.journal) then Stage(Recovery, 0) else Stage(Revival, 0);
    UndisturbedEnds(found, s, stage, n - 1);
    NoGapAhead(found, s, stage);
    hide Undisturbed, Calmly, Begun, IsAt;
  }

  lemma NoGapAhead(w: World, s: Side, stage: Stage)
    requires IsAt(w, s, stage) && !stage.way.Update?
    ensures GapAhead(w, s) == w.journal.gapStart
  {
  }
}
