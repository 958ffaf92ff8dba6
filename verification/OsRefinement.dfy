/** The journal of the two-controller runs is the metadata entry that the saves of OsJournal write:
    every run moves a history of versions along, write by write, and each write of the run is
    possible exactly when the provider allows it. The histories are the sound ones of OsJournal, so
    what is assumed there of the other writer holds of two controllers. */
module OsRefinement {
  import opened OsRunSpec
  import opened OsRunSafety
  import opened OsRunTheorems
  import J = OsJournal

  /** How journals are written down; different ones differ as entries. */
  type Encoding = Journal -> J.Entry

  ghost predicate Faithful(encode: Encoding) { forall a, b | encode(a) == encode(b) :: a == b }

  function Tally(n: nat): string { seq(n, i => '|') }

  function Ordinal(phase: Phase): nat {
    match phase
    case Idle => 0 case Checking => 1 case BackingUp => 2 case Upgrading => 3
    case Validating => 4 case Restoring => 5 case RollbackValidation => 6 case Blocked => 7
  }

  /** One faithful way to write a journal down: a key a field, numbers as tally marks. */
  function Written(j: Journal): J.Entry {
    map["phase" := Tally(Ordinal(j.phase)), "owner" := Tally(j.owner), "stamp" := Tally(j.stamp),
        "target" := if j.target.None? then "" else if j.target.value.North? then "N" else "S",
        "backup" := if j.backupId.None? then "" else "#" + Tally(j.backupId.value),
        "recovery" := if j.recovery.None? then "" else "#" + Tally(j.recovery.value),
        "gap" := if j.gapStart.None? then "" else if j.gapStart.value < 0 then "-" + Tally(-j.gapStart.value) else "+" + Tally(j.gapStart.value)]
  }

  lemma WrittenIsFaithful()
    ensures Faithful(Written)
  {
    forall a, b | Written(a) == Written(b) ensures a == b {
      var x, y := Written(a), Written(b);
      assert |x["phase"]| == |y["phase"]| && |x["owner"]| == |y["owner"]| && |x["stamp"]| == |y["stamp"]|;
      assert |x["backup"]| == |y["backup"]| && |x["recovery"]| == |y["recovery"]| && |x["gap"]| == |y["gap"]|;
      assert x["target"] == y["target"];
      assert a.gapStart.Some? && b.gapStart.Some? ==> x["gap"][0] == y["gap"][0];
    }
  }

  /** The provider: its versions, what each new entry is to replace, and the writes on their way. */
  datatype Cloud = Cloud(versions: seq<J.Version>, origin: map<J.Entry, J.Entry>, sent: seq<J.Request>) {
    predicate IsSome() { versions != [] }

    function Latest(): J.Version
      requires IsSome()
    {
      versions[|versions| - 1]
    }
  }

  function Initial(encode: Encoding, others: map<string, string>): Cloud {
    Cloud([J.Version(encode(UNUSED), others)], map[], [])
  }

  /** A process that waits for a write read its own last state and sends the new one. */
  predicate CanSend(c: Cloud, p: Proc, encode: Encoding) {
    c.IsSome() && p.Up? && p.pc.Saving? && c.Latest().journal == encode(p.state)
  }

  /** A write that is under way names the current version. */
  predicate CanApply(c: Cloud, k: nat) { k < |c.sent| && c.sent[k].etag == |c.versions| - 1 }

  /** A write from one entry to another goes out, naming the current version. */
  function Put(c: Cloud, from: J.Entry, to: J.Entry): Cloud
    requires c.IsSome()
  {
    c.(origin := c.origin[to := from], sent := c.sent + [J.Request(|c.versions| - 1, J.Version(to, c.Latest().others))])
  }

  /** What the provider makes of a step; it looks at its own tables and at the writer only. */
  function CloudNext(c: Cloud, w: World, step: Step, encode: Encoding, others: map<string, string>): Cloud {
    match step
    case ProcessStep(s, Send) =>
      var p := At(w, s);
      if CanSend(c, p, encode) then Put(c, encode(p.state), encode(p.pc.updated)) else c
    case CommitStep(k) => if CanApply(c, k) then c.(versions := c.versions + [c.sent[k].value]) else c
    case EditStep => if c.IsSome() then c.(versions := c.versions + [J.Version(c.Latest().journal, others)]) else c
    case _ => c
  }

  /** The unrelated keys after each edit are the editor's choice. */
  function CloudAfter(steps: seq<Step>, encode: Encoding, edits: nat -> map<string, string>): Cloud {
    if steps == [] then Initial(encode, edits(0))
    else
      var before := steps[..|steps| - 1];
      CloudNext(CloudAfter(before, encode, edits), After(before), steps[|steps| - 1], encode, edits(|steps|))
  }

  // ----- writes are told apart by their stamps -----

  predicate ComesAfter(r: Request) { r.before.stamp < r.updated.stamp }

  /** Requests for the same entry are repetitions of one write. */
  predicate Fresh(w: World) {
    && (forall r | r in w.requests :: ComesAfter(r))
    && (forall r, x | r in w.requests && x in w.requests && r.updated == x.updated :: r.before == x.before)
    && (forall s: Side | At(w, s).Up? && At(w, s).pc.Saving? :: Repeats(w, At(w, s)))
    && (forall c | c in w.commits :: IsRequested(w, c.updated))
  }

  predicate Repeats(w: World, p: Proc)
    requires p.Up? && p.pc.Saving?
  {
    forall r | r in w.requests && r.updated == p.pc.updated :: r.before == p.state
  }

  predicate IsRequested(w: World, j: Journal) { exists r | r in w.requests :: r.updated == j }

  /** Writes begun in this step carry a stamp that no request has. */
  lemma BegunIsFresh(w: World, v: World, s: Side)
    requires Safe(w) && Fresh(w) && v.requests == w.requests
    requires At(v, s).Up? && At(v, s).pc.Saving? ==> At(v, s) == At(w, s) || At(v, s).pc.updated.stamp == w.stamp + 1
    ensures At(v, s).Up? && At(v, s).pc.Saving? ==> Repeats(v, At(v, s))
  {
    hide LiveRequests, Withheld, JournalFits, Commits, Log, Runs, Sound;
    forall r | r in w.requests ensures r.updated.stamp <= w.stamp { assert RequestFits(w, r); }
  }

  lemma BeginsWithNewStamp(w: World, s: Side, act: Act)
    requires Safe(w) && CanAct(w, s, act) && !act.Send?
    ensures var q := At(ActOf(w, s, act), s);
      q.Up? && q.pc.Saving? ==> q.pc.updated.stamp == w.stamp + 1
  {
    hide Safe, MoveOf, SaveReturned, SaveRaised;
    match act
    case Start =>
    case Crash =>
    case Move(ok, effect, doomed) => MoveBeginsNow(w, s, ok, effect, doomed);
    case Return => if SaveReturned(At(w, s)).Up? { ReturnedIsIdle(At(w, s)); }
    case Raise => RaiseBegins(w, s);
  }

  lemma MoveBeginsNow(w: World, s: Side, ok: bool, effect: bool, doomed: set<nat>)
    requires At(w, s).Up? && !At(w, s).pc.Saving?
    ensures var q := At(MoveOf(w, s, ok, effect, doomed), s);
      q.Up? && q.pc.Saving? ==> q.pc.updated.stamp == w.stamp + 1
  {
    hide Succeeded, Failed;
    MoveBegins(w, s, At(w, s), ok);
  }

  lemma RaiseBegins(w: World, s: Side)
    requires At(w, s).Up? && At(w, s).pc.Saving?
    ensures var q := SaveRaised(At(w, s), s, w);
      q.Up? && q.pc.Saving? ==> q.pc.updated.stamp == w.stamp + 1
  {
  }

  lemma SendKeepsFresh(w: World, s: Side)
    requires Safe(w) && Fresh(w) && CanAct(w, s, Send)
    ensures Fresh(ActOf(w, s, Send))
  {
    var v := ActOf(w, s, Send);
    var p, q := At(w, s), At(w, Peer(s));
    hide Requests, LiveRequests, Withheld, JournalFits, Commits, Log;
    assert Sound(w, s) && Repeats(w, p);
    assert q.Up? ==> Apart(p, q);
    hide Runs, Sound, Knows, Tends, HasDone;
    assert v.requests == w.requests + [Sent(w, s)];
    forall o: Side | At(v, o).Up? && At(v, o).pc.Saving? ensures Repeats(v, At(v, o)) {
      assert Repeats(w, At(w, o));
      if o != s { assert o == Peer(s); }
    }
    forall c | c in v.commits ensures IsRequested(v, c.updated) { assert IsRequested(w, c.updated); }
  }

  lemma ActKeepsFresh(w: World, s: Side, act: Act)
    requires Safe(w) && Fresh(w) && CanAct(w, s, act) && !act.Send?
    ensures Fresh(ActOf(w, s, act))
  {
    var v := ActOf(w, s, act);
    hide Safe, Repeats, CanAct, ActOf, ComesAfter;
    BeginsWithNewStamp(w, s, act);
    ActedElsewhere(w, s, act);
    BegunIsFresh(w, v, s);
    SameRequests(w, v);
    forall o: Side | At(v, o).Up? && At(v, o).pc.Saving? ensures Repeats(v, At(v, o)) {
      if o != s { assert o == Peer(s) && Repeats(w, At(w, o)); SameRepetitions(w, v, At(v, o)); }
    }
  }

  /** A step that sends nothing and begins no write. */
  lemma PassiveStepKeepsFresh(w: World, v: World)
    requires Fresh(w) && v.requests == w.requests && v.procs == w.procs
    requires forall c | c in v.commits :: c in w.commits || IsRequested(w, c.updated)
    ensures Fresh(v)
  {
    hide Repeats, ComesAfter;
    SameRequests(w, v);
    forall o: Side | At(v, o).Up? && At(v, o).pc.Saving? ensures Repeats(v, At(v, o)) {
      assert Repeats(w, At(w, o));
      SameRepetitions(w, v, At(w, o));
    }
  }

  lemma StepKeepsFresh(w: World, step: Step)
    requires Safe(w) && Fresh(w)
    ensures Fresh(Next(w, step))
  {
    hide Safe, Fresh, CanAct, ActOf;
    match step
    case ProcessStep(s, act) =>
      if CanAct(w, s, act) { if act.Send? { SendKeepsFresh(w, s); } else { ActKeepsFresh(w, s, act); } }
    case CommitStep(k) =>
      if k < |w.requests| && w.requests[k].etag == w.etag {
        assert IsRequested(w, w.requests[k].updated);
        PassiveStepKeepsFresh(w, Next(w, step));
      }
    case _ => PassiveStepKeepsFresh(w, Next(w, step));
  }

  lemma SameRequests(w: World, v: World)
    requires v.requests == w.requests
    ensures forall j :: IsRequested(v, j) == IsRequested(w, j)
  {
  }

  lemma SameRepetitions(w: World, v: World, p: Proc)
    requires v.requests == w.requests && p.Up? && p.pc.Saving?
    ensures Repeats(v, p) == Repeats(w, p)
  {
  }

  /** A step of one process other than sending leaves the peer and the journal's tables alone. */
  lemma ActedElsewhere(w: World, s: Side, act: Act)
    requires CanAct(w, s, act) && !act.Send?
    ensures var v := ActOf(w, s, act);
      && At(v, Peer(s)) == At(w, Peer(s)) && v.requests == w.requests && v.commits == w.commits
      && v.journal == w.journal && v.etag == w.etag
  {
  }

  lemma {:induction false} EveryRunIsFresh(steps: seq<Step>)
    ensures Fresh(After(steps))
  {
    if steps != [] {
      var before := steps[..|steps| - 1];
      EveryRunIsFresh(before);
      EveryRunIsSafe(before);
      hide Fresh, Safe, Next;
      StepKeepsFresh(After(before), steps[|steps| - 1]);
    }
  }

  // ----- the relation -----

  /** A request of the run and one at the provider are the same write. */
  predicate SameWrite(r: Request, x: J.Request, encode: Encoding) {
    x.etag == r.etag && x.value.journal == encode(r.updated)
  }

  predicate SameRequestList(c: Cloud, w: World, encode: Encoding) {
    |c.sent| == |w.requests| && forall i | 0 <= i < |c.sent| :: SameWrite(w.requests[i], c.sent[i], encode)
  }

  ghost predicate IsVersion(c: Cloud, e: J.Entry) { exists v | v in c.versions :: v.journal == e }

  /** The entries written so far are those of the run's commits, after the initial one. */
  ghost predicate SameEntries(c: Cloud, w: World, encode: Encoding) {
    forall j :: IsVersion(c, encode(j)) <==> IsCommitted(w, j) || j == UNUSED
  }

  ghost predicate SameOrigin(c: Cloud, w: World, encode: Encoding) {
    && (forall r | r in w.requests :: encode(r.updated) in c.origin && c.origin[encode(r.updated)] == encode(r.before))
    && (forall e | e in c.origin :: exists r | r in w.requests :: encode(r.updated) == e)
  }

  ghost predicate SameJournal(c: Cloud, w: World, encode: Encoding) {
    && |c.versions| == w.etag + 1 && c.Latest().journal == encode(w.journal)
    && SameRequestList(c, w, encode)
  }

  /** What OsJournal assumes of a provider and its writers. */
  ghost predicate Consistent(c: Cloud) {
    J.History(c.versions, c.origin) && forall x | x in c.sent :: J.Derived(c.versions, c.origin, x)
  }

  ghost predicate Related(c: Cloud, w: World, encode: Encoding) {
    c.IsSome() && SameJournal(c, w, encode) && SameEntries(c, w, encode) && SameOrigin(c, w, encode) && Consistent(c)
  }

  lemma StartIsRelated(encode: Encoding, others: map<string, string>)
    requires Faithful(encode)
    ensures Related(Initial(encode, others), START, encode)
  {
    var c := Initial(encode, others);
    assert c.versions[0] in c.versions;
  }

  // ----- a write is sent -----

  lemma SendsAgree(c: Cloud, w: World, s: Side, encode: Encoding)
    requires Faithful(encode) && c.IsSome() && SameJournal(c, w, encode)
    ensures CanSend(c, At(w, s), encode) <==> CanAct(w, s, Send)
  {
  }

  /** The entry of a write is new, or the write was sent before and replaces the same entry. */
  lemma SentEntry(c: Cloud, w: World, s: Side, encode: Encoding)
    requires Faithful(encode) && Related(c, w, encode) && Safe(w) && Fresh(w) && CanAct(w, s, Send)
    ensures var p := At(w, s); var e := encode(p.pc.updated);
      && e != encode(p.state)
      && (if e in c.origin then c.origin[e] == encode(p.state) else !IsVersion(c, e))
  {
    var p := At(w, s);
    hide Consistent, SameJournal;
    WriteIsNoState(w, s);
    hide Safe;
    assert Repeats(w, p);
    if IsVersion(c, encode(p.pc.updated)) {
      assert IsCommitted(w, p.pc.updated);
      assert IsRequested(w, p.pc.updated);
    }
  }

  lemma WriteIsNoState(w: World, s: Side)
    requires Safe(w) && At(w, s).Up? && At(w, s).pc.Saving?
    ensures At(w, s).state.stamp < At(w, s).pc.updated.stamp <= w.stamp && At(w, s).pc.updated != UNUSED
  {
    hide Requests, LiveRequests, Withheld, JournalFits, Commits, Log, Runs, Knows, Tends, HasDone, Holding;
    assert Sound(w, s);
  }

  lemma ClaimKeepsConsistent(c: Cloud, from: J.Entry, to: J.Entry)
    requires Consistent(c) && c.IsSome() && c.Latest().journal == from != to
    requires if to in c.origin then c.origin[to] == from else !IsVersion(c, to)
    ensures Consistent(Put(c, from, to))
  {
    var origin := c.origin[to := from];
    if to in c.origin { assert origin == c.origin; } else { J.ClaimKeepsHistory(c.versions, c.origin, from, to); }
    J.DerivedFromSeen(c.versions, origin, to, |c.versions| - 1);
    hide J.History;
    forall x | x in c.sent ensures J.Derived(c.versions, origin, x) { assert J.Derived(c.versions, c.origin, x); }
  }

  lemma SendKeepsOrigin(c: Cloud, w: World, s: Side, encode: Encoding)
    requires Faithful(encode) && c.IsSome() && SameOrigin(c, w, encode) && CanAct(w, s, Send) && Repeats(w, At(w, s))
    ensures SameOrigin(Put(c, encode(At(w, s).state), encode(At(w, s).pc.updated)), ActOf(w, s, Send), encode)
  {
    var p, v := At(w, s), ActOf(w, s, Send);
    var origin := c.origin[encode(p.pc.updated) := encode(p.state)];
    assert v.requests == w.requests + [Sent(w, s)];
    forall e | e in origin ensures exists r | r in v.requests :: encode(r.updated) == e {
      if e in c.origin {
        var r :| r in w.requests && encode(r.updated) == e;
        assert r in v.requests;
      } else {
        assert Sent(w, s) in v.requests;
      }
    }
  }

  lemma SendKeepsJournal(c: Cloud, w: World, s: Side, encode: Encoding)
    requires c.IsSome() && SameJournal(c, w, encode) && CanAct(w, s, Send)
    ensures SameJournal(Put(c, encode(At(w, s).state), encode(At(w, s).pc.updated)), ActOf(w, s, Send), encode)
  {
    var d, v := Put(c, encode(At(w, s).state), encode(At(w, s).pc.updated)), ActOf(w, s, Send);
    assert v.requests == w.requests + [Sent(w, s)];
    forall i | 0 <= i < |d.sent| ensures SameWrite(v.requests[i], d.sent[i], encode) {
      if i < |c.sent| { assert SameWrite(w.requests[i], c.sent[i], encode); }
    }
  }

  lemma SendKeepsRelated(c: Cloud, w: World, s: Side, encode: Encoding)
    requires Faithful(encode) && Related(c, w, encode) && Safe(w) && Fresh(w) && CanAct(w, s, Send)
    ensures Related(Put(c, encode(At(w, s).state), encode(At(w, s).pc.updated)), ActOf(w, s, Send), encode)
  {
    var p, v := At(w, s), ActOf(w, s, Send);
    SentEntry(c, w, s, encode);
    assert Repeats(w, p);
    hide Safe, Fresh, Repeats, Faithful, SameOrigin, SameEntries;
    SendKeepsOrigin(c, w, s, encode);
    SendKeepsJournal(c, w, s, encode);
    ClaimKeepsConsistent(c, encode(p.state), encode(p.pc.updated));
    SameCommits(c, Put(c, encode(p.state), encode(p.pc.updated)), w, v, encode);
  }

  lemma SameCommits(c: Cloud, d: Cloud, w: World, v: World, encode: Encoding)
    requires SameEntries(c, w, encode) && d.versions == c.versions && v.commits == w.commits
    ensures SameEntries(d, v, encode)
  {
    forall j ensures IsVersion(d, encode(j)) <==> IsCommitted(v, j) || j == UNUSED {
      assert IsVersion(d, encode(j)) == IsVersion(c, encode(j)) && IsCommitted(v, j) == IsCommitted(w, j);
    }
  }

  // ----- a write takes effect -----

  lemma AppliesAgree(c: Cloud, w: World, k: nat, encode: Encoding)
    requires c.IsSome() && SameJournal(c, w, encode)
    ensures CanApply(c, k) <==> k < |w.requests| && w.requests[k].etag == w.etag
  {
    if k < |c.sent| { assert SameWrite(w.requests[k], c.sent[k], encode); }
  }

  lemma VersionsGrow(c: Cloud, d: Cloud, v: J.Version)
    requires d.versions == c.versions + [v]
    ensures forall e :: IsVersion(d, e) <==> IsVersion(c, e) || e == v.journal
  {
    assert d.versions[|c.versions|] == v;
    forall e ensures IsVersion(d, e) <==> IsVersion(c, e) || e == v.journal {
      if IsVersion(c, e) {
        var u :| u in c.versions && u.journal == e;
        assert u in d.versions;
      }
    }
  }

  lemma ApplyKeepsConsistent(c: Cloud, k: nat)
    requires Consistent(c) && CanApply(c, k)
    ensures Consistent(c.(versions := c.versions + [c.sent[k].value]))
  {
    J.CommitKeepsHistory(c.versions, c.origin, c.sent[k]);
    J.DerivedStays(c.versions, c.origin, c.sent, c.sent[k].value);
  }

  lemma CommitKeepsRelated(c: Cloud, w: World, k: nat, encode: Encoding)
    requires Faithful(encode) && Related(c, w, encode) && CanApply(c, k)
    requires k < |w.requests| && w.requests[k].etag == w.etag
    ensures Related(c.(versions := c.versions + [c.sent[k].value]), Committed(w, w.requests[k]), encode)
  {
    var d, v := c.(versions := c.versions + [c.sent[k].value]), Committed(w, w.requests[k]);
    assert SameWrite(w.requests[k], c.sent[k], encode);
    ApplyKeepsConsistent(c, k);
    VersionsGrow(c, d, c.sent[k].value);
    CommitSeen(w, w.requests[k]);
    hide Consistent, IsVersion, IsCommitted;
    assert SameJournal(d, v, encode) by { hide SameEntries, SameOrigin; }
    hide SameJournal;
    assert SameOrigin(d, v, encode) by { hide SameEntries; }
  }

  lemma EditKeepsRelated(c: Cloud, w: World, encode: Encoding, others: map<string, string>)
    requires Related(c, w, encode)
    ensures Related(c.(versions := c.versions + [J.Version(c.Latest().journal, others)]), w.(etag := w.etag + 1), encode)
  {
    var edit := J.Version(c.Latest().journal, others);
    var d, v := c.(versions := c.versions + [edit]), w.(etag := w.etag + 1);
    J.ExtendHistory(c.versions, c.origin, edit);
    J.DerivedStays(c.versions, c.origin, c.sent, edit);
    hide J.History, J.Derived;
    assert Consistent(d);
    hide Consistent;
    VersionsGrow(c, d, edit);
    assert IsVersion(c, edit.journal);
    assert forall j :: IsCommitted(v, j) == IsCommitted(w, j);
  }

  // ----- every run -----

  lemma SilentKeepsRelated(c: Cloud, w: World, v: World, encode: Encoding)
    requires Related(c, w, encode)
    requires v.journal == w.journal && v.etag == w.etag && v.requests == w.requests && v.commits == w.commits
    ensures Related(c, v, encode)
  {
    hide Consistent;
    assert SameEntries(c, v, encode) by { SameCommits(c, c, w, v, encode); }
  }

  lemma StepKeepsRelated(c: Cloud, w: World, step: Step, encode: Encoding, others: map<string, string>)
    requires Faithful(encode) && Related(c, w, encode) && Safe(w) && Fresh(w)
    ensures Related(CloudNext(c, w, step, encode, others), Next(w, step), encode)
  {
    hide Safe, Fresh, Faithful, CanApply, CanSend, CanAct, ActOf, SameJournal, SameEntries, SameOrigin, Consistent;
    match step
    case ProcessStep(s, act) =>
      if act.Send? {
        SendsAgree(c, w, s, encode);
        if CanAct(w, s, act) { SendKeepsRelated(c, w, s, encode); }
      } else if CanAct(w, s, act) {
        ActedElsewhere(w, s, act);
        SilentKeepsRelated(c, w, ActOf(w, s, act), encode);
      }
    case CommitStep(k) =>
      AppliesAgree(c, w, k, encode);
      if CanApply(c, k) { CommitKeepsRelated(c, w, k, encode); }
    case EditStep => EditKeepsRelated(c, w, encode, others);
    case _ => SilentKeepsRelated(c, w, Next(w, step), encode);
  }

  /** Step by step, the provider and the run hold the same journal, the same writes on their way
      and the same entries, and the provider's tables are ones OsJournal reasons about. */
  lemma {:induction false} EveryRunIsAHistory(steps: seq<Step>, encode: Encoding, edits: nat -> map<string, string>)
    requires Faithful(encode)
    ensures Related(CloudAfter(steps, encode, edits), After(steps), encode)
  {
    if steps == [] {
      StartIsRelated(encode, edits(0));
    } else {
      var before := steps[..|steps| - 1];
      EveryRunIsAHistory(before, encode, edits);
      EveryRunIsSafe(before);
      EveryRunIsFresh(before);
      hide Related, Safe, Fresh, Next, CloudNext, Faithful;
      StepKeepsRelated(CloudAfter(before, encode, edits), After(before), steps[|steps| - 1], encode, edits(|steps|));
    }
  }

  /** In every run a write can be sent, can take effect and can return exactly when the provider's
      versions say so: the latest is the writer's state, the latest is the one it was derived from,
      some version is the new entry. */
  lemma WritesAgree(steps: seq<Step>, encode: Encoding, edits: nat -> map<string, string>, s: Side, k: nat)
    requires Faithful(encode)
    ensures var c, w := CloudAfter(steps, encode, edits), After(steps);
      && (CanSend(c, At(w, s), encode) <==> CanAct(w, s, Send))
      && (CanApply(c, k) <==> k < |w.requests| && w.requests[k].etag == w.etag)
      && (CanAct(w, s, Return) <==> At(w, s).Up? && At(w, s).pc.Saving? && IsVersion(c, encode(At(w, s).pc.updated)))
  {
    var c, w := CloudAfter(steps, encode, edits), After(steps);
    EveryRunIsAHistory(steps, encode, edits);
    SendsAgree(c, w, s, encode);
    AppliesAgree(c, w, k, encode);
    EveryRunIsSafe(steps);
    if At(w, s).Up? && At(w, s).pc.Saving? { WriteIsNoState(w, s); }
    hide Safe, CanSend, CanApply, SameJournal, SameOrigin, Consistent, IsVersion, IsCommitted;
  }

  lemma LiveIsNew(c: Cloud, w: World, encode: Encoding, k: nat)
    requires Related(c, w, encode) && k < |w.requests| && w.requests[k].etag == w.etag
    ensures !IsCommitted(w, w.requests[k].updated)
  {
    AppliesAgree(c, w, k, encode);
    hide J.History;
    assert SameWrite(w.requests[k], c.sent[k], encode);
    forall i | 0 <= i < |c.versions| ensures c.versions[i].journal != encode(w.requests[k].updated) {
      J.LiveRequestIsUnapplied(c.versions, c.origin, c.sent[k], i);
    }
    assert !IsVersion(c, encode(w.requests[k].updated));
  }

  /** No write of either controller takes effect twice, however often it was sent: what can still
      take effect was never the journal, and once a write can return nothing more can come of it. */
  lemma NothingTakesEffectTwice(steps: seq<Step>, encode: Encoding, edits: nat -> map<string, string>, k: nat)
    requires Faithful(encode) && k < |After(steps).requests| && After(steps).requests[k].etag == After(steps).etag
    ensures !IsCommitted(After(steps), After(steps).requests[k].updated)
    ensures forall s: Side | CanAct(After(steps), s, Return) :: At(After(steps), s).pc.updated != After(steps).requests[k].updated
  {
    EveryRunIsAHistory(steps, encode, edits);
    hide Related, IsCommitted, Faithful;
    LiveIsNew(CloudAfter(steps, encode, edits), After(steps), encode, k);
  }
}
