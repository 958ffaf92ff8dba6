/** Tiered backups: verified local snapshots are copied to an archive, one per group is pinned
    against pruning, and the previous pins are released only afterwards. Everything outside the
    program's memory lives in one object; each of its methods is one command or one durable write
    and keeps Durable(), which therefore holds wherever a run is cut off. Times are seconds. */
module TieredPins {
  import opened Wrappers

  datatype Key = Key(kind: string, id: string, time: int)

  datatype Snapshot = Snapshot(key: Key, complete: bool, verified: bool, pinned: bool)

  function GroupOf(key: Key): string { key.kind + "/" + key.id }

  predicate Unique(rows: seq<Snapshot>) {
    forall i, j | 0 <= i < j < |rows| :: rows[i].key != rows[j].key
  }

  predicate IsPinned(rows: seq<Snapshot>, key: Key) { exists s | s in rows :: s.key == key && s.pinned }

  predicate IsThere(rows: seq<Snapshot>, key: Key) { exists s | s in rows :: s.key == key }

  predicate IsComplete(rows: seq<Snapshot>, key: Key) { exists s | s in rows :: s.key == key && s.complete }

  // ----- choosing -----

  const MAX_AGE: int := 26 * 3600

  predicate Candidate(s: Snapshot, name: string) { GroupOf(s.key) == name && s.complete && s.verified }

  /** The latest complete and verified snapshot of a group, not older than 26 hours. */
  predicate Chosen(rows: seq<Snapshot>, name: string, now: int, s: Snapshot) {
    && s in rows && Candidate(s, name) && now - s.key.time <= MAX_AGE
    && forall t | t in rows && Candidate(t, name) :: t.key.time <= s.key.time
  }

  predicate ChosenKey(rows: seq<Snapshot>, name: string, now: int, key: Key) {
    exists s | s in rows :: s.key == key && Chosen(rows, name, now, s)
  }

  method LatestVerified(rows: seq<Snapshot>, name: string) returns (latest: Option<Snapshot>)
    ensures latest.None? ==> forall t | t in rows :: !Candidate(t, name)
    ensures latest.Some? ==> latest.value in rows && Candidate(latest.value, name)
    ensures latest.Some? ==> forall t | t in rows && Candidate(t, name) :: t.key.time <= latest.value.key.time
  {
    latest := None;
    for i := 0 to |rows|
      invariant latest.None? ==> forall j | 0 <= j < i :: !Candidate(rows[j], name)
      invariant latest.Some? ==> latest.value in rows && Candidate(latest.value, name)
      invariant latest.Some? ==> forall j | 0 <= j < i && Candidate(rows[j], name) :: rows[j].key.time <= latest.value.key.time
    {
      if Candidate(rows[i], name) && (latest.None? || rows[i].key.time > latest.value.key.time) { latest := Some(rows[i]); }
    }
  }

  /** One snapshot per group, or a refusal exactly when some group has no recent verified one. */
  method SelectVerified(rows: seq<Snapshot>, groups: seq<string>, now: int) returns (r: Option<seq<Snapshot>>)
    ensures r.Some? ==> |r.value| == |groups| && forall i | 0 <= i < |groups| :: Chosen(rows, groups[i], now, r.value[i])
    ensures r.None? <==> exists g | g in groups :: !HasRecent(rows, g, now)
  {
    var chosen: seq<Snapshot> := [];
    for i := 0 to |groups|
      invariant |chosen| == i && forall j | 0 <= j < i :: Chosen(rows, groups[j], now, chosen[j])
      invariant forall g | g in groups[..i] :: HasRecent(rows, g, now)
    {
      var latest := LatestVerified(rows, groups[i]);
      if latest.None? || now - latest.value.key.time > MAX_AGE {
        assert !HasRecent(rows, groups[i], now);
        return None;
      }
      chosen := chosen + [latest.value];
    }
    assert groups[..|groups|] == groups;
    r := Some(chosen);
  }

  predicate HasRecent(rows: seq<Snapshot>, name: string, now: int) {
    exists s | s in rows :: Candidate(s, name) && now - s.key.time <= MAX_AGE
  }

  /** A recent verified backup of a group is one of its name that is complete, verified and at most 26
      hours old. */
  lemma RecentIff(rows: seq<Snapshot>, name: string, now: int)
    ensures HasRecent(rows, name, now) <==>
      exists s | s in rows :: s.key.kind + "/" + s.key.id == name && s.complete && s.verified && now - s.key.time <= 93_600
  {
  }

  method RequireCopies(chosen: seq<Snapshot>, archive: seq<Snapshot>) returns (ok: bool)
    ensures ok <==> forall s | s in chosen :: IsComplete(archive, s.key)
  {
    var present: set<Key> := {};
    for i := 0 to |archive|
      invariant forall k :: k in present <==> IsComplete(archive[..i], k)
    {
      assert archive[..i + 1] == archive[..i] + [archive[i]];
      if archive[i].complete { present := present + {archive[i].key}; }
    }
    assert archive[..|archive|] == archive;
    ok := forall s | s in chosen :: s.key in present;
  }

  datatype SyncJob = SyncJob(store: string, remoteStore: string, remote: string, direction: string, owner: string,
    verifiedOnly: bool, removeVanished: bool)

  /** Only a local, pulling job that copies verified snapshots and removes nothing is run. */
  predicate ValidSync(job: SyncJob, local: string, archive: string) {
    && job.store == archive && job.remoteStore == local && job.remote == "" && job.direction == "pull"
    && job.owner == "admin@pbs" && job.verifiedOnly && !job.removeVanished
  }

  // ----- what outlives a run -----

  /** state.json */
  datatype State = State(pins: set<Key>, lastSync: Option<int>, synced: seq<Key>)

  datatype Reply = Done | Busy | Refused

  datatype Job = Verification | Copying

  ghost predicate KeepsPins(before: seq<Snapshot>, after: seq<Snapshot>) {
    forall k | IsPinned(before, k) :: IsPinned(after, k)
  }

  function WithFlag(rows: seq<Snapshot>, key: Key, flag: bool): (r: seq<Snapshot>)
    ensures Unique(rows) ==> Unique(r)
  {
    seq(|rows|, i requires 0 <= i < |rows| => if rows[i].key == key then rows[i].(pinned := flag) else rows[i])
  }

  lemma FlagMoves(rows: seq<Snapshot>, key: Key, flag: bool)
    ensures forall k | k != key :: IsPinned(WithFlag(rows, key, flag), k) == IsPinned(rows, k)
    ensures IsThere(rows, key) ==> IsPinned(WithFlag(rows, key, true), key)
    ensures !IsPinned(WithFlag(rows, key, false), key)
  {
    var after := WithFlag(rows, key, flag);
    forall k | k != key ensures IsPinned(after, k) == IsPinned(rows, k) {
      if IsPinned(rows, k) {
        var i :| 0 <= i < |rows| && rows[i].key == k && rows[i].pinned;
        assert after[i] in after;
      }
      if IsPinned(after, k) {
        var i :| 0 <= i < |after| && after[i].key == k && after[i].pinned;
        assert rows[i] in rows;
      }
    }
    if IsThere(rows, key) {
      var i :| 0 <= i < |rows| && rows[i].key == key;
      assert WithFlag(rows, key, true)[i] in WithFlag(rows, key, true);
    }
  }

  /** The keys that are not protected yet: only these become the program's own pins. */
  ghost function Unpinned(keys: seq<Key>, rows: seq<Snapshot>): set<Key> { set k | k in keys && !IsPinned(rows, k) }

  lemma NothingUnpinned(rows: seq<Snapshot>)
    ensures Unpinned([], rows) == {}
  {
  }

  lemma UnpinnedGrows(keys: seq<Key>, key: Key, rows: seq<Snapshot>)
    ensures Unpinned(keys + [key], rows) == Unpinned(keys, rows) + if key in keys || IsPinned(rows, key) then {} else {key}
  {
    hide IsPinned;
  }

  predicate AllPinned(keys: seq<Key>, rows: seq<Snapshot>) { forall k | k in keys :: IsPinned(rows, k) }

  function KeysOf(rows: seq<Snapshot>): seq<Key> { seq(|rows|, i requires 0 <= i < |rows| => rows[i].key) }

  class Pbs {
    const groups: seq<string>
    var local: seq<Snapshot>
    var archive: seq<Snapshot>
    var saved: State
    var now: int
    /** Keys some listing showed verified, keys some archive listing showed complete. */
    ghost var seenVerified: set<Key>
    ghost var seenArchived: set<Key>
    /** Keys this program protected, recorded, released. */
    ghost var protectedHere: set<Key>
    ghost var recorded: set<Key>
    ghost var released: set<Key>
    /** Somebody else lifted a protection, or set one. */
    ghost var lifted: bool
    ghost var raised: bool
    /** What the last local listing showed. */
    ghost var listing: seq<Snapshot>
    /** Keys whose protection was commanded to be lifted; the verification and copy jobs that ran. */
    ghost var lifting: set<Key>
    ghost var jobs: seq<Job>
    /** A command was refused. */
    ghost var refused: bool
    /** What the listing before each prune showed. */
    ghost var pruned: seq<seq<Snapshot>>

    ghost predicate Confirmed(key: Key)
      reads `seenVerified, `seenArchived
    {
      key in seenVerified && key in seenArchived
    }

    /** Every configured group has a confirmed snapshot among these rows that is protected. */
    ghost predicate Covered(rows: seq<Snapshot>)
      reads `seenVerified, `seenArchived
    {
      forall g | g in groups :: exists k | Confirmed(k) :: GroupOf(k) == g && IsPinned(rows, k)
    }

    /** The keys hold one confirmed snapshot of every configured group. */
    ghost predicate Represents(keys: seq<Key>)
      reads `seenVerified, `seenArchived
    {
      forall g | g in groups :: exists k | k in keys :: GroupOf(k) == g && Confirmed(k)
    }

    ghost predicate Durable()
      reads this
    {
      && Unique(local) && saved.pins <= recorded <= protectedHere && released <= recorded
      && (saved.lastSync.Some? ==> Represents(saved.synced) && (!lifted ==> Covered(local)))
      && forall rows | rows in pruned :: Covered(rows)
    }

    constructor (groups: seq<string>, local: seq<Snapshot>, archive: seq<Snapshot>, now: int)
      requires Unique(local)
      ensures Durable() && this.groups == groups && this.local == local && saved == State({}, None, []) && !lifted && !raised
    {
      this.groups, this.local, this.archive, this.now := groups, local, archive, now;
      saved := State({}, None, []);
      seenVerified, seenArchived, protectedHere, recorded, released := {}, {}, {}, {}, {};
      lifted, raised, listing, pruned := false, false, [], [];
      lifting, jobs, refused := {}, [], false;
    }

    lemma KeepsAll(rows: seq<Snapshot>)
      ensures KeepsPins(rows, rows)
    {
    }

    /** Others add, verify, protect, release and delete snapshots. */
    method Others()
      requires Durable()
      modifies `local, `archive, `lifted, `raised, `now
      ensures Durable() && (old(lifted) ==> lifted) && (old(raised) ==> raised) && (!lifted ==> KeepsPins(old(local), local)) && now >= old(now)
      ensures !raised ==> KeepsPins(local, old(local))
    {
      hide Unique, Confirmed, IsPinned, KeepsPins, Covered, Represents;
      var rows: seq<Snapshot>, copies: seq<Snapshot>, passed: int := *, *, *;
      KeepsAll(local);
      if Unique(rows) {
        if KeepsPins(local, rows) { CoveredStays(local, rows); }
        lifted, raised := lifted || !KeepsPins(local, rows), raised || !KeepsPins(rows, local);
        local := rows;
      }
      archive := copies;
      if passed > 0 { now := now + passed; }
    }

    method ListLocal() returns (rows: seq<Snapshot>)
      requires Durable()
      modifies `local, `archive, `lifted, `raised, `now, `seenVerified, `listing
      ensures Durable() && (old(lifted) ==> lifted) && (old(raised) ==> raised) && (!lifted ==> KeepsPins(old(local), local)) && now >= old(now)
      ensures !raised ==> KeepsPins(local, old(local))
      ensures rows == local == listing && old(seenVerified) <= seenVerified && forall s | s in rows && s.complete && s.verified :: s.key in seenVerified
    {
      Others();
      rows, listing := local, local;
      seenVerified := seenVerified + set s | s in rows && s.complete && s.verified :: s.key;
    }

    method ListArchive() returns (rows: seq<Snapshot>)
      requires Durable()
      modifies `local, `archive, `lifted, `raised, `now, `seenArchived
      ensures Durable() && (old(lifted) ==> lifted) && (old(raised) ==> raised) && (!lifted ==> KeepsPins(old(local), local)) && now >= old(now)
      ensures rows == archive && old(seenArchived) <= seenArchived && forall s | s in rows && s.complete :: s.key in seenArchived
    {
      Others();
      rows := archive;
      seenArchived := seenArchived + set s | s in rows && s.complete :: s.key;
    }

    /** A key may be released once others, one per group, are known to be protected. */
    ghost predicate Releasable(key: Key, cover: seq<Key>)
      reads this
    {
      key in saved.pins && key !in cover && Represents(cover) && (!lifted ==> forall k | k in cover :: IsPinned(local, k))
    }

    /** One protection command. A refused or busy one may have taken effect all the same. */
    method Api(key: Key, flag: bool, ghost cover: seq<Key>) returns (reply: Reply)
      requires Durable() && (!flag ==> Releasable(key, cover))
      modifies `local, `archive, `lifted, `raised, `now, `protectedHere, `released, `lifting, `refused
      ensures Durable() && (old(lifted) ==> lifted) && (old(raised) ==> raised) && now >= old(now) && old(protectedHere) <= protectedHere
      ensures !lifted ==> forall k | IsPinned(old(local), k) && (flag || k != key) :: IsPinned(local, k)
      ensures flag && reply.Done? ==> key in protectedHere && (!lifted ==> IsPinned(local, key))
      ensures !raised ==> forall k | !IsPinned(old(local), k) && (!flag || k != key) :: !IsPinned(local, k)
      ensures !raised ==> forall k | k in released - old(released) :: !IsPinned(local, k)
      ensures old(released) <= released <= old(released) + {key} && (if flag then released == old(released) else reply.Done? ==> key in released)
      ensures lifting == old(lifting) + (if flag then {} else {key}) && (reply.Refused? ==> refused) && (old(refused) ==> refused)
    {
      hide WithFlag, Unique, IsPinned, Confirmed, Covered, Represents;
      Others();
      var effect: bool := *;
      reply := *;
      if !flag { lifting := lifting + {key}; }
      if !(exists s | s in local :: s.key == key) { reply := Refused; }
      if reply.Refused? { refused := true; }
      if !(exists s | s in local :: s.key == key) { return; }
      if effect || reply.Done? { TakeEffect(key, flag, cover); }
    }

    method TakeEffect(key: Key, flag: bool, ghost cover: seq<Key>)
      requires Durable() && (!flag ==> Releasable(key, cover)) && IsThere(local, key)
      modifies `local, `protectedHere, `released
      ensures Durable() && forall k | k != key :: IsPinned(local, k) == IsPinned(old(local), k)
      ensures IsPinned(local, key) == flag
      ensures protectedHere == old(protectedHere) + (if flag then {key} else {}) && released == old(released) + if flag then {} else {key}
    {
      hide WithFlag, Unique, IsPinned, Confirmed, Covered, Represents;
      FlagMoves(local, key, flag);
      if !lifted && saved.lastSync.Some? { FlagKeepsCover(local, key, flag, cover); }
      local := WithFlag(local, key, flag);
      if flag { protectedHere := protectedHere + {key}; } else { released := released + {key}; }
    }

    lemma FlagKeepsCover(rows: seq<Snapshot>, key: Key, flag: bool, cover: seq<Key>)
      requires Covered(rows)
      requires !flag ==> key !in cover && Represents(cover) && forall k | k in cover :: IsPinned(rows, k)
      ensures Covered(WithFlag(rows, key, flag))
    {
      var after := WithFlag(rows, key, flag);
      FlagMoves(rows, key, flag);
      hide IsPinned;
      if flag {
        forall k | IsPinned(rows, k) ensures IsPinned(after, k) { if k == key { PinnedIsThere(rows, k); } }
        CoveredStays(rows, after);
      } else {
        CoverSuffices(after, cover);
      }
    }

    lemma PinnedIsThere(rows: seq<Snapshot>, key: Key)
      requires IsPinned(rows, key)
      ensures IsThere(rows, key)
    {
    }

    lemma CoveredStays(rows: seq<Snapshot>, after: seq<Snapshot>)
      requires KeepsPins(rows, after)
      ensures Covered(rows) ==> Covered(after)
    {
    }

    /** A confirmed and protected representative of every group covers them all. */
    lemma CoverSuffices(rows: seq<Snapshot>, cover: seq<Key>)
      requires Represents(cover) && forall k | k in cover :: IsPinned(rows, k)
      ensures Covered(rows)
    {
      forall g | g in groups ensures exists k | Confirmed(k) :: GroupOf(k) == g && IsPinned(rows, k) {
        var k :| k in cover && GroupOf(k) == g && Confirmed(k);
      }
    }

    method SetProtected(key: Key, flag: bool, ghost cover: seq<Key>) returns (ok: bool)
      requires Durable() && (!flag ==> Releasable(key, cover))
      modifies `local, `archive, `lifted, `raised, `now, `protectedHere, `released, `lifting, `refused
      ensures Durable() && (old(lifted) ==> lifted) && (old(raised) ==> raised) && old(protectedHere) <= protectedHere
      ensures !lifted ==> forall k | IsPinned(old(local), k) && (flag || k != key) :: IsPinned(local, k)
      ensures flag && ok ==> key in protectedHere && (!lifted ==> IsPinned(local, key))
      ensures !raised ==> forall k | !IsPinned(old(local), k) && (!flag || k != key) :: !IsPinned(local, k)
      ensures !raised ==> forall k | k in released - old(released) :: !IsPinned(local, k)
      ensures old(released) <= released <= old(released) + {key} && (if flag then released == old(released) else ok ==> key in released)
      ensures lifting == old(lifting) + (if flag then {} else {key}) && (old(refused) ==> refused)
      ensures now >= old(now) && (!ok ==> refused || now >= old(now) + 900)
    {
      var deadline := now + 15 * 60;
      while true
        invariant Durable() && (!flag ==> Releasable(key, cover)) && (old(lifted) ==> lifted) && (old(raised) ==> raised) && old(protectedHere) <= protectedHere
        invariant !lifted ==> forall k | IsPinned(old(local), k) && (flag || k != key) :: IsPinned(local, k)
        invariant !raised ==> forall k | !IsPinned(old(local), k) && (!flag || k != key) :: !IsPinned(local, k)
        invariant !raised ==> forall k | k in released - old(released) :: !IsPinned(local, k)
        invariant old(released) <= released <= old(released) + {key} && (flag ==> released == old(released))
        invariant old(lifting) <= lifting <= old(lifting) + (if flag then {} else {key}) && (old(refused) ==> refused) && now >= old(now)
        decreases if now < deadline then deadline - now else 0
      {
        var reply := Api(key, flag, cover);
        if reply.Done? { return true; }
        if reply.Refused? || now >= deadline { return false; }
        now := now + if deadline - now < 10 then deadline - now else 10;
      }
    }

    /** The atomic replacement of state.json; a failed one may have happened. */
    method Save(state: State) returns (ok: bool)
      requires Durable() && state.pins <= protectedHere
      requires state.lastSync.Some? ==> Represents(state.synced) && (!lifted ==> Covered(local))
      modifies `saved, `recorded
      ensures Durable() && old(recorded) <= recorded && (if ok then saved == state else saved == state || saved == old(saved))
    {
      ok := *;
      var effect: bool := *;
      if ok || effect {
        saved := state;
        recorded := recorded + state.pins;
      }
    }

    /** Prunes unprotected snapshots; never started unless the listing shows every group covered. */
    method Prune(ghost rows: seq<Snapshot>) returns (ok: bool)
      requires Durable() && Covered(rows)
      modifies `local, `archive, `lifted, `raised, `now, `pruned
      ensures Durable() && (old(lifted) ==> lifted) && (old(raised) ==> raised) && pruned == old(pruned) + [rows]
      ensures !raised ==> KeepsPins(local, old(local))
    {
      pruned := pruned + [rows];
      Others();
      ok := *;
    }

    // ----- a run -----

    method SavePins(pins: set<Key>) returns (ok: bool)
      requires Durable() && pins <= protectedHere
      modifies `saved, `recorded
      ensures Durable() && (ok ==> saved.pins == pins) && (saved.pins == pins || saved.pins == old(saved.pins)) && saved.lastSync == old(saved.lastSync) && saved.synced == old(saved.synced)
    {
      ok := Save(saved.(pins := pins));
    }

    /** A command that verifies or copies: it changes nothing here, but takes its time. */
    method Command(job: Job) returns (ok: bool)
      requires Durable()
      modifies `local, `archive, `lifted, `raised, `now, `jobs
      ensures jobs == old(jobs) + if ok then [job] else []
      ensures Durable() && (old(lifted) ==> lifted) && (old(raised) ==> raised) && now >= old(now)
    {
      Others();
      ok := *;
      if ok { jobs := jobs + [job]; }
    }

    lemma ChosenRepresent(chosen: seq<Snapshot>, rows: seq<Snapshot>, copies: seq<Snapshot>, time: int)
      requires |chosen| == |groups| && forall i | 0 <= i < |groups| :: Chosen(rows, groups[i], time, chosen[i])
      requires forall s | s in rows && s.complete && s.verified :: s.key in seenVerified
      requires forall s | s in copies && s.complete :: s.key in seenArchived
      requires forall s | s in chosen :: IsComplete(copies, s.key)
      ensures Represents(KeysOf(chosen))
    {
      forall g | g in groups ensures exists k | k in KeysOf(chosen) :: GroupOf(k) == g && Confirmed(k) {
        var i :| 0 <= i < |groups| && groups[i] == g;
        assert chosen[i] in chosen && KeysOf(chosen)[i] in KeysOf(chosen);
        assert IsComplete(copies, chosen[i].key);
      }
    }

    /** Protects every new choice before it releases any old one. */
    method UpdatePins(chosen: seq<Key>, rows: seq<Snapshot>) returns (ok: bool)
      requires Durable() && Represents(chosen) && rows == local
      modifies `local, `archive, `lifted, `raised, `now, `protectedHere, `recorded, `released, `saved, `lifting, `refused
      ensures Durable() && (old(lifted) ==> lifted) && (old(raised) ==> raised)
      ensures saved.lastSync == old(saved.lastSync) && saved.synced == old(saved.synced)
      ensures ok ==> saved.pins == (old(saved.pins) + Unpinned(chosen, rows)) * (set k | k in chosen)
      ensures ok ==> forall k | k in old(saved.pins) && k !in chosen && IsThere(rows, k) :: k in released
      ensures ok && !lifted ==> Covered(local)
      ensures old(released) <= released
      ensures forall k | k in released - old(released) :: k !in chosen
      ensures !raised ==> forall k | k in released - old(released) :: !IsPinned(local, k)
      ensures now >= old(now) && forall k | k in lifting - old(lifting) :: k in old(saved.pins) && k !in chosen && IsThere(rows, k)
    {
      hide Covered, Represents, IsPinned, IsThere;
      ok := ProtectChosen(chosen, rows);
      if ok { ok := ReleaseOthers(chosen, rows); }
      if ok && !lifted { CoverSuffices(local, chosen); }
    }

    method ProtectChosen(chosen: seq<Key>, rows: seq<Snapshot>) returns (ok: bool)
      requires Durable() && rows == local
      modifies `local, `archive, `lifted, `raised, `now, `protectedHere, `recorded, `released, `saved, `lifting, `refused
      ensures Durable() && (old(lifted) ==> lifted) && (old(raised) ==> raised) && (!lifted ==> KeepsPins(old(local), local))
      ensures saved.lastSync == old(saved.lastSync) && saved.synced == old(saved.synced)
      ensures ok && !lifted ==> forall k | k in chosen :: IsPinned(local, k)
      ensures ok ==> saved.pins == old(saved.pins) + Unpinned(chosen, rows)
      ensures released == old(released)
      ensures lifting == old(lifting) && now >= old(now)
    {
      hide Covered, Represents, Confirmed, Unique, Unpinned;
      NothingUnpinned(rows);
      for i := 0 to |chosen|
        invariant Durable() && (old(lifted) ==> lifted) && (old(raised) ==> raised) && (!lifted ==> KeepsPins(old(local), local))
        invariant saved.lastSync == old(saved.lastSync) && saved.synced == old(saved.synced)
        invariant !lifted ==> forall j | 0 <= j < i :: IsPinned(local, chosen[j])
        invariant saved.pins == old(saved.pins) + Unpinned(chosen[..i], rows) && released == old(released) && lifting == old(lifting) && now >= old(now)
      {
        var key := chosen[i];
        assert chosen[..i + 1] == chosen[..i] + [key];
        UnpinnedGrows(chosen[..i], key, rows);
        if !(exists s | s in rows :: s.key == key) { return false; }
        if key !in chosen[..i] && !(exists s | s in rows :: s.key == key && s.pinned) {
          var done := SetProtected(key, true, []);
          if !done { return false; }
          done := SavePins(saved.pins + {key});
          if !done { return false; }
        }
      }
      assert chosen[..|chosen|] == chosen;
      ok := true;
    }

    method ReleaseOthers(chosen: seq<Key>, rows: seq<Snapshot>) returns (ok: bool)
      requires Durable() && Represents(chosen) && (!lifted ==> forall k | k in chosen :: IsPinned(local, k))
      modifies `local, `archive, `lifted, `raised, `now, `protectedHere, `recorded, `released, `saved, `lifting, `refused
      ensures Durable() && (old(lifted) ==> lifted) && (old(raised) ==> raised)
      ensures saved.lastSync == old(saved.lastSync) && saved.synced == old(saved.synced)
      ensures !lifted ==> forall k | k in chosen :: IsPinned(local, k)
      ensures ok ==> saved.pins == old(saved.pins) * (set k | k in chosen)
      ensures old(released) <= released
      ensures forall k | k in released - old(released) :: k !in chosen
      ensures !raised ==> forall k | k in released - old(released) :: !IsPinned(local, k)
      ensures ok ==> forall k | k in old(saved.pins) && k !in chosen && IsThere(rows, k) :: k in released
      ensures now >= old(now) && forall k | k in lifting - old(lifting) :: k in old(saved.pins) && k !in chosen && IsThere(rows, k)
    {
      hide Releasing;
      var keep := set k | k in chosen;
      var others := saved.pins - keep;
      ghost var first, released0, lifting0 := saved, released, lifting;
      BeginReleasing(chosen, rows);
      while others != {}
        invariant Releasing(chosen, rows, first, released0, lifting0) && now >= old(now) && (old(lifted) ==> lifted) && (old(raised) ==> raised)
        invariant others == saved.pins - keep
        decreases |others|
      {
        var key :| key in others;
        var done := ReleaseNext(key, chosen, rows, first, released0, lifting0);
        if !done {
          EndReleasing(chosen, rows, first, released0, lifting0);
          return false;
        }
        others := others - {key};
      }
      EndReleasing(chosen, rows, first, released0, lifting0);
      forall k | k in saved.pins ensures k in keep { assert k !in saved.pins - keep; }
      ok := true;
    }

    /** Some of the pins outside the choice are released, and nothing else has changed. */
    ghost predicate Releasing(chosen: seq<Key>, rows: seq<Snapshot>, first: State, released0: set<Key>, lifting0: set<Key>)
      reads this
    {
      && Durable() && Represents(chosen) && (!lifted ==> AllPinned(chosen, local))
      && saved.lastSync == first.lastSync && saved.synced == first.synced
      && saved.pins <= first.pins && (forall k | k in first.pins && k in chosen :: k in saved.pins)
      && released0 <= released && (forall k | k in released - released0 :: k !in chosen && (!raised ==> !IsPinned(local, k)))
      && (forall k | k in first.pins && k !in saved.pins && IsThere(rows, k) :: k in released)
      && forall k | k in lifting - lifting0 :: k in first.pins && k !in chosen && IsThere(rows, k)
    }

    lemma BeginReleasing(chosen: seq<Key>, rows: seq<Snapshot>)
      requires Durable() && Represents(chosen) && (!lifted ==> AllPinned(chosen, local))
      ensures Releasing(chosen, rows, saved, released, lifting)
    {
      hide Durable, Represents, IsPinned, IsThere;
    }

    lemma EndReleasing(chosen: seq<Key>, rows: seq<Snapshot>, first: State, released0: set<Key>, lifting0: set<Key>)
      requires Releasing(chosen, rows, first, released0, lifting0)
      ensures Durable() && (!lifted ==> AllPinned(chosen, local)) && saved.lastSync == first.lastSync && saved.synced == first.synced
      ensures saved.pins <= first.pins && (forall k | k in first.pins && k in chosen :: k in saved.pins)
      ensures released0 <= released && forall k | k in released - released0 :: k !in chosen && (!raised ==> !IsPinned(local, k))
      ensures forall k | k in first.pins && k !in saved.pins && IsThere(rows, k) :: k in released
      ensures forall k | k in lifting - lifting0 :: k in first.pins && k !in chosen && IsThere(rows, k)
    {
      hide Durable, Represents, IsPinned, IsThere, AllPinned;
    }

    method ReleaseNext(key: Key, chosen: seq<Key>, rows: seq<Snapshot>, ghost first: State, ghost released0: set<Key>, ghost lifting0: set<Key>) returns (ok: bool)
      requires Releasing(chosen, rows, first, released0, lifting0) && key in saved.pins && key !in chosen
      modifies `local, `archive, `lifted, `raised, `now, `protectedHere, `recorded, `released, `saved, `lifting, `refused
      ensures Releasing(chosen, rows, first, released0, lifting0) && now >= old(now) && (old(lifted) ==> lifted) && (old(raised) ==> raised)
      ensures ok ==> saved.pins == old(saved.pins) - {key}
    {
      hide Durable, Represents, IsPinned, IsThere;
      ok := ReleaseOne(key, chosen, rows);
    }

    method ReleaseOne(key: Key, chosen: seq<Key>, rows: seq<Snapshot>) returns (ok: bool)
      requires Durable() && Represents(chosen) && (!lifted ==> forall k | k in chosen :: IsPinned(local, k))
      requires key in saved.pins && key !in chosen
      modifies `local, `archive, `lifted, `raised, `now, `protectedHere, `recorded, `released, `saved, `lifting, `refused
      ensures Durable() && (old(lifted) ==> lifted) && (old(raised) ==> raised) && old(released) <= released <= old(released) + {key}
      ensures saved.lastSync == old(saved.lastSync) && saved.synced == old(saved.synced)
      ensures !lifted ==> forall k | k in chosen :: IsPinned(local, k)
      ensures !raised ==> forall k | !IsPinned(old(local), k) || k in released - old(released) :: !IsPinned(local, k)
      ensures ok ==> saved.pins == old(saved.pins) - {key}
      ensures saved.pins == old(saved.pins) || (saved.pins == old(saved.pins) - {key} && (IsThere(rows, key) ==> key in released))
      ensures lifting == old(lifting) + (if IsThere(rows, key) then {key} else {}) && now >= old(now)
      ensures Represents(chosen)
    {
      hide Covered, Represents, IsPinned;
      if exists s | s in rows :: s.key == key {
        ok := SetProtected(key, false, chosen);
        if !ok { return; }
      }
      ok := SavePins(saved.pins - {key});
    }

    /** Prunes exactly when a copy is recorded and the listing shows every recovery pin of it still
        there and protected; so never while one of them is unprotected and nobody protects it. */
    method Housekeeping() returns (ok: bool)
      requires Durable()
      modifies `local, `archive, `lifted, `raised, `now, `seenVerified, `listing, `pruned
      ensures Durable() && (old(lifted) ==> lifted) && (old(raised) ==> raised) && (!raised ==> KeepsPins(local, old(local)))
      ensures pruned == old(pruned) + if saved.lastSync.Some? && AllPinned(saved.synced, listing) then [listing] else []
      ensures saved.lastSync.None? ==> ok
      ensures ok && saved.lastSync.Some? ==> AllPinned(saved.synced, listing)
      ensures !raised && saved.lastSync.Some? && !AllPinned(saved.synced, old(local)) ==> !ok && pruned == old(pruned)
    {
      if saved.lastSync.None? { return true; }
      var rows := ListLocal();
      for i := 0 to |saved.synced|
        invariant forall j | 0 <= j < i :: IsPinned(rows, saved.synced[j])
      {
        if !(exists s | s in rows :: s.key == saved.synced[i] && s.pinned) {
          assert !IsPinned(rows, saved.synced[i]);
          return false;
        }
      }
      assert AllPinned(saved.synced, rows);
      CoverSuffices(rows, saved.synced);
      ok := Prune(rows);
    }

    lemma ChosenHaveKeys(chosen: seq<Snapshot>, rows: seq<Snapshot>, time: int)
      requires |chosen| == |groups| && forall i | 0 <= i < |groups| :: Chosen(rows, groups[i], time, chosen[i])
      ensures forall i | 0 <= i < |groups| :: ChosenKey(rows, groups[i], time, KeysOf(chosen)[i])
    {
      forall i | 0 <= i < |groups| ensures ChosenKey(rows, groups[i], time, KeysOf(chosen)[i]) {
        assert Chosen(rows, groups[i], time, chosen[i]);
      }
    }

    /** Verifies, chooses and copies; the result holds one confirmed snapshot of every group, the
        latest that the listing showed verified. */
    method CopyVerified() returns (r: Option<seq<Key>>, ghost listing: seq<Snapshot>, ghost chosenAt: int)
      requires Durable()
      modifies `local, `archive, `lifted, `raised, `now, `seenVerified, `seenArchived, `listing, `jobs
      ensures Durable() && (old(lifted) ==> lifted) && (old(raised) ==> raised) && (r.Some? ==> Represents(r.value))
      ensures r.Some? ==> |r.value| == |groups| && forall i | 0 <= i < |groups| :: ChosenKey(listing, groups[i], chosenAt, r.value[i])
      ensures r.Some? ==> jobs == old(jobs) + [Verification, Copying]
    {
      listing, chosenAt := [], now;
      hide Covered, Represents, Unique, IsPinned, Chosen;
      var verified := Command(Verification);
      r := None;
      if !verified { return; }
      var rows := ListLocal();
      listing, chosenAt := rows, now;
      var chosen := SelectVerified(rows, groups, now);
      if chosen.None? { return; }
      var synced := Command(Copying);
      if !synced { return; }
      var copies := ListArchive();
      var present := RequireCopies(chosen.value, copies);
      if !present { return; }
      ChosenRepresent(chosen.value, rows, copies, chosenAt);
      ChosenHaveKeys(chosen.value, rows, chosenAt);
      r := Some(KeysOf(chosen.value));
    }

    ghost predicate IsUntouched(local0: seq<Snapshot>, saved0: State, jobs0: seq<Job>)
      reads `local, `saved, `jobs
    {
      local == local0 && saved == saved0 && jobs == jobs0
    }

    /** The daily run. It runs only a job that pulls verified snapshots from the local store and removes
        none. Wherever it stops, Durable() holds. While the recorded copy still names a pin
        that the run released, it prunes nothing. */
    method Daily(job: SyncJob, localName: string, archiveName: string) returns (ok: bool)
      requires Durable()
      modifies this
      ensures Durable() && old(pruned) <= pruned && (old(lifted) ==> lifted) && (old(raised) ==> raised)
      ensures job.store != archiveName || job.remoteStore != localName || job.remote != "" ==> !ok && IsUntouched(old(local), old(saved), old(jobs))
      ensures job.direction != "pull" || job.owner != "admin@pbs" || !job.verifiedOnly || job.removeVanished ==>
        !ok && IsUntouched(old(local), old(saved), old(jobs))
      ensures ok ==> saved.lastSync.Some? && Represents(saved.synced) && |pruned| == |old(pruned)| + 1
      ensures ok ==> forall k | k in saved.pins :: k in saved.synced
      ensures !raised ==> forall k | k in released - old(released) :: !IsPinned(local, k)
      ensures NamesReleased(old(released)) ==> !ok && pruned == old(pruned) && saved.synced == old(saved.synced)
      ensures ok ==> jobs == old(jobs) + [Verification, Copying]
    {
      hide Covered, Unique, IsPinned;
      if !ValidSync(job, localName, archiveName) { return false; }
      var keys, _, _ := CopyVerified();
      if keys.None? { return false; }
      var pinned := PinCopies(keys.value);
      if !pinned { return false; }
      ok := Housekeeping();
    }

    /** The recorded copy still names a pin released since then: the run stopped in between. */
    ghost predicate NamesReleased(since: set<Key>)
      reads `saved, `released
    {
      saved.lastSync.Some? && exists k | k in saved.synced :: k in released - since
    }

    method PinCopies(keys: seq<Key>) returns (ok: bool)
      requires Durable() && Represents(keys)
      modifies `local, `archive, `lifted, `raised, `now, `seenVerified, `listing, `protectedHere, `recorded, `released, `saved, `lifting, `refused
      ensures Durable() && (old(lifted) ==> lifted) && (old(raised) ==> raised)
      ensures ok ==> saved.synced == keys && saved.lastSync.Some? && forall k | k in saved.pins :: k in keys
      ensures saved.synced == keys || (saved.synced == old(saved.synced) && saved.lastSync == old(saved.lastSync))
      ensures pruned == old(pruned) && old(released) <= released
      ensures forall k | k in released - old(released) :: k !in keys
      ensures !raised ==> forall k | k in released - old(released) :: !IsPinned(local, k)
      ensures ok ==> old(now) <= saved.lastSync.value <= now
    {
      hide Covered, Unique, IsPinned;
      var rows := ListLocal();
      var pinned := UpdatePins(keys, rows);
      if !pinned { return false; }
      ok := Save(saved.(lastSync := Some(now), synced := keys));
    }

    /** The two runs of a day. After a daily run that stopped between releasing a recorded pin and
        recording the new copy, housekeeping refuses as long as nobody else protects a snapshot. */
    method DailyThenHousekeeping(job: SyncJob, localName: string, archiveName: string) returns (daily: bool, ok: bool)
      requires Durable()
      modifies this
      ensures Durable() && old(pruned) <= pruned
      ensures !raised && NamesReleased(old(released)) ==> !daily && !ok && pruned == old(pruned) && saved.synced == old(saved.synced)
    {
      hide Covered, Unique, IsPinned, Durable, Represents;
      daily := Daily(job, localName, archiveName);
      ghost var stalled := NamesReleased(old(released));
      assert stalled && !raised ==> !AllPinned(saved.synced, local);
      ok := Housekeeping();
    }
  }
}
