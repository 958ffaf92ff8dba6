/** The maintenance journal: one entry of a cloud instance's metadata, written by compare-and-set
    on the instance's version. Replies can be lost, requests can commit late, and others edit the
    unrelated keys or the journal in between. Times are milliseconds. */
module OsJournal {
  import opened Wrappers

  type Entry = map<string, string>

  /** One version of the metadata: the journal entry and the unrelated keys. */
  datatype Version = Version(journal: Entry, others: map<string, string>)

  /** A write that commits only while the instance still has the version it was read at. */
  datatype Request = Request(etag: nat, value: Version)

  datatype Failure = Service(status: int, code: string) | Interrupted

  datatype Error = OwnershipChanged | Provider(failure: Failure)

  predicate Transient(failure: Failure) {
    && failure.Service?
    && (failure.status == 412 || failure.status == 429
        || (failure.status == 409 && failure.code in ["Conflict", "IncorrectState", "LockConflict"])
        || (500 <= failure.status <= 599 && failure.status != 501))
  }

  // ----- histories of versions -----

  /** Version k brought a new journal entry. */
  predicate Entered(vs: seq<Version>, k: nat)
    requires 0 < k < |vs|
  {
    vs[k].journal != vs[k - 1].journal
  }

  /** Version k moved the journal from one entry to another and left the other keys alone. */
  predicate MovedAt(vs: seq<Version>, k: nat, from: Entry, to: Entry) {
    0 < k < |vs| && vs[k - 1].journal == from && vs[k].journal == to && vs[k].others == vs[k - 1].others
  }

  /** No entry comes back, and a claimed entry only ever replaces the one it was derived from. */
  ghost predicate History(vs: seq<Version>, origin: map<Entry, Entry>) {
    && |vs| > 0 && vs[0].journal !in origin
    && (forall i, k | 0 <= i < k < |vs| && Entered(vs, k) :: vs[i].journal != vs[k].journal)
    && (forall k | 0 < k < |vs| && Entered(vs, k) && vs[k].journal in origin :: MovedAt(vs, k, origin[vs[k].journal], vs[k].journal))
  }

  /** The request was derived from the version it names. */
  predicate Derived(vs: seq<Version>, origin: map<Entry, Entry>, r: Request) {
    && r.etag < |vs| && r.value.journal in origin
    && vs[r.etag].journal == origin[r.value.journal] != r.value.journal && r.value.others == vs[r.etag].others
  }

  /** The first version that holds the entry of version k. */
  lemma {:induction false} FirstVersion(vs: seq<Version>, k: nat) returns (i: nat)
    requires k < |vs|
    ensures i <= k && vs[i].journal == vs[k].journal && (i == 0 || Entered(vs, i))
    decreases k
  {
    i := k;
    if k > 0 && !Entered(vs, k) { i := FirstVersion(vs, k - 1); }
  }

  /** Between an entry and a later, different one the later one was entered. */
  lemma {:induction false} EnteredBetween(vs: seq<Version>, i: nat, k: nat) returns (j: nat)
    requires i < k < |vs| && vs[i].journal != vs[k].journal
    ensures i < j <= k && Entered(vs, j) && vs[j].journal == vs[k].journal
    decreases k
  {
    j := k;
    if !Entered(vs, k) { j := EnteredBetween(vs, i, k - 1); }
  }

  /** A derived request whose version is still current brings an entry never seen before: so no
      write is ever applied twice, however often it was sent. */
  lemma LiveRequestIsUnapplied(vs: seq<Version>, origin: map<Entry, Entry>, r: Request, i: nat)
    requires History(vs, origin) && Derived(vs, origin, r) && r.etag == |vs| - 1 && i < |vs|
    ensures vs[i].journal != r.value.journal
  {
    if vs[i].journal == r.value.journal {
      var first := FirstVersion(vs, i);
      assert MovedAt(vs, first, origin[r.value.journal], r.value.journal);
      var again := EnteredBetween(vs, first, |vs| - 1);
      assert false;
    }
  }

  lemma CommitKeepsHistory(vs: seq<Version>, origin: map<Entry, Entry>, r: Request)
    requires History(vs, origin) && Derived(vs, origin, r) && r.etag == |vs| - 1
    ensures History(vs + [r.value], origin)
  {
    forall i | 0 <= i < |vs| ensures vs[i].journal != r.value.journal { LiveRequestIsUnapplied(vs, origin, r, i); }
    ExtendHistory(vs, origin, r.value);
  }

  /** A new version is sound when it keeps the journal, or brings a new entry in the right place. */
  lemma ExtendHistory(vs: seq<Version>, origin: map<Entry, Entry>, v: Version)
    requires History(vs, origin)
    requires
      || v.journal == vs[|vs| - 1].journal
      || ((forall i | 0 <= i < |vs| :: vs[i].journal != v.journal)
          && (v.journal in origin ==> vs[|vs| - 1].journal == origin[v.journal] && vs[|vs| - 1].others == v.others))
    ensures History(vs + [v], origin)
  {
    var next := vs + [v];
    forall k | 0 < k < |next| && Entered(next, k)
      ensures forall i | 0 <= i < k :: next[i].journal != next[k].journal
      ensures next[k].journal in origin ==> MovedAt(next, k, origin[next[k].journal], next[k].journal)
    {
      if k < |vs| { assert Entered(vs, k); }
    }
  }

  /** What was derived stays so as versions are added. */
  lemma DerivedStays(vs: seq<Version>, origin: map<Entry, Entry>, sent: seq<Request>, v: Version)
    requires forall r | r in sent :: Derived(vs, origin, r)
    ensures forall r | r in sent :: Derived(vs + [v], origin, r)
  {
    forall r | r in sent ensures Derived(vs + [v], origin, r) { assert Derived(vs, origin, r); }
  }

  /** Others keep the journal, or write an entry that nobody has written or claimed. */
  predicate IsForeign(vs: seq<Version>, origin: map<Entry, Entry>, v: Version)
    requires |vs| > 0
  {
    v.journal == vs[|vs| - 1].journal || (v.journal !in origin && forall w | w in vs :: w.journal != v.journal)
  }

  lemma ForeignKeepsHistory(vs: seq<Version>, origin: map<Entry, Entry>, v: Version)
    requires History(vs, origin) && IsForeign(vs, origin, v)
    ensures History(vs + [v], origin)
  {
    assert forall i | 0 <= i < |vs| :: vs[i] in vs;
    ExtendHistory(vs, origin, v);
  }

  lemma ClaimKeepsHistory(vs: seq<Version>, origin: map<Entry, Entry>, from: Entry, to: Entry)
    requires History(vs, origin) && forall v | v in vs :: v.journal != to
    ensures History(vs, origin[to := from])
  {
    assert forall k | 0 <= k < |vs| :: vs[k] in vs;
  }

  /** The journal moved from one entry to the other at exactly one version, not before since. */
  ghost predicate MovedOnce(vs: seq<Version>, since: nat, from: Entry, to: Entry) {
    && (exists k: nat | since <= k < |vs| :: MovedAt(vs, k, from, to))
    && (forall i, k | 0 < i <= k < |vs| && Entered(vs, i) && Entered(vs, k) && vs[i].journal == to == vs[k].journal :: i == k)
  }

  /** A claimed entry found in a version the caller had not seen was moved there once, since then. */
  lemma MovedSince(before: seq<Version>, vs: seq<Version>, origin: map<Entry, Entry>, e: Entry, k: nat)
    requires History(vs, origin) && before <= vs && e in origin && k < |vs| && vs[k].journal == e
    requires forall v | v in before :: v.journal != e
    ensures MovedOnce(vs, |before|, origin[e], e)
  {
    var i := FirstVersion(vs, k);
    assert forall j | 0 <= j < |before| :: before[j] in before && vs[j] == before[j];
    assert MovedAt(vs, i, origin[e], e);
  }

  /** Once an entry has been applied no request for it can commit. */
  lemma AppliedIsSettled(vs: seq<Version>, origin: map<Entry, Entry>, sent: seq<Request>, e: Entry, k: nat)
    requires History(vs, origin) && k < |vs| && vs[k].journal == e
    requires forall r | r in sent :: Derived(vs, origin, r)
    ensures forall r | r in sent && r.value.journal == e :: r.etag < |vs| - 1
  {
    forall r | r in sent && r.value.journal == e ensures r.etag < |vs| - 1 {
      if r.etag == |vs| - 1 { LiveRequestIsUnapplied(vs, origin, r, k); }
    }
  }

  lemma DerivedFromSeen(vs: seq<Version>, origin: map<Entry, Entry>, e: Entry, etag: nat)
    requires etag < |vs| && e in origin && vs[etag].journal == origin[e] != e
    ensures Derived(vs, origin, Request(etag, Version(e, vs[etag].others)))
  {
  }

  /** While the journal holds neither entry, no request from one to the other can commit. */
  lemma ForeignIsSettled(vs: seq<Version>, origin: map<Entry, Entry>, sent: seq<Request>, e: Entry)
    requires |vs| > 0 && e in origin && vs[|vs| - 1].journal != origin[e]
    requires forall r | r in sent :: Derived(vs, origin, r)
    ensures forall r | r in sent && r.value.journal == e :: r.etag < |vs| - 1
  {
  }

  // ----- the provider -----

  class Instance {
    var versions: seq<Version>
    var origin: map<Entry, Entry>
    var sent: seq<Request>
    var now: int
    /** When each request was sent. */
    ghost var times: seq<int>

    ghost predicate Valid()
      reads this
    {
      History(versions, origin) && forall r | r in sent :: Derived(versions, origin, r)
    }

    /** No version and no write of this controller has carried the entry. */
    ghost predicate IsNew(e: Entry)
      reads this
    {
      e !in origin && forall v | v in versions :: v.journal != e
    }

    /** No request for the entry can commit any more. */
    ghost predicate Settled(e: Entry)
      reads this
    {
      forall r | r in sent && r.value.journal == e :: r.etag < |versions| - 1
    }

    constructor (first: Version, time: int)
      ensures Valid() && versions == [first] && origin == map[] && sent == [] && now == time
    {
      versions, origin, sent, now, times := [first], map[], [], time, [];
    }

    /** What others do meanwhile: edit unrelated keys, write entries of their own to the journal,
        or let any request that was sent and still names the current version take effect. */
    method Interfere()
      requires Valid()
      modifies this
      ensures Valid() && old(versions) <= versions && origin == old(origin) && sent == old(sent) && times == old(times) && now >= old(now)
    {
      var rounds, passed := *, *;
      while rounds > 0
        invariant Valid() && old(versions) <= versions && origin == old(origin) && sent == old(sent) && times == old(times) && now == old(now)
        decreases rounds
      {
        Step();
        rounds := rounds - 1;
      }
      if passed > 0 { now := now + passed; }
    }

    method Step()
      requires Valid()
      modifies `versions
      ensures Valid() && old(versions) <= versions
    {
      var late: bool, k: int, v: Version := *, *, *;
      var next := if !late then v else if 0 <= k < |sent| then sent[k].value else v;
      if late && 0 <= k < |sent| && sent[k].etag == |versions| - 1 {
        CommitKeepsHistory(versions, origin, sent[k]);
      } else if !late && IsForeign(versions, origin, v) {
        ForeignKeepsHistory(versions, origin, v);
      } else {
        return;
      }
      DerivedStays(versions, origin, sent, next);
      hide History, Derived;
      versions := versions + [next];
    }

    method Get() returns (r: Fallible<(Version, nat), Failure>)
      requires Valid()
      modifies this
      ensures Valid() && old(versions) <= versions && origin == old(origin) && sent == old(sent) && times == old(times) && now >= old(now)
      ensures r.Returned? ==> r.value == (versions[|versions| - 1], |versions| - 1)
    {
      Interfere();
      var failed: bool, failure: Failure := *, *;
      r := if failed then Raised(failure) else Returned((versions[|versions| - 1], |versions| - 1));
    }

    /** Sends a write. A good reply means it committed; a failed one says nothing. */
    method Update(request: Request) returns (failure: Option<Failure>)
      requires Valid() && Derived(versions, origin, request)
      modifies this
      ensures Valid() && old(versions) <= versions && origin == old(origin) && sent == old(sent) + [request] && times == old(times) + [old(now)] && now >= old(now)
      ensures failure.None? ==> request.etag + 1 < |versions| && versions[request.etag + 1] == request.value
    {
      sent, times := sent + [request], times + [now];
      Interfere();
      var lost: bool, reason: Failure := *, *;
      failure := if !lost && request.etag + 1 < |versions| && versions[request.etag + 1] == request.value then None else Some(reason);
    }

    method Sleep(duration: nat)
      requires Valid()
      modifies this
      ensures Valid() && old(versions) <= versions && origin == old(origin) && sent == old(sent) && times == old(times) && now >= old(now) + duration
    {
      now := now + duration;
      Interfere();
    }

    /** Records what a new entry of this controller is to replace. */
    method Claim(from: Entry, to: Entry)
      requires Valid() && IsNew(to)
      modifies `origin
      ensures Valid() && origin == old(origin)[to := from]
    {
      ClaimKeepsHistory(versions, origin, from, to);
      hide History;
      origin := origin[to := from];
    }
  }

  // ----- the writer -----

  class Controller {
    const cloud: Instance
    var state: Entry
    var lastWrite: Option<int>

    /** The state a controller holds was once the journal. */
    ghost predicate Valid()
      reads this, cloud
    {
      cloud.Valid() && exists v | v in cloud.versions :: v.journal == state
    }

    constructor (cloud: Instance)
      requires cloud.Valid()
      ensures this.cloud == cloud && Valid()
    {
      this.cloud, lastWrite := cloud, None;
      state := cloud.versions[|cloud.versions| - 1].journal;
    }

    /** One save. It returns only when the journal has moved, exactly once, from the caller's last
        state to the new one with every unrelated key kept, and can never be moved there again.
        When it fails the state is kept; a change of ownership also settles every request. */
    method Save(changes: map<string, string>, stamp: string) returns (r: Fallible<Entry, Error>)
      requires Valid() && cloud.IsNew(Updated(state, changes, stamp))
      modifies this, cloud
      ensures Valid() && old(cloud.versions) <= cloud.versions
      ensures r.Returned? ==> r.value == state == Updated(old(state), changes, stamp)
      ensures r.Returned? ==> state.Keys == old(state).Keys + changes.Keys + {"updated_at"} && state["updated_at"] == stamp
      ensures r.Returned? ==> forall k | k in changes && k != "updated_at" :: state[k] == changes[k]
      ensures r.Returned? ==> forall k | k in old(state) && k !in changes && k != "updated_at" :: state[k] == old(state)[k]
      ensures r.Returned? ==>
        MovedOnce(cloud.versions, |old(cloud.versions)|, old(state), state)
      ensures lastWrite == if r.Returned? then Some(cloud.now) else old(lastWrite)
      ensures old(lastWrite).Some? ==> forall i | |old(cloud.times)| <= i < |cloud.times| :: cloud.times[i] >= old(lastWrite).value + 10_000
      ensures r.Raised? ==> state == old(state)
      ensures r.Returned? || r.error == OwnershipChanged ==> cloud.Settled(Updated(old(state), changes, stamp))
      ensures r.Raised? && r.error == OwnershipChanged ==>
        cloud.versions[|cloud.versions| - 1].journal !in [old(state), Updated(old(state), changes, stamp)]
      ensures r.Raised? && r.error.Provider? && Transient(r.error.failure) ==> cloud.now >= old(cloud.now) + 270_000
    {
      UpdatedHolds(state, changes, stamp);
      hide History, Derived, MovedOnce, Transient, Updated;
      var updated := Updated(state, changes, stamp);
      Begin(updated);
      var failure := Retry(updated);
      match failure
      case None =>
        SavedOnce(old(cloud.versions), updated);
        state, lastWrite := updated, Some(cloud.now);
        return Returned(updated);
      case Some(error) =>
        if error == OwnershipChanged { ForeignIsSettled(cloud.versions, cloud.origin, cloud.sent, updated); }
        return Raised(error);
    }

    /** Attempts until the entry is applied, the journal is found changed, a failure is final, or five
        minutes would be over before the next attempt. */
    method Retry(updated: Entry) returns (failure: Option<Error>)
      requires cloud.Valid() && Ours(updated)
      modifies cloud
      ensures cloud.Valid() && old(cloud.versions) <= cloud.versions && cloud.now >= old(cloud.now) && Ours(updated)
      ensures old(cloud.times) <= cloud.times && forall i | |old(cloud.times)| <= i < |cloud.times| :: cloud.times[i] >= old(cloud.now)
      ensures failure.None? ==> Applied(updated)
      ensures failure == Some(OwnershipChanged) ==> cloud.versions[|cloud.versions| - 1].journal !in [state, updated]
      ensures failure.Some? && failure.value.Provider? && Transient(failure.value.failure) ==> cloud.now >= old(cloud.now) + 270_000
    {
      hide History, Derived, Transient;
      var deadline, delay := cloud.now + 300_000, 5_000;
      while true
        invariant cloud.Valid() && old(cloud.versions) <= cloud.versions && cloud.now >= old(cloud.now) && Ours(updated)
        invariant old(cloud.times) <= cloud.times && forall i | |old(cloud.times)| <= i < |cloud.times| :: cloud.times[i] >= old(cloud.now)
        invariant 5_000 <= delay <= 30_000 && deadline == old(cloud.now) + 300_000
        decreases if cloud.now < deadline then deadline - cloud.now else 0
      {
        var attempt := Attempt(updated);
        if attempt.Saved? { return None; }
        if attempt.Foreign? { return Some(OwnershipChanged); }
        if !Transient(attempt.failure) || cloud.now + delay >= deadline { return Some(Provider(attempt.failure)); }
        cloud.Sleep(delay);
        delay := if delay * 2 < 30_000 then delay * 2 else 30_000;
      }
    }

    /** Keeps ten seconds between two writes. */
    method Begin(updated: Entry)
      requires Valid() && cloud.IsNew(updated)
      modifies cloud
      ensures cloud.Valid() && old(cloud.versions) <= cloud.versions && Ours(updated)
      ensures cloud.times == old(cloud.times) && cloud.now >= old(cloud.now) && (lastWrite.Some? ==> cloud.now >= lastWrite.value + 10_000)
    {
      hide History, Derived;
      cloud.Claim(state, updated);
      if lastWrite.Some? && cloud.now < lastWrite.value + 10_000 { cloud.Sleep(lastWrite.value + 10_000 - cloud.now); }
    }

    /** The entry was claimed to replace the state of this controller. */
    ghost predicate Ours(updated: Entry)
      reads this, cloud
    {
      updated in cloud.origin && cloud.origin[updated] == state != updated
    }

    ghost predicate Applied(updated: Entry)
      reads cloud
    {
      exists v | v in cloud.versions :: v.journal == updated
    }

    /** One round: read, recognise the own write, refuse a foreign one, otherwise send. */
    method Attempt(updated: Entry) returns (attempt: Attempted)
      requires cloud.Valid() && Ours(updated)
      modifies cloud
      ensures cloud.Valid() && old(cloud.versions) <= cloud.versions && cloud.origin == old(cloud.origin) && cloud.now >= old(cloud.now)
      ensures old(cloud.times) <= cloud.times && forall i | |old(cloud.times)| <= i < |cloud.times| :: cloud.times[i] >= old(cloud.now)
      ensures attempt.Saved? ==> Applied(updated)
      ensures attempt.Foreign? ==> cloud.versions[|cloud.versions| - 1].journal !in [state, updated]
    {
      hide History, Derived;
      var got := cloud.Get();
      if got.Raised? { return Failed(got.error); }
      var (seen, etag) := got.value;
      if seen.journal == updated { return Saved; }
      if seen.journal != state { return Foreign; }
      DerivedFromSeen(cloud.versions, cloud.origin, updated, etag);
      var reply := cloud.Update(Request(etag, Version(updated, seen.others)));
      if reply.Some? { return Failed(reply.value); }
      assert cloud.versions[etag + 1] in cloud.versions;
      attempt := Saved;
    }

    lemma SavedOnce(before: seq<Version>, updated: Entry)
      requires cloud.Valid() && before <= cloud.versions && Ours(updated) && Applied(updated)
      requires forall v | v in before :: v.journal != updated
      ensures MovedOnce(cloud.versions, |before|, state, updated)
      ensures cloud.Settled(updated)
    {
      var k :| 0 <= k < |cloud.versions| && cloud.versions[k].journal == updated;
      MovedSince(before, cloud.versions, cloud.origin, updated, k);
      AppliedIsSettled(cloud.versions, cloud.origin, cloud.sent, updated, k);
    }
  }

  datatype Attempted = Saved | Foreign | Failed(failure: Failure)

  function Updated(state: Entry, changes: map<string, string>, stamp: string): Entry {
    (state + changes)["updated_at" := stamp]
  }

  /** The changes override the state, the stamp overrides both, and nothing else moves. */
  lemma UpdatedHolds(state: Entry, changes: map<string, string>, stamp: string)
    ensures var e := Updated(state, changes, stamp);
      && e.Keys == state.Keys + changes.Keys + {"updated_at"} && e["updated_at"] == stamp
      && (forall k | k in changes && k != "updated_at" :: e[k] == changes[k])
      && (forall k | k in state && k !in changes && k != "updated_at" :: e[k] == state[k])
  {
  }
}
