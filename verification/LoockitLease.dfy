/** The single BLE leader lease: create, renew and take over, and what the writes of a whole
    history guarantee. Times are the server's, in milliseconds. */
module LeaseServer {
  import opened Wrappers

  type Identity = nat

  const LEASE_MS := 15_000

  datatype Verb = Get | Post | Put

  /** The parts of a request body that are looked at; None where the field is missing. */
  datatype Candidate = Candidate(nameMatches: bool, holder: Option<Identity>, durationSeconds: Option<int>, version: Option<nat>)

  datatype Lease = Lease(version: nat, holder: Identity, acquireTime: int, renewTime: int, transitions: nat)

  datatype Response = Stored(status: int, lease: Lease) | Refused(status: int)

  datatype Request = Request(verb: Verb, candidate: Option<Candidate>, identity: Identity, now: int)

  // ----- one request -----

  predicate WellFormed(r: Request) {
    && r.candidate.Some? && r.candidate.value.nameMatches
    && r.candidate.value.holder == Some(r.identity) && r.candidate.value.durationSeconds == Some(15)
  }

  predicate Expired(lease: Lease, now: int) { now >= lease.renewTime + LEASE_MS }

  /** The request writes the lease. */
  predicate Writes(current: Option<Lease>, r: Request) {
    && !r.verb.Get? && WellFormed(r)
    && (r.verb.Post? ==> current.None?)
    && (r.verb.Put? ==> current.Some? && r.candidate.value.version == Some(current.value.version))
    && (current.Some? && current.value.holder != r.identity ==> Expired(current.value, r.now))
  }

  function Written(current: Option<Lease>, identity: Identity, now: int): Lease {
    match current
    case None => Lease(1, identity, now, now, 0)
    case Some(last) =>
      if last.holder == identity then last.(version := last.version + 1, renewTime := now)
      else Lease(last.version + 1, identity, now, now, last.transitions + 1)
  }

  function Serve(current: Option<Lease>, r: Request): Option<Lease> {
    if Writes(current, r) then Some(Written(current, r.identity, r.now)) else current
  }

  class LoockitLease {
    var row: Option<Lease>

    constructor ()
      ensures row.None?
    {
      row := None;
    }

    method Operate(r: Request) returns (answer: Response)
      modifies this
      ensures row == Serve(old(row), r)
      ensures Writes(old(row), r) ==> answer == Stored(if r.verb.Post? then 201 else 200, row.value)
      ensures !Writes(old(row), r) ==> row == old(row)
      ensures r.verb.Get? ==> answer == (if row.Some? then Stored(200, row.value) else Refused(404))
      ensures !r.verb.Get? && !WellFormed(r) ==> answer == Refused(400)
      ensures !r.verb.Get? && WellFormed(r) && !Writes(old(row), r) ==> answer == Refused(409)
    {
      var current := row;
      if r.verb.Get? { return if current.Some? then Stored(200, current.value) else Refused(404); }
      if r.candidate.None? || !r.candidate.value.nameMatches || r.candidate.value.holder != Some(r.identity) ||
         r.candidate.value.durationSeconds != Some(15) { return Refused(400); }
      if r.verb.Post? && current.Some? { return Refused(409); }
      if r.verb.Put? && (current.None? || r.candidate.value.version != Some(current.value.version)) { return Refused(409); }
      if current.Some? && current.value.holder != r.identity && r.now < current.value.renewTime + LEASE_MS { return Refused(409); }
      var changed := current.None? || current.value.holder != r.identity;
      var version := (if current.Some? then current.value.version else 0) + 1;
      var transitions := (if current.Some? then current.value.transitions else 0) + (if current.Some? && changed then 1 else 0);
      var acquired := if changed then r.now else current.value.acquireTime;
      row := Some(Lease(version, r.identity, acquired, r.now, transitions));
      return Stored(if r.verb.Post? then 201 else 200, row.value);
    }
  }

  // ----- histories -----

  function Run(rs: seq<Request>): Option<Lease> {
    if rs == [] then None else Serve(Run(rs[..|rs| - 1]), rs[|rs| - 1])
  }

  datatype Write = Write(identity: Identity, now: int)

  /** The successful writes of a history, in order. */
  function WritesOf(rs: seq<Request>): seq<Write> {
    if rs == [] then [] else
    var r := rs[|rs| - 1];
    WritesOf(rs[..|rs| - 1]) + if Writes(Run(rs[..|rs| - 1]), r) then [Write(r.identity, r.now)] else []
  }

  /** How often the holder changed. */
  function Changes(ws: seq<Write>): nat {
    if |ws| < 2 then 0
    else Changes(ws[..|ws| - 1]) + if ws[|ws| - 1].identity != ws[|ws| - 2].identity then 1 else 0
  }

  /** Where the unbroken run of writes by the last writer starts. */
  function TermStart(ws: seq<Write>): (k: nat)
    requires ws != []
    ensures k < |ws|
    ensures forall j | k <= j < |ws| :: ws[j].identity == ws[|ws| - 1].identity
    ensures k > 0 ==> ws[k - 1].identity != ws[|ws| - 1].identity
  {
    var n := |ws| - 1;
    if n == 0 || ws[n - 1].identity != ws[n].identity then n
    else TermStart(ws[..n])
  }

  /** The lease says the same as the writes: the version counts them, the holder and the
      renewal are those of the last one, the acquisition is the first write of the holder's
      current term, and the transitions count the changes of holder. */
  predicate Summarizes(lease: Option<Lease>, ws: seq<Write>) {
    && (lease.None? <==> ws == [])
    && (ws != [] ==>
          && lease.value.version == |ws|
          && lease.value.holder == ws[|ws| - 1].identity
          && lease.value.renewTime == ws[|ws| - 1].now
          && lease.value.acquireTime == ws[TermStart(ws)].now
          && lease.value.transitions == Changes(ws))
  }

  lemma TermAndChangesGrow(ws: seq<Write>, w: Write)
    ensures TermStart(ws + [w]) == (if ws != [] && ws[|ws| - 1].identity == w.identity then TermStart(ws) else |ws|)
    ensures Changes(ws + [w]) == Changes(ws) + (if ws != [] && ws[|ws| - 1].identity != w.identity then 1 else 0)
  {
    assert (ws + [w])[..|ws|] == ws;
  }

  lemma WrittenSummarizes(lease: Option<Lease>, ws: seq<Write>, identity: Identity, now: int)
    requires Summarizes(lease, ws)
    ensures Summarizes(Some(Written(lease, identity, now)), ws + [Write(identity, now)])
  {
    TermAndChangesGrow(ws, Write(identity, now));
  }

  /** After any history the stored lease summarizes its successful writes. */
  lemma {:induction false} LeaseSummarizesWrites(rs: seq<Request>)
    ensures Summarizes(Run(rs), WritesOf(rs))
  {
    if rs != [] {
      hide Summarizes, Written, Writes;
      var before, r := rs[..|rs| - 1], rs[|rs| - 1];
      LeaseSummarizesWrites(before);
      if Writes(Run(before), r) { WrittenSummarizes(Run(before), WritesOf(before), r.identity, r.now); }
      else { assert WritesOf(rs) == WritesOf(before); }
    } else {
      assert Run(rs).None? && WritesOf(rs) == [];
    }
  }

  /** After any history a request is stored if and only if it is a well-formed write by its own holder
      that creates the first lease or names the latest version, and the last writer is the same or its
      fifteen seconds are over: a held lease is safe, an expired one can be taken over. */
  lemma StoredIff(rs: seq<Request>, r: Request)
    ensures Writes(Run(rs), r) <==>
      var ws := WritesOf(rs);
      && r.verb in {Post, Put} && r.candidate.Some? && r.candidate.value.nameMatches
      && r.candidate.value.holder == Some(r.identity) && r.candidate.value.durationSeconds == Some(15)
      && (if r.verb == Post then ws == []
          else ws != [] && r.candidate.value.version == Some(|ws|) &&
               (ws[|ws| - 1].identity == r.identity || r.now >= ws[|ws| - 1].now + 15_000))
  {
    LeaseSummarizesWrites(rs);
    hide Run, WritesOf;
  }

  /** The server's clock does not run backwards. */
  predicate Clocked(rs: seq<Request>) {
    forall i, j | 0 <= i < j < |rs| :: rs[i].now <= rs[j].now
  }

  lemma {:induction false} WritesAreOrdered(rs: seq<Request>)
    requires Clocked(rs)
    ensures forall i, j | 0 <= i < j < |WritesOf(rs)| :: WritesOf(rs)[i].now <= WritesOf(rs)[j].now
    ensures rs != [] ==> forall i | 0 <= i < |WritesOf(rs)| :: WritesOf(rs)[i].now <= rs[|rs| - 1].now
  {
    if rs != [] { WritesAreOrdered(rs[..|rs| - 1]); }
  }

  /** Writes of different identities are at least the lease duration apart, so no two of them
      ever hold an unexpired lease at the same time. */
  lemma {:induction false} DifferentHoldersAreApart(rs: seq<Request>, i: nat, j: nat)
    requires Clocked(rs) && i < j < |WritesOf(rs)| && WritesOf(rs)[i].identity != WritesOf(rs)[j].identity
    ensures WritesOf(rs)[j].now >= WritesOf(rs)[i].now + LEASE_MS
  {
    var before := rs[..|rs| - 1];
    var ws := WritesOf(before);
    if j < |ws| {
      DifferentHoldersAreApart(before, i, j);
    } else {
      LeaseSummarizesWrites(before);
      WritesAreOrdered(before);
      WritesAreOrdered(rs);
      var last := |ws| - 1;
      if ws[last].identity == WritesOf(rs)[j].identity { DifferentHoldersAreApart(before, i, last); }
    }
  }

  /** Request k is a renewal or takeover that was stored. */
  predicate IsStoredPut(rs: seq<Request>, k: nat)
    requires k < |rs|
  {
    rs[k].verb.Put? && Writes(Run(rs[..k]), rs[k])
  }

  lemma {:induction false} VersionsGrow(rs: seq<Request>, k: nat)
    requires k <= |rs|
    ensures Run(rs[..k]).Some? ==> Run(rs).Some? && Run(rs[..k]).value.version <= Run(rs).value.version
  {
    if k == |rs| {
      assert rs[..k] == rs;
    } else {
      VersionsGrow(rs[..|rs| - 1], k);
      assert rs[..|rs| - 1][..k] == rs[..k];
    }
  }

  /** At most one conditional write succeeds per version: the versions presented by successful
      ones strictly increase. */
  lemma StoredPutsNameDifferentVersions(rs: seq<Request>, i: nat, j: nat)
    requires i < j < |rs| && IsStoredPut(rs, i) && IsStoredPut(rs, j)
    ensures rs[i].candidate.value.version.value < rs[j].candidate.value.version.value
  {
    assert rs[..i + 1][..i] == rs[..i];
    assert Run(rs[..i + 1]) == Serve(Run(rs[..i]), rs[i]);
    assert rs[..j][..i + 1] == rs[..i + 1];
    VersionsGrow(rs[..j], i + 1);
  }
}
