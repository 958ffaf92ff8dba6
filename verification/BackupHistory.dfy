/** The crash safety of the backup journal over whole traces. Every trace that a Pve records is
    legal, and so is every part of it from the beginning: what holds of all legal traces holds
    wherever the agent or the host dies. */
module BackupHistory {
  import opened Wrappers
  import opened BackupReplay

  lemma RecordedIsLegal(pve: Pve)
    requires pve.Durable()
    ensures Legal(pve.trace) && LifeAfter(pve.trace).saved == pve.saved && LifeAfter(pve.trace).submitted == pve.submitted
  {
  }

  /** Cut off anywhere, a legal trace is legal. */
  lemma {:induction false} CutIsLegal(trace: seq<Event>, n: nat)
    requires Legal(trace) && n <= |trace|
    ensures Legal(trace[..n])
    ensures n < |trace| ==> Allowed(LifeAfter(trace[..n]), trace[n])
    decreases |trace|
  {
    if n == |trace| {
      assert trace[..n] == trace;
    } else {
      var before := trace[..|trace| - 1];
      CutIsLegal(before, n);
      assert before[..n] == trace[..n];
    }
  }

  // ----- once -----

  /** What was submitted is on its way in the journal, and in no inventory. */
  predicate Once(life: Life) {
    forall k | k in life.submitted ::
      k !in life.running && k !in life.begun && (k in life.Items() ==> !life.Items()[k].state.Pending?)
  }

  lemma StepKeepsOnce(life: Life, e: Event)
    requires Once(life) && Allowed(life, e)
    ensures Once(LifeNext(life, e))
  {
    if e.Saved? {
      forall k | k in life.submitted && k in e.queue.items ensures !e.queue.items[k].state.Pending? {
        if k in life.Items() { assert LivesOn(k, life.Items(), e.queue.items); }
      }
    }
  }

  lemma {:induction false} LegalIsOnce(trace: seq<Event>)
    requires Legal(trace)
    ensures Once(LifeAfter(trace))
  {
    if trace != [] {
      var before := trace[..|trace| - 1];
      LegalIsOnce(before);
      StepKeepsOnce(LifeAfter(before), trace[|trace| - 1]);
    }
  }

  lemma {:induction false} SubmittedStays(trace: seq<Event>, i: nat)
    requires i < |trace| && trace[i].Submitted?
    ensures trace[i].k in LifeAfter(trace).submitted
    decreases |trace|
  {
    if i < |trace| - 1 { SubmittedStays(trace[..|trace| - 1], i); }
  }

  /** No item is ever submitted twice, whatever crashed in between. */
  lemma SubmittedAtMostOnce(trace: seq<Event>, i: nat, j: nat)
    requires Legal(trace) && i < |trace| && j < |trace| && trace[i].Submitted? && trace[j] == trace[i]
    ensures i == j
  {
    if i > j { SubmittedAtMostOnce(trace, j, i); }
    if i < j {
      CutIsLegal(trace, j);
      LegalIsOnce(trace[..j]);
      SubmittedStays(trace[..j], i);
    }
  }

  // ----- not before the reboot -----

  /** The journal a run left: the last one written, unless it was closed since. */
  lemma {:induction false} JournalWasWritten(trace: seq<Event>) returns (i: nat)
    requires LifeAfter(trace).saved.Some?
    ensures i < |trace| && trace[i] == Saved(LifeAfter(trace).saved.value)
    ensures forall j | i < j < |trace| :: !trace[j].Saved? && !trace[j].Closed?
  {
    i := |trace| - 1;
    if !trace[i].Saved? { i := JournalWasWritten(trace[..|trace| - 1]); }
  }

  /** A submission was announced in the journal that still stands, and that journal is of an earlier
      boot session or its reboot was called off. */
  lemma SubmissionIsAnnounced(trace: seq<Event>, i: nat) returns (j: nat)
    requires Legal(trace) && i < |trace| && trace[i].Submitted?
    ensures j < i && trace[j].Saved? && forall n | j < n < i :: !trace[n].Saved? && !trace[n].Closed?
    ensures var queue := trace[j].queue; trace[i].k in queue.items && queue.items[trace[i].k].state.Submitting?
    ensures trace[j].queue.bootId != LifeAfter(trace[..i]).boot || trace[j].queue.resumeAllowed
  {
    CutIsLegal(trace, i);
    j := JournalWasWritten(trace[..i]);
  }

  lemma {:induction false} ClearedWasChecked(trace: seq<Event>) returns (i: nat)
    requires LifeAfter(trace).cleared.Some?
    ensures i < |trace| && trace[i] == Cleared(LifeAfter(trace).cleared.value)
    ensures forall j | i < j < |trace| :: !trace[j].Submitted? && !trace[j].Booted?
  {
    i := |trace| - 1;
    if !trace[i].Cleared? { i := ClearedWasChecked(trace[..|trace| - 1]); }
  }

  /** Before every submission the item's node was found ready for it, in the same boot session and after
      the submission before: two backups are not stacked. */
  lemma SubmissionFollowsACheck(trace: seq<Event>, i: nat) returns (j: nat)
    requires Legal(trace) && i < |trace| && trace[i].Submitted?
    ensures j < i && trace[j] == Cleared(trace[i].k) && forall n | j < n < i :: !trace[n].Submitted? && !trace[n].Booted?
  {
    CutIsLegal(trace, i);
    j := ClearedWasChecked(trace[..i]);
  }

  lemma {:induction false} WantedWasRequested(trace: seq<Event>, k: Upid) returns (i: nat)
    requires k in LifeAfter(trace).wanted
    ensures i < |trace| && trace[i].Saved? && k in Wanted(LifeAfter(trace[..i]).Items(), trace[i].queue.items)
    ensures forall j | i < j < |trace| :: !trace[j].Saved? && trace[j] != AskedToStop(k)
  {
    var before := trace[..|trace| - 1];
    i := |trace| - 1;
    if !trace[i].Saved? {
      i := WantedWasRequested(before, k);
      assert before[..i] == trace[..i];
    }
  }

  /** A backup is asked to stop once for each request, which the journal's last write made. */
  lemma StopFollowsItsRequest(trace: seq<Event>, i: nat) returns (j: nat)
    requires Legal(trace) && i < |trace| && trace[i].AskedToStop?
    ensures j < i && trace[j].Saved? && forall n | j < n < i :: !trace[n].Saved? && trace[n] != trace[i]
    ensures var k, before := trace[i].k, LifeAfter(trace[..j]).Items();
      k in before && !before[k].stopRequested && k in trace[j].queue.items && trace[j].queue.items[k].stopRequested
  {
    CutIsLegal(trace, i);
    j := WantedWasRequested(trace[..i], trace[i].k);
    assert trace[..i][..j] == trace[..j];
  }

  // ----- until it is over -----

  /** Who answers for an item: itself, the replay it handed over to, or nobody once all are over. */
  function Successor(life: Life, e: Event, heir: Option<Upid>): Option<Upid> {
    if heir.None? then None
    else
      match e
      case Saved(queue) => if heir.value in queue.items || heir.value !in life.Items() then heir else life.Items()[heir.value].replay
      case Closed(_) => None
      case _ => heir
  }

  /** Who answers, at the end of a trace, for an item journaled after its first n events. */
  function Heir(trace: seq<Event>, n: nat, k: Upid): Option<Upid>
    requires n <= |trace|
    decreases |trace|
  {
    if n == |trace| then Some(k)
    else
      var before := trace[..|trace| - 1];
      Successor(LifeAfter(before), trace[|trace| - 1], Heir(before, n, k))
  }

  /** The item is journaled and asks for this. */
  predicate Represents(items: map<Upid, Item>, k: Upid, arguments: Arguments) {
    k in items && SameRequest(arguments, items[k].arguments)
  }

  /** The journal was closed at event c with the answer to the item completed or failed. */
  predicate OverAt(trace: seq<Event>, n: nat, k: Upid, c: nat, arguments: Arguments)
    requires n <= |trace|
  {
    && n <= c < |trace| && trace[c].Closed? && Heir(trace[..c], n, k).Some?
    && var heir := Heir(trace[..c], n, k).value;
       Represents(trace[c].last, heir, arguments) && IsOver(trace[c].last[heir])
  }

  ghost predicate Answered(trace: seq<Event>, n: nat, k: Upid, arguments: Arguments)
    requires n <= |trace|
  {
    if Heir(trace, n, k).Some? then Represents(LifeAfter(trace).Items(), Heir(trace, n, k).value, arguments)
    else exists c: nat :: OverAt(trace, n, k, c, arguments)
  }

  lemma SuccessorRepresents(life: Life, e: Event, heir: Upid, arguments: Arguments)
    requires Allowed(life, e) && Represents(life.Items(), heir, arguments)
    ensures Successor(life, e, Some(heir)).Some? ==>
      Represents(LifeNext(life, e).Items(), Successor(life, e, Some(heir)).value, arguments)
    ensures Successor(life, e, Some(heir)).None? ==> e.Closed? && Represents(e.last, heir, arguments) && IsOver(e.last[heir])
  {
    if e.Saved? { assert LivesOn(heir, life.Items(), e.queue.items); }
  }

  /** Every item that was ever journaled is answered for by an item that asks for the same, until
      that one is completed or failed and the journal closed. */
  lemma {:induction false} JournaledItemIsAnswered(trace: seq<Event>, n: nat, k: Upid)
    requires Legal(trace) && n <= |trace| && k in LifeAfter(trace[..n]).Items()
    ensures Answered(trace, n, k, LifeAfter(trace[..n]).Items()[k].arguments)
    decreases |trace|
  {
    if n == |trace| {
      assert trace[..n] == trace;
    } else {
      var before := trace[..|trace| - 1];
      assert before[..n] == trace[..n];
      JournaledItemIsAnswered(before, n, k);
      AnswerStays(trace, n, k, LifeAfter(trace[..n]).Items()[k].arguments);
    }
  }

  lemma AnswerStays(trace: seq<Event>, n: nat, k: Upid, arguments: Arguments)
    requires Legal(trace) && n < |trace| && Answered(trace[..|trace| - 1], n, k, arguments)
    ensures Answered(trace, n, k, arguments)
  {
    var before := trace[..|trace| - 1];
    var heir := Heir(before, n, k);
    hide SameRequest, IsOver;
    if heir.Some? {
      SuccessorRepresents(LifeAfter(before), trace[|trace| - 1], heir.value, arguments);
      hide Allowed, LifeNext, Represents;
      if Heir(trace, n, k).None? { assert OverAt(trace, n, k, |trace| - 1, arguments); }
    } else {
      var c: nat :| OverAt(before, n, k, c, arguments);
      assert trace[..c] == before[..c];
      assert OverAt(trace, n, k, c, arguments);
    }
  }

  /** So is every backup that was asked to stop. */
  lemma StoppedBackupIsAnswered(trace: seq<Event>, i: nat)
    requires Legal(trace) && i < |trace| && trace[i].AskedToStop?
    ensures trace[i].k in LifeAfter(trace[..i]).Items()
    ensures Answered(trace, i, trace[i].k, LifeAfter(trace[..i]).Items()[trace[i].k].arguments)
  {
    CutIsLegal(trace, i);
    JournaledItemIsAnswered(trace, i, trace[i].k);
  }
}
