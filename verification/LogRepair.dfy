/** Repair of a peer's logs after an update: the multiset difference by record key, the import
    batches, the five-minute windows over the gap, and the pruning of old backups. */
module LogRepair {
  import opened Wrappers

  // ----- multiset difference by record key -----

  type Row = map<string, string>

  /** Two copies of a record differ only in the identifier of their stream. */
  function Key(row: Row): Row { row - {"_stream_id"} }

  /** Two records count as the same exactly when they agree on every field but that one. */
  lemma SameKeyIff(a: Row, b: Row)
    ensures Key(a) == Key(b) <==>
      forall field | field != "_stream_id" :: (field in a <==> field in b) && (field in a && field in b ==> a[field] == b[field])
  {
    if Key(a) == Key(b) {
      forall field | field != "_stream_id" ensures (field in a <==> field in b) && (field in a && field in b ==> a[field] == b[field]) {
        assert field in Key(a) <==> field in a;
        assert field in Key(b) <==> field in b;
      }
    }
  }

  function Keys(rows: seq<Row>): seq<Row> { seq(|rows|, i requires 0 <= i < |rows| => Key(rows[i])) }

  /** How often each key occurs. */
  function Count(rows: seq<Row>): multiset<Row> { multiset(Keys(rows)) }

  lemma CountOfConcat(a: seq<Row>, b: seq<Row>)
    ensures Count(a + b) == Count(a) + Count(b)
  {
    assert Keys(a + b) == Keys(a) + Keys(b);
  }

  lemma CountOfSingle(row: Row)
    ensures Count([row]) == multiset{Key(row)}
  {
    assert Keys([row]) == [Key(row)];
  }

  predicate IsSubsequence(part: seq<Row>, whole: seq<Row>) {
    if part == [] then true
    else if whole == [] then false
    else if part[|part| - 1] == whole[|whole| - 1] && IsSubsequence(part[..|part| - 1], whole[..|whole| - 1]) then true
    else IsSubsequence(part, whole[..|whole| - 1])
  }

  lemma CountGrows(rows: seq<Row>, i: nat)
    requires i < |rows|
    ensures Count(rows[..i + 1]) == Count(rows[..i]) + multiset{Key(rows[i])}
  {
    assert rows[..i + 1] == rows[..i] + [rows[i]];
    CountOfConcat(rows[..i], [rows[i]]);
    CountOfSingle(rows[i]);
  }

  lemma SubsequenceGrows(part: seq<Row>, whole: seq<Row>, i: nat)
    requires i < |whole| && IsSubsequence(part, whole[..i])
    ensures IsSubsequence(part, whole[..i + 1]) && IsSubsequence(part + [whole[i]], whole[..i + 1])
  {
    assert whole[..i + 1][..i] == whole[..i];
    assert (part + [whole[i]])[..|part|] == part;
  }

  /** One more source record: skipped while the destination still has an unmatched copy. */
  lemma DifferenceGrows(have: multiset<Row>, seen: multiset<Row>, key: Row)
    ensures (have - seen)[key] > 0 ==> seen + multiset{key} - have == seen - have
    ensures (have - seen)[key] > 0 ==> have - (seen + multiset{key}) == (have - seen)[key := (have - seen)[key] - 1]
    ensures (have - seen)[key] == 0 ==> seen + multiset{key} - have == (seen - have) + multiset{key}
    ensures (have - seen)[key] == 0 ==> have - (seen + multiset{key}) == have - seen
  {
  }

  /** What the destination lacks: every source record beyond the copies it already has. */
  method MissingLogs(source: seq<Row>, destination: seq<Row>) returns (missing: seq<Row>)
    ensures Count(missing) == Count(source) - Count(destination)
    ensures IsSubsequence(missing, source)
  {
    hide Count, Keys, Key;
    var counts := CountKeys(destination);
    missing := [];
    assert Count(missing) == multiset{} && Count(source[..0]) == multiset{} by { EmptyCount(); }
    for i := 0 to |source|
      invariant counts == Count(destination) - Count(source[..i])
      invariant Count(missing) == Count(source[..i]) - Count(destination)
      invariant IsSubsequence(missing, source[..i])
    {
      var key := Key(source[i]);
      CountGrows(source, i);
      DifferenceGrows(Count(destination), Count(source[..i]), key);
      SubsequenceGrows(missing, source, i);
      if counts[key] > 0 {
        counts := counts[key := counts[key] - 1];
      } else {
        CountOfConcat(missing, [source[i]]);
        CountOfSingle(source[i]);
        missing := missing + [source[i]];
      }
    }
    assert source[..|source|] == source;
  }

  lemma EmptyCount()
    ensures Count([]) == multiset{}
  {
  }

  method CountKeys(rows: seq<Row>) returns (counts: multiset<Row>)
    ensures counts == Count(rows)
  {
    hide Count, Keys, Key;
    counts := multiset{};
    assert Count(rows[..0]) == multiset{} by { EmptyCount(); }
    for i := 0 to |rows|
      invariant counts == Count(rows[..i])
    {
      CountGrows(rows, i);
      counts := counts + multiset{Key(rows[i])};
    }
    assert rows[..|rows|] == rows;
  }

  /** Importing the difference makes every count the maximum of both sides. */
  lemma ImportTakesTheMaximum(source: seq<Row>, destination: seq<Row>, missing: seq<Row>, key: Row)
    requires Count(missing) == Count(source) - Count(destination)
    ensures Count(destination + missing)[key] == Max(Count(source)[key], Count(destination)[key])
  {
    CountOfConcat(destination, missing);
  }

  /** Nothing is missing exactly when the destination has every source record often enough. */
  lemma NothingMissingIffCovered(source: seq<Row>, destination: seq<Row>, missing: seq<Row>)
    requires Count(missing) == Count(source) - Count(destination)
    ensures missing == [] <==> Count(source) <= Count(destination)
  {
    if missing != [] {
      assert Keys(missing)[0] in Keys(missing);
      assert Count(missing)[Key(missing[0])] > 0;
    } else {
      assert Count(missing) == multiset{};
      forall key ensures Count(source)[key] <= Count(destination)[key] {
        assert (Count(source) - Count(destination))[key] == 0;
      }
    }
  }

  /** A second comparison after the import, whatever else arrived meanwhile, finds nothing. */
  lemma RerunFindsNothing(source: seq<Row>, destination: seq<Row>, missing: seq<Row>, later: seq<Row>, again: seq<Row>)
    requires Count(missing) == Count(source) - Count(destination)
    requires Count(destination + missing) <= Count(later)
    requires Count(again) == Count(source) - Count(later)
    ensures again == []
  {
    forall key ensures Count(source)[key] <= Count(later)[key] {
      ImportTakesTheMaximum(source, destination, missing, key);
    }
    NothingMissingIffCovered(source, later, again);
  }

  // ----- import batches -----

  const BATCH_LIMIT: nat := 10_000

  /** A row with the names of its stream fields and the length of its line. */
  datatype Prepared = Prepared(row: Row, fields: set<string>, size: nat)

  datatype Batch = Batch(records: seq<Prepared>, fields: set<string>)

  function Total(records: seq<Prepared>): nat {
    if records == [] then 0 else Total(records[..|records| - 1]) + records[|records| - 1].size
  }

  /** The rows with a given set of stream fields, in order. */
  function WithFields(rows: seq<Prepared>, fields: set<string>): (r: seq<Prepared>)
    ensures forall x :: x in r <==> x in rows && x.fields == fields
  {
    if rows == [] then [] else
    assert rows == rows[..|rows| - 1] + [rows[|rows| - 1]];
    WithFields(rows[..|rows| - 1], fields) +
    if rows[|rows| - 1].fields == fields then [rows[|rows| - 1]] else []
  }

  /** Everything the batches with given fields carry, in order. */
  function Carried(batches: seq<Batch>, fields: set<string>): seq<Prepared> {
    if batches == [] then [] else
    Carried(batches[..|batches| - 1], fields) +
    if batches[|batches| - 1].fields == fields then batches[|batches| - 1].records else []
  }

  /** Everything the batches carry. */
  function AllCarried(batches: seq<Batch>): seq<Prepared> {
    if batches == [] then [] else AllCarried(batches[..|batches| - 1]) + batches[|batches| - 1].records
  }

  /** Not empty, of one set of fields, and within both limits. */
  predicate Fits(batch: Batch, maxBytes: nat) {
    && batch.records != [] && |batch.records| <= BATCH_LIMIT && Total(batch.records) <= maxBytes
    && forall r | r in batch.records :: r.fields == batch.fields
  }

  /** The import takes at most ten thousand rows at a time, and none of several streams at once. */
  lemma FitsMeans(batch: Batch, maxBytes: nat)
    requires Fits(batch, maxBytes)
    ensures 0 < |batch.records| <= 10_000 && forall r, q | r in batch.records && q in batch.records :: r.fields == q.fields
  {
  }

  /** A batch is closed only when the record that follows it would not fit. */
  predicate ClosedForCause(batch: Batch, next: Prepared, maxBytes: nat) {
    Total(batch.records) + next.size > maxBytes || |batch.records| >= BATCH_LIMIT
  }

  predicate Greedy(batches: seq<Batch>, maxBytes: nat) {
    forall i | 0 <= i < |batches| - 1 && batches[i].fields == batches[i + 1].fields && batches[i + 1].records != [] ::
      ClosedForCause(batches[i], batches[i + 1].records[0], maxBytes)
  }

  lemma CarriedGrows(batches: seq<Batch>, more: Batch, fields: set<string>)
    ensures Carried(batches + [more], fields) == Carried(batches, fields) + if more.fields == fields then more.records else []
  {
    assert (batches + [more])[..|batches|] == batches;
  }

  lemma {:induction false} CarriedOfConcat(a: seq<Batch>, b: seq<Batch>, fields: set<string>)
    ensures Carried(a + b, fields) == Carried(a, fields) + Carried(b, fields)
  {
    if b == [] {
      assert a + b == a;
    } else {
      var init, last := b[..|b| - 1], b[|b| - 1];
      assert b == init + [last] && a + b == (a + init) + [last];
      CarriedOfConcat(a, init, fields);
      CarriedGrows(a + init, last, fields);
      CarriedGrows(init, last, fields);
      hide Carried;
    }
  }

  lemma TotalGrows(records: seq<Prepared>, r: Prepared)
    ensures Total(records + [r]) == Total(records) + r.size
  {
    assert (records + [r])[..|records|] == records;
  }

  /** What holds between two rows of a group: the closed batches and the open one. */
  ghost predicate Batching(records: seq<Prepared>, fields: set<string>, maxBytes: nat, batches: seq<Batch>, open: seq<Prepared>) {
    && (forall b | b in batches :: Fits(b, maxBytes) && b.fields == fields)
    && Greedy(batches, maxBytes)
    && (batches != [] ==> open != [] && ClosedForCause(batches[|batches| - 1], open[0], maxBytes))
    && (open != [] ==> Fits(Batch(open, fields), maxBytes))
    && Carried(batches, fields) + open == records
  }

  lemma CloseBatch(records: seq<Prepared>, fields: set<string>, maxBytes: nat, batches: seq<Batch>, open: seq<Prepared>)
    requires Batching(records, fields, maxBytes, batches, open) && open != []
    ensures var closed := batches + [Batch(open, fields)];
      && (forall b | b in closed :: Fits(b, maxBytes) && b.fields == fields)
      && Greedy(closed, maxBytes) && Carried(closed, fields) == records
  {
    hide Fits, ClosedForCause;
    CarriedGrows(batches, Batch(open, fields), fields);
  }

  /** A row that fits joins the open batch; one that does not starts the next. */
  lemma AddRow(records: seq<Prepared>, fields: set<string>, maxBytes: nat, batches: seq<Batch>, open: seq<Prepared>, r: Prepared)
    requires Batching(records, fields, maxBytes, batches, open) && r.fields == fields && r.size <= maxBytes
    ensures open == [] || !ClosedForCause(Batch(open, fields), r, maxBytes) ==> Batching(records + [r], fields, maxBytes, batches, open + [r])
    ensures open != [] && ClosedForCause(Batch(open, fields), r, maxBytes) ==>
      Batching(records + [r], fields, maxBytes, batches + [Batch(open, fields)], [r])
  {
    hide Greedy, Carried, Fits, ClosedForCause;
    RowFits(fields, maxBytes, open, r);
    if open != [] && ClosedForCause(Batch(open, fields), r, maxBytes) {
      CloseBatch(records, fields, maxBytes, batches, open);
    } else {
      assert Carried(batches, fields) + (open + [r]) == records + [r];
    }
  }

  lemma RowFits(fields: set<string>, maxBytes: nat, open: seq<Prepared>, r: Prepared)
    requires (open != [] ==> Fits(Batch(open, fields), maxBytes)) && r.fields == fields && r.size <= maxBytes
    ensures Fits(Batch([r], fields), maxBytes)
    ensures open == [] || !ClosedForCause(Batch(open, fields), r, maxBytes) ==> Fits(Batch(open + [r], fields), maxBytes)
  {
    TotalGrows(open, r);
    TotalGrows([], r);
    assert [] + [r] == [r];
  }

  lemma BatchingStarts(fields: set<string>, maxBytes: nat)
    ensures Batching([], fields, maxBytes, [], [])
  {
  }

  lemma BatchingStops(records: seq<Prepared>, fields: set<string>, maxBytes: nat, batches: seq<Batch>, open: seq<Prepared>)
    requires Batching(records, fields, maxBytes, batches, open)
    ensures forall b | b in batches :: Fits(b, maxBytes) && b.fields == fields
    ensures Greedy(batches, maxBytes) && Carried(batches, fields) <= records
    ensures open == [] ==> Carried(batches, fields) == records
  {
  }

  /** The batches of one group of rows; not all of it when a single row is too long. */
  method GroupBatches(records: seq<Prepared>, fields: set<string>, maxBytes: nat) returns (batches: seq<Batch>, ok: bool)
    requires forall r | r in records :: r.fields == fields
    ensures ok <==> forall r | r in records :: r.size <= maxBytes
    ensures forall b | b in batches :: Fits(b, maxBytes) && b.fields == fields
    ensures Greedy(batches, maxBytes)
    ensures ok ==> Carried(batches, fields) == records
    ensures Carried(batches, fields) <= records
  {
    hide Batching, Greedy, Fits;
    batches, ok := [], true;
    var batch: seq<Prepared> := [];
    var size := 0;
    BatchingStarts(fields, maxBytes);
    for i := 0 to |records|
      invariant size == Total(batch)
      invariant forall r | r in records[..i] :: r.size <= maxBytes
      invariant Batching(records[..i], fields, maxBytes, batches, batch)
    {
      var r := records[i];
      assert r in records && records[..i + 1] == records[..i] + [r];
      if r.size > maxBytes {
        BatchingStops(records[..i], fields, maxBytes, batches, batch);
        return batches, false;
      }
      AddRow(records[..i], fields, maxBytes, batches, batch, r);
      TotalGrows(batch, r);
      TotalGrows([], r);
      assert [] + [r] == [r];
      if batch != [] && (size + r.size > maxBytes || |batch| >= BATCH_LIMIT) {
        batches, batch, size := batches + [Batch(batch, fields)], [], 0;
      }
      batch, size := batch + [r], size + r.size;
    }
    assert records[..|records|] == records;
    if batch != [] {
      CloseBatch(records, fields, maxBytes, batches, batch);
      batches := batches + [Batch(batch, fields)];
    } else {
      BatchingStops(records, fields, maxBytes, batches, batch);
    }
  }

  /** The sets of fields in the order of their first row. */
  method FieldSets(rows: seq<Prepared>) returns (order: seq<set<string>>)
    ensures forall f :: f in order <==> exists r | r in rows :: r.fields == f
    ensures forall i, j | 0 <= i < j < |order| :: order[i] != order[j]
  {
    order := [];
    for i := 0 to |rows|
      invariant forall f :: f in order <==> exists r | r in rows[..i] :: r.fields == f
      invariant forall a, b | 0 <= a < b < |order| :: order[a] != order[b]
    {
      var r := rows[i];
      assert rows[..i + 1] == rows[..i] + [r];
      ghost var before := order;
      if r.fields !in order { order := order + [r.fields]; }
      forall f ensures f in order <==> exists x | x in rows[..i + 1] :: x.fields == f {
        assert f in order <==> f in before || f == r.fields;
        if f == r.fields { assert r in rows[..i + 1]; }
      }
    }
    assert rows[..|rows|] == rows;
  }

  /** What holds between two groups: the field sets done carry all their rows, the others none. */
  ghost predicate Grouped(rows: seq<Prepared>, done: seq<set<string>>, batches: seq<Batch>, maxBytes: nat) {
    && (forall b | b in batches :: Fits(b, maxBytes) && b.fields in done)
    && Greedy(batches, maxBytes)
    && (forall f | f in done :: Carried(batches, f) == WithFields(rows, f))
    && (forall f | f !in done :: Carried(batches, f) == [])
  }

  /** The batches of one more group keep every limit, and carry no more than the rows. */
  lemma AddGroupKeepsLimits(rows: seq<Prepared>, done: seq<set<string>>, batches: seq<Batch>, maxBytes: nat, fields: set<string>, more: seq<Batch>)
    requires Grouped(rows, done, batches, maxBytes) && fields !in done
    requires forall b | b in more :: Fits(b, maxBytes) && b.fields == fields
    requires Greedy(more, maxBytes) && Carried(more, fields) <= WithFields(rows, fields)
    ensures forall b | b in batches + more :: Fits(b, maxBytes)
    ensures Greedy(batches + more, maxBytes)
    ensures forall f :: Carried(batches + more, f) <= WithFields(rows, f)
  {
    hide Fits, Greedy;
    forall f ensures Carried(batches + more, f) <= WithFields(rows, f) {
      GroupCarried(done, batches, fields, more, f);
      if f in done { assert Carried(batches, f) == WithFields(rows, f); } else { assert Carried(batches, f) == []; }
    }
    forall x, y | x in batches && y in more ensures x.fields != y.fields {}
    GreedyConcat(batches, more, maxBytes);
  }

  lemma AddGroup(rows: seq<Prepared>, done: seq<set<string>>, batches: seq<Batch>, maxBytes: nat, fields: set<string>, more: seq<Batch>)
    requires Grouped(rows, done, batches, maxBytes) && fields !in done
    requires forall b | b in more :: Fits(b, maxBytes) && b.fields == fields
    requires Greedy(more, maxBytes) && Carried(more, fields) == WithFields(rows, fields)
    ensures Grouped(rows, done + [fields], batches + more, maxBytes)
  {
    hide Fits, Greedy;
    AddGroupKeepsLimits(rows, done, batches, maxBytes, fields, more);
    forall f
      ensures f in done + [fields] ==> Carried(batches + more, f) == WithFields(rows, f)
      ensures f !in done + [fields] ==> Carried(batches + more, f) == []
    {
      GroupCarried(done, batches, fields, more, f);
      assert f in done + [fields] <==> f in done || f == fields;
      if f in done { assert Carried(batches, f) == WithFields(rows, f); }
    }
    forall b | b in batches + more ensures Fits(b, maxBytes) && b.fields in done + [fields] {
      if b in batches { assert b.fields in done; }
    }
  }

  lemma GroupCarried(done: seq<set<string>>, batches: seq<Batch>, fields: set<string>, more: seq<Batch>, f: set<string>)
    requires forall b | b in more :: b.fields == fields
    requires forall g | g !in done :: Carried(batches, g) == []
    requires fields !in done
    ensures Carried(batches + more, f) == if f == fields then Carried(more, f) else Carried(batches, f)
  {
    CarriedOfConcat(batches, more, f);
    if f != fields { NoneCarried(more, f); }
  }

  lemma AllGrouped(rows: seq<Prepared>, done: seq<set<string>>, batches: seq<Batch>, maxBytes: nat)
    requires Grouped(rows, done, batches, maxBytes)
    requires forall f :: f in done <==> exists r | r in rows :: r.fields == f
    ensures forall b | b in batches :: Fits(b, maxBytes)
    ensures Greedy(batches, maxBytes)
    ensures forall f :: Carried(batches, f) == WithFields(rows, f)
  {
    hide Fits, Greedy;
    forall f | f !in done ensures WithFields(rows, f) == [] {
      if WithFields(rows, f) != [] { assert WithFields(rows, f)[0] in WithFields(rows, f); }
    }
  }

  /** All batches, field set after field set. Each field set's batches carry its rows in order;
      a row that is too long alone stops the output part way. */
  method LogBatches(rows: seq<Prepared>, maxBytes: nat) returns (batches: seq<Batch>, ok: bool)
    ensures ok <==> forall r | r in rows :: r.size <= maxBytes
    ensures forall b | b in batches :: Fits(b, maxBytes)
    ensures Greedy(batches, maxBytes)
    ensures forall f :: Carried(batches, f) <= WithFields(rows, f)
    ensures ok ==> forall f :: Carried(batches, f) == WithFields(rows, f)
  {
    batches, ok := [], true;
    var order := FieldSets(rows);
    assert Grouped(rows, order[..0], batches, maxBytes);
    hide Grouped, Greedy, Fits;
    for k := 0 to |order|
      invariant Grouped(rows, order[..k], batches, maxBytes)
      invariant forall r | r in rows && r.fields in order[..k] :: r.size <= maxBytes
    {
      var fields := order[k];
      assert fields !in order[..k] && order[..k + 1] == order[..k] + [fields];
      var more, fine := GroupBatches(WithFields(rows, fields), fields, maxBytes);
      AddGroupKeepsLimits(rows, order[..k], batches, maxBytes, fields, more);
      if !fine { return batches + more, false; }
      AddGroup(rows, order[..k], batches, maxBytes, fields, more);
      batches := batches + more;
    }
    assert order[..|order|] == order;
    AllGrouped(rows, order, batches, maxBytes);
  }

  lemma {:induction false} NoneCarried(batches: seq<Batch>, fields: set<string>)
    requires forall b | b in batches :: b.fields != fields
    ensures Carried(batches, fields) == []
  {
    if batches != [] {
      assert batches[|batches| - 1] in batches;
      NoneCarried(batches[..|batches| - 1], fields);
    }
  }

  lemma GreedyConcat(a: seq<Batch>, b: seq<Batch>, maxBytes: nat)
    requires Greedy(a, maxBytes) && Greedy(b, maxBytes)
    requires forall x, y | x in a && y in b :: x.fields != y.fields
    ensures Greedy(a + b, maxBytes)
  {
    var all := a + b;
    forall i | 0 <= i < |all| - 1
      ensures all[i].fields == all[i + 1].fields && all[i + 1].records != [] ==> ClosedForCause(all[i], all[i + 1].records[0], maxBytes)
    {
      if i + 1 < |a| {
        assert all[i] == a[i] && all[i + 1] == a[i + 1];
      } else if i >= |a| {
        assert all[i] == b[i - |a|] && all[i + 1] == b[i + 1 - |a|];
      } else {
        var x, y := all[i], all[i + 1];
        assert x == a[i] && y == b[0];
      }
    }
  }

  /** Every row is in exactly one batch: the output is a partition of the input. */
  lemma BatchesPartitionTheRows(rows: seq<Prepared>, batches: seq<Batch>, maxBytes: nat)
    requires forall b | b in batches :: Fits(b, maxBytes)
    requires forall f :: Carried(batches, f) == WithFields(rows, f)
    ensures multiset(AllCarried(batches)) == multiset(rows)
  {
    forall x ensures multiset(AllCarried(batches))[x] == multiset(rows)[x] {
      CountInGroup(rows, x);
      CountInBatches(batches, x, maxBytes);
    }
  }

  lemma {:induction false} CountInGroup(rows: seq<Prepared>, x: Prepared)
    ensures multiset(WithFields(rows, x.fields))[x] == multiset(rows)[x]
  {
    if rows != [] {
      assert rows == rows[..|rows| - 1] + [rows[|rows| - 1]];
      CountInGroup(rows[..|rows| - 1], x);
    }
  }

  lemma {:induction false} CountInBatches(batches: seq<Batch>, x: Prepared, maxBytes: nat)
    requires forall b | b in batches :: Fits(b, maxBytes)
    ensures multiset(Carried(batches, x.fields))[x] == multiset(AllCarried(batches))[x]
  {
    if batches != [] {
      var last := batches[|batches| - 1];
      assert last in batches;
      CountInBatches(batches[..|batches| - 1], x, maxBytes);
      if last.fields != x.fields { assert x !in last.records; }
    }
  }

  function Rows(records: seq<Prepared>): seq<Row> { seq(|records|, i requires 0 <= i < |records| => records[i].row) }

  function Without(b: seq<Prepared>, k: nat): seq<Prepared>
    requires k < |b|
  {
    b[..k] + b[k + 1..]
  }

  lemma RemoveOne(b: seq<Prepared>, k: nat)
    requires k < |b|
    ensures multiset(b) == multiset(Without(b, k)) + multiset{b[k]}
    ensures Count(Rows(b)) == Count(Rows(Without(b, k))) + multiset{Key(b[k].row)}
  {
    assert b == b[..k] + ([b[k]] + b[k + 1..]);
    assert Rows(b) == Rows(b[..k]) + ([b[k].row] + Rows(b[k + 1..]));
    assert Rows(Without(b, k)) == Rows(b[..k]) + Rows(b[k + 1..]);
    hide Count, Rows, Key;
    CountOfConcat(Rows(b[..k]), [b[k].row] + Rows(b[k + 1..]));
    CountOfConcat([b[k].row], Rows(b[k + 1..]));
    CountOfConcat(Rows(b[..k]), Rows(b[k + 1..]));
    CountOfSingle(b[k].row);
  }

  lemma {:induction false} SamePreparedSameCount(a: seq<Prepared>, b: seq<Prepared>)
    requires multiset(a) == multiset(b)
    ensures Count(Rows(a)) == Count(Rows(b))
    decreases |a|
  {
    hide Count;
    if a == [] {
      assert |multiset(b)| == 0;
    } else {
      assert a[0] in multiset(b);
      var k :| 0 <= k < |b| && b[k] == a[0];
      RemoveOne(a, 0);
      RemoveOne(b, k);
      assert multiset(Without(a, 0)) == multiset(a) - multiset{a[0]} == multiset(Without(b, k));
      SamePreparedSameCount(Without(a, 0), Without(b, k));
    }
  }

  /** Comparing, batching and importing one window leaves the peer with the maximum of both sides. */
  lemma ImportedBatchesRepair(source: seq<Row>, destination: seq<Row>, missing: seq<Row>, prepared: seq<Prepared>,
      batches: seq<Batch>, maxBytes: nat, key: Row)
    requires Count(missing) == Count(source) - Count(destination)
    requires Rows(prepared) == missing
    requires forall b | b in batches :: Fits(b, maxBytes)
    requires forall f :: Carried(batches, f) == WithFields(prepared, f)
    ensures Count(destination + Rows(AllCarried(batches)))[key] == Max(Count(source)[key], Count(destination)[key])
  {
    hide Count;
    BatchesPartitionTheRows(prepared, batches, maxBytes);
    SamePreparedSameCount(AllCarried(batches), prepared);
    ImportTakesTheMaximum(source, destination, Rows(AllCarried(batches)), key);
  }

  // ----- windows over the gap -----

  const WINDOW: int := 300_000_000
  const LONGEST_GAP: int := 14_400_000_000

  datatype Window = Window(from: int, until: int)

  /** Consecutive windows cover from start to end, each full but perhaps the last. */
  predicate Tiles(windows: seq<Window>, start: int, end: int) {
    if windows == [] then end <= start
    else
      && windows[0].from == start < windows[0].until <= end
      && (windows[0].until == start + WINDOW || (windows[0].until == end && end < start + WINDOW))
      && Tiles(windows[1..], windows[0].until, end)
  }

  lemma {:induction false} TilesGrow(windows: seq<Window>, start: int, middle: int, until: int)
    requires Tiles(windows, start, middle) && start <= middle < until <= middle + WINDOW
    requires |windows| > 0 ==> windows[|windows| - 1].until == windows[|windows| - 1].from + WINDOW
    ensures Tiles(windows + [Window(middle, until)], start, until)
  {
    var more := windows + [Window(middle, until)];
    if windows == [] {
      assert more[1..] == [];
    } else {
      assert more[1..] == windows[1..] + [Window(middle, until)];
      TilesGrow(windows[1..], windows[0].until, middle, until);
    }
  }

  /** The windows of one catch-up, times in microseconds; a gap over four hours is refused. */
  method Windows(gapStart: int, now: int) returns (r: Option<seq<Window>>)
    ensures r.None? <==> now - 30_000_000 - gapStart > 4 * 60 * 60 * 1_000_000
    ensures r.Some? ==> Tiles(r.value, gapStart, now - 30_000_000)
  {
    var start, end := gapStart, now - 30_000_000;
    if end - start > LONGEST_GAP { return None; }
    var windows: seq<Window> := [];
    while start < end
      invariant start <= end || (windows == [] && start == gapStart)
      invariant gapStart <= start && Tiles(windows, gapStart, start)
      invariant start < end && |windows| > 0 ==> windows[|windows| - 1].until == windows[|windows| - 1].from + WINDOW
      decreases end - start
    {
      var stop := if start + WINDOW < end then start + WINDOW else end;
      TilesGrow(windows, gapStart, start, stop);
      windows, start := windows + [Window(start, stop)], stop;
    }
    r := Some(windows);
  }

  /** No window is longer than five minutes. */
  lemma {:induction false} WindowsAreShort(windows: seq<Window>, start: int, end: int, i: nat)
    requires Tiles(windows, start, end) && i < |windows|
    ensures 0 < windows[i].until - windows[i].from <= 5 * 60 * 1_000_000
  {
    if i > 0 { WindowsAreShort(windows[1..], windows[0].until, end, i - 1); }
  }

  predicate Covers(w: Window, t: int) { w.from <= t < w.until }

  /** No hole and no overlap: every instant of the gap lies in exactly one window. */
  lemma {:induction false} EveryInstantInOneWindow(windows: seq<Window>, start: int, end: int, t: int)
    requires Tiles(windows, start, end)
    ensures start <= t < end ==> exists i | 0 <= i < |windows| :: Covers(windows[i], t)
    ensures forall i | 0 <= i < |windows| && Covers(windows[i], t) :: start <= t < end
    ensures forall i, j | 0 <= i < |windows| && 0 <= j < |windows| && Covers(windows[i], t) && Covers(windows[j], t) :: i == j
  {
    if windows != [] {
      var rest := windows[1..];
      EveryInstantInOneWindow(rest, windows[0].until, end, t);
      forall i | 0 < i < |windows| ensures windows[i] == rest[i - 1] {}
      if start <= t < end && t >= windows[0].until {
        var k :| 0 <= k < |rest| && Covers(rest[k], t);
        assert Covers(windows[k + 1], t);
      } else if start <= t < end {
        assert Covers(windows[0], t);
      }
    }
  }

  // ----- pruning of boot backups -----

  datatype Backup = Backup(id: nat, target: string, created: int, managed: bool, verified: bool, available: bool)

  predicate Prunable(b: Backup) { b.managed && b.verified && b.available }

  /** Row i is the latest prunable backup of its target; of equal times the earlier row. */
  predicate IsLatest(rows: seq<Backup>, i: nat)
    requires i < |rows|
  {
    && Prunable(rows[i])
    && forall j | 0 <= j < |rows| && Prunable(rows[j]) && rows[j].target == rows[i].target ::
        rows[j].created < rows[i].created || (rows[j].created == rows[i].created && i <= j)
  }

  /** The index of the latest prunable backup of a target. */
  method LatestOf(rows: seq<Backup>, target: string) returns (latest: Option<nat>)
    ensures latest.None? ==> forall j | 0 <= j < |rows| && Prunable(rows[j]) :: rows[j].target != target
    ensures latest.Some? ==> latest.value < |rows| && rows[latest.value].target == target && IsLatest(rows, latest.value)
  {
    latest := None;
    for i := 0 to |rows|
      invariant latest.None? ==> forall j | 0 <= j < i && Prunable(rows[j]) :: rows[j].target != target
      invariant latest.Some? ==> latest.value < i && rows[latest.value].target == target && IsLatest(rows[..i], latest.value)
    {
      if Prunable(rows[i]) && rows[i].target == target && (latest.None? || rows[latest.value].created < rows[i].created) {
        latest := Some(i);
      }
    }
    assert rows[..|rows|] == rows;
  }

  predicate Pruned(rows: seq<Backup>, current: Option<nat>, i: nat)
    requires i < |rows|
  {
    Prunable(rows[i]) && !IsLatest(rows, i) && current != Some(rows[i].id)
  }

  lemma LatestIsUnique(rows: seq<Backup>, i: nat, j: nat)
    requires i < |rows| && j < |rows| && rows[i].target == rows[j].target
    requires IsLatest(rows, i) && IsLatest(rows, j)
    ensures i == j
  {
    assert Prunable(rows[i]) && Prunable(rows[j]);
  }

  /** A backup is deleted exactly when it is managed, verified and available, is not the latest
      such backup of its target, and is not the recovery point of the journal. */
  method PruneBackups(rows: seq<Backup>, current: Option<nat>) returns (deleted: set<nat>)
    requires forall i, j | 0 <= i < j < |rows| :: rows[i].id != rows[j].id
    ensures forall i | 0 <= i < |rows| :: rows[i].id in deleted <==> Pruned(rows, current, i)
    ensures forall id | id in deleted :: exists i | 0 <= i < |rows| :: rows[i].id == id
  {
    hide IsLatest;
    deleted := {};
    for k := 0 to |rows|
      invariant forall i | 0 <= i < k :: rows[i].id in deleted <==> Pruned(rows, current, i)
      invariant forall id | id in deleted :: exists i | 0 <= i < k :: rows[i].id == id
    {
      ghost var before := deleted;
      if Prunable(rows[k]) {
        var latest := LatestOf(rows, rows[k].target);
        if IsLatest(rows, k) { LatestIsUnique(rows, k, latest.value); }
        if latest != Some(k) && current != Some(rows[k].id) { deleted := deleted + {rows[k].id}; }
      }
      assert rows[k].id !in before;
      forall i | 0 <= i < k + 1 ensures rows[i].id in deleted <==> Pruned(rows, current, i) {
        if i < k { assert rows[i].id != rows[k].id; }
      }
    }
  }

  /** What is pruned is one of the program's own verified backups that can be restored, is not the
      journal's, and has a successor: such a backup of the same target that is later, or as late and listed
      before it. */
  lemma PrunedIff(rows: seq<Backup>, current: Option<nat>, i: nat)
    requires i < |rows|
    ensures Pruned(rows, current, i) <==>
      && rows[i].managed && rows[i].verified && rows[i].available && current != Some(rows[i].id)
      && exists j | 0 <= j < |rows| :: Succeeds(rows, j, i)
  {
    if exists j | 0 <= j < |rows| :: Succeeds(rows, j, i) {
      var j :| 0 <= j < |rows| && Succeeds(rows, j, i);
      assert Prunable(rows[j]);
    }
    forall j | 0 <= j < |rows| && Prunable(rows[j]) && rows[j].target == rows[i].target
      ensures Succeeds(rows, j, i) <==> !(rows[j].created < rows[i].created || (rows[j].created == rows[i].created && i <= j)) {}
  }

  predicate Succeeds(rows: seq<Backup>, j: nat, i: nat)
    requires i < |rows| && j < |rows|
  {
    && rows[j].managed && rows[j].verified && rows[j].available && rows[j].target == rows[i].target
    && (rows[j].created > rows[i].created || (rows[j].created == rows[i].created && j < i))
  }

  /** Pruning leaves every target that had a verified backup with its latest one. */
  lemma LatestSurvives(rows: seq<Backup>, current: Option<nat>, deleted: set<nat>, k: nat)
    requires k < |rows| && Prunable(rows[k])
    requires forall i | 0 <= i < |rows| :: rows[i].id in deleted <==> Pruned(rows, current, i)
    ensures exists i | 0 <= i < |rows| :: rows[i].target == rows[k].target && IsLatest(rows, i) && rows[i].id !in deleted
  {
    var m: nat := k;
    for j := 0 to |rows|
      invariant m < |rows| && Prunable(rows[m]) && rows[m].target == rows[k].target
      invariant m < j || m == k
      invariant forall i | 0 <= i < j && Prunable(rows[i]) && rows[i].target == rows[m].target ::
        rows[i].created < rows[m].created || (rows[i].created == rows[m].created && m <= i)
    {
      if Prunable(rows[j]) && rows[j].target == rows[k].target &&
        (rows[j].created > rows[m].created || (rows[j].created == rows[m].created && j < m)) { m := j; }
    }
    assert IsLatest(rows, m);
  }
}
