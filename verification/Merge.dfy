/**
 * The MERGE of src/merge.rs: a Delta table is a sequence of rows plus the number of
 * commits made to it, and a merge is a join of target and source on every key column.
 */
module Merge {
  import opened Wrappers
  import opened Rows

  // ---------------------------------------------------------------- the join predicate

  /** SQL equality: NULL equals nothing, not even NULL. */
  predicate SqlEqual(a: Cell, b: Cell) {
    a != Null && b != Null && a == b
  }

  /** `target.k1 = source.k1 AND ... AND target.kn = source.kn`, reduced from the left. */
  predicate Joins(t: Key, s: Key) {
    && t != []
    && |t| == |s|
    && (|t| == 1 || Joins(t[..|t| - 1], s[..|s| - 1]))
    && SqlEqual(t[|t| - 1], s[|s| - 1])
  }

  lemma {:induction false} JoinsIsKeyEquality(t: Key, s: Key)
    ensures Joins(t, s) <==> t == s && Usable(t)
  {
    if t != [] && |t| == |s| {
      var n := |t| - 1;
      assert t == t[..n] + [t[n]] && s == s[..n] + [s[n]];
      if n > 0 {
        JoinsIsKeyEquality(t[..n], s[..n]);
      }
    }
  }

  // ------------------------------------------------------------------- the merged rows

  /** The source rows one target row joins with. */
  function Matching(k: Key, batch: seq<Row>): seq<Row> {
    if batch == [] then []
    else (if Joins(k, batch[0].key) then [batch[0]] else []) + Matching(k, batch[1..])
  }

  /** WHEN MATCHED UPDATE: a target row gives one row for each source row it joins with. */
  function Updated(target: seq<Row>, batch: seq<Row>): seq<Row> {
    if target == [] then []
    else
      var found := Matching(target[0].key, batch);
      (if found == [] then [target[0]] else found) + Updated(target[1..], batch)
  }

  function UpdatedCount(target: seq<Row>, batch: seq<Row>): nat {
    if target == [] then 0
    else (if Matching(target[0].key, batch) == [] then 0 else 1) + UpdatedCount(target[1..], batch)
  }

  predicate JoinsSome(r: Row, target: seq<Row>) {
    exists i | 0 <= i < |target| :: Joins(target[i].key, r.key)
  }

  /** WHEN NOT MATCHED INSERT: the source rows no target row joins with. */
  function Inserted(target: seq<Row>, batch: seq<Row>): seq<Row> {
    if batch == [] then []
    else (if JoinsSome(batch[0], target) then [] else [batch[0]]) + Inserted(target, batch[1..])
  }

  function Merged(target: seq<Row>, batch: seq<Row>): seq<Row> {
    Updated(target, batch) + Inserted(target, batch)
  }

  /** What a merge reports: `num_target_rows_inserted` and `num_target_rows_updated`. */
  datatype Metrics = Metrics(inserted: nat, updated: nat)

  function MetricsOf(target: seq<Row>, batch: seq<Row>): Metrics {
    Metrics(|Inserted(target, batch)|, UpdatedCount(target, batch))
  }

  // -------------------------------------------------------------- pointwise description

  lemma {:induction false} MatchingOne(k: Key, batch: seq<Row>)
    requires Usable(k) && Keyed(batch)
    ensures k !in Keys(batch) ==> Matching(k, batch) == []
    ensures forall r | r in batch && r.key == k :: Matching(k, batch) == [r]
  {
    if batch != [] {
      assert batch == [batch[0]] + batch[1..];
      KeyedPieces([batch[0]], batch[1..]);
      assert batch[0] in [batch[0]] && batch[0].key in Keys([batch[0]]);
      MatchingOne(k, batch[1..]);
      JoinsIsKeyEquality(k, batch[0].key);
      assert batch[0].key in Keys(batch);
      assert forall r | r in batch[1..] :: r.key in Keys(batch[1..]);
    }
  }

  /** The row a target row becomes. */
  function Override(t: Row, batch: seq<Row>): Row {
    var found := Matching(t.key, batch);
    if found == [] then t else found[0]
  }

  lemma {:induction false} UpdatedPointwise(target: seq<Row>, batch: seq<Row>)
    requires Keyed(target) && Keyed(batch)
    ensures |Updated(target, batch)| == |target|
    ensures forall i | 0 <= i < |target| ::
      Updated(target, batch)[i] == Override(target[i], batch) && Override(target[i], batch).key == target[i].key
  {
    if target != [] {
      assert target == [target[0]] + target[1..];
      KeyedPieces([target[0]], target[1..]);
      UpdatedPointwise(target[1..], batch);
      MatchingOne(target[0].key, batch);
      OverrideIs(target[0], batch);
    }
  }

  lemma OverrideIs(t: Row, batch: seq<Row>)
    requires Usable(t.key) && Keyed(batch)
    ensures t.key !in Keys(batch) ==> Override(t, batch) == t
    ensures forall r | r in batch && r.key == t.key :: Override(t, batch) == r
    ensures Override(t, batch).key == t.key
    ensures |Matching(t.key, batch)| <= 1
  {
    MatchingOne(t.key, batch);
    if t.key in Keys(batch) {
      var r :| r in batch && r.key == t.key;
    }
  }

  lemma JoinsSomeIsKnownKey(r: Row, target: seq<Row>)
    requires Usable(r.key)
    ensures JoinsSome(r, target) <==> r.key in Keys(target)
  {
    forall i | 0 <= i < |target| ensures Joins(target[i].key, r.key) <==> target[i].key == r.key {
      JoinsIsKeyEquality(target[i].key, r.key);
    }
    if r.key in Keys(target) {
      var t :| t in target && t.key == r.key;
      var i :| 0 <= i < |target| && target[i] == t;
      assert Joins(target[i].key, r.key);
    }
  }

  lemma {:induction false} InsertedMembers(target: seq<Row>, batch: seq<Row>)
    requires Keyed(batch)
    ensures forall r :: r in Inserted(target, batch) <==> r in batch && r.key !in Keys(target)
    ensures Keyed(Inserted(target, batch))
  {
    if batch != [] {
      assert batch == [batch[0]] + batch[1..];
      KeyedPieces([batch[0]], batch[1..]);
      InsertedMembers(target, batch[1..]);
      JoinsSomeIsKnownKey(batch[0], target);
      var rest := Inserted(target, batch[1..]);
      assert batch[0] in [batch[0]] && batch[0].key in Keys([batch[0]]);
      assert forall r | r in rest :: r in batch[1..] && r.key in Keys(batch[1..]);
      KeyedJoined([batch[0]], rest);
    }
  }

  /** A merge keeps keys unique and holds exactly the batch and the rows it does not touch. */
  lemma MergedMembers(target: seq<Row>, batch: seq<Row>)
    requires Keyed(target) && Keyed(batch)
    ensures Keyed(Merged(target, batch))
    ensures forall r :: r in Merged(target, batch) <==> r in batch || (r in target && r.key !in Keys(batch))
    ensures Keys(Merged(target, batch)) == Keys(target) + Keys(batch)
  {
    var up, ins := Updated(target, batch), Inserted(target, batch);
    UpdatedPointwise(target, batch);
    InsertedMembers(target, batch);
    assert Keyed(up);
    forall r | r in up ensures r.key in Keys(target) && (r in batch || (r in target && r.key !in Keys(batch))) {
      var i :| 0 <= i < |up| && up[i] == r;
      OverrideIs(target[i], batch);
      assert target[i] in target;
    }
    KeyedJoined(up, ins);
    forall r | r in batch || (r in target && r.key !in Keys(batch)) ensures r in up + ins {
      if r.key in Keys(target) {
        var t :| t in target && t.key == r.key;
        var i :| 0 <= i < |target| && target[i] == t;
        OverrideIs(t, batch);
        if r !in batch {
          SameKeySameRow(target, t, r);
        }
        assert up[i] == r;
      }
    }
    forall k | k in Keys(target) + Keys(batch) ensures k in Keys(up + ins) {
      if k in Keys(batch) {
        var r :| r in batch && r.key == k;
        assert r in up + ins;
      } else {
        var r :| r in target && r.key == k;
        assert r in up + ins;
      }
    }
    forall k | k in Keys(up + ins) ensures k in Keys(target) + Keys(batch) {
      var r :| r in up + ins && r.key == k;
    }
  }

  /** A merge on all key columns is a keyed map override. */
  lemma MergedIsOverride(target: seq<Row>, batch: seq<Row>)
    requires Keyed(target) && Keyed(batch)
    ensures Keyed(Merged(target, batch))
    ensures Contents(Merged(target, batch)) == Contents(target) + Contents(batch)
  {
    MergedMembers(target, batch);
    var m := Merged(target, batch);
    ContentsHold(m);
    ContentsHold(target);
    ContentsHold(batch);
    var over := Contents(target) + Contents(batch);
    forall k | k in Contents(m) ensures k in over && Contents(m)[k] == over[k] {
      var r := Contents(m)[k];
      assert r in batch || (r in target && k !in Keys(batch));
    }
    assert Contents(m).Keys == over.Keys;
  }

  // ----------------------------------------------------------------- counts and batches

  /** Every fetched row is either inserted or updates one target row, and the table grows
      by exactly the inserted count. */
  lemma {:induction false} MergeConserves(target: seq<Row>, batch: seq<Row>)
    requires Keyed(target) && Keyed(batch)
    ensures var m := MetricsOf(target, batch);
            && m.inserted + m.updated == |batch|
            && |Merged(target, batch)| == |target| + m.inserted
  {
    hide Updated, UpdatedCount, Inserted, Keyed;
    UpdatedPointwise(target, batch);
    UpdatedCounts(target, batch);
    InsertedCounts(target, batch);
    KeyCount(batch);
    Parted(Keys(batch), Keys(target));
  }

  lemma InsertedCounts(target: seq<Row>, batch: seq<Row>)
    requires Keyed(target) && Keyed(batch)
    ensures |Inserted(target, batch)| == |Keys(batch) - Keys(target)|
  {
    hide Inserted, Keyed;
    var ins := Inserted(target, batch);
    InsertedMembers(target, batch);
    KeyCount(ins);
    forall k ensures k in Keys(ins) <==> k in Keys(batch) - Keys(target) {
      if k in Keys(batch) - Keys(target) {
        var r :| r in batch && r.key == k;
        assert r in ins;
      }
    }
    assert Keys(ins) == Keys(batch) - Keys(target);
  }

  lemma Parted(a: set<Key>, b: set<Key>)
    ensures |a - b| + |b * a| == |a|
  {
    assert a == (a - b) + (b * a);
  }

  lemma HeadKey(rows: seq<Row>)
    requires Keyed(rows) && rows != []
    ensures Usable(rows[0].key) && Keyed(rows[1..])
    ensures Keys(rows) == {rows[0].key} + Keys(rows[1..]) && rows[0].key !in Keys(rows[1..])
  {
    var t := rows[0];
    assert rows == [t] + rows[1..];
    KeyedPieces([t], rows[1..]);
    assert t in [t] && t.key in Keys([t]);
  }

  lemma HeadKeyShared(k: Key, rest: set<Key>, others: set<Key>)
    requires k !in rest
    ensures |({k} + rest) * others| == (if k in others then 1 else 0) + |rest * others|
  {
    if k in others {
      assert ({k} + rest) * others == {k} + rest * others;
    } else {
      assert ({k} + rest) * others == rest * others;
    }
  }

  lemma {:induction false} UpdatedCounts(target: seq<Row>, batch: seq<Row>)
    requires Keyed(target) && Keyed(batch)
    ensures UpdatedCount(target, batch) == |Keys(target) * Keys(batch)|
  {
    if target != [] {
      var t, rest := target[0], target[1..];
      HeadKey(target);
      UpdatedCounts(rest, batch);
      MatchingOne(t.key, batch);
      HeadKeyShared(t.key, Keys(rest), Keys(batch));
      if t.key in Keys(batch) {
        var r :| r in batch && r.key == t.key;
      }
    } else {
      assert Keys(target) * Keys(batch) == {};
    }
  }

  lemma {:induction false} UpdatedJoined(a: seq<Row>, b: seq<Row>, batch: seq<Row>)
    ensures Updated(a + b, batch) == Updated(a, batch) + Updated(b, batch)
    ensures UpdatedCount(a + b, batch) == UpdatedCount(a, batch) + UpdatedCount(b, batch)
  {
    if a == [] {
      assert a + b == b;
    } else {
      assert (a + b)[1..] == a[1..] + b;
      UpdatedJoined(a[1..], b, batch);
    }
  }

  lemma {:induction false} InsertedJoined(target: seq<Row>, a: seq<Row>, b: seq<Row>)
    ensures Inserted(target, a + b) == Inserted(target, a) + Inserted(target, b)
  {
    if a == [] {
      assert a + b == b;
    } else {
      assert (a + b)[1..] == a[1..] + b;
      InsertedJoined(target, a[1..], b);
    }
  }

  /** Insertion depends on the target's keys alone. */
  lemma {:induction false} InsertedByKeys(target: seq<Row>, other: seq<Row>, batch: seq<Row>)
    requires Keyed(batch)
    requires forall k | k in Keys(batch) :: k in Keys(target) <==> k in Keys(other)
    ensures Inserted(target, batch) == Inserted(other, batch)
  {
    if batch != [] {
      assert batch == [batch[0]] + batch[1..];
      KeyedPieces([batch[0]], batch[1..]);
      assert batch[0].key in Keys(batch);
      assert forall k | k in Keys(batch[1..]) :: k in Keys(batch);
      InsertedByKeys(target, other, batch[1..]);
      JoinsSomeIsKnownKey(batch[0], target);
      JoinsSomeIsKnownKey(batch[0], other);
    }
  }

  lemma UntouchedByOthers(rows: seq<Row>, batch: seq<Row>)
    requires Keyed(rows) && Keyed(batch) && Keys(rows) !! Keys(batch)
    ensures Updated(rows, batch) == rows
    ensures UpdatedCount(rows, batch) == 0
  {
    UpdatedPointwise(rows, batch);
    UpdatedCounts(rows, batch);
    assert Keys(rows) * Keys(batch) == {};
    forall i | 0 <= i < |rows| ensures Updated(rows, batch)[i] == rows[i] {
      assert rows[i] in rows && rows[i].key in Keys(rows);
      OverrideIs(rows[i], batch);
    }
  }

  lemma OverrideTwice(t: Row, a: seq<Row>, b: seq<Row>)
    requires Usable(t.key) && Keyed(a + b)
    ensures Override(Override(t, a), b) == Override(t, a + b)
  {
    KeyedPieces(a, b);
    OverrideIs(t, a);
    var u := Override(t, a);
    OverrideIs(u, b);
    OverrideIs(t, a + b);
    if t.key in Keys(a) {
      var r :| r in a && r.key == t.key;
      assert r in a + b && u == r;
      assert t.key !in Keys(b);
    } else if t.key in Keys(b) {
      var r :| r in b && r.key == t.key;
      assert r in a + b;
    } else {
      assert t.key !in Keys(a + b);
    }
  }

  /** Merging two batches one after the other is merging them at once, row for row. */
  lemma MergedJoined(target: seq<Row>, a: seq<Row>, b: seq<Row>)
    requires Keyed(target) && Keyed(a + b)
    ensures Keyed(a) && Keyed(b) && Keyed(Merged(target, a))
    ensures Merged(Merged(target, a), b) == Merged(target, a + b)
  {
    KeyedPieces(a, b);
    assert Keyed(Merged(target, a)) && Keys(Merged(target, a)) == Keys(target) + Keys(a) by {
      MergedMembers(target, a);
    }
    calc {
      Merged(Merged(target, a), b);
    ==
      Updated(Updated(target, a) + Inserted(target, a), b) + Inserted(Merged(target, a), b);
    ==  { UpdatedJoined(Updated(target, a), Inserted(target, a), b); }
      Updated(Updated(target, a), b) + Updated(Inserted(target, a), b) + Inserted(Merged(target, a), b);
    ==  { UpdatedTwice(target, a, b); InsertedApart(target, a, b); }
      Updated(target, a + b) + Inserted(target, a) + Inserted(Merged(target, a), b);
    ==  { InsertedByKeys(Merged(target, a), target, b); }
      Updated(target, a + b) + Inserted(target, a) + Inserted(target, b);
    ==  { InsertedJoined(target, a, b); }
      Merged(target, a + b);
    }
  }

  lemma InsertedApart(target: seq<Row>, a: seq<Row>, b: seq<Row>)
    requires Keyed(a) && Keyed(b) && Keys(a) !! Keys(b)
    ensures Updated(Inserted(target, a), b) == Inserted(target, a)
  {
    var ins := Inserted(target, a);
    InsertedMembers(target, a);
    forall k | k in Keys(ins) ensures k in Keys(a) {
      var r :| r in ins && r.key == k;
    }
    UntouchedByOthers(ins, b);
  }

  lemma UpdatedTwice(target: seq<Row>, a: seq<Row>, b: seq<Row>)
    requires Keyed(target) && Keyed(a + b)
    ensures Updated(Updated(target, a), b) == Updated(target, a + b)
  {
    KeyedPieces(a, b);
    UpdatedPointwise(target, a);
    var up := Updated(target, a);
    assert Keyed(up);
    UpdatedPointwise(up, b);
    UpdatedPointwise(target, a + b);
    forall i | 0 <= i < |target| ensures Updated(up, b)[i] == Updated(target, a + b)[i] {
      OverrideTwice(target[i], a, b);
    }
  }

  /** Re-applying a batch that is already in the table changes nothing. */
  lemma MergeIsIdempotent(target: seq<Row>, batch: seq<Row>)
    requires Keyed(target) && Keyed(batch)
    ensures Merged(Merged(target, batch), batch) == Merged(target, batch)
    ensures MetricsOf(Merged(target, batch), batch) == Metrics(0, |batch|)
  {
    MergedMembers(target, batch);
    var m := Merged(target, batch);
    PresentChangesNothing(m, batch);
  }

  lemma PresentChangesNothing(target: seq<Row>, batch: seq<Row>)
    requires Keyed(target) && Keyed(batch)
    requires forall r | r in batch :: r in target
    ensures Merged(target, batch) == target
    ensures MetricsOf(target, batch) == Metrics(0, |batch|)
  {
    UpdatedPointwise(target, batch);
    forall i | 0 <= i < |target| ensures Updated(target, batch)[i] == target[i] {
      OverrideIs(target[i], batch);
      if target[i].key in Keys(batch) {
        var r :| r in batch && r.key == target[i].key;
        SameKeySameRow(target, r, target[i]);
      }
    }
    InsertedMembers(target, batch);
    assert Inserted(target, batch) != [] ==> Inserted(target, batch)[0] in Inserted(target, batch);
    MergeConserves(target, batch);
  }

  /** A run cut off inside its stream and repeated from the start ends where one run ends. */
  lemma PrefixThenWhole(target: seq<Row>, stream: seq<Row>, n: nat)
    requires Keyed(target) && Keyed(stream) && n <= |stream|
    ensures Keyed(stream[..n])
    ensures Merged(Merged(target, stream[..n]), stream) == Merged(target, stream)
  {
    var p, q := stream[..n], stream[n..];
    assert stream == p + q;
    KeyedPieces(p, q);
    MergedMembers(target, p);
    MergedJoined(target, p, q);
    MergedJoined(Merged(target, p), p, q);
    MergeIsIdempotent(target, p);
  }

  /**
   * Why the key must not hold NULL: re-merging a single row leaves the table as it was
   * exactly when every key column of the row has a value.
   */
  lemma NullKeysDuplicate(r: Row)
    requires r.key != []
    ensures Merged([], [r]) == [r]
    ensures Merged(Merged([], [r]), [r]) == [r] <==> Null !in r.key
  {
    JoinsIsKeyEquality(r.key, r.key);
    assert Joins(r.key, r.key) <==> JoinsSome(r, [r]) by {
      assert [r][0].key == r.key;
    }
    assert [r][1..] == [];
    assert Inserted([], [r]) == [r] + Inserted([], []);
    assert Matching(r.key, [r]) == (if Joins(r.key, r.key) then [r] else []) + Matching(r.key, []);
    assert Updated([r], [r]) == [r] + Updated([], [r]);
    assert Inserted([r], [r]) == (if Joins(r.key, r.key) then [] else [r]) + Inserted([r], []);
  }

  // --------------------------------------------------------------------- a Delta table

  /** The whole content of one Delta table. No commit yet means the table does not exist. */
  datatype Delta = Delta(commits: nat, rows: seq<Row>)

  /** Creating an absent table is its first commit. */
  function Opened(d: Delta): Delta {
    if d.commits == 0 then Delta(1, []) else d
  }

  /** `open_or_create`: loaded if it loads; else created, which an existing table refuses. */
  function OpenedOrRefused(d: Delta, loads: bool, creates: bool): Result<Delta, MergeError> {
    if d.commits != 0 && loads then Ok(d)
    else if d.commits == 0 && creates then Ok(Opened(d))
    else Err(Storage)
  }

  function Committed(d: Delta, batch: seq<Row>): Delta {
    Delta(d.commits + 1, Merged(d.rows, batch))
  }

  /** The table at a location; nothing stored there is a table that does not exist. */
  function At(stored: map<string, Delta>, uri: string): Delta {
    if uri in stored then stored[uri] else Delta(0, [])
  }

  datatype MergeError =
    | EmptyPrimaryKey    // Error::Internal
    | ConcurrentWrite    // another commit reached the table first
    | Storage            // Error::Delta

  datatype Outcome = Outcome(handle: nat, metrics: Metrics)

  /** A Delta table in storage. A handle is the number of commits its holder has seen. */
  class DeltaTable {
    var commits: nat
    var rows: seq<Row>

    constructor ()
      ensures Value() == Delta(0, [])
    {
      commits, rows := 0, [];
    }

    function Value(): Delta
      reads this
    {
      Delta(commits, rows)
    }

    /** `loads`: an existing table can be loaded; `creates`: an absent one can be created. */
    method OpenOrCreate(loads: bool, creates: bool) returns (r: Result<nat, MergeError>)
      modifies this
      ensures var found := OpenedOrRefused(old(Value()), loads, creates);
              && (r.Ok? ==> found == Ok(Value()) && Value() == Opened(old(Value())) && r.value == commits)
              && (r.Err? ==> found == Err(r.error) && r.error == Storage && Value() == old(Value()))
      ensures r.Ok? <==> if old(commits) != 0 then loads else creates
    {
      if commits != 0 && loads {
        return Ok(commits);
      }
      if commits != 0 || !creates {
        return Err(Storage);
      }
      commits, rows := 1, [];
      return Ok(commits);
    }

    /** One MERGE, one commit, or nothing at all; `stores`: storage takes the commit. */
    method Upsert(handle: nat, batch: seq<Row>, keyColumns: seq<string>, stores: bool)
      returns (r: Result<Outcome, MergeError>)
      modifies this
      ensures keyColumns == [] ==> r == Err(EmptyPrimaryKey)
      ensures keyColumns != [] && !stores ==> r == Err(Storage)
      ensures keyColumns != [] && stores && handle != old(commits) ==> r == Err(ConcurrentWrite)
      ensures keyColumns != [] && stores && handle == old(commits) ==>
        r == Ok(Outcome(commits, MetricsOf(old(rows), batch))) && Value() == Committed(old(Value()), batch)
      ensures r.Err? ==> Value() == old(Value())
    {
      if keyColumns == [] {
        return Err(EmptyPrimaryKey);
      }
      if !stores {
        return Err(Storage);
      }
      if handle != commits {
        return Err(ConcurrentWrite);
      }
      var metrics := MetricsOf(rows, batch);
      commits, rows := commits + 1, Merged(rows, batch);
      return Ok(Outcome(commits, metrics));
    }
  }
}
