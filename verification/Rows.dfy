/** Rows as the sync sees them: key columns, watermark, remaining columns. */
module Rows {
  import opened Wrappers

  datatype Cell = Null | Int(i: int) | Str(s: string)

  /** The values of the configured primary key columns, in configuration order. */
  type Key = seq<Cell>

  /**
   * One row of a source table or of a Delta table.
   * `mark` is its watermark cell; `None` is SQL NULL.
   * `version` is history only: the number of the source write that produced the row. No
   * operation of the model branches on it.
   */
  datatype Row = Row(key: Key, mark: Option<int>, data: seq<Cell>, version: nat)

  /** A primary key value: at least one column and no NULL among them. */
  predicate Usable(k: Key) {
    k != [] && Null !in k
  }

  /** Rows whose keys are primary keys: usable, and no two rows share one. */
  predicate Keyed(rows: seq<Row>) {
    && (forall i | 0 <= i < |rows| :: Usable(rows[i].key))
    && (forall i, j | 0 <= i < j < |rows| :: rows[i].key != rows[j].key)
  }

  function Keys(rows: seq<Row>): set<Key> {
    set r | r in rows :: r.key
  }

  /** Watermark order as SQL Server sorts it ascending: NULL before every value. */
  predicate MarkLe(a: Option<int>, b: Option<int>) {
    a.None? || (b.Some? && a.value <= b.value)
  }

  function Greater(a: Option<int>, b: Option<int>): Option<int> {
    if MarkLe(a, b) then b else a
  }

  /** The rows of a keyed sequence, as a map from key to row. */
  function Contents(rows: seq<Row>): map<Key, Row>
    requires Keyed(rows)
  {
    map r | r in rows :: r.key := r
  }

  lemma SameKeySameRow(rows: seq<Row>, a: Row, b: Row)
    requires Keyed(rows) && a in rows && b in rows && a.key == b.key
    ensures a == b
  {
    var i :| 0 <= i < |rows| && rows[i] == a;
    var j :| 0 <= j < |rows| && rows[j] == b;
    assert !(i < j) && !(j < i);
  }

  /** What the map of a keyed sequence holds. */
  lemma ContentsHold(rows: seq<Row>)
    requires Keyed(rows)
    ensures Contents(rows).Keys == Keys(rows)
    ensures forall r | r in rows :: r.key in Contents(rows) && Contents(rows)[r.key] == r
    ensures forall k | k in Contents(rows) :: Contents(rows)[k] in rows && Contents(rows)[k].key == k
  {
    forall r | r in rows ensures r.key in Contents(rows) && Contents(rows)[r.key] == r {
      var c := Contents(rows)[r.key];
      SameKeySameRow(rows, c, r);
    }
  }

  lemma KeyedPieces(a: seq<Row>, b: seq<Row>)
    requires Keyed(a + b)
    ensures Keyed(a) && Keyed(b) && Keys(a) !! Keys(b)
  {
    forall i | 0 <= i < |a| ensures Usable(a[i].key) {
      assert (a + b)[i] == a[i];
    }
    forall i | 0 <= i < |b| ensures Usable(b[i].key) {
      assert (a + b)[|a| + i] == b[i];
    }
    forall i, j | 0 <= i < j < |a| ensures a[i].key != a[j].key {
      assert (a + b)[i] == a[i] && (a + b)[j] == a[j];
    }
    forall i, j | 0 <= i < j < |b| ensures b[i].key != b[j].key {
      assert (a + b)[|a| + i] == b[i] && (a + b)[|a| + j] == b[j];
    }
    forall i, j | 0 <= i < |a| && 0 <= j < |b| ensures a[i].key != b[j].key {
      assert (a + b)[i] == a[i] && (a + b)[|a| + j] == b[j];
    }
  }

  lemma KeyedJoined(a: seq<Row>, b: seq<Row>)
    requires Keyed(a) && Keyed(b) && Keys(a) !! Keys(b)
    ensures Keyed(a + b)
  {
    forall i, j | 0 <= i < |a| && 0 <= j < |b| ensures a[i].key != b[j].key {
      assert a[i].key in Keys(a) && b[j].key in Keys(b);
    }
  }

  lemma {:induction false} KeyCount(rows: seq<Row>)
    requires Keyed(rows)
    ensures |Keys(rows)| == |rows|
  {
    if rows == [] {
      assert Keys(rows) == {};
    } else {
      var init, last := rows[..|rows| - 1], rows[|rows| - 1];
      assert rows == init + [last];
      KeyedPieces(init, [last]);
      KeyCount(init);
      assert Keys(rows) == Keys(init) + {last.key};
      assert last in [last] && last.key in Keys([last]);
    }
  }
}
