/**
 * What the source answers: `SELECT * ... WHERE mark > @P1 ORDER BY mark ASC` and
 * `SELECT MAX(mark)`, as relations between one snapshot of a table and a result.
 */
module Query {
  import opened Wrappers
  import opened Rows

  /** A snapshot of one source table; a map, so primary keys are unique within it. */
  type Table = map<Key, Row>

  /** The filter. Without a checkpoint there is no WHERE clause; a NULL passes no filter. */
  predicate Above(r: Row, from: Option<int>) {
    from.None? || (r.mark.Some? && r.mark.value > from.value)
  }

  /** Ascending, NULL first, ties in any order. */
  predicate Ordered(rows: seq<Row>) {
    forall i, j | 0 <= i < j < |rows| :: MarkLe(rows[i].mark, rows[j].mark)
  }

  /** `answer` is a possible result of the query on `source`. */
  predicate IsAnswer(answer: seq<Row>, source: Table, from: Option<int>) {
    && Keyed(answer)
    && Ordered(answer)
    && (forall i | 0 <= i < |answer| ::
          answer[i].key in source && source[answer[i].key] == answer[i] && Above(answer[i], from))
    && (forall k | k in source && Above(source[k], from) :: source[k] in answer)
  }

  /** `top` is the maximum of the table's watermark column; NULLs do not take part. */
  predicate IsMaximum(top: Option<int>, source: Table) {
    && (forall k | k in source :: MarkLe(source[k].mark, top))
    && (top.Some? ==> exists k | k in source :: source[k].mark == top)
  }

  /** The watermark of the last row, which is what the sync loop looks at. */
  function LastMark(rows: seq<Row>): Option<int> {
    if rows == [] then None else rows[|rows| - 1].mark
  }

  lemma LastIsGreatest(rows: seq<Row>)
    requires Ordered(rows)
    ensures forall r | r in rows :: MarkLe(r.mark, LastMark(rows))
    ensures LastMark(rows).Some? ==> exists r | r in rows :: r.mark == LastMark(rows)
  {
    if rows != [] {
      var last := rows[|rows| - 1];
      assert last in rows && last.mark == LastMark(rows);
      forall r | r in rows ensures MarkLe(r.mark, last.mark) {
        var i :| 0 <= i < |rows| && rows[i] == r;
      }
    }
  }

  /** On a first sync the last watermark is what `source_watermark` returns. */
  lemma FirstSyncReachesMaximum(answer: seq<Row>, source: Table, top: Option<int>)
    requires IsAnswer(answer, source, None) && IsMaximum(top, source)
    ensures LastMark(answer) == top
  {
    LastIsGreatest(answer);
    if top.Some? {
      var k :| k in source && source[k].mark == top;
      assert source[k] in answer;
    }
  }

  /** Whatever a resumed query returns lies strictly above the checkpoint it started from. */
  lemma ResumedAnswerIsAbove(answer: seq<Row>, source: Table, from: int)
    requires IsAnswer(answer, source, Some(from)) && answer != []
    ensures LastMark(answer).Some? && LastMark(answer).value > from
  {
  }

  /** The rows of these keys. */
  function Among(source: Table, keys: set<Key>): Table {
    map k | k in source && k in keys :: source[k]
  }

  /** A possible result of the query, whatever the table holds. */
  method Select(source: Table, from: Option<int>) returns (answer: seq<Row>)
    requires forall k | k in source :: source[k].key == k && Usable(k)
    ensures IsAnswer(answer, source, from)
  {
    answer := [];
    var taken: set<Key> := {};
    NothingAnswered(source, from);
    while taken != source.Keys
      invariant taken <= source.Keys
      invariant IsAnswer(answer, Among(source, taken), from)
      decreases source.Keys - taken
    {
      var k :| k in source && k !in taken;
      ghost var before := Among(source, taken);
      taken := taken + {k};
      assert Among(source, taken) == before[k := source[k]];
      if Above(source[k], from) {
        var i := Place(answer, source[k]);
        Placed(answer, i, source[k], before, Among(source, taken), from);
        answer := answer[..i] + [source[k]] + answer[i..];
      } else {
        PassedOver(answer, source[k], before, from);
      }
    }
    assert source == Among(source, taken);
  }

  lemma NothingAnswered(source: Table, from: Option<int>)
    ensures IsAnswer([], Among(source, {}), from)
  {
  }

  lemma PassedOver(answer: seq<Row>, row: Row, before: Table, from: Option<int>)
    requires IsAnswer(answer, before, from) && row.key !in before && !Above(row, from)
    ensures IsAnswer(answer, before[row.key := row], from)
  {
  }

  /** Behind every row it does not precede. */
  method Place(answer: seq<Row>, row: Row) returns (i: nat)
    requires Ordered(answer)
    ensures IsPlace(answer, i, row)
  {
    i := 0;
    while i < |answer| && MarkLe(answer[i].mark, row.mark)
      invariant i <= |answer|
      invariant forall j | 0 <= j < i :: MarkLe(answer[j].mark, row.mark)
    {
      i := i + 1;
    }
  }

  ghost predicate IsPlace(answer: seq<Row>, i: nat, row: Row) {
    && i <= |answer|
    && (forall j | 0 <= j < i :: MarkLe(answer[j].mark, row.mark))
    && (i < |answer| ==> !MarkLe(answer[i].mark, row.mark))
  }

  lemma PlacedOrdered(answer: seq<Row>, i: nat, row: Row)
    requires Ordered(answer) && IsPlace(answer, i, row)
    ensures Ordered(answer[..i] + [row] + answer[i..])
  {
    assert forall j | i <= j < |answer| :: MarkLe(answer[i].mark, answer[j].mark);
  }

  lemma PlacedKeyed(answer: seq<Row>, i: nat, row: Row)
    requires Keyed(answer) && i <= |answer| && Usable(row.key)
    requires forall j | 0 <= j < |answer| :: answer[j].key != row.key
    ensures Keyed(answer[..i] + [row] + answer[i..])
  {
  }

  lemma PlacedMembers(answer: seq<Row>, i: nat, row: Row)
    requires i <= |answer|
    ensures forall r :: r in answer[..i] + [row] + answer[i..] <==> r in answer || r == row
  {
    assert answer == answer[..i] + answer[i..];
  }

  lemma Placed(answer: seq<Row>, i: nat, row: Row, before: Table, after: Table, from: Option<int>)
    requires IsAnswer(answer, before, from) && Above(row, from) && Usable(row.key)
    requires row.key !in before && after == before[row.key := row]
    requires IsPlace(answer, i, row)
    ensures IsAnswer(answer[..i] + [row] + answer[i..], after, from)
  {
    var placed := answer[..i] + [row] + answer[i..];
    PlacedOrdered(answer, i, row);
    PlacedKeyed(answer, i, row);
    PlacedMembers(answer, i, row);
    hide Ordered, Keyed, IsPlace;
    forall j | 0 <= j < |placed|
      ensures placed[j].key in after && after[placed[j].key] == placed[j] && Above(placed[j], from)
    {
      assert placed[j] in placed;
    }
    forall k | k in after && Above(after[k], from) ensures after[k] in placed {
      assert k != row.key ==> after[k] in answer;
    }
  }
}
