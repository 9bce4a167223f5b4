/**
 * Cutting one ordered result into batches: the buffer of `sync_one`, the merges it makes
 * and the watermark it tracks, as functions of the whole result.
 */
module Batching {
  import opened Wrappers
  import opened Rows
  import opened Sequences
  import opened Merge
  import opened Query

  /** Full batches of `limit` rows, then what is left. */
  function Batches(stream: seq<Row>, limit: nat): seq<seq<Row>>
    requires limit >= 1
  {
    if stream == [] then []
    else if |stream| <= limit then [stream]
    else [stream[..limit]] + Batches(stream[limit..], limit)
  }

  function MergedAll(rows: seq<Row>, batches: seq<seq<Row>>): seq<Row>
    decreases |batches|
  {
    if batches == [] then rows else MergedAll(Merged(rows, batches[0]), batches[1..])
  }

  function Plus(a: Metrics, b: Metrics): Metrics {
    Metrics(a.inserted + b.inserted, a.updated + b.updated)
  }

  function MetricsAll(rows: seq<Row>, batches: seq<seq<Row>>): Metrics
    decreases |batches|
  {
    if batches == [] then Metrics(0, 0)
    else Plus(MetricsOf(rows, batches[0]), MetricsAll(Merged(rows, batches[0]), batches[1..]))
  }

  /** The tracked watermark after one more batch: the last row's, unless that is NULL. */
  function Track(newest: Option<int>, batch: seq<Row>): Option<int> {
    if LastMark(batch).Some? then LastMark(batch) else newest
  }

  function TrackAll(newest: Option<int>, batches: seq<seq<Row>>): Option<int>
    decreases |batches|
  {
    if batches == [] then newest else TrackAll(Track(newest, batches[0]), batches[1..])
  }

  /** The batches are the stream cut up: nothing lost, nothing reordered, none too large. */
  lemma {:induction false} BatchesCut(stream: seq<Row>, limit: nat)
    requires limit >= 1
    ensures Flatten(Batches(stream, limit)) == stream
    ensures forall b | b in Batches(stream, limit) :: 1 <= |b| <= limit
  {
    if |stream| > limit {
      BatchesCut(stream[limit..], limit);
      assert stream == stream[..limit] + stream[limit..];
    } else if stream != [] {
      assert Flatten([stream]) == stream + Flatten([stream][1..]);
    }
  }

  /**
   * The batch size decides nothing but the number of commits: rows and summed counters
   * are those of one merge of the whole stream, every fetched row is counted once, and
   * the table grows by exactly the inserted count.
   */
  lemma {:induction false} BatchSizeIsInvisible(rows: seq<Row>, stream: seq<Row>, limit: nat)
    requires Keyed(rows) && Keyed(stream) && limit >= 1
    ensures MergedAll(rows, Batches(stream, limit)) == Merged(rows, stream)
    ensures var m := MetricsAll(rows, Batches(stream, limit));
            && m == MetricsOf(rows, stream)
            && m.inserted + m.updated == |stream|
            && |Merged(rows, stream)| == |rows| + m.inserted
    decreases |stream|
  {
    MergeConserves(rows, stream);
    if stream == [] {
      PresentChangesNothing(rows, []);
    } else if |stream| <= limit {
      OneBatch(rows, stream);
    } else {
      var head, tail := stream[..limit], stream[limit..];
      assert stream == head + tail;
      KeyedPieces(head, tail);
      HeadThenTail(rows, head, tail);
      BatchSizeIsInvisible(Merged(rows, head), tail, limit);
      assert Batches(stream, limit) == [head] + Batches(tail, limit);
      FirstBatch(rows, head, Batches(tail, limit));
    }
  }

  lemma FirstBatch(rows: seq<Row>, head: seq<Row>, rest: seq<seq<Row>>)
    ensures MergedAll(rows, [head] + rest) == MergedAll(Merged(rows, head), rest)
    ensures MetricsAll(rows, [head] + rest) == Plus(MetricsOf(rows, head), MetricsAll(Merged(rows, head), rest))
  {
    assert ([head] + rest)[1..] == rest;
  }

  lemma OneBatch(rows: seq<Row>, batch: seq<Row>)
    ensures MergedAll(rows, [batch]) == Merged(rows, batch)
    ensures MetricsAll(rows, [batch]) == MetricsOf(rows, batch)
  {
    assert [batch] == [batch] + [];
    FirstBatch(rows, batch, []);
  }

  lemma HeadThenTail(rows: seq<Row>, head: seq<Row>, tail: seq<Row>)
    requires Keyed(rows) && Keyed(head + tail)
    ensures Keyed(head) && Keyed(tail) && Keyed(Merged(rows, head))
    ensures Merged(Merged(rows, head), tail) == Merged(rows, head + tail)
    ensures MetricsOf(rows, head + tail) == Plus(MetricsOf(rows, head), MetricsOf(Merged(rows, head), tail))
  {
    MergedJoined(rows, head, tail);
    MergeConserves(rows, head);
    MergeConserves(Merged(rows, head), tail);
    MergeConserves(rows, head + tail);
  }

  /** Looking only at the last row of each batch is enough. */
  lemma TrackStep(answer: seq<Row>, m: nat, n: nat)
    requires Ordered(answer) && n >= 1 && m + n <= |answer|
    ensures Track(LastMark(answer[..m]), answer[m..m + n]) == LastMark(answer[..m + n])
  {
    if m > 0 {
      assert MarkLe(answer[m - 1].mark, answer[m + n - 1].mark);
    }
  }

  lemma {:induction false} TrackedFrom(answer: seq<Row>, m: nat, limit: nat)
    requires Ordered(answer) && limit >= 1 && m <= |answer|
    ensures TrackAll(LastMark(answer[..m]), Batches(answer[m..], limit)) == LastMark(answer)
    decreases |answer| - m
  {
    var rest := answer[m..];
    if rest == [] {
      assert answer[..m] == answer;
    } else {
      var n := if |rest| <= limit then |rest| else limit;
      hide Track, TrackAll, Batches, LastMark, Ordered;
      FirstTracked(LastMark(answer[..m]), rest, limit, n);
      TrackStep(answer, m, n);
      SlicesOfRest(answer, m, n);
      TrackedFrom(answer, m + n, limit);
    }
  }

  lemma SlicesOfRest(answer: seq<Row>, m: nat, n: nat)
    requires m + n <= |answer|
    ensures answer[m..][..n] == answer[m..m + n] && answer[m..][n..] == answer[m + n..]
  {
  }

  lemma FirstTracked(newest: Option<int>, rest: seq<Row>, limit: nat, n: nat)
    requires limit >= 1 && rest != [] && n == if |rest| <= limit then |rest| else limit
    ensures TrackAll(newest, Batches(rest, limit)) == TrackAll(Track(newest, rest[..n]), Batches(rest[n..], limit))
  {
    var batches := Batches(rest, limit);
    if |rest| <= limit {
      assert rest[..n] == rest && rest[n..] == [] && batches == [rest] && batches[1..] == [];
    } else {
      assert batches[0] == rest[..n] && batches[1..] == Batches(rest[n..], limit);
    }
  }

  /**
   * For every ordered result, with ties and leading NULLs, and every batch size, the
   * tracked watermark is the greatest one of the result; a resumed run's lies strictly
   * above its checkpoint, and a first run's is the maximum of the snapshot.
   */
  lemma NewestWatermark(answer: seq<Row>, source: Table, from: Option<int>, limit: nat, top: Option<int>)
    requires IsAnswer(answer, source, from) && limit >= 1 && IsMaximum(top, source)
    ensures var newest := TrackAll(None, Batches(answer, limit));
            && (forall r | r in answer :: MarkLe(r.mark, newest))
            && (newest.Some? ==> exists r | r in answer :: r.mark == newest)
            && (from.Some? && answer != [] ==> newest.Some? && newest.value > from.value)
            && (from.None? ==> newest == top)
  {
    assert answer[0..] == answer && LastMark(answer[..0]) == None;
    TrackedFrom(answer, 0, limit);
    LastIsGreatest(answer);
    if from.None? {
      FirstSyncReachesMaximum(answer, source, top);
    } else if answer != [] {
      ResumedAnswerIsAbove(answer, source, from.value);
    }
  }
}
