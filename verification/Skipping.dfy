/**
 * What a checkpoint set ahead of the data does. `set_checkpoint` writes any value it is
 * given; the rows at or below it that are not in Delta are then skipped, and this module
 * says which those are and for how long.
 */
module Skipping {
  import opened Wrappers
  import opened Rows
  import opened Merge
  import opened Query
  import opened Batching
  import opened Protocol
  import opened Complete
  import opened Convergence

  /** Setting any value, safe or not, leaves a state complete runs can start from. */
  lemma MarkedIsSettled(s: State, value: int, at: int)
    requires Settled(s)
    ensures Settled(Marked(s, value, at)) && Stored(Marked(s, value, at).marks) == Some(value)
  {
    MarkedIs(s, value, at);
  }

  /**
   * After any value is set, a complete run that reads it brings exactly the rows above that
   * value: a row at or below it, or without a watermark, is in Delta afterwards only if it
   * was there before. So every row arrives exactly when what the value covers, and the rows
   * without a watermark, were there.
   */
  lemma SetAhead(s: State, value: int, at: int, p: Plan, k: Key)
    requires Settled(s) && Possible(Marked(s, value, at), p) && !p.lost && k in s.source
    ensures var t := Marked(s, value, at);
            && History(t, RunEvents(p))
            && (s.source[k] in After(t, RunEvents(p)).data.rows <==>
                  (s.source[k].mark.Some? && s.source[k].mark.value > value) || s.source[k] in s.data.rows)
  {
    MarkedIsSettled(s, value, at);
    RowsReached(Marked(s, value, at), p, k);
  }

  // ------------------------------------------------------------------------- for how long

  predicate Beyond(from: Option<int>, mark: int) {
    from.Some? && mark <= from.value
  }

  /** A run that will not bring a row with this watermark, nor record less than it. */
  predicate PassesBy(run: Run, mark: int) {
    match run
    case Started(from) => Beyond(from, mark)
    case Holding(from, _) => Beyond(from, mark)
    case Merging(from, _, answer, merged, newest) =>
      && Beyond(from, mark)
      && Keyed(answer)
      && (forall i | 0 <= i < |answer| :: answer[i].mark.Some? && answer[i].mark.value > mark)
      && (newest.Some? ==> newest.value >= mark)
    case Advancing(value, _) => value >= mark
  }

  /** The source row under `k` is at or below the stored checkpoint and not in Delta, and no
      run under way will bring it. */
  predicate Skipped(s: State, k: Key) {
    && k in s.source && s.source[k].mark.Some? && s.source[k].key == k
    && Keyed(s.data.rows) && s.source[k] !in s.data.rows
    && MarksOk(s) && Beyond(Stored(s.marks), s.source[k].mark.value)
    && (forall id | id in s.runs :: PassesBy(s.runs[id], s.source[k].mark.value))
  }

  /**
   * An event of the protocol, or `set_checkpoint` with any value at all: the protocol's own
   * `SetMark` stores only values whose rows are in Delta.
   */
  datatype AnyEvent = Usual(event: Event) | SetAny(value: int, at: int)

  predicate AnyEnabled(s: State, e: AnyEvent) {
    e.Usual? ==> Enabled(s, e.event)
  }

  function AnyApply(s: State, e: AnyEvent): State
    requires AnyEnabled(s, e)
  {
    match e
    case Usual(event) => Apply(s, event)
    case SetAny(value, at) => Marked(s, value, at)
  }

  predicate AnyHistory(s: State, events: seq<AnyEvent>)
    decreases |events|
  {
    events == [] || (AnyEnabled(s, events[0]) && AnyHistory(AnyApply(s, events[0]), events[1..]))
  }

  function AnyAfter(s: State, events: seq<AnyEvent>): State
    requires AnyHistory(s, events)
    decreases |events|
  {
    if events == [] then s else AnyAfter(AnyApply(s, events[0]), events[1..])
  }

  /** Not one of the events that can bring a skipped row back: writing or deleting it, losing
      a checkpoint read, or setting the checkpoint below it, which storing a value whose rows
      are in Delta always does. */
  predicate Leaves(e: AnyEvent, k: Key, mark: int) {
    match e
    case Usual(Write(key, _, _)) => key != k
    case Usual(Delete(key)) => key != k
    case Usual(ReadMark(_, lost)) => !lost
    case Usual(SetMark(_, _, stores)) => !stores
    case SetAny(value, _) => value >= mark
    case _ => true
  }

  /** Merging rows of greater watermarks neither brings a row nor lowers what is tracked. */
  lemma StaysUnbrought(rows: seq<Row>, r: Row, answer: seq<Row>, m: nat, size: nat, newest: Option<int>)
    requires Keyed(rows) && r !in rows && r.mark.Some?
    requires Keyed(answer) && 1 <= size && m + size <= |answer|
    requires forall i | 0 <= i < |answer| :: answer[i].mark.Some? && answer[i].mark.value > r.mark.value
    ensures var batch := answer[m..m + size];
            && Keyed(Merged(rows, batch)) && r !in Merged(rows, batch)
            && Track(newest, batch).Some? && Track(newest, batch).value >= r.mark.value
  {
    BatchIsBeyond(answer, m, size, r.mark.value);
    MergedMembers(rows, answer[m..m + size]);
  }

  lemma BatchIsBeyond(answer: seq<Row>, m: nat, size: nat, mark: int)
    requires Keyed(answer) && 1 <= size && m + size <= |answer|
    requires forall i | 0 <= i < |answer| :: answer[i].mark.Some? && answer[i].mark.value > mark
    ensures var batch := answer[m..m + size];
            && Keyed(batch)
            && (forall r | r in batch :: r.mark.Some? && r.mark.value > mark)
            && LastMark(batch).Some? && LastMark(batch).value > mark
  {
    NextBatch(answer, m, size);
    var batch := answer[m..m + size];
    assert batch[size - 1] == answer[m + size - 1];
  }

  /** Where a run that passes by stands after its next merge, and what that merge leaves. */
  lemma NextPassesBy(rows: seq<Row>, r: Row, run: Run, size: nat, handle: nat) returns (next: Run)
    requires Keyed(rows) && r !in rows && r.mark.Some?
    requires run.Merging? && PassesBy(run, r.mark.value) && 1 <= size && run.merged + size <= |run.answer|
    ensures var batch := run.answer[run.merged..run.merged + size];
            && next == Merging(run.from, handle, run.answer, run.merged + size, Track(run.newest, batch))
            && Keyed(Merged(rows, batch)) && r !in Merged(rows, batch)
    ensures PassesBy(next, r.mark.value)
  {
    StaysUnbrought(rows, r, run.answer, run.merged, size, run.newest);
    hide Merged, Track, Keyed;
    var batch := run.answer[run.merged..run.merged + size];
    next := Merging(run.from, handle, run.answer, run.merged + size, Track(run.newest, batch));
  }

  lemma SkippedByMerge(s: State, id: nat, size: nat, k: Key)
    requires Skipped(s, k) && Enabled(s, MergeBatch(id, size))
    ensures Skipped(Apply(s, MergeBatch(id, size)), k)
  {
    hide PassesBy, Keyed, Merged, Track;
    if s.runs[id].handle == s.data.commits {
      var next := NextPassesBy(s.data.rows, s.source[k], s.runs[id], size, s.data.commits + 1);
      ApplyMerge(s, id, size);
      hide Apply, Skipped;
      RunReplaced(s, Apply(s, MergeBatch(id, size)), id, next, k);
    } else {
      assert Apply(s, MergeBatch(id, size)) == Ended(s, id);
      hide Apply;
    }
  }

  lemma RunReplaced(s: State, t: State, id: nat, next: Run, k: Key)
    requires Skipped(s, k) && t == s.(data := t.data, runs := s.runs[id := next])
    requires PassesBy(next, s.source[k].mark.value) && Keyed(t.data.rows) && s.source[k] !in t.data.rows
    ensures Skipped(t, k)
  {
    hide PassesBy, Keyed;
    forall i | i in t.runs ensures PassesBy(t.runs[i], s.source[k].mark.value) {
      if i != id {
        assert PassesBy(s.runs[i], s.source[k].mark.value);
      }
    }
  }

  lemma SkippedByAsk(s: State, id: nat, answer: seq<Row>, k: Key)
    requires Skipped(s, k) && Enabled(s, Ask(id, answer))
    ensures Skipped(Apply(s, Ask(id, answer)), k)
  {
    assert PassesBy(s.runs[id], s.source[k].mark.value);
    hide Ordered, LastMark;
  }

  lemma SkippedByMark(s: State, e: Event, k: Key)
    requires Skipped(s, k) && Enabled(s, e) && Leaves(Usual(e), k, s.source[k].mark.value)
    requires e.SetMark? || e.Advance? || e.OpenMark?
    ensures Skipped(Apply(s, e), k)
  {
    hide Merged;
    match e
    case SetMark(_, _, _) =>
    case Advance(id, at) =>
      assert PassesBy(s.runs[id], s.source[k].mark.value);
      OneMark(s, s.runs[id].value, at);
    case OpenMark(id, _) =>
      assert PassesBy(s.runs[id], s.source[k].mark.value);
  }

  lemma SkippedByOthers(s: State, e: Event, k: Key)
    requires Skipped(s, k) && Enabled(s, e) && Leaves(Usual(e), k, s.source[k].mark.value)
    requires !e.MergeBatch? && !e.Ask? && !e.SetMark? && !e.Advance? && !e.OpenMark?
    ensures Skipped(Apply(s, e), k)
  {
    hide Merged, IsAnswer, Track;
    match e
    case Open(id, _) => assert PassesBy(s.runs[id], s.source[k].mark.value);
    case _ =>
  }

  lemma SkippedByEvent(s: State, e: Event, k: Key)
    requires Skipped(s, k) && Enabled(s, e) && Leaves(Usual(e), k, s.source[k].mark.value)
    ensures Skipped(Apply(s, e), k) && Apply(s, e).source[k] == s.source[k]
  {
    assert k in s.source;
    hide Skipped, Merged, Track, IsAnswer;
    match e
    case MergeBatch(id, size) => SkippedByMerge(s, id, size, k);
    case Ask(id, answer) => SkippedByAsk(s, id, answer, k);
    case SetMark(_, _, _) => SkippedByMark(s, e, k);
    case Advance(_, _) => SkippedByMark(s, e, k);
    case OpenMark(_, _) => SkippedByMark(s, e, k);
    case _ => SkippedByOthers(s, e, k);
  }

  lemma SkippedStays(s: State, e: AnyEvent, k: Key)
    requires Skipped(s, k) && AnyEnabled(s, e) && Leaves(e, k, s.source[k].mark.value)
    ensures Skipped(AnyApply(s, e), k) && AnyApply(s, e).source[k] == s.source[k]
  {
    match e
    case Usual(event) => SkippedByEvent(s, event, k);
    case SetAny(value, at) => MarkedIs(s, value, at);
  }

  /**
   * A skipped row stays skipped through every history in which it is neither written nor
   * deleted, no checkpoint read is lost and the checkpoint is not set below it, however many
   * runs complete, overlap or fail, and whatever values at or above it are set meanwhile.
   */
  lemma {:induction false} SkippedUntil(s: State, events: seq<AnyEvent>, k: Key)
    requires Skipped(s, k) && AnyHistory(s, events)
    requires forall e | e in events :: Leaves(e, k, s.source[k].mark.value)
    ensures Skipped(AnyAfter(s, events), k) && AnyAfter(s, events).source[k] == s.source[k]
    decreases |events|
  {
    if events != [] {
      SkippedStays(s, events[0], k);
      SkippedUntil(AnyApply(s, events[0]), events[1..], k);
    }
  }

  /** One complete run brings it exactly if it loses its checkpoint read, and one that reads a
      value set meanwhile exactly if that lies below the row. */
  lemma SkippedComesBack(s: State, p: Plan, value: int, at: int, q: Plan, k: Key)
    requires Settled(s) && Skipped(s, k) && Possible(s, p)
    requires Possible(Marked(s, value, at), q) && !q.lost
    ensures History(s, RunEvents(p))
    ensures s.source[k] in After(s, RunEvents(p)).data.rows <==> p.lost
    ensures var t := Marked(s, value, at);
            && History(t, RunEvents(q))
            && (s.source[k] in After(t, RunEvents(q)).data.rows <==> value < s.source[k].mark.value)
  {
    RowsReached(s, p, k);
    SetAhead(s, value, at, q, k);
  }

  // --------------------------------------------------------------------- capture too late

  /** This step writes or deletes the row under `k`. */
  predicate Touches(m: ExportStep, k: Key) {
    m.Change? && (m.e.Write? || m.e.Delete?) && m.e.key == k
  }

  predicate Untouched(steps: seq<ExportStep>, k: Key) {
    forall j | 0 <= j < |steps| :: !Touches(steps[j], k)
  }

  /** The export reads `k`, and nothing writes or deletes it afterwards. */
  predicate ReadLast(steps: seq<ExportStep>, k: Key) {
    exists i | 0 <= i < |steps| && steps[i] == Read(k) :: Untouched(steps[i + 1..], k)
  }

  lemma UntouchedStep(m: ExportStep, rest: seq<ExportStep>, k: Key)
    ensures Untouched([m] + rest, k) <==> !Touches(m, k) && Untouched(rest, k)
  {
    hide Touches;
    var steps := [m] + rest;
    assert forall j | 0 <= j < |rest| :: steps[j + 1] == rest[j];
    assert steps[0] == m;
  }

  lemma ReadLastStep(m: ExportStep, rest: seq<ExportStep>, k: Key)
    ensures ReadLast([m] + rest, k) <==> (m == Read(k) && Untouched(rest, k)) || ReadLast(rest, k)
  {
    hide Untouched;
    var steps := [m] + rest;
    assert steps[0] == m && steps[1..] == rest;
    if ReadLast(rest, k) {
      var i :| 0 <= i < |rest| && rest[i] == Read(k) && Untouched(rest[i + 1..], k);
      assert steps[i + 1] == Read(k) && steps[i + 1 + 1..] == rest[i + 1..];
    }
    if ReadLast(steps, k) {
      var i :| 0 <= i < |steps| && steps[i] == Read(k) && Untouched(steps[i + 1..], k);
      if i > 0 {
        assert rest[i - 1] == Read(k) && rest[i - 1 + 1..] == steps[i + 1..];
      }
    }
  }

  /** What is loaded for `k` is its row as it is now. */
  predicate LoadedAsIs(x: Export, k: Key) {
    k in x.state.source && k in x.loaded && x.loaded[k] == x.state.source[k]
  }

  predicate LoadedOlder(x: Export) {
    forall k | k in x.loaded :: x.loaded[k].version < x.state.writes
  }

  lemma StepLoads(x: Export, m: ExportStep, k: Key)
    requires SourceOk(x.state) && LoadedOlder(x) && MayStep(x, m)
    ensures var y := Stepped(x, m);
            && SourceOk(y.state) && LoadedOlder(y)
            && (Touches(m, k) ==> !LoadedAsIs(y, k))
            && (m == Read(k) ==> (LoadedAsIs(y, k) <==> k in y.state.source))
            && (!Touches(m, k) && m != Read(k) ==> (LoadedAsIs(y, k) <==> LoadedAsIs(x, k)))
            && (!Touches(m, k) ==> (k in y.state.source <==> k in x.state.source))
  {
  }

  /** A row nobody touches is in the source to the end if it is there now. */
  lemma {:induction false} UntouchedStays(x: Export, steps: seq<ExportStep>, k: Key)
    requires SourceOk(x.state) && LoadedOlder(x) && MayExport(x, steps) && Untouched(steps, k)
    ensures k in Exported(x, steps).state.source <==> k in x.state.source
    decreases |steps|
  {
    if steps != [] {
      assert !Touches(steps[0], k);
      StepLoads(x, steps[0], k);
      UntouchedStays(Stepped(x, steps[0]), steps[1..], k);
    }
  }

  /** A row is loaded as it ends up exactly when its last read came after its last change. */
  lemma {:induction false} LoadedExactly(x: Export, steps: seq<ExportStep>, k: Key)
    requires SourceOk(x.state) && LoadedOlder(x) && MayExport(x, steps)
    requires k in Exported(x, steps).state.source
    ensures LoadedAsIs(Exported(x, steps), k) <==> ReadLast(steps, k) || (LoadedAsIs(x, k) && Untouched(steps, k))
    decreases |steps|
  {
    if steps != [] {
      var m, rest := steps[0], steps[1..];
      assert steps == [m] + rest;
      StepLoads(x, m, k);
      LoadedExactly(Stepped(x, m), rest, k);
      UntouchedStep(m, rest, k);
      ReadLastStep(m, rest, k);
      if Untouched(rest, k) {
        UntouchedStays(Stepped(x, m), rest, k);
      }
    }
  }

  /**
   * Why the capture comes before the export: with the watermark taken after the export and
   * recorded, a row with a watermark is skipped exactly when the export never read it, or it
   * was written or deleted after that.
   */
  lemma LateCaptureSkips(s: State, steps: seq<ExportStep>, x: Export, rows: seq<Row>, top: int, at: int, k: Key)
    requires Quiet(s) && IsLoad(s, steps, x, rows) && IsMaximum(Some(top), x.state.source)
    requires k in x.state.source && x.state.source[k].mark.Some?
    ensures Skipped(Marked(Loaded(x, rows), top, at), k) <==> !ReadLast(steps, k)
  {
    LoadedExactly(Export(s, map[], {}), steps, k);
    SkippedUnlessLoaded(s, steps, x, rows, top, at, k);
  }

  lemma SkippedUnlessLoaded(s: State, steps: seq<ExportStep>, x: Export, rows: seq<Row>, top: int, at: int, k: Key)
    requires Quiet(s) && IsLoad(s, steps, x, rows) && IsMaximum(Some(top), x.state.source)
    requires k in x.state.source && x.state.source[k].mark.Some?
    ensures Skipped(Marked(Loaded(x, rows), top, at), k) <==> !LoadedAsIs(x, k)
  {
    ExportHolds(s, Export(s, map[], {}), s.seen, steps) by {
      NothingExported(s);
    }
    MarkedIs(Loaded(x, rows), top, at);
    ContentsHold(rows);
    assert x.state.source[k] in rows <==> LoadedAsIs(x, k);
  }

  /** It happens: one row, read and then written again. */
  lemma LateCaptureLoses(table: string, k: Key)
    requires Usable(k)
    ensures var before := Row(k, Some(1), [], 0);
            var s := State(table, map[k := before], 1, None, Delta(0, []), Delta(0, []), map[]);
            var steps := [Read(k), Change(Write(k, Some(2), []))];
            && Quiet(s) && MayExport(Export(s, map[], {}), steps)
            && var x := Exported(Export(s, map[], {}), steps);
               IsLoad(s, steps, x, [before]) && IsMaximum(Some(2), x.state.source)
               && Skipped(Marked(Loaded(x, [before]), 2, 0), k)
  {
    var before := Row(k, Some(1), [], 0);
    var s := State(table, map[k := before], 1, None, Delta(0, []), Delta(0, []), map[]);
    FirstState(table, before);
    InitialInvariant(s);
    var steps := [Read(k), Change(Write(k, Some(2), []))];
    var x := ReadThenWritten(s, before);
    assert x.state.source[k].mark == Some(2) && IsMaximum(Some(2), x.state.source);
    assert Touches(steps[1], k) && steps[0 + 1..][0] == steps[1];
    LateCaptureSkips(s, steps, x, [before], 2, 0, k);
  }

  lemma ReadThenWritten(s: State, before: Row) returns (x: Export)
    requires s.source == map[before.key := before] && Usable(before.key) && s.seen == None
    ensures var steps := [Read(before.key), Change(Write(before.key, Some(2), []))];
            && MayExport(Export(s, map[], {}), steps) && x == Exported(Export(s, map[], {}), steps)
            && IsLoad(s, steps, x, [before])
    ensures x.state.source == map[before.key := Row(before.key, Some(2), [], s.writes)]
    ensures x.loaded == map[before.key := before]
  {
    var start := Export(s, map[], {});
    var read, write := Read(before.key), Change(Write(before.key, Some(2), []));
    var mid := Stepped(start, read);
    x := Stepped(mid, write);
    assert [read, write][1..] == [write] && [write][1..] == [];
    assert MayExport(mid, [write]);
    assert Exported(mid, [write]) == Exported(Stepped(mid, [write][0]), [write][1..]) == x;
    assert before in [before];
    ContentsHold([before]);
  }
}
