/**
 * What a complete run achieves over a source that does not change, and how a bulk load made
 * by other means hands over to incremental runs.
 */
module Convergence {
  import opened Wrappers
  import opened Rows
  import opened Merge
  import opened Query
  import opened Protocol
  import opened Complete

  predicate AllReached(source: Table, rows: seq<Row>) {
    forall k | k in source :: source[k] in rows
  }

  predicate HasMark(source: Table) {
    exists k | k in source :: source[k].mark.Some?
  }

  /**
   * After a complete run from any stored checkpoint, safe to resume from or not, a source
   * row is in Delta exactly when its watermark lies above the checkpoint the run started
   * from, or it was in Delta before.
   */
  lemma RowsReached(s: State, p: Plan, k: Key)
    requires Settled(s) && Possible(s, p) && k in s.source
    ensures History(s, RunEvents(p))
    ensures s.source[k] in After(s, RunEvents(p)).data.rows <==>
            Above(s.source[k], From(s, p)) || s.source[k] in s.data.rows
  {
    CompleteRun(s, p);
    hide Finished;
    assert After(s, RunEvents(p)).data.rows == Merged(s.data.rows, p.answer);
    MergedMembers(s.data.rows, p.answer);
    var r := s.source[k];
    if r.key in Keys(p.answer) {
      var q :| q in p.answer && q.key == r.key;
      assert q == r;
    }
  }

  /** A complete run brings every source row with a watermark to Delta, always. */
  lemma MarkedRowsReached(s: State, p: Plan)
    requires Quiet(s) && Possible(s, p)
    ensures History(s, RunEvents(p))
    ensures var t := After(s, RunEvents(p));
            forall k | k in t.source && t.source[k].mark.Some? :: t.source[k] in t.data.rows
  {
    CompleteRun(s, p);
    forall k | k in s.source && s.source[k].mark.Some? ensures s.source[k] in After(s, RunEvents(p)).data.rows {
      RowsReached(s, p, k);
      if !Above(s.source[k], From(s, p)) {
        CoveredUnlessAbove(s, p, k);
      }
    }
  }

  /** From one of the protocol's checkpoints, a row the run does not fetch is in Delta already
      or has no watermark. */
  lemma CoveredUnlessAbove(s: State, p: Plan, k: Key)
    requires Quiet(s) && k in s.source && !Above(s.source[k], From(s, p))
    ensures s.source[k] in s.data.rows || s.source[k].mark.None?
  {
    if s.source[k].mark.Some? {
      assert AtOrBelow(s.source[k], Stored(s.marks));
    }
  }

  /**
   * A complete run leaves every source row in Delta exactly when it started from no
   * checkpoint or the rows without a watermark were there already.
   */
  lemma EveryRowReached(s: State, p: Plan)
    requires Quiet(s) && Possible(s, p)
    ensures History(s, RunEvents(p))
    ensures AllReached(s.source, After(s, RunEvents(p)).data.rows) <==>
            From(s, p).None? || forall k | k in s.source && s.source[k].mark.None? :: s.source[k] in s.data.rows
  {
    CompleteRun(s, p);
    var rows := After(s, RunEvents(p)).data.rows;
    forall k | k in s.source
      ensures s.source[k] in rows <==> From(s, p).None? || s.source[k].mark.Some? || s.source[k] in s.data.rows
    {
      RowsReached(s, p, k);
      if !Above(s.source[k], From(s, p)) {
        CoveredUnlessAbove(s, p, k);
      }
    }
  }

  /** A run that fetches nothing commits nothing, to the data or to the checkpoint; it only
      creates a table that is not there yet. */
  lemma IdleRun(t: State, q: Plan)
    requires Settled(t) && Possible(t, q) && q.answer == []
    ensures History(t, RunEvents(q))
    ensures After(t, RunEvents(q)).data == Opened(t.data) && After(t, RunEvents(q)).marks == t.marks
  {
    var a, b, c := IdleOpening(t, q);
    RunEventsAre(q);
    assert Remaining(q, 0) == [Finish(q.id)];
    hide Remaining;
    assert RunEvents(q) == [ReadMark(q.id, q.lost)] + ([Open(q.id, true)] + ([Ask(q.id, [])] + [Finish(q.id)]));
    hide Apply, Enabled, History, After, RunEvents;
    OneEvent(c, Finish(q.id));
    EventThen(b, Ask(q.id, []), [Finish(q.id)]);
    EventThen(a, Open(q.id, true), [Ask(q.id, [])] + [Finish(q.id)]);
    EventThen(t, ReadMark(q.id, q.lost), [Open(q.id, true)] + ([Ask(q.id, [])] + [Finish(q.id)]));
  }

  lemma IdleOpening(t: State, q: Plan) returns (a: State, b: State, c: State)
    requires Settled(t) && Possible(t, q) && q.answer == []
    ensures Enabled(t, ReadMark(q.id, q.lost)) && a == Apply(t, ReadMark(q.id, q.lost))
    ensures Enabled(a, Open(q.id, true)) && b == Apply(a, Open(q.id, true))
    ensures Enabled(b, Ask(q.id, [])) && c == Apply(b, Ask(q.id, []))
    ensures Enabled(c, Finish(q.id))
    ensures var d := Apply(c, Finish(q.id)); d.data == Opened(t.data) && d.marks == t.marks
  {
    a, b, c := OpeningSteps(t, q);
  }

  lemma AnswerComesFrom(answer: seq<Row>, source: Table, from: Option<int>)
    requires IsAnswer(answer, source, from) && answer != []
    ensures exists k | k in source :: Above(source[k], from)
  {
    assert answer[0].key in source;
  }

  /**
   * The run after a complete one, reading back the recorded checkpoint, fetches nothing
   * exactly when there is a checkpoint or a watermark to record, or no row at all. A table
   * whose rows all lack a watermark is fetched whole every time.
   */
  lemma NextRunIdle(s: State, p: Plan, q: Plan)
    requires Quiet(s) && Possible(s, p) && History(s, RunEvents(p))
    requires Possible(After(s, RunEvents(p)), q) && !q.lost
    ensures q.answer == [] <==> Stored(s.marks).Some? || HasMark(s.source) || s.source == map[]
  {
    hide Merged, Keys, Usable, RunEvents, History, After, DataOk, MarksOk, Covered;
    CompleteRun(s, p);
    var t := After(s, RunEvents(p));
    LastIsGreatest(p.answer);
    if Stored(t.marks).Some? {
      forall k | k in s.source ensures !Above(s.source[k], Stored(t.marks)) {
        assert Above(s.source[k], From(s, p)) ==> s.source[k] in p.answer;
      }
      if q.answer != [] {
        AnswerComesFrom(q.answer, s.source, Stored(t.marks));
        assert false;
      }
      if Stored(s.marks).None? {
        var r :| r in p.answer && r.mark == LastMark(p.answer);
        assert s.source[r.key].mark.Some?;
      }
    } else {
      assert !HasMark(s.source) by {
        forall k | k in s.source ensures s.source[k].mark.None? {
          assert Above(s.source[k], None) && s.source[k] in p.answer;
        }
      }
      if s.source != map[] {
        var k :| k in s.source;
        assert s.source[k] in q.answer;
      } else if q.answer != [] {
        AnswerComesFrom(q.answer, s.source, Stored(t.marks));
        assert false;
      }
    }
  }

  /**
   * Convergence. Over a source that does not change and has no NULL watermark, a complete
   * run leaves every row in Delta with equal values, and the next run that reads back the
   * checkpoint fetches zero rows and commits nothing.
   */
  lemma Convergence(s: State, p: Plan, q: Plan)
    requires Quiet(s) && Possible(s, p) && NoNullMarks(s.source) && History(s, RunEvents(p))
    requires Possible(After(s, RunEvents(p)), q) && !q.lost
    ensures var t := After(s, RunEvents(p));
            && t.source == s.source
            && AllReached(t.source, t.data.rows)
            && q.answer == []
            && History(t, RunEvents(q))
            && After(t, RunEvents(q)).data == t.data
            && After(t, RunEvents(q)).marks == t.marks
  {
    CompleteRun(s, p);
    EveryRowReached(s, p);
    if s.source != map[] {
      var k :| k in s.source;
      assert HasMark(s.source);
    }
    NextRunIdle(s, p, q);
    IdleRun(After(s, RunEvents(p)), q);
  }

  // ---------------------------------------------------------------- bulk load and handover

  /** An export under way: what it has read so far, and of which keys. */
  datatype Export = Export(state: State, loaded: Table, visited: set<Key>)

  /** The source changes, or the export reads one key's row as it is at that moment. */
  datatype ExportStep = Change(e: Event) | Read(key: Key)

  predicate MayStep(x: Export, m: ExportStep) {
    match m
    case Change(e) => (e.Write? || e.Delete?) && Enabled(x.state, e)
    case Read(k) => k !in x.visited
  }

  function Stepped(x: Export, m: ExportStep): Export
    requires MayStep(x, m)
  {
    match m
    case Change(e) => x.(state := Apply(x.state, e))
    case Read(k) =>
      x.(visited := x.visited + {k},
         loaded := if k in x.state.source then x.loaded[k := x.state.source[k]] else x.loaded)
  }

  predicate MayExport(x: Export, steps: seq<ExportStep>)
    decreases |steps|
  {
    steps == [] || (MayStep(x, steps[0]) && MayExport(Stepped(x, steps[0]), steps[1..]))
  }

  function Exported(x: Export, steps: seq<ExportStep>): Export
    requires MayExport(x, steps)
    decreases |steps|
  {
    if steps == [] then x else Exported(Stepped(x, steps[0]), steps[1..])
  }

  /** Rows at or below the captured watermark have not changed since, and were read so. */
  predicate ExportOk(at: State, x: Export, top: Option<int>) {
    && SourceOk(x.state)
    && x.state.(source := at.source, writes := at.writes) == at
    && MarkLe(top, at.seen)
    && (forall k | k in x.loaded :: x.loaded[k].key == k && Usable(k) && Trails(x.loaded[k], x.state))
    && (forall k | k in x.state.source && AtOrBelow(x.state.source[k], top) ::
          k in at.source && (k in x.visited ==> k in x.loaded && x.loaded[k] == x.state.source[k]))
  }

  lemma ExportMoves(at: State, x: Export, top: Option<int>, m: ExportStep)
    requires ExportOk(at, x, top) && MayStep(x, m)
    ensures ExportOk(at, Stepped(x, m), top)
  {
  }

  lemma {:induction false} ExportHolds(at: State, x: Export, top: Option<int>, steps: seq<ExportStep>)
    requires ExportOk(at, x, top) && MayExport(x, steps)
    ensures ExportOk(at, Exported(x, steps), top)
    decreases |steps|
  {
    if steps != [] {
      ExportMoves(at, x, top, steps[0]);
      ExportHolds(at, Stepped(x, steps[0]), top, steps[1..]);
    }
  }

  /** The loaded rows become the Delta table, in place of what it held. */
  function Loaded(x: Export, rows: seq<Row>): State {
    x.state.(data := Delta(x.state.data.commits + 1, rows))
  }

  /** What an export leads to is fixed by where it starts and what happens meanwhile. */
  predicate IsLoad(start: State, steps: seq<ExportStep>, x: Export, rows: seq<Row>) {
    && MayExport(Export(start, map[], {}), steps)
    && x == Exported(Export(start, map[], {}), steps)
    && Keyed(rows) && Contents(rows) == x.loaded
  }

  /**
   * Handover, for a first load or a reload. Capture the watermark, let the source change in
   * any way while the export reads each row at any moment, load what it read, and record the
   * captured value or a smaller one: the protocol allows that step, and every later history
   * starts from there safely.
   */
  lemma Handover(s: State, top: int, steps: seq<ExportStep>, x: Export, rows: seq<Row>, value: int, at: int)
    requires Quiet(s) && IsMaximum(Some(top), s.source) && value <= top
    requires IsLoad(Apply(s, Capture(Some(top))), steps, x, rows) && s.source.Keys <= x.visited
    ensures var loaded := Loaded(x, rows);
            && Quiet(loaded)
            && Enabled(loaded, SetMark(value, at, true))
            && Quiet(Apply(loaded, SetMark(value, at, true)))
            && Stored(Apply(loaded, SetMark(value, at, true)).marks) == Some(value)
  {
    var captured := Captured(s, top);
    hide Apply, Enabled;
    ExportHolds(captured, Export(captured, map[], {}), captured.seen, steps);
    LoadedIsSafe(captured, x, rows, value);
    MarkingKeeps(Loaded(x, rows), value, at);
  }

  lemma Captured(s: State, top: int) returns (t: State)
    requires Quiet(s) && IsMaximum(Some(top), s.source)
    ensures Enabled(s, Capture(Some(top))) && t == Apply(s, Capture(Some(top)))
    ensures Quiet(t) && t.source == s.source && MarkLe(Some(top), t.seen)
    ensures ExportOk(t, Export(t, map[], {}), t.seen)
  {
    t := Apply(s, Capture(Some(top)));
    assert t == s.(seen := Greater(s.seen, Some(top)));
    hide Apply;
    assert Invariant(t) by {
      InvariantStays(s, Capture(Some(top)));
    }
    assert ExportOk(t, Export(t, map[], {}), t.seen) by {
      NothingExported(t);
    }
  }

  lemma NothingExported(t: State)
    requires SourceOk(t)
    ensures ExportOk(t, Export(t, map[], {}), t.seen)
  {
  }

  lemma MarkingKeeps(s: State, value: int, at: int)
    requires Quiet(s) && Safe(s, Some(value))
    ensures Enabled(s, SetMark(value, at, true))
    ensures var t := Apply(s, SetMark(value, at, true)); Quiet(t) && Stored(t.marks) == Some(value)
  {
    InvariantStays(s, SetMark(value, at, true));
    MarkedIs(s, value, at);
  }

  lemma LoadedIsSafe(at: State, x: Export, rows: seq<Row>, value: int)
    requires Quiet(at) && ExportOk(at, x, at.seen) && MarkLe(Some(value), at.seen) && at.source.Keys <= x.visited
    requires Keyed(rows) && Contents(rows) == x.loaded
    ensures Quiet(Loaded(x, rows)) && Safe(Loaded(x, rows), Some(value))
  {
    var t := Loaded(x, rows);
    ContentsHold(rows);
    forall k | k in t.source && AtOrBelow(t.source[k], at.seen) ensures t.source[k] in t.data.rows {
      assert AtOrBelow(x.state.source[k], at.seen);
    }
    forall r | r in t.data.rows ensures Trails(r, t) {
      assert x.loaded[r.key] == r;
    }
  }

  /** After a handover and anything that follows it, coverage holds, and as soon as no run is
      under way one complete run brings every source row with a watermark to Delta. */
  lemma HandoverThenAnything(t: State, events: seq<Event>, p: Plan)
    requires Quiet(t) && History(t, events)
    requires After(t, events).runs == map[] && Possible(After(t, events), p)
    ensures var u := After(t, events);
            && Covered(u, Stored(u.marks))
            && History(u, RunEvents(p))
            && (forall k | k in u.source && u.source[k].mark.Some? :: u.source[k] in After(u, RunEvents(p)).data.rows)
  {
    InvariantHolds(t, events);
    var u := After(t, events);
    MarkedRowsReached(u, p);
    CompleteRun(u, p);
  }

  /**
   * Crash transparency does fail for rows: after a first sync a row without a watermark is
   * added; a run whose checkpoint fails to load merges it and is cut off; no resumed run
   * would have brought it.
   */
  lemma LostReadBringsNull(table: string, k: Key, k': Key)
    requires Usable(k) && Usable(k') && k != k'
    ensures var marked, bare := Row(k, Some(1), [], 0), Row(k', None, [], 1);
            var s0 := State(table, map[k := marked], 1, None, Delta(0, []), Delta(0, []), map[]);
            var synced := RunEvents(Plan(0, false, [marked], 1, 0));
            var lost, last := Attempt(Plan(1, true, [bare, marked], 1, 0), 4), Plan(2, false, [], 1, 0);
            && Initial(s0) && History(s0, synced) && Enabled(After(s0, synced), Write(k', None, []))
            && var s := Apply(After(s0, synced), Write(k', None, []));
               && Quiet(s) && WellCut(lost) && Possible(s, lost.plan) && Possible(s, last)
               && History(s, AttemptsEvents([lost]) + RunEvents(last)) && History(s, RunEvents(last))
               && var t, u := After(s, AttemptsEvents([lost]) + RunEvents(last)), After(s, RunEvents(last));
                  Keyed(t.data.rows) && Keyed(u.data.rows) && Contents(t.data.rows) != Contents(u.data.rows)
  {
    var marked, bare := Row(k, Some(1), [], 0), Row(k', None, [], 1);
    var s0 := State(table, map[k := marked], 1, None, Delta(0, []), Delta(0, []), map[]);
    var first := Plan(0, false, [marked], 1, 0);
    var lost, last := Attempt(Plan(1, true, [bare, marked], 1, 0), 4), Plan(2, false, [], 1, 0);
    hide Apply, Enabled, RunEvents, After, History, AttemptsEvents, Invariant, Initial, BringsNoNull;
    assert Initial(s0) by {
      FirstState(table, marked);
    }
    var t0 := OneRowSynced(s0, first, marked);
    var s := BareAdded(t0, marked, bare);
    BareIsMissed(s, lost.plan, last, marked, bare);
    BareIsBrought(s, lost, bare);
    CrashTransparency(s, [lost], last, last);
  }

  lemma FirstState(table: string, r: Row)
    requires Usable(r.key) && r.version == 0
    ensures Initial(State(table, map[r.key := r], 1, None, Delta(0, []), Delta(0, []), map[]))
  {
  }

  lemma BareAdded(t: State, marked: Row, bare: Row) returns (s: State)
    requires Quiet(t) && t.source == map[marked.key := marked] && t.data.rows == [marked] && t.writes == bare.version
    requires Usable(bare.key) && bare.key != marked.key && bare.mark.None? && bare.data == []
    ensures Enabled(t, Write(bare.key, None, [])) && s == Apply(t, Write(bare.key, None, []))
    ensures Quiet(s) && s.source == map[marked.key := marked, bare.key := bare]
    ensures s.marks == t.marks && bare !in s.data.rows
  {
    InvariantStays(t, Write(bare.key, None, []));
    s := Apply(t, Write(bare.key, None, []));
  }

  /** Only a run without a checkpoint fetches a row without a watermark. */
  lemma BareIsMissed(s: State, lost: Plan, last: Plan, marked: Row, bare: Row)
    requires Usable(marked.key) && Usable(bare.key) && marked.key != bare.key && marked.mark.Some? && bare.mark.None?
    requires s.source == map[marked.key := marked, bare.key := bare] && Stored(s.marks) == marked.mark
    requires lost.lost && lost.limit >= 1 && lost.answer == [bare, marked]
    requires !last.lost && last.limit >= 1 && last.answer == []
    ensures Possible(s, lost) && Possible(s, last)
  {
  }

  lemma BareIsBrought(s: State, lost: Attempt, bare: Row)
    requires lost.plan.limit == 1 && |lost.plan.answer| == 2 && lost.plan.answer[0] == bare && lost.cut == 4
    requires bare.mark.None? && bare !in s.data.rows
    ensures WellCut(lost) && !BringsNoNull(s, [lost])
  {
    LongRun(lost.plan);
    assert Brought(lost)[0] == bare;
    assert lost in [lost] && !NoNewNulls(s.data.rows, Brought(lost));
  }

  /** A first sync of one row. */
  lemma OneRowSynced(s: State, p: Plan, r: Row) returns (t: State)
    requires Initial(s) && s.source == map[r.key := r] && r.mark.Some? && p.answer == [r] && p.limit >= 1
    ensures Possible(s, p) && History(s, RunEvents(p)) && t == After(s, RunEvents(p))
    ensures Quiet(t) && t.data.rows == [r] && Stored(t.marks) == r.mark
    ensures t.source == s.source && t.writes == s.writes && t.table == s.table
  {
    InitialInvariant(s);
    assert Usable(r.key);
    CompleteRun(s, p);
    OneRow([], r);
    t := After(s, RunEvents(p));
  }
}
