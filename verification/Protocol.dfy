/**
 * The incremental sync of one table as a labelled state machine: source writes, any number
 * of overlapping runs of `sync_one`, commits that may be refused, and runs that stop
 * anywhere. Every sequence of enabled events is a history of the system.
 */
module Protocol {
  import opened Wrappers
  import opened Rows
  import opened Merge
  import opened Query
  import opened Batching

  // ---------------------------------------------------------------------------- states

  /** Where one run of `sync_one` stands. `from` is the checkpoint it read. */
  datatype Run =
    | Started(from: Option<int>)
    | Holding(from: Option<int>, handle: nat)
    | Merging(from: Option<int>, handle: nat, answer: seq<Row>, merged: nat, newest: Option<int>)
    | Advancing(value: int, handle: nat)

  /**
   * `source` is the source table now, `writes` the number of writes ever made to it, `seen`
   * the greatest watermark any query or capture has returned. `data` and `marks` are the
   * Delta tables of the rows and of the checkpoint of `table`.
   */
  datatype State = State(
    table: string,
    source: Table,
    writes: nat,
    seen: Option<int>,
    data: Delta,
    marks: Delta,
    runs: map<nat, Run>)

  /** The row `checkpoint::advance` upserts, keyed on the table's name. */
  function MarkRow(table: string, value: int, at: int): Row {
    Row([Str(table)], Some(value), [Int(at)], 0)
  }

  /** What `checkpoint::read` yields when the checkpoint loads. */
  function Stored(marks: Delta): Option<int> {
    if marks.rows == [] then None else marks.rows[0].mark
  }

  // ---------------------------------------------------------------------------- events

  datatype Event =
    | Write(key: Key, mark: Option<int>, data: seq<Cell>)
    | Delete(key: Key)
    | Capture(top: Option<int>)                  // source_watermark
    | SetMark(value: int, at: int, stores: bool) // set_checkpoint, not ahead of what is in Delta; or only its open
    | ReadMark(run: nat, lost: bool)             // lost: the load failed and reads as never synced
    | Open(run: nat, opens: bool)                // loaded or created; or neither, which ends the run
    | Ask(run: nat, answer: seq<Row>)
    | MergeBatch(run: nat, size: nat)
    | OpenMark(run: nat, opens: bool)
    | Advance(run: nat, at: int)
    | Finish(run: nat)                           // no watermark to record
    | Stop(run: nat)                             // crash, timeout or error

  predicate IsMerging(s: State, id: nat) {
    id in s.runs && s.runs[id].Merging?
  }

  predicate Drained(s: State, id: nat) {
    IsMerging(s, id) && s.runs[id].merged == |s.runs[id].answer|
  }

  predicate Enabled(s: State, e: Event) {
    match e
    case Write(key, mark, _) =>
      Usable(key) && (mark.Some? && s.seen.Some? ==> mark.value > s.seen.value)
    case Delete(key) => key in s.source
    case Capture(top) => IsMaximum(top, s.source)
    case SetMark(value, _, stores) => stores ==> Safe(s, Some(value))
    case ReadMark(id, _) => id !in s.runs
    case Open(id, _) => id in s.runs && s.runs[id].Started?
    case Ask(id, answer) => id in s.runs && s.runs[id].Holding? && IsAnswer(answer, s.source, s.runs[id].from)
    case MergeBatch(id, size) => IsMerging(s, id) && 1 <= size <= |s.runs[id].answer| - s.runs[id].merged
    case OpenMark(id, _) => Drained(s, id) && s.runs[id].newest.Some?
    case Advance(id, _) => id in s.runs && s.runs[id].Advancing?
    case Finish(id) => Drained(s, id) && s.runs[id].newest.None?
    case Stop(id) => id in s.runs
  }

  function Apply(s: State, e: Event): State
    requires Enabled(s, e)
  {
    match e
    case Write(key, mark, data) =>
      s.(source := s.source[key := Row(key, mark, data, s.writes)], writes := s.writes + 1)
    case Delete(key) => s.(source := s.source - {key})
    case Capture(top) => s.(seen := Greater(s.seen, top))
    case SetMark(value, at, stores) => if stores then Marked(s, value, at) else s.(marks := Opened(s.marks))
    case ReadMark(id, lost) => s.(runs := s.runs[id := Started(if lost then None else Stored(s.marks))])
    case Open(id, opens) =>
      if !opens then Ended(s, id)
      else
        var data := Opened(s.data);
        s.(data := data, runs := s.runs[id := Holding(s.runs[id].from, data.commits)])
    case Ask(id, answer) =>
      var run := s.runs[id];
      s.(seen := Greater(s.seen, LastMark(answer)),
         runs := s.runs[id := Merging(run.from, run.handle, answer, 0, None)])
    case MergeBatch(id, size) =>
      var run := s.runs[id];
      var batch := run.answer[run.merged..run.merged + size];
      if run.handle != s.data.commits then Ended(s, id)
      else
        s.(data := Committed(s.data, batch),
           runs := s.runs[id := Merging(run.from, s.data.commits + 1, run.answer, run.merged + size,
                                      Track(run.newest, batch))])
    case OpenMark(id, opens) =>
      if !opens then Ended(s, id)
      else
        var marks := Opened(s.marks);
        s.(marks := marks, runs := s.runs[id := Advancing(s.runs[id].newest.value, marks.commits)])
    case Advance(id, at) =>
      var run := s.runs[id];
      if run.handle != s.marks.commits then Ended(s, id)
      else Ended(s.(marks := Committed(s.marks, [MarkRow(s.table, run.value, at)])), id)
    case Finish(id) => Ended(s, id)
    case Stop(id) => Ended(s, id)
  }

  /** What `set_checkpoint` writes, whatever the value. */
  function Marked(s: State, value: int, at: int): State {
    s.(marks := Committed(Opened(s.marks), [MarkRow(s.table, value, at)]))
  }

  function Ended(s: State, id: nat): State {
    s.(runs := s.runs - {id})
  }

  predicate History(s: State, events: seq<Event>)
    decreases |events|
  {
    events == [] || (Enabled(s, events[0]) && History(Apply(s, events[0]), events[1..]))
  }

  function After(s: State, events: seq<Event>): State
    requires History(s, events)
    decreases |events|
  {
    if events == [] then s else After(Apply(s, events[0]), events[1..])
  }

  // ------------------------------------------------------------------------ invariants

  predicate SourceOk(s: State) {
    forall k | k in s.source :: s.source[k].key == k && Usable(k) && s.source[k].version < s.writes
  }

  /** `r` is a copy of what the source once held: the current row of its key, or an older one. */
  predicate Trails(r: Row, s: State) {
    && r.version < s.writes
    && (r.key in s.source ==> r == s.source[r.key] || r.version < s.source[r.key].version)
  }

  predicate DataOk(s: State) {
    && Keyed(s.data.rows)
    && (forall r | r in s.data.rows :: Trails(r, s))
    && (s.data.commits == 0 ==> s.data.rows == [])
  }

  predicate MarksOk(s: State) {
    && |s.marks.rows| <= 1
    && (forall r | r in s.marks.rows :: r.key == [Str(s.table)] && r.mark.Some?)
    && (s.marks.commits == 0 ==> s.marks.rows == [])
  }

  predicate AtOrBelow(r: Row, c: Option<int>) {
    c.Some? && r.mark.Some? && r.mark.value <= c.value
  }

  /** Every source row whose watermark is at or below `c` is in Delta exactly as the source holds it. */
  predicate Covered(s: State, c: Option<int>) {
    forall k | k in s.source && AtOrBelow(s.source[k], c) :: s.source[k] in s.data.rows
  }

  /** A checkpoint it is safe to resume from. */
  predicate Safe(s: State, c: Option<int>) {
    MarkLe(c, s.seen) && Covered(s, c)
  }

  /** The table holds `r` or a newer copy of its key. */
  predicate Reached(rows: seq<Row>, r: Row) {
    exists d | d in rows :: d.key == r.key && (d == r || d.version > r.version)
  }

  predicate NothingNewer(rows: seq<Row>, r: Row) {
    forall d | d in rows && d.key == r.key :: d == r || d.version < r.version
  }

  predicate AnswerOk(s: State, from: Option<int>, answer: seq<Row>) {
    && Keyed(answer)
    && Ordered(answer)
    && MarkLe(LastMark(answer), s.seen)
    && (forall r | r in answer :: Trails(r, s))
    && (forall k | k in s.source && Above(s.source[k], from) && AtOrBelow(s.source[k], LastMark(answer)) ::
          s.source[k] in answer)
  }

  predicate RunOk(s: State, run: Run) {
    match run
    case Started(from) => Safe(s, from)
    case Holding(from, handle) => Safe(s, from) && handle <= s.data.commits
    case Merging(from, handle, answer, merged, newest) =>
      && Safe(s, from)
      && handle <= s.data.commits
      && AnswerOk(s, from, answer)
      && merged <= |answer|
      && newest == LastMark(answer[..merged])
      && (forall i | 0 <= i < merged :: Reached(s.data.rows, answer[i]))
      && (handle == s.data.commits ==> forall r | r in answer :: NothingNewer(s.data.rows, r))
    case Advancing(value, handle) => Safe(s, Some(value))
  }

  predicate Invariant(s: State) {
    && SourceOk(s)
    && DataOk(s)
    && MarksOk(s)
    && Safe(s, Stored(s.marks))
    && (forall id | id in s.runs :: RunOk(s, s.runs[id]))
  }

  /** Nothing synced yet; the source may already hold rows. */
  predicate Initial(s: State) {
    && SourceOk(s)
    && s.data == Delta(0, [])
    && s.marks == Delta(0, [])
    && s.runs == map[]
  }

  /** What no event ever takes back. */
  predicate Evolves(s: State, t: State) {
    && t.table == s.table
    && s.writes <= t.writes
    && MarkLe(s.seen, t.seen)
    && (forall k | k in t.source ::
          || (k in s.source && t.source[k] == s.source[k])
          || (t.source[k].version >= s.writes && (MarkLe(t.source[k].mark, s.seen) ==> t.source[k].mark.None?)))
    && s.data.commits <= t.data.commits
    && (s.data.commits == t.data.commits ==> t.data.rows == s.data.rows)
    && (forall d | d in s.data.rows :: Reached(t.data.rows, d))
  }

  // -------------------------------------------------------------- what evolution keeps

  lemma ReachedStays(s: State, t: State, r: Row)
    requires Evolves(s, t) && Reached(s.data.rows, r)
    ensures Reached(t.data.rows, r)
  {
    var d :| d in s.data.rows && d.key == r.key && (d == r || d.version > r.version);
    assert Reached(t.data.rows, d);
  }

  lemma TrailsStays(s: State, t: State, r: Row)
    requires Evolves(s, t) && Trails(r, s)
    ensures Trails(r, t)
  {
  }

  /** A current row that is covered stays covered, whoever commits. */
  lemma CoveredStays(s: State, t: State, c: Option<int>)
    requires Evolves(s, t) && DataOk(t) && SourceOk(t) && Safe(s, c)
    ensures Safe(t, c)
  {
    forall k | k in t.source && AtOrBelow(t.source[k], c) ensures t.source[k] in t.data.rows {
      var r := t.source[k];
      assert k in s.source && s.source[k] == r;
      assert Reached(t.data.rows, r);
      var d :| d in t.data.rows && d.key == r.key && (d == r || d.version > r.version);
      assert Trails(d, t);
    }
  }

  lemma AnswerStays(s: State, t: State, from: Option<int>, answer: seq<Row>)
    requires Evolves(s, t) && SourceOk(t) && AnswerOk(s, from, answer)
    ensures AnswerOk(t, from, answer)
  {
    forall r | r in answer ensures Trails(r, t) {
      TrailsStays(s, t, r);
    }
  }

  lemma RunStays(s: State, t: State, run: Run)
    requires Evolves(s, t) && DataOk(t) && SourceOk(t) && RunOk(s, run)
    ensures RunOk(t, run)
  {
    match run
    case Started(from) => CoveredStays(s, t, from);
    case Holding(from, _) => CoveredStays(s, t, from);
    case Advancing(value, _) => CoveredStays(s, t, Some(value));
    case Merging(from, handle, answer, merged, newest) =>
      CoveredStays(s, t, from);
      AnswerStays(s, t, from, answer);
      forall i | 0 <= i < merged ensures Reached(t.data.rows, answer[i]) {
        ReachedStays(s, t, answer[i]);
      }
  }

  // ------------------------------------------------------------------- one event at a time

  lemma SameDataReached(rows: seq<Row>)
    ensures forall d | d in rows :: Reached(rows, d)
  {
  }

  /** A run's next batch: rows of its answer, with keys of their own. */
  lemma NextBatch(answer: seq<Row>, m: nat, size: nat)
    requires Keyed(answer) && m + size <= |answer|
    ensures Keyed(answer[m..m + size])
    ensures forall r | r in answer[m..m + size] :: r in answer
  {
    var batch := answer[m..m + size];
    assert answer == answer[..m] + (batch + answer[m + size..]);
    KeyedPieces(answer[..m], batch + answer[m + size..]);
    KeyedPieces(batch, answer[m + size..]);
  }

  /** Merging rows that nothing in the table is newer than loses nothing. */
  lemma MergeReaches(rows: seq<Row>, batch: seq<Row>)
    requires Keyed(rows) && Keyed(batch)
    requires forall r | r in batch :: NothingNewer(rows, r)
    ensures forall d | d in rows :: Reached(Merged(rows, batch), d)
    ensures forall d | d in batch :: Reached(Merged(rows, batch), d)
  {
    MergedMembers(rows, batch);
    forall d | d in rows ensures Reached(Merged(rows, batch), d) {
      if d.key in Keys(batch) {
        var b :| b in batch && b.key == d.key;
        assert NothingNewer(rows, b);
        assert b in Merged(rows, batch);
      }
    }
  }

  lemma MergeStaysOlder(rows: seq<Row>, batch: seq<Row>, answer: seq<Row>)
    requires Keyed(rows) && Keyed(batch) && Keyed(answer)
    requires forall r | r in batch :: r in answer
    requires forall r | r in answer :: NothingNewer(rows, r)
    ensures forall r | r in answer :: NothingNewer(Merged(rows, batch), r)
  {
    MergedMembers(rows, batch);
    forall r, d | r in answer && d in Merged(rows, batch) && d.key == r.key ensures d == r || d.version < r.version {
      if d in batch {
        SameKeySameRow(answer, d, r);
      } else {
        assert NothingNewer(rows, r);
      }
    }
  }

  /** A commit of part of a run's answer, through a handle nobody has overtaken. */
  lemma MergeEvolves(s: State, id: nat, size: nat)
    requires Invariant(s) && Enabled(s, MergeBatch(id, size)) && s.runs[id].handle == s.data.commits
    ensures var t := Apply(s, MergeBatch(id, size)); Evolves(s, t) && SourceOk(t) && DataOk(t)
  {
    hide RunOk, Merged, Track, IsAnswer, NothingNewer, Trails, Keyed, Safe, SourceOk, DataOk, MarksOk, Evolves;
    var run := s.runs[id];
    var batch := run.answer[run.merged..run.merged + size];
    ApplyMerge(s, id, size);
    assert RunOk(s, run);
    BatchFits(s, run, size);
    CommitMoves(s, Apply(s, MergeBatch(id, size)), batch);
  }

  /** What a commit that is not refused does, in full. */
  lemma ApplyMerge(s: State, id: nat, size: nat)
    requires Enabled(s, MergeBatch(id, size)) && s.runs[id].handle == s.data.commits
    ensures var run := s.runs[id];
            var batch := run.answer[run.merged..run.merged + size];
            Apply(s, MergeBatch(id, size)) ==
            s.(data := Committed(s.data, batch),
               runs := s.runs[id := Merging(run.from, s.data.commits + 1, run.answer, run.merged + size,
                                      Track(run.newest, batch))])
  {
  }

  lemma BatchFits(s: State, run: Run, size: nat)
    requires RunOk(s, run) && run.Merging? && run.handle == s.data.commits && run.merged + size <= |run.answer|
    ensures var batch := run.answer[run.merged..run.merged + size];
            && Keyed(batch)
            && (forall r | r in batch :: r in run.answer && Trails(r, s) && NothingNewer(s.data.rows, r))
  {
    NextBatch(run.answer, run.merged, size);
  }

  /** A commit of copies of the source that nothing in the table is newer than. */
  lemma CommitMoves(s: State, t: State, batch: seq<Row>)
    requires SourceOk(s) && DataOk(s) && Keyed(batch)
    requires forall r | r in batch :: Trails(r, s) && NothingNewer(s.data.rows, r)
    requires t.table == s.table && t.source == s.source && t.writes == s.writes && t.seen == s.seen
    requires t.data == Committed(s.data, batch)
    ensures Evolves(s, t) && SourceOk(t) && DataOk(t)
  {
    MergeReaches(s.data.rows, batch);
    MergedMembers(s.data.rows, batch);
    forall r | r in t.data.rows ensures Trails(r, t) {
      assert Trails(r, s);
    }
  }

  lemma MergingStays(s: State, id: nat, size: nat)
    requires Invariant(s) && Enabled(s, MergeBatch(id, size)) && s.runs[id].handle == s.data.commits
    ensures var t := Apply(s, MergeBatch(id, size)); RunOk(t, t.runs[id])
  {
    hide Apply, RunOk, Merged, Track, IsAnswer, Safe, SourceOk, DataOk, MarksOk, Evolves;
    var run, t := s.runs[id], Apply(s, MergeBatch(id, size));
    var batch := run.answer[run.merged..run.merged + size];
    assert t.data == Committed(s.data, batch)
        && t.runs[id] == Merging(run.from, t.data.commits, run.answer, run.merged + size, Track(run.newest, batch)) by {
      ApplyMerge(s, id, size);
    }
    MergeEvolves(s, id, size);
    assert RunOk(s, run);
    CommittedRunOk(s, t, run, size);
  }

  lemma CommittedRunOk(s: State, t: State, run: Run, size: nat)
    requires DataOk(s) && RunOk(s, run) && run.Merging? && run.handle == s.data.commits
    requires 1 <= size && run.merged + size <= |run.answer|
    requires Evolves(s, t) && SourceOk(t) && DataOk(t)
    requires t.data == Committed(s.data, run.answer[run.merged..run.merged + size])
    ensures var batch := run.answer[run.merged..run.merged + size];
            RunOk(t, Merging(run.from, t.data.commits, run.answer, run.merged + size, Track(run.newest, batch)))
  {
    hide Evolves, SourceOk, RunOk, AnswerOk, Safe, Reached, NothingNewer;
    var batch, m := run.answer[run.merged..run.merged + size], run.merged + size;
    MergedReach(s, t, run, size);
    StaysNewest(s, run, size);
    KeptFromRun(s, t, run, size);
    MergingOk(t, run.from, run.answer, m, Track(run.newest, batch));
  }

  lemma KeptFromRun(s: State, t: State, run: Run, size: nat)
    requires RunOk(s, run) && run.Merging? && 1 <= size && run.merged + size <= |run.answer|
    requires Evolves(s, t) && SourceOk(t) && DataOk(t)
    ensures Safe(t, run.from) && AnswerOk(t, run.from, run.answer)
    ensures Track(run.newest, run.answer[run.merged..run.merged + size]) == LastMark(run.answer[..run.merged + size])
  {
    TrackStep(run.answer, run.merged, size);
    hide LastMark, Track;
    CoveredStays(s, t, run.from);
    AnswerStays(s, t, run.from, run.answer);
  }

  lemma MergingOk(t: State, from: Option<int>, answer: seq<Row>, merged: nat, newest: Option<int>)
    requires Safe(t, from) && AnswerOk(t, from, answer) && merged <= |answer| && newest == LastMark(answer[..merged])
    requires forall i | 0 <= i < merged :: Reached(t.data.rows, answer[i])
    requires forall r | r in answer :: NothingNewer(t.data.rows, r)
    ensures RunOk(t, Merging(from, t.data.commits, answer, merged, newest))
  {
  }

  lemma StaysNewest(s: State, run: Run, size: nat)
    requires DataOk(s) && RunOk(s, run) && run.Merging? && run.handle == s.data.commits
    requires run.merged + size <= |run.answer|
    ensures forall r | r in run.answer ::
      NothingNewer(Merged(s.data.rows, run.answer[run.merged..run.merged + size]), r)
  {
    BatchFits(s, run, size);
    MergeStaysOlder(s.data.rows, run.answer[run.merged..run.merged + size], run.answer);
  }

  lemma MergedReach(s: State, t: State, run: Run, size: nat)
    requires DataOk(s) && RunOk(s, run) && run.Merging? && run.handle == s.data.commits
    requires run.merged + size <= |run.answer| && Evolves(s, t)
    requires t.data == Committed(s.data, run.answer[run.merged..run.merged + size])
    ensures forall i | 0 <= i < run.merged + size :: Reached(t.data.rows, run.answer[i])
  {
    BatchReached(s, t, run, size);
    hide Merged, Evolves, DataOk, AnswerOk, Safe, Reached, NothingNewer;
    forall i | 0 <= i < run.merged ensures Reached(t.data.rows, run.answer[i]) {
      ReachedStays(s, t, run.answer[i]);
    }
    hide RunOk;
    forall i | run.merged <= i < run.merged + size ensures Reached(t.data.rows, run.answer[i]) {
      assert run.answer[run.merged..run.merged + size][i - run.merged] == run.answer[i];
    }
  }

  lemma BatchReached(s: State, t: State, run: Run, size: nat)
    requires DataOk(s) && RunOk(s, run) && run.Merging? && run.handle == s.data.commits
    requires run.merged + size <= |run.answer|
    requires t.data == Committed(s.data, run.answer[run.merged..run.merged + size])
    ensures forall r | r in run.answer[run.merged..run.merged + size] :: Reached(t.data.rows, r)
  {
    BatchFits(s, run, size);
    hide RunOk, Merged, Reached, NothingNewer;
    MergeReaches(s.data.rows, run.answer[run.merged..run.merged + size]);
  }

  /** A write or delete touches one key; a written row is newer than every copy of it. */
  lemma SourceMoves(s: State, t: State, k: Key)
    requires SourceOk(s) && DataOk(s)
    requires t.data == s.data && t.table == s.table && t.seen == s.seen && s.writes <= t.writes
    requires forall k' | k' in t.source && k' != k :: k' in s.source && t.source[k'] == s.source[k']
    requires k in t.source ==>
      && Usable(k)
      && t.source[k].key == k
      && s.writes <= t.source[k].version < t.writes
      && (MarkLe(t.source[k].mark, s.seen) ==> t.source[k].mark.None?)
    ensures Evolves(s, t) && SourceOk(t) && DataOk(t)
  {
    SameDataReached(s.data.rows);
    forall r | r in t.data.rows ensures Trails(r, t) {
      assert Trails(r, s);
    }
  }

  lemma WriteEvolves(s: State, e: Event)
    requires Invariant(s) && Enabled(s, e) && (e.Write? || e.Delete?)
    ensures var t := Apply(s, e); Evolves(s, t) && SourceOk(t) && DataOk(t)
  {
    SourceMoves(s, Apply(s, e), e.key);
  }

  lemma EventEvolves(s: State, e: Event)
    requires Invariant(s) && Enabled(s, e)
    ensures var t := Apply(s, e); Evolves(s, t) && SourceOk(t) && DataOk(t)
  {
    if e.Write? || e.Delete? {
      WriteEvolves(s, e);
    } else if e.MergeBatch? && s.runs[e.run].handle == s.data.commits {
      MergeEvolves(s, e.run, e.size);
    } else {
      OthersEvolve(s, e);
    }
  }

  lemma OthersEvolve(s: State, e: Event)
    requires Invariant(s) && Enabled(s, e) && !e.Write? && !e.Delete?
    requires e.MergeBatch? ==> s.runs[e.run].handle != s.data.commits
    ensures var t := Apply(s, e); Evolves(s, t) && SourceOk(t) && DataOk(t)
  {
    OthersLeaveRows(s, e);
    hide Apply, Enabled;
    SameRowsEvolve(s, Apply(s, e));
  }

  /** Nothing about the source or the rows has changed, and at most the table was created. */
  predicate SameRows(s: State, t: State) {
    && t.(marks := s.marks, runs := s.runs, data := s.data, seen := s.seen) == s
    && t.data.rows == s.data.rows
    && s.data.commits <= t.data.commits
    && (t.data.commits == 0 <==> s.data.commits == t.data.commits == 0)
    && MarkLe(s.seen, t.seen)
  }

  lemma SameRowsEvolve(s: State, t: State)
    requires SourceOk(s) && DataOk(s) && SameRows(s, t)
    ensures Evolves(s, t) && SourceOk(t) && DataOk(t)
  {
    SameDataReached(s.data.rows);
    forall r | r in t.data.rows ensures Trails(r, t) {
      assert Trails(r, s);
    }
  }

  /** The source and the rows in Delta are as they were. */
  lemma OthersLeaveRows(s: State, e: Event)
    requires Enabled(s, e) && !e.Write? && !e.Delete? && (s.data.commits == 0 ==> s.data.rows == [])
    requires e.MergeBatch? ==> s.runs[e.run].handle != s.data.commits
    ensures SameRows(s, Apply(s, e))
  {
    hide Merged, Track, IsAnswer, Ordered, LastMark;
    match e
    case Open(_, _) =>
    case Ask(_, _) =>
    case OpenMark(_, _) =>
    case Advance(_, _) =>
    case _ =>
  }

  /** One row under the table's name stays one row, whichever value is recorded. */
  lemma OneMark(s: State, value: int, at: int)
    requires MarksOk(s)
    ensures Committed(s.marks, [MarkRow(s.table, value, at)]).rows == [MarkRow(s.table, value, at)]
  {
    OneRow(s.marks.rows, MarkRow(s.table, value, at));
  }

  lemma OneRow(rows: seq<Row>, row: Row)
    requires |rows| <= 1 && Usable(row.key) && forall r | r in rows :: r.key == row.key
    ensures Merged(rows, [row]) == [row]
  {
    var m := Merged(rows, [row]);
    assert Keyed(rows) && Keyed([row]);
    assert row in [row] && row.key in Keys([row]);
    MergedMembers(rows, [row]);
    KeyCount(m);
    assert Keys(m) == {row.key};
    assert row in m;
  }

  /** `set_checkpoint` leaves one row with the value it was given, whatever that is. */
  lemma MarkedIs(s: State, value: int, at: int)
    requires MarksOk(s)
    ensures var t := Marked(s, value, at); MarksOk(t) && Stored(t.marks) == Some(value)
  {
    OneMark(s.(marks := Opened(s.marks)), value, at);
  }

  /** Once the whole answer is merged, its greatest watermark is safe to record. */
  lemma DrainedIsSafe(s: State, id: nat)
    requires Invariant(s) && Drained(s, id) && s.runs[id].newest.Some?
    ensures Safe(s, s.runs[id].newest)
  {
    var run := s.runs[id];
    assert RunOk(s, run);
    assert run.answer[..run.merged] == run.answer;
    forall k | k in s.source && AtOrBelow(s.source[k], run.newest) ensures s.source[k] in s.data.rows {
      var r := s.source[k];
      if Above(r, run.from) {
        var i :| 0 <= i < |run.answer| && run.answer[i] == r;
        assert Reached(s.data.rows, r);
        var d :| d in s.data.rows && d.key == r.key && (d == r || d.version > r.version);
        assert Trails(d, s);
      }
    }
  }

  lemma AskedIsOk(s: State, id: nat, answer: seq<Row>)
    requires Invariant(s) && Enabled(s, Ask(id, answer))
    ensures var t := Apply(s, Ask(id, answer)); RunOk(t, t.runs[id])
  {
    hide Keyed, Merged, Track, MarksOk, Usable;
    var run := s.runs[id];
    assert RunOk(s, run);
    var t := Apply(s, Ask(id, answer));
    LastIsGreatest(answer);
    forall r | r in answer ensures Trails(r, t) && NothingNewer(t.data.rows, r) {
      assert s.source[r.key] == r;
      forall d | d in s.data.rows && d.key == r.key ensures d == r || d.version < r.version {
        assert Trails(d, s);
      }
    }
  }

  lemma ReadIsOk(s: State, id: nat, lost: bool)
    requires Invariant(s) && Enabled(s, ReadMark(id, lost))
    ensures var t := Apply(s, ReadMark(id, lost)); RunOk(t, t.runs[id])
  {
    hide RunOk;
    StartedOk(Apply(s, ReadMark(id, lost)), if lost then None else Stored(s.marks));
  }

  lemma StartedOk(t: State, from: Option<int>)
    requires Safe(t, from)
    ensures RunOk(t, Started(from))
  {
  }

  lemma OpenedIsOk(s: State, id: nat)
    requires Invariant(s) && Enabled(s, Open(id, true))
    ensures var t := Apply(s, Open(id, true)); RunOk(t, t.runs[id])
  {
    assert RunOk(s, s.runs[id]);
    EventEvolves(s, Open(id, true));
    CoveredStays(s, Apply(s, Open(id, true)), s.runs[id].from);
  }

  lemma AdvancingIsOk(s: State, id: nat)
    requires Invariant(s) && Enabled(s, OpenMark(id, true))
    ensures var t := Apply(s, OpenMark(id, true)); RunOk(t, t.runs[id])
  {
    DrainedIsSafe(s, id);
    hide Merged;
  }

  /** A run an event puts at a new place is the event's own, and the event did not end it. */
  lemma MovedByOwn(s: State, e: Event, id: nat)
    requires Enabled(s, e)
    requires id in Apply(s, e).runs && (id !in s.runs || Apply(s, e).runs[id] != s.runs[id])
    ensures match e
            case ReadMark(run, _) => run == id
            case Open(run, opens) => run == id && opens
            case Ask(run, _) => run == id
            case MergeBatch(run, _) => run == id && s.runs[id].handle == s.data.commits
            case OpenMark(run, opens) => run == id && opens
            case _ => false
  {
    hide Merged, Track, IsAnswer;
  }

  lemma OwnRunStays(s: State, e: Event, id: nat)
    requires Invariant(s) && Enabled(s, e)
    requires id in Apply(s, e).runs && (id !in s.runs || Apply(s, e).runs[id] != s.runs[id])
    ensures RunOk(Apply(s, e), Apply(s, e).runs[id])
  {
    MovedByOwn(s, e, id);
    hide Apply, RunOk, Invariant;
    match e
    case ReadMark(_, lost) => ReadIsOk(s, id, lost);
    case Open(_, _) => OpenedIsOk(s, id);
    case Ask(_, answer) => AskedIsOk(s, id, answer);
    case MergeBatch(_, size) => MergingStays(s, id, size);
    case OpenMark(_, _) => AdvancingIsOk(s, id);
  }

  lemma OthersLeaveMarks(s: State, e: Event)
    requires Enabled(s, e) && !e.SetMark? && !e.Advance? && MarksOk(s)
    ensures MarksOk(Apply(s, e)) && Stored(Apply(s, e).marks) == Stored(s.marks)
  {
    hide Merged, Track, IsAnswer, Ordered;
  }

  lemma AdvanceMarks(s: State, id: nat, at: int)
    requires Invariant(s) && Enabled(s, Advance(id, at))
    ensures var t := Apply(s, Advance(id, at));
            MarksOk(t) && (Stored(t.marks) == Stored(s.marks) || Stored(t.marks) == Some(s.runs[id].value))
    ensures Safe(s, Some(s.runs[id].value))
  {
    assert RunOk(s, s.runs[id]);
    OneMark(s, s.runs[id].value, at);
  }

  lemma SetMarks(s: State, value: int, at: int, stores: bool)
    requires MarksOk(s) && Enabled(s, SetMark(value, at, stores))
    ensures var t := Apply(s, SetMark(value, at, stores));
            MarksOk(t) && Stored(t.marks) == (if stores then Some(value) else Stored(s.marks))
  {
    MarkedIs(s, value, at);
  }

  lemma MarksStay(s: State, e: Event)
    requires Invariant(s) && Enabled(s, e)
    ensures MarksOk(Apply(s, e)) && Safe(Apply(s, e), Stored(Apply(s, e).marks))
  {
    var t := Apply(s, e);
    EventEvolves(s, e);
    CoveredStays(s, t, Stored(s.marks));
    match e
    case SetMark(value, at, stores) =>
      SetMarks(s, value, at, stores);
      hide Apply, Safe;
      if stores {
        CoveredStays(s, t, Some(value));
      }
    case Advance(id, at) =>
      AdvanceMarks(s, id, at);
      hide Apply, Safe;
      CoveredStays(s, t, Some(s.runs[id].value));
    case _ =>
      OthersLeaveMarks(s, e);
      hide Apply, Safe;
  }

  lemma InvariantStays(s: State, e: Event)
    requires Invariant(s) && Enabled(s, e)
    ensures Invariant(Apply(s, e)) && Evolves(s, Apply(s, e))
  {
    var t := Apply(s, e);
    EventEvolves(s, e);
    MarksStay(s, e);
    forall id | id in t.runs ensures RunOk(t, t.runs[id]) {
      if id in s.runs && t.runs[id] == s.runs[id] {
        assert RunOk(s, s.runs[id]);
        RunStays(s, t, s.runs[id]);
      } else {
        OwnRunStays(s, e, id);
      }
    }
  }

  lemma TableStays(s: State, e: Event)
    requires Enabled(s, e)
    ensures Apply(s, e).table == s.table
  {
    hide Merged, Track, IsAnswer, Ordered;
  }

  // ------------------------------------------------------------------------ all histories

  lemma EvolvesOn(s: State, t: State, u: State)
    requires Evolves(s, t) && Evolves(t, u)
    ensures Evolves(s, u)
  {
    forall d | d in s.data.rows ensures Reached(u.data.rows, d) {
      ReachedStays(t, u, d);
    }
  }

  lemma {:induction false} InvariantHolds(s: State, events: seq<Event>)
    requires Invariant(s) && History(s, events)
    ensures Invariant(After(s, events)) && Evolves(s, After(s, events))
    decreases |events|
  {
    if events == [] {
      SameDataReached(s.data.rows);
    } else {
      var t := Apply(s, events[0]);
      InvariantStays(s, events[0]);
      InvariantHolds(t, events[1..]);
      EvolvesOn(s, t, After(s, events));
    }
  }

  lemma InitialInvariant(s: State)
    requires Initial(s)
    ensures Invariant(s)
  {
  }

  /**
   * Coverage. After any history of overlapping, refused and crashing runs with source
   * writes in between, every source row with a watermark at or below the stored checkpoint
   * is in Delta at its current version, once, and Delta holds no key twice.
   */
  lemma Coverage(s: State, events: seq<Event>, k: Key)
    requires Initial(s) && History(s, events)
    requires var t := After(s, events);
             && k in t.source && t.source[k].mark.Some?
             && Stored(t.marks).Some? && t.source[k].mark.value <= Stored(t.marks).value
    ensures var t := After(s, events);
            && Keyed(t.data.rows)
            && k in Contents(t.data.rows)
            && Contents(t.data.rows)[k] == t.source[k]
  {
    InitialInvariant(s);
    InvariantHolds(s, events);
    var t := After(s, events);
    assert AtOrBelow(t.source[k], Stored(t.marks));
    ContentsHold(t.data.rows);
  }

  /**
   * No regression. Between any two moments of a history, Delta's copy of a key is neither
   * dropped nor replaced by an older version, and a changed copy is a newer version.
   */
  lemma NoRegression(s: State, earlier: seq<Event>, later: seq<Event>, d: Row)
    requires Initial(s) && History(s, earlier) && History(After(s, earlier), later)
    requires d in After(s, earlier).data.rows
    ensures var rows := After(After(s, earlier), later).data.rows;
            && Keyed(rows)
            && d.key in Contents(rows)
            && (Contents(rows)[d.key] == d || Contents(rows)[d.key].version > d.version)
  {
    InitialInvariant(s);
    InvariantHolds(s, earlier);
    var t := After(s, earlier);
    InvariantHolds(t, later);
    var u := After(t, later);
    ContentsHold(u.data.rows);
    assert Reached(u.data.rows, d);
    var d' :| d' in u.data.rows && d'.key == d.key && (d' == d || d'.version > d.version);
  }

  /** What a run records replaces whatever is stored, a larger value too, and is covered. */
  lemma RecordedReplaces(s: State, id: nat, at: int)
    requires Invariant(s) && Enabled(s, Advance(id, at)) && s.runs[id].handle == s.marks.commits
    ensures var t := Apply(s, Advance(id, at));
            && Stored(t.marks) == Some(s.runs[id].value)
            && |t.marks.rows| == 1 && t.marks.rows[0].data == [Int(at)]
            && Covered(t, Stored(t.marks))
            && t.data == s.data && t.source == s.source
  {
    OneMark(s, s.runs[id].value, at);
    assert RunOk(s, s.runs[id]);
  }
}
