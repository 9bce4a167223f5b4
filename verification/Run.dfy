/**
 * `run` of src/pipeline.rs: the tables of a catalog one after the other, a report after
 * each, and what is left behind when a table fails or the caller stops the run.
 */
module Runs {
  import opened Wrappers
  import opened Rows
  import opened Merge
  import opened Query
  import opened Protocol
  import opened Complete
  import opened Awaits
  import Names
  import opened Catalog
  import Workers
  import RecordBatches
  import opened Sync

  // ---------------------------------------------------------------- what a failure leaves

  /** What a run has done before its query, whether or not the query could be answered. */
  lemma BeforeTheQuery(s: State, p: Plan) returns (a: State, b: State)
    requires Settled(s) && p.limit >= 1
    ensures Enabled(s, ReadMark(p.id, p.lost)) && a == Apply(s, ReadMark(p.id, p.lost)) && Reaches(s, a, p, 0)
    ensures Enabled(a, Open(p.id, true)) && b == Apply(a, Open(p.id, true)) && Reaches(s, b, p, 0)
    ensures b.source == s.source && b.runs == map[p.id := Holding(From(s, p), b.data.commits)]
  {
    hide Apply, Enabled, Merged;
    a := ReadingStep(s, p);
    b := OpeningStep(s, p, a);
  }

  /** A run that is cut off leaves whole batches of its answer, or all of it, and the
      checkpoint it found, when nothing else touches its table meanwhile. */
  lemma CutOffRun(s: State, p: Plan, events: seq<Event>)
    requires Settled(s) && p.limit >= 1 && |events| >= 2 && events[..|events| - 1] < RunEvents(p)
    requires Shortened(s, events) && RunOf(events[|events| - 1]) == Some(p.id)
    ensures History(s, events)
    ensures After(s, events).runs == map[] && Reaches(s, After(s, events), p, MergedBy(p, |events| - 1))
  {
    var n := |events| - 1;
    var front, last := events[..n], events[n];
    assert events == front + [last] && front == RunEvents(p)[..n];
    var u := After(s, front);
    FrontReaches(s, p, n);
    CutEnds(u, last, p.id);
    hide Apply, Enabled, RunEvents, CutsShort, Settled;
    OneEvent(u, last);
    HistoryJoined(s, front, [last]);
    EndedReaches(s, u, p, MergedBy(p, n));
  }

  lemma CutEnds(u: State, e: Event, id: nat)
    requires Enabled(u, e) && CutsShort(u, e) && RunOf(e) == Some(id)
    ensures Apply(u, e) == Ended(u, id)
  {
  }

  lemma EndedReaches(s: State, u: State, p: Plan, m: nat)
    requires Reaches(s, u, p, m)
    ensures Reaches(s, Ended(u, p.id), p, m) && Ended(u, p.id).runs == map[]
  {
  }

  lemma AskedWasPossible(s: State, b: State, p: Plan, rest: seq<Event>)
    requires p.limit >= 1 && History(b, rest) && rest != [] && rest[0] == Ask(p.id, p.answer)
    requires b.source == s.source && b.runs == map[p.id := Holding(From(s, p), b.data.commits)]
    ensures Possible(s, p)
  {
    assert Enabled(b, rest[0]);
  }

  lemma FrontEvents(p: Plan, n: nat)
    requires p.limit >= 1 && 1 <= n <= |RunEvents(p)|
    ensures var e0, e1, all := ReadMark(p.id, p.lost), Open(p.id, true), RunEvents(p);
            && (n == 1 ==> all[..n] == [e0])
            && (n == 2 ==> all[..n] == [e0] + [e1])
            && (n > 2 ==> all[..n] == ([e0] + [e1]) + all[2..n] && all[2..n][0] == Ask(p.id, p.answer))
  {
    RunEventsAre(p);
    hide RunEvents, Remaining;
    var all := RunEvents(p);
    assert all[0] == ReadMark(p.id, p.lost) && all[1] == Open(p.id, true) && all[2] == Ask(p.id, p.answer);
  }

  lemma FrontReaches(s: State, p: Plan, n: nat)
    requires Settled(s) && p.limit >= 1 && 1 <= n < |RunEvents(p)| && History(s, RunEvents(p)[..n])
    ensures Reaches(s, After(s, RunEvents(p)[..n]), p, MergedBy(p, n))
  {
    var e0, e1, all := ReadMark(p.id, p.lost), Open(p.id, true), RunEvents(p);
    var a, b := BeforeTheQuery(s, p);
    OneEvent(s, e0);
    OneEvent(a, e1);
    EventThen(s, e0, [e1]);
    FrontEvents(p, n);
    hide Apply, Enabled, RunEvents, Remaining, Reaches;
    if n > 2 {
      var rest := all[2..n];
      HistorySplit(s, [e0] + [e1], rest);
      AskedWasPossible(s, b, p, rest);
      RunPrefix(s, p, n);
    }
  }

  /**
   * A failed table need not be unchanged: when the answer is longer than one batch, a run
   * stopped after its first merge leaves that batch in the table, and of the rest only the
   * rows that were there before.
   */
  lemma HalfMerged(s: State, p: Plan)
    requires Quiet(s) && Possible(s, p) && |p.answer| > p.limit
    ensures WellCut(Attempt(p, 4)) && History(s, AttemptEvents(Attempt(p, 4)))
    ensures var t := After(s, AttemptEvents(Attempt(p, 4)));
            && t.data.rows == Merged(s.data.rows, p.answer[..p.limit])
            && (forall i | 0 <= i < p.limit :: p.answer[i] in t.data.rows)
            && (forall i | p.limit <= i < |p.answer| :: p.answer[i] in t.data.rows <==> p.answer[i] in s.data.rows)
            && Stored(t.marks) == Stored(s.marks)
  {
    LongRun(p);
    StoppedAttempt(s, Attempt(p, 4));
    hide RunEvents, After, History, AttemptEvents, Merged;
    HeadMerged(s.data.rows, p.answer, p.limit);
  }

  lemma HeadMerged(rows: seq<Row>, answer: seq<Row>, n: nat)
    requires Keyed(rows) && Keyed(answer) && n <= |answer|
    ensures forall i | 0 <= i < n :: answer[i] in Merged(rows, answer[..n])
    ensures forall i | n <= i < |answer| :: answer[i] in Merged(rows, answer[..n]) <==> answer[i] in rows
  {
    hide Merged, Keyed;
    var head, tail := answer[..n], answer[n..];
    assert answer == head + tail;
    KeyedPieces(head, tail);
    MergedMembers(rows, head);
    forall i | 0 <= i < n ensures answer[i] in Merged(rows, head) {
      assert answer[i] == head[i];
    }
    forall i | n <= i < |answer| ensures answer[i] in Merged(rows, head) <==> answer[i] in rows {
      assert answer[i] == tail[i - n] && answer[i].key in Keys(tail);
    }
  }

  /** A cut-off run has left its table's rows as they were exactly when every row it had
      merged was there already. */
  lemma FailedTableUnchanged(s: State, t: State, p: Plan, m: nat)
    requires DataOk(s) && Reaches(s, t, p, m)
    ensures t.data.rows == s.data.rows <==> forall r | r in p.answer[..m] :: r in s.data.rows
  {
    MergedMembers(s.data.rows, p.answer[..m]);
    if forall r | r in p.answer[..m] :: r in s.data.rows {
      PresentChangesNothing(s.data.rows, p.answer[..m]);
    }
  }

  // -------------------------------------------------------------------------- the run

  datatype SyncConfig = SyncConfig(outputUri: string, checkpointUri: string, fetchBatchSize: nat)

  datatype Setting = OutputUri | CheckpointUri | FetchBatchSize

  datatype RunError =
    | Internal(setting: Setting)
    | Connect
    | Unsafe(name: string)
    | InTable(table: string, error: TableError)
    | Interrupted

  /** An error that says which table it was: by its name, or by what its name was refused for. */
  predicate Blames(e: RunError, t: TableSync) {
    match e
    case Unsafe(name) => !Names.Accepted(t.table) && name == Names.ParseQualified(t.table).error.name
    case InTable(table, error) => table == t.table && (error.Unreadable? || error.Failed?)
    case _ => false
  }

  function ValidateConfig(c: SyncConfig): Option<Setting> {
    if Names.Blank(c.outputUri) then Some(OutputUri)
    else if Names.Blank(c.checkpointUri) then Some(CheckpointUri)
    else if c.fetchBatchSize == 0 then Some(FetchBatchSize)
    else None
  }

  /** A run's settings are usable exactly when there is somewhere for rows and for checkpoints
      and a batch holds a row; otherwise the first that is not is named. */
  lemma ValidConfigExactly(c: SyncConfig)
    ensures ValidateConfig(c).None? <==>
            !Names.Blank(c.outputUri) && !Names.Blank(c.checkpointUri) && c.fetchBatchSize >= 1
    ensures ValidateConfig(c).Some? ==>
      match ValidateConfig(c).value
      case OutputUri => Names.Blank(c.outputUri)
      case CheckpointUri => Names.Blank(c.checkpointUri) && !Names.Blank(c.outputUri)
      case FetchBatchSize => c.fetchBatchSize == 0 && !Names.Blank(c.outputUri) && !Names.Blank(c.checkpointUri)
  {
    hide Names.Blank;
  }

  datatype Progress = Progress(table: string, tablesDone: nat, totalTables: nat, rowsFetched: nat)

  datatype Report = Report(tables: seq<Stats>, totalRowsFetched: nat)

  /** One catalog entry with the world its table lives in and what will happen there. */
  datatype Task = Task(
    sync: TableSync, columns: seq<RecordBatches.Field>, world: World, me: nat,
    lost: bool, readable: bool, at: int, env: seq<Await>, decode: Row -> RecordBatches.Cells)

  function Parts(w: World): set<object> {
    {w, w.data, w.marks}
  }

  function AllParts(tasks: seq<Task>): set<object> {
    set i, o | 0 <= i < |tasks| && o in Parts(tasks[i].world) :: o
  }

  /** No table's place is another's. */
  predicate Apart(tasks: seq<Task>) {
    forall i, j | 0 <= i < j < |tasks| :: Parts(tasks[i].world) !! Parts(tasks[j].world)
  }

  /** Each world is its table's, with the objects that stand at the table's two locations. */
  predicate Placed(tasks: seq<Task>, l: Names.Layout, at: map<string, DeltaTable>) {
    && (forall u, v | u in at && v in at && u != v :: at[u] != at[v])
    && (forall i | 0 <= i < |tasks| :: PlacedAt(tasks[i], l, at))
  }

  predicate PlacedAt(task: Task, l: Names.Layout, at: map<string, DeltaTable>) {
    var name := task.sync.table;
    && Names.Accepted(name) && task.world.table == name
    && Names.DataAt(l, name) in at && task.world.data == at[Names.DataAt(l, name)]
    && Names.MarksAt(l, name) in at && task.world.marks == at[Names.MarksAt(l, name)]
  }

  /** A catalog's tables are apart when their names keep their locations apart. */
  lemma NamesKeepApart(tasks: seq<Task>, l: Names.Layout, at: map<string, DeltaTable>)
    requires Placed(tasks, l, at) && Workers.Separate(l, set i | 0 <= i < |tasks| :: tasks[i].sync.table)
    requires forall i, j | 0 <= i < j < |tasks| :: tasks[i].sync.table != tasks[j].sync.table
    ensures Apart(tasks)
  {
    hide Names.Accepted, Names.DataAt, Names.MarksAt, Names.ParseQualified;
    forall i, j | 0 <= i < j < |tasks| ensures Parts(tasks[i].world) !! Parts(tasks[j].world) {
      assert PlacedAt(tasks[i], l, at) && PlacedAt(tasks[j], l, at);
    }
  }

  /** Which slash-free names outside the checkpoint directory do, under the default layout. */
  lemma CatalogApart(tasks: seq<Task>, output: string, at: map<string, DeltaTable>)
    requires output != "" && Placed(tasks, Names.DefaultLayout(output), at)
    requires forall i, j | 0 <= i < j < |tasks| :: tasks[i].sync.table != tasks[j].sync.table
    requires forall i | 0 <= i < |tasks| ::
      '/' !in tasks[i].sync.table && Names.Split(tasks[i].sync.table, '.')[0] != Names.CHECKPOINTS
    ensures Apart(tasks)
  {
    var names := set i | 0 <= i < |tasks| :: tasks[i].sync.table;
    var l := Names.DefaultLayout(output);
    forall name | name in names ensures Names.Accepted(name) {
      var i :| 0 <= i < |tasks| && tasks[i].sync.table == name;
      assert PlacedAt(tasks[i], l, at);
    }
    Workers.DefaultLayoutSeparates(output, names);
    NamesKeepApart(tasks, l, at);
  }

  ghost predicate Ready(task: Task)
    reads Parts(task.world)
  {
    task.world.Valid() && task.me !in task.world.runs && task.me !in task.world.mine
  }

  datatype Snapshot = Snapshot(state: State, log: seq<Event>)

  ghost function SnapshotOf(w: World): Snapshot
    reads Parts(w)
  {
    Snapshot(w.Now(), w.log)
  }

  /** Everything a run does has been done; undisturbed, that leads here from where it began. */
  ghost predicate Synced(task: Task, plan: Plan, was: State)
    reads Parts(task.world)
  {
    && plan.limit >= 1 && plan.id == task.me
    && Completed(task.world, task.me, plan)
    && (Calm(task.env) ==> History(was, RunEvents(plan)) && task.world.Now() == After(was, RunEvents(plan)))
  }

  /** Whether a run of the table had begun when it failed. */
  predicate HadBegun(e: RunError) {
    e.InTable? && e.error.Failed?
  }

  /** Untouched if no run had begun; else some of a run's events and no checkpoint advance,
      which undisturbed leaves whole batches merged, or all, and the checkpoint as it was. */
  ghost predicate LeftFailed(task: Task, plan: Plan, was: State, e: RunError)
    reads Parts(task.world)
  {
    && plan.limit >= 1 && plan.id == task.me
    && (!HadBegun(e) ==> task.world.Now() == was)
    && (HadBegun(e) ==> CutOff(task.world, task.me, RunEvents(plan)))
    && (HadBegun(e) && Calm(task.env) && Settled(was) ==>
          && task.world.runs == map[]
          && Reaches(was, task.world.Now(), plan, MergedBy(plan, |task.world.mine[task.me]| - 1)))
  }

  /** The checkpoint's files can be read, or there is nothing in them. */
  predicate Readable(task: Task, was: State) {
    task.lost || task.readable || was.marks.rows == []
  }

  /** Nothing stands in the way of syncing the table. */
  predicate Goes(task: Task, plan: Plan, was: State)
    requires plan.limit >= 1
  {
    && Names.Accepted(task.sync.table)
    && Readable(task, was)
    && RunsThrough(task.sync, task.columns, task.decode, task.env, plan, was.data.commits, was.marks.commits)
  }

  /** What the error a table fails with comes from. */
  ghost predicate FailsFor(task: Task, plan: Plan, was: State, e: RunError)
    requires plan.limit >= 1
  {
    match e
    case Unsafe(_) => !Names.Accepted(task.sync.table)
    case InTable(_, Unreadable) => Names.Accepted(task.sync.table) && !Readable(task, was)
    case InTable(_, Failed(error)) =>
      && Names.Accepted(task.sync.table) && Readable(task, was)
      && Caused(error, task.sync, task.columns, task.decode, task.env, plan, was.data.commits, was.marks.commits)
    case _ => false
  }

  /** With nobody else about, the plan's answer is one to the query on the source as it was. */
  predicate Fetches(task: Task, limit: nat, plan: Plan, was: State) {
    && plan.limit == limit && plan.lost == task.lost
    && (Calm(task.env) && Names.Accepted(task.sync.table) && Readable(task, was)
        && Starts(task.sync, task.columns, task.env, was.data.commits) ==>
          IsAnswer(plan.answer, was.source, From(was, plan)))
  }

  lemma FailsForStops(task: Task, plan: Plan, was: State, e: RunError)
    requires plan.limit >= 1 && Calm(task.env) && FailsFor(task, plan, was, e)
    ensures !Goes(task, plan, was)
  {
    hide Names.Accepted, Caused, RunsThrough, Calm;
    if e.InTable? && e.error.Failed? {
      CausedStops(e.error.error, task.sync, task.columns, task.decode, task.env, plan,
                  was.data.commits, was.marks.commits);
    }
  }

  /** Nobody else about, nothing failing, every table there to open, the configuration and the
      catalog as they should be, and every row of the source converting. */
  predicate Untroubled(task: Task, was: State) {
    && Calm(task.env)
    && (forall i | 0 <= i < |task.env| :: !task.env[i].fails && task.env[i].loads && task.env[i].creates)
    && Names.Accepted(task.sync.table) && Readable(task, was)
    && Checked(task.sync).Ok? && LookedUp(task.sync, task.columns).Ok? && RecordBatches.TypesAgree(task.columns)
    && (forall k | k in was.source :: RecordBatches.RowConverts(task.columns, task.decode(was.source[k])))
  }

  /** Which is enough. */
  lemma UntroubledGoes(task: Task, limit: nat, plan: Plan, was: State)
    requires limit >= 1 && Untroubled(task, was) && Fetches(task, limit, plan, was)
    ensures Goes(task, plan, was)
  {
    hide Names.Accepted, Checked, RecordBatches.TypesAgree, RecordBatches.RowConverts, LoopAwaits;
    LookedUpExactly(task.sync, task.columns);
    hide LookedUp;
    assert Starts(task.sync, task.columns, task.env, was.data.commits);
    forall i | 0 <= i < |plan.answer|
      ensures RecordBatches.RowConverts(task.columns, task.decode(plan.answer[i]))
    {
      assert was.source[plan.answer[i].key] == plan.answer[i];
    }
  }

  /** A line of the report: its counts are the rows the run's commits found missing and found
      there; undisturbed, the first is by how much the table has grown. */
  ghost predicate Tabled(task: Task, line: Stats, was: State)
    reads Parts(task.world)
  {
    && task.world.Count(task.me) == Metrics(line.inserted, line.updated)
    && (Calm(task.env) ==> |task.world.data.rows| == |was.data.rows| + line.inserted)
  }

  function Fetched(plans: seq<Plan>): nat {
    if plans == [] then 0 else Fetched(plans[..|plans| - 1]) + |plans[|plans| - 1].answer|
  }

  lemma FetchedMore(plans: seq<Plan>, p: Plan)
    ensures Fetched(plans + [p]) == Fetched(plans) + |p.answer|
  {
    assert (plans + [p])[..|plans|] == plans;
  }

  /** Progress reports are running sums over the tables synced so far. */
  predicate Reports(reported: seq<Progress>, tasks: seq<Task>, plans: seq<Plan>) {
    && |reported| <= |plans| <= |tasks|
    && (forall i | 0 <= i < |reported| ::
          reported[i] == Progress(tasks[i].sync.table, i + 1, |tasks|, Fetched(plans[..i + 1])))
  }

  predicate Tabulates(report: Report, tasks: seq<Task>, plans: seq<Plan>) {
    && |report.tables| == |plans| <= |tasks|
    && report.totalRowsFetched == Fetched(plans)
    && (forall i | 0 <= i < |plans| ::
          Counts(report.tables[i], tasks[i].sync, |plans[i].answer|))
  }

  lemma ReportsMore(reported: seq<Progress>, tasks: seq<Task>, plans: seq<Plan>, plan: Plan)
    requires Reports(reported, tasks, plans) && |reported| == |plans| < |tasks|
    ensures Reports(reported, tasks, plans + [plan])
    ensures var i := |plans|;
            Reports(reported + [Progress(tasks[i].sync.table, i + 1, |tasks|, Fetched(plans + [plan]))],
                    tasks, plans + [plan])
  {
    hide Fetched;
    var more := plans + [plan];
    forall i | 0 <= i < |reported|
      ensures reported[i] == Progress(tasks[i].sync.table, i + 1, |tasks|, Fetched(more[..i + 1]))
    {
      assert more[..i + 1] == plans[..i + 1];
    }
    assert more[..|more|] == more;
  }

  lemma TabulatesMore(report: Report, tasks: seq<Task>, plans: seq<Plan>, plan: Plan, stats: Stats)
    requires Tabulates(report, tasks, plans) && |plans| < |tasks|
    requires Counts(stats, tasks[|plans|].sync, |plan.answer|)
    ensures Tabulates(Report(report.tables + [stats], report.totalRowsFetched + stats.fetched), tasks, plans + [plan])
    ensures report.totalRowsFetched + stats.fetched == Fetched(plans + [plan]) && |report.tables| == |plans|
  {
    FetchedMore(plans, plan);
  }

  ghost predicate AllReady(tasks: seq<Task>, n: nat)
    reads AllParts(tasks)
  {
    forall i | n <= i < |tasks| :: Ready(tasks[i])
  }

  ghost predicate AllSynced(tasks: seq<Task>, plans: seq<Plan>, before: seq<Snapshot>, n: nat)
    requires n <= |tasks| == |before| && n <= |plans|
    reads AllParts(tasks)
  {
    forall i | 0 <= i < n :: Synced(tasks[i], plans[i], before[i].state)
  }

  /** The first `n` tables are synced, each with its line of the report. */
  ghost predicate AllDone(tasks: seq<Task>, plans: seq<Plan>, lines: seq<Stats>, before: seq<Snapshot>, n: nat)
    requires n <= |tasks| == |before| && n <= |plans| && n <= |lines|
    reads AllParts(tasks)
  {
    forall i | 0 <= i < n ::
      Synced(tasks[i], plans[i], before[i].state) && Tabled(tasks[i], lines[i], before[i].state)
  }

  lemma DoneTells(tasks: seq<Task>, plans: seq<Plan>, lines: seq<Stats>, before: seq<Snapshot>, n: nat)
    requires n <= |tasks| == |before| && n <= |plans| && n <= |lines| && AllDone(tasks, plans, lines, before, n)
    ensures AllSynced(tasks, plans, before, n) && AllTabled(tasks, lines, before, n)
    ensures forall plan :: AllSynced(tasks, plans + [plan], before, n)
  {
    hide Synced, Tabled;
  }

  ghost predicate AllTabled(tasks: seq<Task>, lines: seq<Stats>, before: seq<Snapshot>, n: nat)
    requires n <= |tasks| == |before| && n <= |lines|
    reads AllParts(tasks)
  {
    forall i | 0 <= i < n :: Tabled(tasks[i], lines[i], before[i].state)
  }

  /** The first `n` tables had nothing in their way. */
  predicate AllGo(tasks: seq<Task>, plans: seq<Plan>, before: seq<Snapshot>, n: nat)
    requires n <= |tasks| == |before| && n <= |plans|
  {
    forall i | 0 <= i < n :: plans[i].limit >= 1 && Goes(tasks[i], plans[i], before[i].state)
  }

  predicate AllUntroubled(tasks: seq<Task>, before: seq<Snapshot>)
    requires |tasks| == |before|
  {
    forall i | 0 <= i < |tasks| :: Untroubled(tasks[i], before[i].state)
  }

  predicate AllFetch(tasks: seq<Task>, limit: nat, plans: seq<Plan>, before: seq<Snapshot>) {
    |plans| <= |tasks| == |before| && forall i | 0 <= i < |plans| :: Fetches(tasks[i], limit, plans[i], before[i].state)
  }

  /** The tables from the `n`-th on are as they were. */
  ghost predicate Still(tasks: seq<Task>, before: seq<Snapshot>, n: nat)
    requires |tasks| == |before|
    reads AllParts(tasks)
  {
    forall i | n <= i < |tasks| :: SnapshotOf(tasks[i].world) == before[i]
  }

  lemma PartOf(tasks: seq<Task>, i: nat)
    requires i < |tasks|
    ensures Parts(tasks[i].world) <= AllParts(tasks)
  {
  }

  lemma WasOf(w: World, was: State)
    requires w.Now() == was
    ensures was.source == w.source && was.data == w.data.Value() && was.marks == w.marks.Value()
  {
  }

  lemma NowRuns(w: World)
    ensures w.Now().runs == w.runs
  {
  }

  /** One table of a run. */
  method SyncTask(task: Task, limit: nat, ghost was: State) returns (r: Result<Stats, RunError>, ghost plan: Plan)
    requires Ready(task) && limit >= 1 && task.world.Now() == was
    modifies Parts(task.world)
    ensures r.Ok? ==> Synced(task, plan, was) && Counts(r.value, task.sync, |plan.answer|)
    ensures r.Ok? ==> Tabled(task, r.value, was)
    ensures r.Err? ==> LeftFailed(task, plan, was, r.error) && Blames(r.error, task.sync)
    ensures r.Ok? ==> plan.limit >= 1 && Goes(task, plan, was)
    ensures r.Err? ==> plan.limit >= 1 && FailsFor(task, plan, was, r.error)
    ensures Fetches(task, limit, plan, was)
  {
    var w := task.world;
    WasOf(w, was);
    hide World.Valid, World.Now, RunEvents, Names.Accepted, Counts, RunsThrough, Caused, Starts, IsAnswer, Calm;
    hide Checked, LookedUp, Goes, FailsFor, Fetches, Completed, Undisturbed, CutOff, Synced, LeftFailed, RowsConvert;
    hide Stored;
    var synced;
    synced, plan := SyncTable(w, task.sync, task.columns, limit, task.me, task.lost, task.readable, true,
                              task.at, task.env, task.decode);
    SyncedTold(task, limit, plan, was, synced);
    if synced.Ok? {
      UndisturbedSynced(task, plan, was);
      return Ok(synced.value), plan;
    }
    r := Err(ErrorOf(task, synced.error));
    FailureLeaves(task, plan, was, r.error);
  }

  lemma FailureLeaves(task: Task, plan: Plan, was: State, e: RunError)
    requires plan.limit >= 1 && plan.id == task.me
    requires !HadBegun(e) ==> task.world.Now() == was
    requires HadBegun(e) ==> CutOff(task.world, task.me, RunEvents(plan))
    requires HadBegun(e) && Calm(task.env) ==> Undisturbed(task.world, task.me, was)
    ensures LeftFailed(task, plan, was, e)
  {
    hide World.Now, RunEvents, Reaches, Calm;
    if HadBegun(e) && Calm(task.env) && Settled(was) {
      CutOffRun(was, plan, task.world.mine[task.me]);
      NowRuns(task.world);
    }
  }

  /** `in_table`: a failure says which table it was, unless it is about the table's name. */
  function ErrorOf(task: Task, e: TableError): RunError {
    if e.Refused? then Unsafe(e.name) else InTable(task.sync.table, e)
  }

  /** What one table's sync says of the table. */
  lemma SyncedTold(task: Task, limit: nat, plan: Plan, was: State, r: Result<Stats, TableError>)
    requires plan.limit == limit >= 1 && plan.lost == task.lost
    requires !Names.Accepted(task.sync.table) <==> r.Err? && r.error.Refused?
    requires r == Err(Unreadable) <==> Names.Accepted(task.sync.table) && !Readable(task, was)
    requires r != Err(Unreachable)
    requires r.Ok? ==>
      RunsThrough(task.sync, task.columns, task.decode, task.env, plan, was.data.commits, was.marks.commits)
    requires r.Err? && r.error.Failed? ==>
      Caused(r.error.error, task.sync, task.columns, task.decode, task.env, plan, was.data.commits, was.marks.commits)
    requires Calm(task.env) && Began(r) && Starts(task.sync, task.columns, task.env, was.data.commits) ==>
      IsAnswer(plan.answer, was.source, From(was, plan))
    ensures r.Ok? ==> Goes(task, plan, was)
    ensures r.Err? ==> FailsFor(task, plan, was, ErrorOf(task, r.error))
    ensures Fetches(task, limit, plan, was)
  {
    hide Names.Accepted, RunsThrough, Caused, Starts, IsAnswer, Calm, Stored;
  }

  lemma UndisturbedSynced(task: Task, plan: Plan, was: State)
    requires plan.limit >= 1 && plan.id == task.me && Completed(task.world, task.me, plan)
    requires Calm(task.env) ==> Undisturbed(task.world, task.me, was)
    ensures Synced(task, plan, was)
  {
  }

  lemma NothingYet(tasks: seq<Task>, before: seq<Snapshot>)
    requires |before| == |tasks|
    ensures Reports([], tasks, []) && AllSynced(tasks, [], before, 0) && Tabulates(Report([], 0), tasks, [])
    ensures AllDone(tasks, [], [], before, 0) && AllTabled(tasks, [], before, 0) && AllGo(tasks, [], before, 0)
    ensures forall limit :: AllFetch(tasks, limit, [], before)
  {
  }

  lemma NextStands(tasks: seq<Task>, before: seq<Snapshot>, i: nat)
    requires i < |tasks| == |before| && AllReady(tasks, i) && Still(tasks, before, i)
    ensures Ready(tasks[i]) && tasks[i].world.Now() == before[i].state
  {
    assert SnapshotOf(tasks[i].world) == before[i];
  }

  /** The same, seen from the whole catalog. */
  method RunTable(tasks: seq<Task>, limit: nat, ghost plans: seq<Plan>, ghost lines: seq<Stats>,
                  ghost before: seq<Snapshot>, i: nat)
    returns (r: Result<Stats, RunError>, ghost plan: Plan)
    requires Apart(tasks) && i == |plans| == |lines| < |tasks| == |before| && limit >= 1
    requires AllReady(tasks, i) && AllDone(tasks, plans, lines, before, i) && Still(tasks, before, i)
    modifies Parts(tasks[i].world)
    ensures AllReady(tasks, i + 1) && AllDone(tasks, plans, lines, before, i) && Still(tasks, before, i + 1)
    ensures r.Ok? ==> AllDone(tasks, plans + [plan], lines + [r.value], before, i + 1)
    ensures r.Ok? ==> Counts(r.value, tasks[i].sync, |plan.answer|)
    ensures r.Err? ==> LeftFailed(tasks[i], plan, before[i].state, r.error) && Blames(r.error, tasks[i].sync)
    ensures plan.limit >= 1 && Fetches(tasks[i], limit, plan, before[i].state)
    ensures if r.Ok? then Goes(tasks[i], plan, before[i].state) else FailsFor(tasks[i], plan, before[i].state, r.error)
  {
    hide Ready, Synced, LeftFailed, Counts, Blames, SnapshotOf, Tabled, Goes, FailsFor, Fetches, World.Now;
    NextStands(tasks, before, i);
    r, plan := SyncTask(tasks[i], limit, before[i].state);
  }

  lemma FetchMore(tasks: seq<Task>, limit: nat, plans: seq<Plan>, before: seq<Snapshot>, plan: Plan)
    requires AllFetch(tasks, limit, plans, before) && |plans| < |tasks|
    requires Fetches(tasks[|plans|], limit, plan, before[|plans|].state)
    ensures AllFetch(tasks, limit, plans + [plan], before)
  {
    hide Fetches;
  }

  lemma GoMore(tasks: seq<Task>, plans: seq<Plan>, before: seq<Snapshot>, plan: Plan)
    requires |plans| < |tasks| == |before| && AllGo(tasks, plans, before, |plans|)
    requires plan.limit >= 1 && Goes(tasks[|plans|], plan, before[|plans|].state)
    ensures AllGo(tasks, plans + [plan], before, |plans| + 1)
  {
    hide Goes;
  }

  /** A table that fails was not untroubled. */
  lemma NotUntroubled(tasks: seq<Task>, limit: nat, plans: seq<Plan>, before: seq<Snapshot>, i: nat, e: RunError)
    requires limit >= 1 && i < |plans| && AllFetch(tasks, limit, plans, before)
    requires plans[i].limit >= 1 && FailsFor(tasks[i], plans[i], before[i].state, e)
    ensures !Untroubled(tasks[i], before[i].state)
  {
    hide Goes, FailsFor, Fetches;
    assert Fetches(tasks[i], limit, plans[i], before[i].state);
    if Untroubled(tasks[i], before[i].state) {
      UntroubledGoes(tasks[i], limit, plans[i], before[i].state);
      FailsForStops(tasks[i], plans[i], before[i].state, e);
    }
  }

  /**
   * `run`. Tables before the one a run ends at are fully synced, later ones untouched. With
   * an error the table it ends at has been cut off; when the callback stops the run, exactly
   * the reported tables are synced.
   */
  method Run(config: SyncConfig, tasks: seq<Task>, connects: bool, onProgress: Progress -> bool,
             ghost before: seq<Snapshot>)
    returns (r: Result<Report, RunError>, reported: seq<Progress>, ghost plans: seq<Plan>)
    requires Apart(tasks) && AllReady(tasks, 0) && |before| == |tasks| && Still(tasks, before, 0)
    modifies AllParts(tasks)
    ensures Reports(reported, tasks, plans)
    ensures AllSynced(tasks, plans, before, |reported|)
    ensures Still(tasks, before, |plans|)
    ensures forall i | 0 <= i < |reported| - 1 :: onProgress(reported[i])
    ensures r.Ok? ==> |reported| == |tasks| && Tabulates(r.value, tasks, plans)
    ensures r.Ok? ==> AllTabled(tasks, r.value.tables, before, |tasks|) && AllGo(tasks, plans, before, |tasks|)
    ensures AllFetch(tasks, config.fetchBatchSize, plans, before)
    ensures ValidateConfig(config).None? && (tasks == [] || connects) && AllUntroubled(tasks, before) ==>
      r.Ok? || r == Err(Interrupted)
    ensures r == Err(Interrupted) <==> reported != [] && !onProgress(reported[|reported| - 1])
    ensures r == Err(Interrupted) ==> |plans| == |reported|
    ensures ValidateConfig(config).Some? ==> r == Err(Internal(ValidateConfig(config).value)) && plans == []
    ensures r.Err? && r.error.Internal? ==> ValidateConfig(config).Some?
    ensures ValidateConfig(config).None? && tasks == [] ==> r == Ok(Report([], 0))
    ensures r == Err(Connect) <==> ValidateConfig(config).None? && tasks != [] && !connects
    ensures r == Err(Connect) ==> plans == []
    ensures r.Err? && (r.error.Unsafe? || r.error.InTable?) ==>
      && |plans| == |reported| + 1
      && LeftFailed(tasks[|reported|], plans[|reported|], before[|reported|].state, r.error)
      && plans[|reported|].limit >= 1
      && FailsFor(tasks[|reported|], plans[|reported|], before[|reported|].state, r.error)
      && Blames(r.error, tasks[|reported|].sync)
  {
    hide AllReady, AllSynced, Still, Apart, AllParts, Parts, LeftFailed, Reports, Tabulates, Fetched;
    hide AllDone, AllTabled, AllGo, AllFetch, FailsFor, Fetches, Goes, Untroubled;
    reported, plans := [], [];
    NothingYet(tasks, before);
    var setting := ValidateConfig(config);
    if setting.Some? {
      return Err(Internal(setting.value)), reported, plans;
    }
    if tasks == [] {
      return Ok(Report([], 0)), reported, plans;
    }
    if !connects {
      return Err(Connect), reported, plans;
    }
    var report := Report([], 0);
    var i := 0;
    while i < |tasks|
      invariant i <= |tasks| && |plans| == |reported| == |report.tables| == i
      invariant Reports(reported, tasks, plans) && Tabulates(report, tasks, plans)
      invariant AllGo(tasks, plans, before, i)
      invariant AllFetch(tasks, config.fetchBatchSize, plans, before)
      invariant AllReady(tasks, i) && AllDone(tasks, plans, report.tables, before, i) && Still(tasks, before, i)
      invariant forall k | 0 <= k < i :: onProgress(reported[k])
    {
      PartOf(tasks, i);
      var synced;
      ghost var plan;
      synced, plan := RunTable(tasks, config.fetchBatchSize, plans, report.tables, before, i);
      ReportsMore(reported, tasks, plans, plan);
      FetchMore(tasks, config.fetchBatchSize, plans, before, plan);
      if synced.Err? {
        DoneTells(tasks, plans, report.tables, before, i);
        plans := plans + [plan];
        NotUntroubled(tasks, config.fetchBatchSize, plans, before, i, synced.error);
        return Err(synced.error), reported, plans;
      }
      TabulatesMore(report, tasks, plans, plan, synced.value);
      GoMore(tasks, plans, before, plan);
      plans := plans + [plan];
      report := Report(report.tables + [synced.value], report.totalRowsFetched + synced.value.fetched);
      var progress := Progress(tasks[i].sync.table, |report.tables|, |tasks|, report.totalRowsFetched);
      reported, i := reported + [progress], i + 1;
      if !onProgress(progress) {
        DoneTells(tasks, plans, report.tables, before, i);
        return Err(Interrupted), reported, plans;
      }
    }
    DoneTells(tasks, plans, report.tables, before, i);
    return Ok(report), reported, plans;
  }
}
