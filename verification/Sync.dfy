/**
 * `sync_table` and `sync_one` of src/pipeline.rs as they run: locals, a loop over the row
 * stream, and at every await whatever the rest of the world does meanwhile. The class
 * `World` keeps the history of everything that happened; the loop is proved to add to it
 * the events of one run of the protocol, in order, and nothing else.
 */
module Sync {
  import opened Wrappers
  import opened Rows
  import opened Merge
  import opened Query
  import opened Batching
  import opened Protocol
  import opened Complete
  import opened Awaits
  import Names
  import opened Catalog
  import RecordBatches

  // ---------------------------------------------------------------------- whose events

  function RunOf(e: Event): Option<nat> {
    match e
    case ReadMark(id, _) => Some(id)
    case Open(id, _) => Some(id)
    case Ask(id, _) => Some(id)
    case MergeBatch(id, _) => Some(id)
    case OpenMark(id, _) => Some(id)
    case Advance(id, _) => Some(id)
    case Finish(id) => Some(id)
    case Stop(id) => Some(id)
    case _ => None
  }

  /** The events of one run, among everybody's. */
  function Own(events: seq<Event>, me: nat): seq<Event> {
    if events == [] then []
    else Own(events[..|events| - 1], me)
         + (if RunOf(events[|events| - 1]) == Some(me) then [events[|events| - 1]] else [])
  }

  /** An event that ends its run without completing it. */
  predicate CutsShort(s: State, e: Event) {
    match e
    case Stop(id) => true
    case Open(id, opens) => !opens
    case OpenMark(id, opens) => !opens
    case MergeBatch(id, _) => id in s.runs && s.runs[id].Merging? && s.runs[id].handle != s.data.commits
    case Advance(id, _) => id in s.runs && s.runs[id].Advancing? && s.runs[id].handle != s.marks.commits
    case _ => false
  }

  /** A state, the events each run has made so far, the runs whose last event cut them short,
      and the rows each run's commits have inserted and updated. */
  datatype Moment = Moment(state: State, mine: map<nat, seq<Event>>, cut: set<nat>, counted: map<nat, Metrics>)

  function Added(a: Metrics, b: Metrics): Metrics {
    Metrics(a.inserted + b.inserted, a.updated + b.updated)
  }

  function CountOf(counted: map<nat, Metrics>, id: nat): Metrics {
    if id in counted then counted[id] else Metrics(0, 0)
  }

  /** A merge that is not refused: which rows it commits. */
  predicate Commits(s: State, e: Event) {
    e.MergeBatch? && Enabled(s, e) && s.runs[e.run].handle == s.data.commits
  }

  /** The rows a merge finds missing, and those it finds there. */
  function CommitCounts(s: State, e: Event): Metrics
    requires Commits(s, e)
  {
    var run := s.runs[e.run];
    MetricsOf(s.data.rows, run.answer[run.merged..run.merged + e.size])
  }

  /** What all commits of one run in a history inserted and updated. */
  function Tally(s: State, events: seq<Event>, id: nat): Metrics
    requires History(s, events)
    decreases |events|
  {
    if events == [] then Metrics(0, 0)
    else
      var rest := Tally(Apply(s, events[0]), events[1..], id);
      if Commits(s, events[0]) && events[0].run == id then Added(CommitCounts(s, events[0]), rest) else rest
  }

  lemma {:induction false} TallyMore(s: State, events: seq<Event>, e: Event, id: nat)
    requires History(s, events) && Enabled(After(s, events), e)
    ensures History(s, events + [e])
    ensures var u := After(s, events);
            Tally(s, events + [e], id) ==
            if Commits(u, e) && e.run == id then Added(Tally(s, events, id), CommitCounts(u, e))
            else Tally(s, events, id)
    decreases |events|
  {
    hide Apply, Enabled, CommitCounts;
    if events == [] {
      assert events + [e] == [e] && [e][1..] == [];
    } else {
      assert (events + [e])[0] == events[0] && (events + [e])[1..] == events[1..] + [e];
      TallyMore(Apply(s, events[0]), events[1..], e, id);
    }
  }

  function Next(m: Moment, e: Event): Moment
    requires Enabled(m.state, e)
  {
    match RunOf(e)
    case None => m.(state := Apply(m.state, e))
    case Some(id) =>
      Moment(Apply(m.state, e),
             m.mine[id := (if id in m.mine then m.mine[id] else []) + [e]],
             if CutsShort(m.state, e) then m.cut + {id} else m.cut - {id},
             if Commits(m.state, e) then m.counted[id := Added(CountOf(m.counted, id), CommitCounts(m.state, e))]
             else m.counted)
  }

  /** One step of a behaviour: an event enabled at a moment, and the moment it leads to. */
  predicate Step(moments: seq<Moment>, events: seq<Event>, i: nat) {
    && i < |events| && i + 1 < |moments|
    && Enabled(moments[i].state, events[i])
    && moments[i + 1] == Next(moments[i], events[i])
  }

  /** A behaviour from a first moment: the moments passed through and the events between them. */
  predicate Behaviour(moments: seq<Moment>, events: seq<Event>) {
    && |moments| == |events| + 1
    && Initial(moments[0].state) && moments[0].mine == map[] && moments[0].cut == {} && moments[0].counted == map[]
    && (forall i | 0 <= i < |events| :: Step(moments, events, i))
  }

  lemma BehaviourFront(moments: seq<Moment>, events: seq<Event>)
    requires Behaviour(moments, events) && events != []
    ensures var n := |events| - 1;
            && Behaviour(moments[..n + 1], events[..n])
            && Step(moments, events, n)
            && events == events[..n] + [events[n]]
  {
    var n := |events| - 1;
    var front, done := moments[..n + 1], events[..n];
    forall i | 0 <= i < n ensures Step(front, done, i) {
      assert Step(moments, events, i);
    }
    assert Step(moments, events, n);
  }

  /** A behaviour is a history of the protocol. */
  lemma {:induction false} BehaviourIsHistory(moments: seq<Moment>, events: seq<Event>)
    requires Behaviour(moments, events)
    ensures History(moments[0].state, events)
    ensures After(moments[0].state, events) == moments[|events|].state
  {
    if events != [] {
      var n := |events| - 1;
      BehaviourFront(moments, events);
      BehaviourIsHistory(moments[..n + 1], events[..n]);
      OneEvent(moments[n].state, events[n]);
      HistoryJoined(moments[0].state, events[..n], [events[n]]);
    }
  }

  /** What a moment says of a run is what the events say. */
  lemma {:induction false} MomentTells(moments: seq<Moment>, events: seq<Event>, id: nat)
    requires Behaviour(moments, events)
    ensures var m := moments[|events|];
            && Own(events, id) == (if id in m.mine then m.mine[id] else [])
            && (id in m.cut <==> Own(events, id) != [] && CutLast(moments, events, id))
  {
    if events != [] {
      var n := |events| - 1;
      BehaviourFront(moments, events);
      MomentTells(moments[..n + 1], events[..n], id);
      OwnExtended(events[..n], events[n], id);
      if RunOf(events[n]) != Some(id) {
        assert moments[|events|].cut == moments[n].cut || id !in {RunOf(events[n]).value};
      }
    }
  }

  /** And what it says the run's commits did. */
  lemma {:induction false} MomentCounts(moments: seq<Moment>, events: seq<Event>, id: nat)
    requires Behaviour(moments, events)
    ensures History(moments[0].state, events)
    ensures CountOf(moments[|events|].counted, id) == Tally(moments[0].state, events, id)
    ensures Own(events, id) == [] ==> CountOf(moments[|events|].counted, id) == Metrics(0, 0)
  {
    BehaviourIsHistory(moments, events);
    if events != [] {
      var n := |events| - 1;
      BehaviourFront(moments, events);
      MomentCounts(moments[..n + 1], events[..n], id);
      BehaviourIsHistory(moments[..n + 1], events[..n]);
      OwnExtended(events[..n], events[n], id);
      TallyMore(moments[0].state, events[..n], events[n], id);
      hide Apply, Enabled, CommitCounts, Tally;
      assert events == events[..n] + [events[n]] && Step(moments, events, n);
    }
  }

  /** The last of a run's events cut it short. */
  predicate CutLast(moments: seq<Moment>, events: seq<Event>, id: nat)
    requires |moments| == |events| + 1
  {
    events != []
    && var n := |events| - 1;
       if RunOf(events[n]) == Some(id) then CutsShort(moments[n].state, events[n])
       else CutLast(moments[..n + 1], events[..n], id)
  }

  lemma BehaviourExtended(moments: seq<Moment>, events: seq<Event>, e: Event)
    requires Behaviour(moments, events) && Enabled(moments[|events|].state, e)
    ensures Behaviour(moments + [Next(moments[|events|], e)], events + [e])
  {
    var longer, more := moments + [Next(moments[|events|], e)], events + [e];
    forall i | 0 <= i < |more| ensures Step(longer, more, i) {
      if i < |events| {
        assert Step(moments, events, i);
      }
    }
  }

  lemma OwnExtended(events: seq<Event>, e: Event, me: nat)
    ensures Own(events + [e], me) == Own(events, me) + (if RunOf(e) == Some(me) then [e] else [])
  {
    assert (events + [e])[..|events|] == events;
  }

  /** Other runs' events leave a run where it stands. */
  lemma OthersLeaveRun(s: State, e: Event, me: nat)
    requires Enabled(s, e) && RunOf(e) != Some(me)
    ensures me in s.runs <==> me in Apply(s, e).runs
    ensures me in s.runs ==> Apply(s, e).runs[me] == s.runs[me]
  {
  }

  lemma BatchCounted(s: State, me: nat, batch: seq<Row>)
    requires Invariant(s) && IsMerging(s, me) && s.runs[me].merged + |batch| <= |s.runs[me].answer|
    requires batch == s.runs[me].answer[s.runs[me].merged..s.runs[me].merged + |batch|]
    ensures var m := MetricsOf(s.data.rows, batch);
            m.inserted + m.updated == |batch| && |Merged(s.data.rows, batch)| == |s.data.rows| + m.inserted
  {
    var run := s.runs[me];
    assert RunOk(s, run);
    NextBatch(run.answer, run.merged, |batch|);
    MergeConserves(s.data.rows, batch);
  }

  /** What the protocol says of merging the rows `batch` next. */
  lemma MergeBatchOutcome(s: State, me: nat, batch: seq<Row>)
    requires IsMerging(s, me) && batch != [] && s.runs[me].merged + |batch| <= |s.runs[me].answer|
    requires batch == s.runs[me].answer[s.runs[me].merged..s.runs[me].merged + |batch|]
    ensures Enabled(s, MergeBatch(me, |batch|))
    ensures var run := s.runs[me];
            Apply(s, MergeBatch(me, |batch|)) ==
            if run.handle != s.data.commits then s.(runs := s.runs - {me})
            else s.(data := Committed(s.data, batch),
                    runs := s.runs[me := Merging(run.from, s.data.commits + 1, run.answer, run.merged + |batch|,
                                               Track(run.newest, batch))])
  {
    hide Merged, Track, LastMark, IsAnswer;
  }

  /** And what is told of it. */
  lemma MergeBatchTold(m: Moment, me: nat, batch: seq<Row>)
    requires IsMerging(m.state, me) && batch != [] && m.state.runs[me].merged + |batch| <= |m.state.runs[me].answer|
    requires batch == m.state.runs[me].answer[m.state.runs[me].merged..m.state.runs[me].merged + |batch|]
    requires Enabled(m.state, MergeBatch(me, |batch|)) && me in m.mine
    ensures var n, ok := Next(m, MergeBatch(me, |batch|)), m.state.runs[me].handle == m.state.data.commits;
            && n.mine == m.mine[me := m.mine[me] + [MergeBatch(me, |batch|)]]
            && (me in n.cut <==> !ok)
            && CountOf(n.counted, me) == (if ok then Added(CountOf(m.counted, me), MetricsOf(m.state.data.rows, batch))
                                          else CountOf(m.counted, me))
  {
    hide Apply, MetricsOf, Merged, Track, IsAnswer;
  }

  // ----------------------------------------------------------------------------- the world

  class World {
    const table: string
    const data: DeltaTable
    const marks: DeltaTable
    var source: Table
    var writes: nat
    var seen: Option<int>
    var runs: map<nat, Run>
    ghost const start: State
    ghost var moments: seq<Moment>
    ghost var log: seq<Event>
    ghost var mine: map<nat, seq<Event>>
    ghost var cut: set<nat>
    ghost var counted: map<nat, Metrics>

    function Now(): State
      reads this, data, marks
    {
      State(table, source, writes, seen, data.Value(), marks.Value(), runs)
    }

    /** The history so far is one of the protocol's and leads to the present state. */
    ghost predicate Valid()
      reads this, data, marks
    {
      && data != marks
      && Behaviour(moments, log)
      && moments[0].state == start
      && Moment(Now(), mine, cut, counted) == moments[|log|]
    }

    /** Hence the present state satisfies the protocol's invariant. */
    lemma Sound()
      requires Valid()
      ensures Initial(start) && History(start, log) && After(start, log) == Now()
      ensures Invariant(Now())
    {
      BehaviourIsHistory(moments, log);
      InitialInvariant(moments[0].state);
      InvariantHolds(moments[0].state, log);
    }

    /** What a run's commits have inserted and updated so far. */
    ghost function Count(me: nat): Metrics
      reads this`counted
    {
      CountOf(counted, me)
    }

    /** And the tallies are those of the history. */
    lemma Tells(me: nat)
      requires Valid()
      ensures History(start, log) && After(start, log) == Now()
      ensures Own(log, me) == (if me in mine then mine[me] else [])
      ensures me in cut <==> Own(log, me) != [] && CutLast(moments, log, me)
      ensures Count(me) == Tally(start, log, me)
      ensures me !in mine ==> Count(me) == Metrics(0, 0)
    {
      BehaviourIsHistory(moments, log);
      MomentTells(moments, log, me);
      MomentCounts(moments, log, me);
    }

    constructor (table: string, source: Table, writes: nat)
      requires forall k | k in source :: source[k].key == k && Usable(k) && source[k].version < writes
      ensures Valid() && fresh(data) && fresh(marks) && log == []
      ensures Initial(Now()) && Now().source == source && this.table == table
    {
      this.table := table;
      this.source, this.writes, this.seen, this.runs := source, writes, None, map[];
      this.data := new DeltaTable();
      this.marks := new DeltaTable();
      this.start := State(table, source, writes, None, Delta(0, []), Delta(0, []), map[]);
      this.moments := [Moment(State(table, source, writes, None, Delta(0, []), Delta(0, []), map[]), map[], {}, map[])];
      this.mine, this.cut, this.counted := map[], {}, map[];
      this.log := [];
    }

    /** Ghost bookkeeping shared by every step. */
    ghost method Record(e: Event)
      requires data != marks && Behaviour(moments, log) && moments[0].state == start
      requires Enabled(moments[|log|].state, e) && Now() == Apply(moments[|log|].state, e)
      requires mine == moments[|log|].mine && cut == moments[|log|].cut && counted == moments[|log|].counted
      modifies this`log, this`moments, this`mine, this`cut, this`counted
      ensures Valid() && log == old(log) + [e]
      ensures Moment(Now(), mine, cut, counted) == Next(old(moments)[|old(log)|], e)
    {
      BehaviourExtended(moments, log, e);
      var next := Next(moments[|log|], e);
      moments, log := moments + [next], log + [e];
      mine, cut, counted := next.mine, next.cut, next.counted;
    }

    /** Any step of the source, an operator or another run. */
    method Happen(e: Event)
      requires Valid() && Enabled(Now(), e)
      modifies this, data, marks
      ensures Valid() && log == old(log) + [e] && Now() == Apply(old(Now()), e)
      ensures RunOf(e).None? ==> mine == old(mine)
      ensures RunOf(e).Some? ==> mine.Keys == old(mine).Keys + {RunOf(e).value}
      ensures forall id | id in old(mine) && RunOf(e) != Some(id) :: mine[id] == old(mine)[id]
      ensures forall id: nat | RunOf(e) != Some(id) :: Count(id) == old(Count(id))
    {
      hide Apply, Enabled, CutsShort, Commits, CommitCounts, Added, Behaviour;
      TableStays(Now(), e);
      var next := Apply(Now(), e);
      source, writes, seen, runs := next.source, next.writes, next.seen, next.runs;
      data.commits, data.rows := next.data.commits, next.data.rows;
      marks.commits, marks.rows := next.marks.commits, next.marks.rows;
      Record(e);
    }

    /** The rest of the world moves: those of the scheduled events that can happen and are not ours. */
    method Pause(me: nat, env: seq<Await>, tick: nat) returns (now: Await)
      requires Valid()
      modifies this, data, marks
      ensures Valid() && old(log) <= log
      ensures me in mine <==> me in old(mine)
      ensures me in mine ==> mine[me] == old(mine)[me]
      ensures me in runs <==> me in old(runs)
      ensures me in runs ==> runs[me] == old(runs)[me]
      ensures Count(me) == old(Count(me))
      ensures now == Awaited(env, tick)
      ensures Calm(env) ==> log == old(log) && Now() == old(Now())
      ensures Calm(env) ==>
        source == old(source) && data.Value() == old(data.Value()) && marks.Value() == old(marks.Value())
    {
      now := Awaited(env, tick);
      var i := 0;
      while i < |now.others|
        invariant Valid() && old(log) <= log && i <= |now.others|
        invariant me in mine <==> me in old(mine)
        invariant me in mine ==> mine[me] == old(mine)[me]
        invariant me in runs <==> me in old(runs)
        invariant me in runs ==> runs[me] == old(runs)[me]
        invariant Count(me) == old(Count(me))
        invariant i == 0 ==> log == old(log) && Now() == old(Now())
      {
        var e := now.others[i];
        if RunOf(e) != Some(me) && Enabled(Now(), e) {
          OthersLeaveRun(Now(), e, me);
          Happen(e);
        }
        i := i + 1;
      }
    }

    /** The run ends where it stands: a crash, a timeout or an error returned to the caller. */
    method Halt(me: nat)
      requires Valid() && me in runs && me in mine
      modifies this
      ensures Valid() && log == old(log) + [Stop(me)]
      ensures runs == old(runs) - {me} && mine == old(mine)[me := old(mine)[me] + [Stop(me)]] && me in cut
      ensures counted == old(counted) && source == old(source)
    {
      runs := runs - {me};
      Record(Stop(me));
    }

    /** An await that may fail, which ends the run. */
    method Wait(me: nat, env: seq<Await>, tick: nat) returns (failed: bool)
      requires Valid() && me in runs && me in mine
      modifies this, data, marks
      ensures Valid() && old(log) <= log && me in mine
      ensures failed ==> me !in runs && me in cut && mine[me] == old(mine)[me] + [Stop(me)]
      ensures !failed ==> me in runs && runs[me] == old(runs)[me] && mine[me] == old(mine)[me]
      ensures failed <==> Awaited(env, tick).fails
      ensures Count(me) == old(Count(me))
      ensures Calm(env) ==> |log| - |mine[me]| == |old(log)| - |old(mine)[me]|
      ensures Calm(env) ==>
        source == old(source) && data.Value() == old(data.Value()) && marks.Value() == old(marks.Value())
    {
      var now := Pause(me, env, tick);
      failed := now.fails;
      if failed {
        Halt(me);
      }
    }

    /** `checkpoint::read`: a load that fails reads as never synced, a file that cannot be read
        is an error, and the run has not begun */
    method ReadMark(me: nat, lost: bool, readable: bool) returns (r: Result<Option<int>, ()>)
      requires Valid() && me !in runs && me !in mine
      modifies this
      ensures Valid()
      ensures r.Err? <==> !lost && !readable && marks.rows != []
      ensures r.Err? ==> Now() == old(Now()) && log == old(log) && runs == old(runs)
      ensures r.Ok? ==> log == old(log) + [Event.ReadMark(me, lost)] && mine == old(mine)[me := [log[|old(log)|]]]
      ensures r.Ok? ==> r.value == (if lost then None else Stored(old(marks.Value())))
      ensures r.Ok? ==> runs == old(runs)[me := Started(r.value)]
      ensures counted == old(counted) && source == old(source)
    {
      if !lost && !readable && marks.rows != [] {
        return Err(());
      }
      var last := if lost || marks.rows == [] then None else marks.rows[0].mark;
      runs := runs[me := Started(last)];
      Record(Event.ReadMark(me, lost));
      assert [] + [Event.ReadMark(me, lost)] == [Event.ReadMark(me, lost)];
      return Ok(last);
    }

    /** `merge::open_or_create` on the data table */
    method OpenData(me: nat, loads: bool, creates: bool) returns (r: Result<nat, MergeError>)
      requires Valid() && me in runs && me in mine && runs[me].Started?
      modifies this, data
      ensures var e := Open(me, r.Ok?);
              Valid() && log == old(log) + [e]
      ensures mine == old(mine)[me := old(mine)[me] + [log[|old(log)|]]]
      ensures r.Ok? <==> if old(data.commits) != 0 then loads else creates
      ensures r.Ok? ==> runs == old(runs)[me := Holding(old(runs)[me].from, r.value)] && r.value == data.commits
      ensures r.Err? ==> me !in runs && me in cut && r.error == Storage
      ensures data.rows == old(data.rows) && counted == old(counted) && source == old(source)
      ensures marks.Value() == old(marks.Value())
    {
      assert data.commits == 0 ==> data.rows == [] by {
        Sound();
      }
      r := data.OpenOrCreate(loads, creates);
      runs := if r.Ok? then runs[me := Holding(runs[me].from, r.value)] else runs - {me};
      Record(Open(me, r.Ok?));
    }

    /** The `SELECT` */
    method Ask(me: nat) returns (answer: seq<Row>)
      requires Valid() && me in runs && me in mine && runs[me].Holding?
      modifies this
      ensures var e := Event.Ask(me, answer);
              Valid() && log == old(log) + [e]
      ensures mine == old(mine)[me := old(mine)[me] + [log[|old(log)|]]]
      ensures IsAnswer(answer, old(source), old(runs)[me].from)
      ensures runs == old(runs)[me := Merging(old(runs)[me].from, old(runs)[me].handle, answer, 0, None)]
      ensures counted == old(counted)
    {
      Sound();
      answer := Select(source, runs[me].from);
      var run := runs[me];
      seen := Greater(seen, LastMark(answer));
      runs := runs[me := Merging(run.from, run.handle, answer, 0, None)];
      Record(Event.Ask(me, answer));
    }

    /** `merge::upsert` of the next rows of the answer, through the handle the run holds */
    method Upsert(me: nat, handle: nat, batch: seq<Row>, keyColumns: seq<string>, stores: bool)
      returns (r: Result<Outcome, MergeError>)
      requires Valid() && me in runs && me in mine && runs[me].Merging? && runs[me].handle == handle && keyColumns != []
      requires batch != [] && runs[me].merged + |batch| <= |runs[me].answer|
      requires batch == runs[me].answer[runs[me].merged..runs[me].merged + |batch|]
      modifies this, data
      ensures var e := if stores then MergeBatch(me, |batch|) else Stop(me);
              Valid() && log == old(log) + [e]
      ensures mine == old(mine)[me := old(mine)[me] + [log[|old(log)|]]]
      ensures r.Ok? <==> stores && handle == old(data.commits)
      ensures r.Ok? ==>
        var run := old(runs)[me];
        runs == old(runs)[me := Merging(run.from, data.commits, run.answer, run.merged + |batch|,
                                        Track(run.newest, batch))]
      ensures r.Ok? ==> r.value == Outcome(data.commits, MetricsOf(old(data.rows), batch))
      ensures r.Ok? ==> r.value.metrics.inserted + r.value.metrics.updated == |batch|
      ensures r.Ok? ==> |data.rows| == |old(data.rows)| + r.value.metrics.inserted
      ensures r.Ok? ==> Count(me) == Added(old(Count(me)), r.value.metrics)
      ensures marks.Value() == old(marks.Value())
      ensures r.Err? ==> r.error == (if stores then ConcurrentWrite else Storage) && me !in runs && me in cut
    {
      hide MetricsOf, Track;
      if stores {
        r := StoredUpsert(me, handle, batch, keyColumns);
      } else {
        r := data.Upsert(handle, batch, keyColumns, stores);
        Halt(me);
      }
    }

    /** The same when storage takes the commit */
    method StoredUpsert(me: nat, handle: nat, batch: seq<Row>, keyColumns: seq<string>)
      returns (r: Result<Outcome, MergeError>)
      requires Valid() && me in runs && me in mine && runs[me].Merging? && runs[me].handle == handle && keyColumns != []
      requires batch != [] && runs[me].merged + |batch| <= |runs[me].answer|
      requires batch == runs[me].answer[runs[me].merged..runs[me].merged + |batch|]
      modifies this, data
      ensures var e := MergeBatch(me, |batch|);
              Valid() && log == old(log) + [e]
      ensures mine == old(mine)[me := old(mine)[me] + [log[|old(log)|]]]
      ensures r.Ok? <==> handle == old(data.commits)
      ensures r.Ok? ==>
        var run := old(runs)[me];
        runs == old(runs)[me := Merging(run.from, data.commits, run.answer, run.merged + |batch|,
                                        Track(run.newest, batch))]
      ensures r.Ok? ==> r.value == Outcome(data.commits, MetricsOf(old(data.rows), batch))
      ensures r.Ok? ==> r.value.metrics.inserted + r.value.metrics.updated == |batch|
      ensures r.Ok? ==> |data.rows| == |old(data.rows)| + r.value.metrics.inserted
      ensures r.Ok? ==> Count(me) == Added(old(Count(me)), r.value.metrics)
      ensures marks.Value() == old(marks.Value())
      ensures r.Err? ==> r.error == ConcurrentWrite && me !in runs && me in cut
    {
      hide Apply, Enabled, MetricsOf, Merged, Track, Invariant, Next, CutsShort, Commits, CommitCounts, Added;
      var run := runs[me];
      ghost var before, e := Now(), MergeBatch(me, |batch|);
      assert MetricsOf(data.rows, batch).inserted + MetricsOf(data.rows, batch).updated == |batch|
          && |Merged(data.rows, batch)| == |data.rows| + MetricsOf(data.rows, batch).inserted by {
        Sound();
        BatchCounted(before, me, batch);
      }
      r := data.Upsert(handle, batch, keyColumns, true);
      runs := if r.Err? then runs - {me}
              else runs[me := Merging(run.from, r.value.handle, run.answer, run.merged + |batch|,
                                      Track(run.newest, batch))];
      assert Enabled(before, e) && Now() == Apply(before, e) by {
        MergeBatchOutcome(before, me, batch);
      }
      MergeBatchTold(Moment(before, mine, cut, counted), me, batch);
      Record(e);
    }

    /** The first half of `checkpoint::advance`: `open_or_create` on the checkpoint table */
    method OpenMarks(me: nat, newest: int, loads: bool, creates: bool) returns (r: Result<nat, MergeError>)
      requires Valid() && me in runs && me in mine && runs[me].Merging?
      requires runs[me].merged == |runs[me].answer| && runs[me].newest == Some(newest)
      modifies this, marks
      ensures var e := OpenMark(me, r.Ok?);
              Valid() && log == old(log) + [e]
      ensures mine == old(mine)[me := old(mine)[me] + [log[|old(log)|]]]
      ensures r.Ok? <==> if old(marks.commits) != 0 then loads else creates
      ensures r.Ok? ==> runs == old(runs)[me := Advancing(newest, r.value)] && r.value == marks.commits
      ensures r.Err? ==> me !in runs && me in cut && r.error == Storage
      ensures counted == old(counted)
    {
      r := marks.OpenOrCreate(loads, creates);
      runs := if r.Ok? then runs[me := Advancing(newest, r.value)] else runs - {me};
      Record(OpenMark(me, r.Ok?));
    }

    /** The second half: the upsert of the one checkpoint row */
    method Advance(me: nat, handle: nat, newest: int, at: int, stores: bool) returns (r: Result<Outcome, MergeError>)
      requires Valid() && me in runs && me in mine && runs[me] == Advancing(newest, handle)
      modifies this, marks
      ensures var e := if stores then Event.Advance(me, at) else Stop(me);
              Valid() && log == old(log) + [e]
      ensures mine == old(mine)[me := old(mine)[me] + [log[|old(log)|]]]
      ensures r.Ok? <==> stores && handle == old(marks.commits)
      ensures runs == old(runs) - {me} && (r.Err? <==> me in cut) && counted == old(counted)
      ensures r.Err? ==> r.error == if stores then ConcurrentWrite else Storage
    {
      r := marks.Upsert(handle, [MarkRow(table, newest, at)], ["table_name"], stores);
      runs := runs - {me};
      Record(if stores then Event.Advance(me, at) else Stop(me));
    }

    /** `SELECT MAX(mark)` */
    method Capture() returns (top: Option<int>)
      requires Valid()
      modifies this
      ensures IsMaximum(top, old(source))
      ensures Valid() && log == old(log) + [Event.Capture(top)] && Now() == Apply(old(Now()), Event.Capture(top))
    {
      top := None;
      var left := source.Keys;
      while left != {}
        invariant left <= source.Keys
        invariant forall k | k in source && k !in left :: MarkLe(source[k].mark, top)
        invariant top.Some? ==> exists k | k in source :: source[k].mark == top
        decreases left
      {
        var k :| k in left;
        left := left - {k};
        top := Greater(top, source[k].mark);
      }
      seen := Greater(seen, top);
      Record(Event.Capture(top));
    }

    /** Those of these events that can happen do, in order. */
    method Meanwhile(others: seq<Event>)
      requires Valid()
      modifies this, data, marks
      ensures Valid() && old(log) <= log
      ensures others == [] ==> log == old(log)
    {
      var i := 0;
      while i < |others|
        invariant Valid() && old(log) <= log && i <= |others|
        invariant i == 0 ==> log == old(log)
      {
        if Enabled(Now(), others[i]) {
          Happen(others[i]);
        }
        i := i + 1;
      }
    }

    /** `checkpoint::advance` outside any run: the open, whatever happens meanwhile, and the
        upsert, which a commit in between refuses. Any value is written; one whose rows are in
        Delta is a step of the protocol, so that its history goes on. */
    method SetMark(value: int, at: int, loads: bool, creates: bool, stores: bool, others: seq<Event>)
      returns (r: Result<(), MergeError>, ghost happened: seq<Event>)
      requires Valid()
      modifies this, data, marks
      ensures History(old(Now()), happened)
      ensures var mid := After(old(Now()), happened);
              && (r.Ok? ==> Now() == Marked(mid, value, at) && Stored(marks.Value()) == Some(value))
              && (r.Ok? && Safe(mid, Some(value)) ==> Valid())
              && (r.Err? ==> Now() == mid && Valid())
      ensures var opens := if old(marks.commits) != 0 then loads else creates;
              && (!opens ==> r == Err(Storage) && happened == [])
              && (opens && others == [] ==> happened == [Event.SetMark(value, at, false)])
              && (opens && !stores ==> r == Err(Storage))
              && (opens && stores ==>
                    r == if After(old(Now()), happened).marks.commits == Opened(old(marks.Value())).commits then Ok(())
                         else Err(ConcurrentWrite))
    {
      ghost var before, was := log, Now();
      Sound();
      happened := [];
      var found := marks.OpenOrCreate(loads, creates);
      if found.Err? {
        return Err(found.error), happened;
      }
      Record(Event.SetMark(value, at, false));
      Meanwhile(others);
      happened := Since(before, was);
      r := Upserted(found.value, value, at, stores);
    }

    /** The second half, through the handle the first half gave. */
    method Upserted(handle: nat, value: int, at: int, stores: bool) returns (r: Result<(), MergeError>)
      requires Valid() && handle != 0
      modifies this, marks
      ensures r.Ok? ==> Now() == Marked(old(Now()), value, at) && Stored(marks.Value()) == Some(value)
      ensures r.Ok? && Safe(old(Now()), Some(value)) ==> Valid()
      ensures r.Err? ==> Now() == old(Now()) && Valid()
      ensures r == if !stores then Err(Storage)
                   else if handle != old(marks.commits) then Err(ConcurrentWrite) else Ok(())
    {
      Sound();
      MarkedIs(Now(), value, at);
      hide Merged, Invariant;
      var written := marks.Upsert(handle, [MarkRow(table, value, at)], ["table_name"], stores);
      if written.Err? {
        return Err(written.error);
      }
      if Safe(old(Now()), Some(value)) {
        Record(Event.SetMark(value, at, true));
      }
      return Ok(());
    }

    /** What has happened since the history was `before`. */
    lemma Since(before: seq<Event>, was: State) returns (happened: seq<Event>)
      requires Valid() && before <= log && History(start, before) && After(start, before) == was
      ensures happened == log[|before|..] && History(was, happened) && After(was, happened) == Now()
    {
      Sound();
      happened := log[|before|..];
      assert log == before + happened;
      HistorySplit(start, before, happened);
    }

    /** Nothing to record: the run returns. */
    method Finish(me: nat)
      requires Valid() && me in runs && me in mine && runs[me].Merging?
      requires runs[me].merged == |runs[me].answer| && runs[me].newest == None
      modifies this
      ensures var e := Event.Finish(me);
              Valid() && log == old(log) + [e]
      ensures mine == old(mine)[me := old(mine)[me] + [log[|old(log)|]]]
      ensures runs == old(runs) - {me} && me !in cut && counted == old(counted)
    {
      runs := runs - {me};
      Record(Event.Finish(me));
    }
  }

  // ------------------------------------------------------------------------- configuration

  datatype Stats = Stats(table: string, fetched: nat, inserted: nat, updated: nat)

  datatype SyncError =
    | Config(config: ConfigError)
    | UnsafeTableName(name: string)
    | TableNotFound(table: string)
    | ColumnNotFound(column: string)
    | Source                          // catalog lookup, query, row stream or a timeout
    | NotConverted(batch: RecordBatches.BatchError)
    | NotWritten(write: MergeError)

  /** What `sync_table` adds to that: before its run began, and between its first two steps. */
  datatype TableError =
    | Refused(name: string)           // the table's name
    | Unreadable                      // the checkpoint's files
    | Unreachable                     // no connection
    | Failed(error: SyncError)

  predicate Has(columns: seq<RecordBatches.Field>, wanted: string) {
    exists i | 0 <= i < |columns| :: Names.EqualIgnoreCase(columns[i].name, wanted)
  }

  /** Every one of these rows, as it is decoded, converts to the table's columns. */
  predicate RowsConvert(columns: seq<RecordBatches.Field>, decode: Row -> RecordBatches.Cells, rows: seq<Row>) {
    forall i | 0 <= i < |rows| :: RecordBatches.RowConverts(columns, decode(rows[i]))
  }

  /** `names[i]` is the first that is unsafe. */
  predicate FirstUnsafeAt(names: seq<string>, i: int) {
    0 <= i < |names| && !Names.SafeName(names[i]) && forall j | 0 <= j < i :: Names.SafeName(names[j])
  }

  /** `wanted[i]` is the first that no column is named. */
  predicate FirstMissingAt(columns: seq<RecordBatches.Field>, wanted: seq<string>, i: int) {
    0 <= i < |wanted| && !Has(columns, wanted[i]) && forall j | 0 <= j < i :: Has(columns, wanted[j])
  }

  function FirstUnsafe(names: seq<string>): (r: Option<string>)
    ensures r.None? <==> forall i | 0 <= i < |names| :: Names.SafeName(names[i])
    ensures r.Some? ==> exists i :: FirstUnsafeAt(names, i) && r.value == names[i]
  {
    if names == [] then None
    else if !Names.SafeName(names[0]) then
      assert FirstUnsafeAt(names, 0);
      Some(names[0])
    else
      var r := FirstUnsafe(names[1..]);
      assert r.Some? ==> exists i ::
        FirstUnsafeAt(names[1..], i) && FirstUnsafeAt(names, i + 1) && r.value == names[i + 1];
      r
  }

  function FirstMissing(columns: seq<RecordBatches.Field>, wanted: seq<string>): (r: Option<string>)
    ensures r.None? <==> forall i | 0 <= i < |wanted| :: Has(columns, wanted[i])
    ensures r.Some? ==> exists i :: FirstMissingAt(columns, wanted, i) && r.value == wanted[i]
  {
    if wanted == [] then None
    else if !Has(columns, wanted[0]) then
      assert FirstMissingAt(columns, wanted, 0);
      Some(wanted[0])
    else
      var r := FirstMissing(columns, wanted[1..]);
      assert r.Some? ==> exists i ::
        FirstMissingAt(columns, wanted[1..], i) && FirstMissingAt(columns, wanted, i + 1) && r.value == wanted[i + 1];
      r
  }

  /** The checks `sync_one` makes before it asks the source anything, in its order. */
  function Checked(t: TableSync): (r: Result<(), SyncError>)
    ensures r.Ok? ==> t.primaryKey != [] && Names.Accepted(t.table)
  {
    var names := NamesOf(t);
    if Validate(t).Err? then Err(Config(Validate(t).error))
    else if FirstUnsafe(names).Some? then Err(UnsafeTableName(FirstUnsafe(names).value))
    else if !Names.Accepted(t.table) then Err(UnsafeTableName(Names.ParseQualified(t.table).error.name))
    else Ok(())
  }

  /** And what it checks of the catalog's answer before it touches the Delta table. */
  function LookedUp(t: TableSync, columns: seq<RecordBatches.Field>): Result<(), SyncError> {
    var missing := FirstMissing(columns, [t.watermarkColumn] + t.primaryKey);
    if columns == [] then Err(TableNotFound(t.table))
    else if missing.Some? then Err(ColumnNotFound(missing.value))
    else Ok(())
  }

  /** The names a configured table uses in SQL, in the order they are looked at. */
  function NamesOf(t: TableSync): seq<string> {
    [t.table, t.watermarkColumn] + t.primaryKey
  }

  /** What must be so of a configuration before anything is asked: it names a watermark and a
      key column, every name in it is safe, and the table's is accepted; else which was not. */
  lemma CheckedExactly(t: TableSync)
    ensures Checked(t).Ok? <==>
      && WellConfigured(t)
      && (forall i | 0 <= i < |NamesOf(t)| :: Names.SafeName(NamesOf(t)[i]))
      && Names.Accepted(t.table)
    ensures Checked(t).Err? ==>
      match Checked(t).error
      case Config(e) =>
        !WellConfigured(t)
        && e == (if Names.Blank(t.watermarkColumn) then MissingWatermark(t.table) else MissingPrimaryKey(t.table))
      case UnsafeTableName(name) =>
        WellConfigured(t)
        && if exists i :: FirstUnsafeAt(NamesOf(t), i) then
             exists i :: FirstUnsafeAt(NamesOf(t), i) && name == NamesOf(t)[i]
           else !Names.Accepted(t.table) && name == Names.ParseQualified(t.table).error.name
      case _ => false
  {
    hide Names.SafeName, Names.ParseQualified, Names.Blank;
    var unsafe := FirstUnsafe(NamesOf(t));
    assert forall i | FirstUnsafeAt(NamesOf(t), i) :: unsafe.Some?;
  }

  /** What must be so of the catalog's answer: the table is there, and has a column for the
      watermark and for each part of the key, in any case; else the first it has not. */
  lemma LookedUpExactly(t: TableSync, columns: seq<RecordBatches.Field>)
    ensures LookedUp(t, columns).Ok? <==>
      columns != [] && Has(columns, t.watermarkColumn) && forall k | k in t.primaryKey :: Has(columns, k)
    ensures LookedUp(t, columns).Err? ==>
      match LookedUp(t, columns).error
      case TableNotFound(table) => columns == [] && table == t.table
      case ColumnNotFound(column) =>
        var wanted := [t.watermarkColumn] + t.primaryKey;
        columns != [] && exists i :: FirstMissingAt(columns, wanted, i) && column == wanted[i]
      case _ => false
  {
    hide Has;
    var wanted := [t.watermarkColumn] + t.primaryKey;
    assert wanted[0] == t.watermarkColumn && forall i | 0 <= i < |t.primaryKey| :: wanted[i + 1] == t.primaryKey[i];
  }

  // ------------------------------------------------------------------------------- the run

  /** A run that returned normally has done everything its plan says. */
  ghost predicate Completed(w: World, me: nat, plan: Plan)
    requires plan.limit >= 1
    reads w
  {
    me in w.mine && w.mine[me] == RunEvents(plan) && me !in w.cut
  }

  /** What a run that returned an error has done: some of a run's events, in order, and then
      one that ended it without recording anything. */
  ghost predicate CutOff(w: World, me: nat, all: seq<Event>)
    reads w
  {
    && me in w.cut && me in w.mine && |w.mine[me]| >= 2
    && w.mine[me][..|w.mine[me]| - 1] < all
  }

  // ------------------------------------------------------------------- when a run succeeds

  /** The checks pass, and nothing before the loop goes wrong. */
  predicate Starts(t: TableSync, columns: seq<RecordBatches.Field>, env: seq<Await>, dataCommits: nat) {
    Checked(t).Ok? && LookedUp(t, columns).Ok? && Smooth(env, LOOP) && MayOpen(env, OPENING, dataCommits)
  }

  /** Nothing the loop waits for fails, and every row converts. */
  predicate Flows(columns: seq<RecordBatches.Field>, decode: Row -> RecordBatches.Cells, env: seq<Await>, plan: Plan)
    requires plan.limit >= 1
  {
    && Smooth(env, LoopEnd(|plan.answer|, plan.limit))
    && (plan.answer != [] ==> Convertible(columns, decode, plan.answer))
  }

  /** If there is a watermark to record, the checkpoint table opens and takes it. */
  predicate Records(env: seq<Await>, plan: Plan, marksCommits: nat)
    requires plan.limit >= 1
  {
    var end := LoopEnd(|plan.answer|, plan.limit);
    LastMark(plan.answer).Some? ==> MayOpen(env, end, marksCommits) && !Awaited(env, end + 1).fails
  }

  /** Nothing stands in the way of a run that fetches this answer. */
  predicate RunsThrough(t: TableSync, columns: seq<RecordBatches.Field>, decode: Row -> RecordBatches.Cells,
                        env: seq<Await>, plan: Plan, dataCommits: nat, marksCommits: nat)
    requires plan.limit >= 1
  {
    Starts(t, columns, env, dataCommits) && Flows(columns, decode, env, plan) && Records(env, plan, marksCommits)
  }

  /** What an error before the loop comes from. */
  predicate BeginCaused(e: SyncError, checked: Result<(), SyncError>, lookedUp: Result<(), SyncError>,
                        env: seq<Await>, dataCommits: nat) {
    if checked.Err? then e == checked.error
    else if Awaited(env, LOOKUP).fails then e == Source
    else if lookedUp.Err? then e == lookedUp.error
    else
      || (e == NotWritten(Storage) && OpenFails(env, OPENING, dataCommits))
      || (e == Source && MayOpen(env, OPENING, dataCommits) && FirstFailure(env, QUERY))
  }

  /** These rows of the answer are a batch with this fault. */
  predicate FaultyBatch(columns: seq<RecordBatches.Field>, decode: Row -> RecordBatches.Cells, answer: seq<Row>,
                        from: int, to: int, e: RecordBatches.BatchError) {
    0 <= from <= to <= |answer| && Faulty(columns, decode, answer[from..to], e)
  }

  /** What an error in the loop comes from: the first await to fail was for a row or for a
      merge, a batch does not convert, or somebody else committed. */
  ghost predicate LoopCaused(e: SyncError, columns: seq<RecordBatches.Field>, decode: Row -> RecordBatches.Cells,
                       env: seq<Await>, plan: Plan)
    requires plan.limit >= 1
  {
    match e
    case Source => exists i: nat :: StopsAt(env, i, |plan.answer|, plan.limit, ForRow)
    case NotConverted(fault) =>
      && plan.answer != [] && !Convertible(columns, decode, plan.answer)
      && exists from, to :: FaultyBatch(columns, decode, plan.answer, from, to, fault)
    case NotWritten(Storage) => exists i: nat :: StopsAt(env, i, |plan.answer|, plan.limit, ForMerge)
    case NotWritten(ConcurrentWrite) => !Calm(env)
    case _ => false
  }

  /** What an error after the loop comes from. */
  predicate CloseCaused(e: SyncError, env: seq<Await>, plan: Plan, marksCommits: nat)
    requires plan.limit >= 1
  {
    var end := LoopEnd(|plan.answer|, plan.limit);
    && LastMark(plan.answer).Some?
    && (|| (e == NotWritten(Storage) && (OpenFails(env, end, marksCommits) || Awaited(env, end + 1).fails))
        || (e == NotWritten(ConcurrentWrite) && !Calm(env)))
  }

  /** What the error a run returns comes from. */
  ghost predicate Caused(e: SyncError, t: TableSync, columns: seq<RecordBatches.Field>,
                         decode: Row -> RecordBatches.Cells, env: seq<Await>, plan: Plan,
                         dataCommits: nat, marksCommits: nat)
    requires plan.limit >= 1
  {
    || BeginCaused(e, Checked(t), LookedUp(t, columns), env, dataCommits)
    || (Starts(t, columns, env, dataCommits) && LoopCaused(e, columns, decode, env, plan))
    || (Starts(t, columns, env, dataCommits) && Flows(columns, decode, env, plan)
        && CloseCaused(e, env, plan, marksCommits))
  }

  /** With nobody else about, an error means that something stood in the way. */
  lemma CausedStops(e: SyncError, t: TableSync, columns: seq<RecordBatches.Field>,
                    decode: Row -> RecordBatches.Cells, env: seq<Await>, plan: Plan,
                    dataCommits: nat, marksCommits: nat)
    requires plan.limit >= 1 && Calm(env) && Caused(e, t, columns, decode, env, plan, dataCommits, marksCommits)
    ensures !RunsThrough(t, columns, decode, env, plan, dataCommits, marksCommits)
    ensures BeginCaused(e, Checked(t), LookedUp(t, columns), env, dataCommits) ==> !Starts(t, columns, env, dataCommits)
  {
    hide Checked, LookedUp, Convertible, Calm, LastMark, LoopAwaits, Awaited;
  }

  lemma BegunBadly(e: SyncError, t: TableSync, columns: seq<RecordBatches.Field>, decode: Row -> RecordBatches.Cells,
                   env: seq<Await>, plan: Plan, dataCommits: nat, marksCommits: nat)
    requires plan.limit >= 1 && BeginCaused(e, Checked(t), LookedUp(t, columns), env, dataCommits)
    ensures Caused(e, t, columns, decode, env, plan, dataCommits, marksCommits)
    ensures Calm(env) ==>
      && !RunsThrough(t, columns, decode, env, plan, dataCommits, marksCommits)
      && !Starts(t, columns, env, dataCommits)
  {
    hide Checked, LookedUp, Calm, BeginCaused, RunsThrough;
    if Calm(env) {
      CausedStops(e, t, columns, decode, env, plan, dataCommits, marksCommits);
    }
  }

  lemma LoopedBadly(e: SyncError, t: TableSync, columns: seq<RecordBatches.Field>, decode: Row -> RecordBatches.Cells,
                    env: seq<Await>, plan: Plan, dataCommits: nat, marksCommits: nat)
    requires plan.limit >= 1 && Starts(t, columns, env, dataCommits) && LoopCaused(e, columns, decode, env, plan)
    ensures Caused(e, t, columns, decode, env, plan, dataCommits, marksCommits)
    ensures Calm(env) ==> !RunsThrough(t, columns, decode, env, plan, dataCommits, marksCommits)
  {
    hide Starts, LoopCaused, Calm, RunsThrough;
    if Calm(env) {
      CausedStops(e, t, columns, decode, env, plan, dataCommits, marksCommits);
    }
  }

  lemma ClosedBadly(e: SyncError, t: TableSync, columns: seq<RecordBatches.Field>, decode: Row -> RecordBatches.Cells,
                    env: seq<Await>, plan: Plan, dataCommits: nat, marksCommits: nat)
    requires plan.limit >= 1 && Starts(t, columns, env, dataCommits) && Flows(columns, decode, env, plan)
    requires CloseCaused(e, env, plan, marksCommits)
    ensures Caused(e, t, columns, decode, env, plan, dataCommits, marksCommits)
    ensures Calm(env) ==> !RunsThrough(t, columns, decode, env, plan, dataCommits, marksCommits)
  {
    hide Starts, Flows, CloseCaused, Calm, RunsThrough;
    if Calm(env) {
      CausedStops(e, t, columns, decode, env, plan, dataCommits, marksCommits);
    }
  }

  lemma {:induction false} OwnJoined(a: seq<Event>, b: seq<Event>, me: nat)
    ensures Own(a + b, me) == Own(a, me) + Own(b, me)
  {
    if b == [] {
      assert a + b == a;
    } else {
      var n := |b| - 1;
      OwnJoined(a, b[..n], me);
      assert a + b == (a + b[..n]) + [b[n]] && b == b[..n] + [b[n]];
      OwnExtended(a + b[..n], b[n], me);
      OwnExtended(b[..n], b[n], me);
    }
  }

  /** When as many events are a run's own as there are, all are. */
  lemma {:induction false} AllOwn(events: seq<Event>, me: nat)
    ensures |Own(events, me)| <= |events|
    ensures |Own(events, me)| == |events| ==> Own(events, me) == events
  {
    if events != [] {
      var n := |events| - 1;
      AllOwn(events[..n], me);
      assert events == events[..n] + [events[n]];
      OwnExtended(events[..n], events[n], me);
    }
  }

  lemma {:induction false} HistorySplit(s: State, a: seq<Event>, b: seq<Event>)
    requires History(s, a + b)
    ensures History(s, a) && History(After(s, a), b) && After(s, a + b) == After(After(s, a), b)
    decreases |a|
  {
    if a == [] {
      assert a + b == b;
    } else {
      assert (a + b)[1..] == a[1..] + b;
      HistorySplit(Apply(s, a[0]), a[1..], b);
    }
  }

  /** The last of these events ended its run short. */
  predicate Shortened(s: State, events: seq<Event>) {
    && events != []
    && var n := |events| - 1;
       && History(s, events[..n])
       && Enabled(After(s, events[..n]), events[n])
       && CutsShort(After(s, events[..n]), events[n])
  }

  lemma {:induction false} CutLastSays(moments: seq<Moment>, events: seq<Event>, me: nat, head: seq<Event>)
    requires Behaviour(moments, events) && head < events && CutLast(moments, events, me)
    requires RunOf(events[|events| - 1]) == Some(me)
    ensures History(moments[0].state, head) && Shortened(After(moments[0].state, head), events[|head|..])
  {
    var n, tail := |events| - 1, events[|head|..];
    BehaviourFront(moments, events);
    BehaviourIsHistory(moments[..n + 1], events[..n]);
    assert Step(moments, events, n);
    assert events[..n] == head + tail[..|tail| - 1];
    HistorySplit(moments[0].state, head, tail[..|tail| - 1]);
  }

  lemma {:induction false} OwnAre(events: seq<Event>, me: nat)
    ensures forall e | e in Own(events, me) :: RunOf(e) == Some(me)
  {
    if events != [] {
      OwnAre(events[..|events| - 1], me);
    }
  }

  /** A run's own events lead from the state it found to this one, and if it ended short it is
      the last of them that ended it. */
  ghost predicate Undisturbed(w: World, me: nat, before: State)
    reads w, w.data, w.marks
  {
    && me in w.mine
    && History(before, w.mine[me]) && w.Now() == After(before, w.mine[me])
    && (forall e | e in w.mine[me] :: RunOf(e) == Some(me))
    && (me in w.cut ==> Shortened(before, w.mine[me]))
  }

  /** Which is so when there are no other events. */
  lemma Alone(w: World, me: nat, before: State, log: seq<Event>)
    requires w.Valid() && log <= w.log && History(w.start, log) && After(w.start, log) == before
    requires me in w.mine && |w.log| == |log| + |w.mine[me]| && Own(log, me) == []
    ensures Undisturbed(w, me, before)
  {
    var tail := w.log[|log|..];
    assert w.log == log + tail;
    w.Tells(me);
    hide History, After, Own, World.Now, Shortened;
    OwnJoined(log, tail, me);
    assert [] + Own(tail, me) == Own(tail, me);
    AllOwn(tail, me);
    OwnAre(tail, me);
    HistorySplit(w.start, log, tail);
    if me in w.cut {
      CutLastSays(w.moments, w.log, me, log);
    }
  }

  /** Unless the name was refused or the checkpoint could not be read, a run has begun. */
  predicate Began(r: Result<Stats, TableError>) {
    r.Ok? || r.error.Unreachable? || r.error.Failed?
  }

  /** `sync_table`: read the checkpoint, connect, then run. */
  method SyncTable(w: World, t: TableSync, columns: seq<RecordBatches.Field>, limit: nat, me: nat,
                   lost: bool, readable: bool, reaches: bool, at: int,
                   env: seq<Await>, decode: Row -> RecordBatches.Cells)
    returns (r: Result<Stats, TableError>, ghost plan: Plan)
    requires w.Valid() && me !in w.runs && me !in w.mine
    modifies w, w.data, w.marks
    ensures w.Valid() && old(w.log) <= w.log && me !in w.runs
    ensures plan.id == me && plan.lost == lost && plan.at == at && plan.limit == (if limit == 0 then 1 else limit)
    ensures !Names.Accepted(t.table) <==> r.Err? && r.error.Refused?
    ensures !Names.Accepted(t.table) ==> r == Err(Refused(Names.ParseQualified(t.table).error.name))
    ensures r == Err(Unreadable) <==> Names.Accepted(t.table) && !lost && !readable && old(w.marks.rows) != []
    ensures !Began(r) ==> w.Now() == old(w.Now()) && w.log == old(w.log)
    ensures r == Err(Unreachable) <==> Began(r) && !reaches
    ensures Began(r) && reaches && Checked(t).Err? ==> r == Err(Failed(Checked(t).error))
    ensures r.Ok? ==> Completed(w, me, plan) && Checked(t).Ok? && LookedUp(t, columns).Ok?
    ensures r.Ok? ==> RowsConvert(columns, decode, plan.answer) && Counts(r.value, t, |plan.answer|)
    ensures r.Ok? ==> w.Count(me) == Metrics(r.value.inserted, r.value.updated)
    ensures Calm(env) && r.Ok? ==> |w.data.rows| == |old(w.data.rows)| + r.value.inserted
    ensures r.Err? && Began(r) ==> CutOff(w, me, RunEvents(plan))
    ensures Calm(env) && Began(r) ==> Undisturbed(w, me, old(w.Now()))
    ensures r.Ok? ==> RunsThrough(t, columns, decode, env, plan, old(w.data.commits), old(w.marks.commits))
    ensures r.Err? && r.error.Failed? ==>
      Caused(r.error.error, t, columns, decode, env, plan, old(w.data.commits), old(w.marks.commits))
    ensures Calm(env) && Began(r) && reaches ==>
      (r.Ok? <==> RunsThrough(t, columns, decode, env, plan, old(w.data.commits), old(w.marks.commits)))
    ensures Calm(env) && Began(r) && reaches && Starts(t, columns, env, old(w.data.commits)) ==>
      IsAnswer(plan.answer, old(w.source), if lost then None else Stored(old(w.marks.Value())))
  {
    hide Names.ParseQualified, Checked, LookedUp, RowsConvert, Counts, World.Valid, World.Now, RunEvents, CutOff;
    hide Undisturbed, RunsThrough, Caused, Starts, IsAnswer, Calm, Completed, Tally, History, After;
    plan := Plan(me, lost, [], if limit == 0 then 1 else limit, at);
    if !Names.Accepted(t.table) {
      return Err(Refused(Names.ParseQualified(t.table).error.name)), plan;
    }
    ghost var log := w.log;
    w.Tells(me);
    var last := w.ReadMark(me, lost, readable);
    if last.Err? {
      return Err(Unreadable), plan;
    }
    r, plan := Connect(w, t, columns, limit, me, last.value, reaches, at, env, decode, lost, log);
  }

  /** Every fetched row is counted once, as inserted or as updated. */
  predicate Counts(stats: Stats, t: TableSync, fetched: nat) {
    stats.table == t.table && stats.fetched == fetched && stats.inserted + stats.updated == fetched
  }

  /** From the connection on. */
  method Connect(w: World, t: TableSync, columns: seq<RecordBatches.Field>, limit: nat, me: nat, last: Option<int>,
                 reaches: bool, at: int, env: seq<Await>, decode: Row -> RecordBatches.Cells, ghost lost: bool,
                 ghost log: seq<Event>)
    returns (r: Result<Stats, TableError>, ghost plan: Plan)
    requires w.Valid() && me in w.runs && w.runs[me] == Started(last)
    requires me in w.mine && w.mine[me] == [ReadMark(me, lost)]
    requires History(w.start, log) && Own(log, me) == [] && log <= w.log && |w.log| == |log| + 1
    requires w.Count(me) == Metrics(0, 0)
    modifies w, w.data, w.marks
    ensures w.Valid() && old(w.log) <= w.log && me !in w.runs && Began(r)
    ensures Calm(env) ==> Undisturbed(w, me, After(w.start, log))
    ensures plan.id == me && plan.lost == lost && plan.at == at && plan.limit == (if limit == 0 then 1 else limit)
    ensures r == Err(Unreachable) <==> !reaches
    ensures reaches && Checked(t).Err? ==> r == Err(Failed(Checked(t).error))
    ensures r.Ok? ==> Completed(w, me, plan) && Checked(t).Ok? && LookedUp(t, columns).Ok?
    ensures r.Ok? ==> RowsConvert(columns, decode, plan.answer) && Counts(r.value, t, |plan.answer|)
    ensures r.Ok? ==> w.Count(me) == Metrics(r.value.inserted, r.value.updated)
    ensures Calm(env) && r.Ok? ==> |w.data.rows| == |old(w.data.rows)| + r.value.inserted
    ensures r.Err? ==> CutOff(w, me, RunEvents(plan)) && me in w.cut
    ensures r.Ok? ==> RunsThrough(t, columns, decode, env, plan, old(w.data.commits), old(w.marks.commits))
    ensures r.Err? && r.error.Failed? ==>
      Caused(r.error.error, t, columns, decode, env, plan, old(w.data.commits), old(w.marks.commits))
    ensures Calm(env) && reaches ==>
      (r.Ok? <==> RunsThrough(t, columns, decode, env, plan, old(w.data.commits), old(w.marks.commits)))
    ensures Calm(env) && reaches && Starts(t, columns, env, old(w.data.commits)) ==>
      IsAnswer(plan.answer, old(w.source), last)
  {
    hide RunsThrough, Caused, Starts, IsAnswer;
    hide Checked, LookedUp, RowsConvert, Counts, World.Valid, World.Now, RunEvents, Undisturbed, Own, History, After;
    if !reaches {
      w.Halt(me);
      plan := Plan(me, lost, [], if limit == 0 then 1 else limit, at);
      NothingBut(w, me, plan);
      r := Err(Unreachable);
    } else {
      var ran;
      ran, plan := SyncOne(w, t, columns, limit, me, last, at, env, decode, lost);
      r := if ran.Ok? then Ok(ran.value) else Err(Failed(ran.error));
    }
    if Calm(env) {
      Alone(w, me, After(w.start, log), log);
    }
  }

  /** A run that stopped when it had only read its checkpoint. */
  lemma NothingBut(w: World, me: nat, p: Plan)
    requires p.limit >= 1 && p.id == me && CutShort(w, me, [ReadMark(me, p.lost)])
    ensures CutOff(w, me, RunEvents(p))
  {
    OpeningCuts(p);
    hide RunEvents, Remaining;
    CutOffAfter(w, me, [ReadMark(me, p.lost)], [Open(me, true), Ask(me, p.answer)] + Remaining(p, 0));
  }

  /** What a run that returned an error has done, told from the events it had made before. */
  lemma CutOffAfter(w: World, me: nat, done: seq<Event>, left: seq<Event>)
    requires CutShort(w, me, done) && done != [] && left != []
    ensures CutOff(w, me, done + left)
  {
  }

  /** The run has just ended short, after the events `done`. */
  ghost predicate CutShort(w: World, me: nat, done: seq<Event>)
    reads w
  {
    && me !in w.runs && me in w.cut && me in w.mine
    && |w.mine[me]| == |done| + 1 && w.mine[me][..|done|] == done
  }

  /** A run's events, cut after its first, second and third. */
  lemma OpeningCuts(p: Plan)
    requires p.limit >= 1
    ensures var left := Remaining(p, 0);
            && RunEvents(p) == [ReadMark(p.id, p.lost)] + ([Open(p.id, true), Ask(p.id, p.answer)] + left)
            && RunEvents(p) == [ReadMark(p.id, p.lost), Open(p.id, true)] + ([Ask(p.id, p.answer)] + left)
            && RunEvents(p) == [ReadMark(p.id, p.lost), Open(p.id, true), Ask(p.id, p.answer)] + left
  {
    assert p.answer[0..] == p.answer;
  }

  lemma SomethingRemains(p: Plan, m: nat)
    requires p.limit >= 1 && m <= |p.answer|
    ensures Remaining(p, m) != []
  {
  }

  /** `sync_one` */
  method SyncOne(w: World, t: TableSync, columns: seq<RecordBatches.Field>, limit: nat, me: nat, last: Option<int>,
                 at: int, env: seq<Await>, decode: Row -> RecordBatches.Cells, ghost lost: bool)
    returns (r: Result<Stats, SyncError>, ghost plan: Plan)
    requires w.Valid() && me in w.runs && w.runs[me] == Started(last)
    requires me in w.mine && w.mine[me] == [ReadMark(me, lost)] && w.Count(me) == Metrics(0, 0)
    modifies w, w.data, w.marks
    ensures w.Valid() && old(w.log) <= w.log && me !in w.runs
    ensures Calm(env) ==> me in w.mine && |w.log| - |w.mine[me]| == |old(w.log)| - |old(w.mine)[me]|
    ensures plan.id == me && plan.lost == lost && plan.at == at && plan.limit == (if limit == 0 then 1 else limit)
    ensures Checked(t).Err? ==> r == Err(Checked(t).error)
    ensures r.Ok? ==> Checked(t).Ok? && LookedUp(t, columns).Ok? && RowsConvert(columns, decode, plan.answer)
    ensures r.Ok? ==> Completed(w, me, plan) && Counts(r.value, t, |plan.answer|)
    ensures r.Ok? ==> w.Count(me) == Metrics(r.value.inserted, r.value.updated)
    ensures Calm(env) && r.Ok? ==> |w.data.rows| == |old(w.data.rows)| + r.value.inserted
    ensures r.Err? ==> CutOff(w, me, RunEvents(plan))
    ensures r.Ok? ==> RunsThrough(t, columns, decode, env, plan, old(w.data.commits), old(w.marks.commits))
    ensures r.Err? ==> Caused(r.error, t, columns, decode, env, plan, old(w.data.commits), old(w.marks.commits))
    ensures Calm(env) ==>
      (r.Ok? <==> RunsThrough(t, columns, decode, env, plan, old(w.data.commits), old(w.marks.commits)))
    ensures Calm(env) && Starts(t, columns, env, old(w.data.commits)) ==> IsAnswer(plan.answer, old(w.source), last)
  {
    hide World.Valid, RunEvents, Remaining, World.Now, RowsConvert, Checked, LookedUp, Calm, IsAnswer, CutOff;
    hide RunsThrough, Caused, BeginCaused, LoopCaused, CloseCaused, Flows, Records, Smooth, MayOpen, LoopEnd;
    ghost var dataCommits, marksCommits := w.data.commits, w.marks.commits;
    var begun, handle, answer;
    begun, handle, answer := Begin(w, Checked(t), LookedUp(t, columns), me, last, env, lost);
    plan := Plan(me, lost, answer, if limit == 0 then 1 else limit, at);
    OpeningCuts(plan);
    if begun.Err? {
      BeginCut(w, me, plan);
      BegunBadly(begun.error, t, columns, decode, env, plan, dataCommits, marksCommits);
      return Err(begun.error), plan;
    }
    assert Starts(t, columns, env, dataCommits);
    hide Starts;
    Unmarked(env, plan, marksCommits, w.marks.commits);
    r := Rest(w, t, columns, limit, me, last, handle, answer, at, env, decode, plan);
    if r.Ok? {
      RanThrough(t, columns, decode, env, plan, dataCommits, marksCommits);
    } else if LoopCaused(r.error, columns, decode, env, plan) {
      LoopedBadly(r.error, t, columns, decode, env, plan, dataCommits, marksCommits);
    } else {
      ClosedBadly(r.error, t, columns, decode, env, plan, dataCommits, marksCommits);
    }
  }

  lemma RanThrough(t: TableSync, columns: seq<RecordBatches.Field>, decode: Row -> RecordBatches.Cells,
                   env: seq<Await>, plan: Plan, dataCommits: nat, marksCommits: nat)
    requires plan.limit >= 1 && Starts(t, columns, env, dataCommits) && Flows(columns, decode, env, plan)
    requires Records(env, plan, marksCommits)
    ensures RunsThrough(t, columns, decode, env, plan, dataCommits, marksCommits)
  {
  }

  /** From the answer on: the loop, and what follows it. */
  method Rest(w: World, t: TableSync, columns: seq<RecordBatches.Field>, limit: nat, me: nat, last: Option<int>,
              handle: nat, answer: seq<Row>, at: int, env: seq<Await>, decode: Row -> RecordBatches.Cells,
              ghost plan: Plan)
    returns (r: Result<Stats, SyncError>)
    requires w.Valid() && t.primaryKey != [] && Smooth(env, LOOP)
    requires plan.id == me && plan.at == at && plan.answer == answer && plan.limit == (if limit == 0 then 1 else limit)
    requires Loops(w, me, plan, last, handle, Stats(t.table, 0, 0, 0), None, RunEvents(plan))
    requires Calm(env) ==> handle == w.data.commits
    modifies w, w.data, w.marks
    ensures w.Valid() && old(w.log) <= w.log && me !in w.runs
    ensures Calm(env) ==> me in w.mine && |w.log| - |w.mine[me]| == |old(w.log)| - |old(w.mine)[me]|
    ensures r.Ok? ==> Completed(w, me, plan) && Counts(r.value, t, |plan.answer|)
    ensures r.Ok? ==> w.Count(me) == Metrics(r.value.inserted, r.value.updated)
    ensures r.Ok? ==> RowsConvert(columns, decode, plan.answer)
    ensures Calm(env) && r.Ok? ==> |w.data.rows| == |old(w.data.rows)| + r.value.inserted
    ensures r.Err? ==> CutOff(w, me, RunEvents(plan))
    ensures r.Ok? ==> Flows(columns, decode, env, plan) && Records(env, plan, old(w.marks.commits))
    ensures r.Err? ==>
      || LoopCaused(r.error, columns, decode, env, plan)
      || (Flows(columns, decode, env, plan) && CloseCaused(r.error, env, plan, old(w.marks.commits)))
  {
    hide World.Valid, RunEvents, Remaining, World.Now, RowsConvert, Calm, CutOff;
    hide LoopCaused, CloseCaused, Flows, Records, Smooth, LoopEnd;
    ghost var was := Footing(|w.log| - |w.mine[me]|, w.marks.commits, |w.data.rows|);
    var stats, newest, tick, held;
    r, stats, newest, tick, held := Drain(w, t, columns, limit, me, last, handle, answer, env, decode,
                                          plan, RunEvents(plan), was);
    if r.Err? {
      return;
    }
    Unmarked(env, plan, old(w.marks.commits), w.marks.commits);
    r := Close(w, me, last, stats, newest, at, env, tick, held, plan);
  }

  /** The checkpoint table opens by the commits it had when the run began. */
  lemma Unmarked(env: seq<Await>, plan: Plan, before: nat, now: nat)
    requires plan.limit >= 1 && (Calm(env) ==> now == before)
    ensures Records(env, plan, now) ==> Records(env, plan, before)
    ensures forall e :: CloseCaused(e, env, plan, now) ==> CloseCaused(e, env, plan, before)
  {
    hide Calm, LastMark, LoopAwaits, Awaited;
  }

  /** A run that stopped before its answer. */
  lemma BeginCut(w: World, me: nat, p: Plan)
    requires p.limit >= 1 && p.id == me
    requires CutShort(w, me, [ReadMark(me, p.lost)]) || CutShort(w, me, [ReadMark(me, p.lost), Open(me, true)])
    ensures CutOff(w, me, RunEvents(p))
  {
    if |w.mine[me]| == 2 {
      NothingBut(w, me, p);
    } else {
      OpeningCuts(p);
      hide RunEvents, Remaining;
      CutOffAfter(w, me, [ReadMark(me, p.lost), Open(me, true)], [Ask(me, p.answer)] + Remaining(p, 0));
    }
  }

  /** Up to the query: the checks, the handle, and only then the snapshot. */
  method Begin(w: World, checked: Result<(), SyncError>, lookedUp: Result<(), SyncError>, me: nat, last: Option<int>,
               env: seq<Await>, ghost lost: bool)
    returns (r: Result<(), SyncError>, handle: nat, answer: seq<Row>)
    requires w.Valid() && me in w.runs && w.runs[me] == Started(last)
    requires me in w.mine && w.mine[me] == [ReadMark(me, lost)]
    modifies w, w.data, w.marks
    ensures w.Valid() && old(w.log) <= w.log
    ensures Calm(env) ==> me in w.mine && |w.log| - |w.mine[me]| == |old(w.log)| - |old(w.mine)[me]|
    ensures Calm(env) ==> w.data.rows == old(w.data.rows)
    ensures w.Count(me) == old(w.Count(me))
    ensures r.Ok? ==> Smooth(env, LOOP) && MayOpen(env, OPENING, old(w.data.commits))
    ensures r.Err? ==> BeginCaused(r.error, checked, lookedUp, env, old(w.data.commits))
    ensures Calm(env) && r.Ok? ==> handle == w.data.commits && IsAnswer(answer, old(w.source), last)
    ensures Calm(env) && r.Ok? ==> w.marks.commits == old(w.marks.commits)
    ensures checked.Err? ==> r == Err(checked.error)
    ensures r.Ok? ==> checked.Ok? && lookedUp.Ok?
    ensures r.Ok? ==> me in w.runs && w.runs[me] == Merging(last, handle, answer, 0, None)
    ensures r.Ok? ==> me in w.mine && w.mine[me] == [ReadMark(me, lost), Open(me, true), Ask(me, answer)]
    ensures r.Err? ==> CutShort(w, me, [ReadMark(me, lost)]) || CutShort(w, me, [ReadMark(me, lost), Open(me, true)])
  {
    hide World.Valid, World.Now;
    handle, answer := 0, [];
    if checked.Err? {
      w.Halt(me);
      return Err(checked.error), handle, answer;
    }
    var failed := w.Wait(me, env, LOOKUP);
    if failed {
      return Err(Source), handle, answer;
    }
    if lookedUp.Err? {
      w.Halt(me);
      return Err(lookedUp.error), handle, answer;
    }
    r, handle, answer := HoldThenAsk(w, me, last, env, w.mine[me]);
  }

  /** `open_or_create` first, and only then the query. */
  method HoldThenAsk(w: World, me: nat, last: Option<int>, env: seq<Await>, ghost done: seq<Event>)
    returns (r: Result<(), SyncError>, handle: nat, answer: seq<Row>)
    requires w.Valid() && me in w.runs && w.runs[me] == Started(last) && me in w.mine && w.mine[me] == done
    requires !Awaited(env, LOOKUP).fails
    modifies w, w.data, w.marks
    ensures w.Valid() && old(w.log) <= w.log
    ensures Calm(env) ==> me in w.mine && |w.log| - |w.mine[me]| == |old(w.log)| - |done|
    ensures Calm(env) ==> w.data.rows == old(w.data.rows)
    ensures r.Ok? ==> me in w.runs && w.runs[me] == Merging(last, handle, answer, 0, None)
    ensures r.Ok? ==> me in w.mine && w.mine[me] == done + [Open(me, true)] + [Ask(me, answer)]
    ensures r.Err? ==> CutShort(w, me, done) || CutShort(w, me, done + [Open(me, true)])
    ensures w.Count(me) == old(w.Count(me))
    ensures r.Ok? ==> Smooth(env, LOOP) && MayOpen(env, OPENING, old(w.data.commits))
    ensures r.Err? ==>
      || (r.error == NotWritten(Storage) && OpenFails(env, OPENING, old(w.data.commits)))
      || (r.error == Source && MayOpen(env, OPENING, old(w.data.commits)) && FirstFailure(env, QUERY))
    ensures Calm(env) && r.Ok? ==> handle == w.data.commits && IsAnswer(answer, old(w.source), last)
    ensures Calm(env) && r.Ok? ==> w.marks.commits == old(w.marks.commits)
  {
    hide World.Valid, World.Now, Calm, IsAnswer, Awaited, Merged;
    handle, answer := 0, [];
    var now := w.Pause(me, env, OPENING);
    var found := w.OpenData(me, now.loads, now.creates);
    if found.Err? {
      return Err(NotWritten(found.error)), handle, answer;
    }
    handle := found.value;
    var failed := w.Wait(me, env, QUERY);
    if failed {
      return Err(Source), handle, answer;
    }
    answer := w.Ask(me);
    r := Ok(());
  }

  lemma Pulled(answer: seq<Row>, from: nat, to: nat)
    requires from <= to < |answer|
    ensures answer[from..to] + [answer[to]] == answer[from..to + 1]
  {
  }

  /** `record_batch` on the buffered rows. */
  method Convert(columns: seq<RecordBatches.Field>, decode: Row -> RecordBatches.Cells, batch: seq<Row>)
    returns (r: Result<(), RecordBatches.BatchError>)
    ensures r.Ok? <==> Convertible(columns, decode, batch)
    ensures r.Err? ==> Faulty(columns, decode, batch, r.error)
  {
    hide RecordBatches.RowConverts, RecordBatches.FirstFault, RecordBatches.TypesAgree, RecordBatches.Holds;
    var cells := DecodedRows(decode, batch);
    var built := RecordBatches.RecordBatch(columns, cells);
    forall i | 0 <= i < |batch| ensures cells[i] == decode(batch[i]) {
    }
    if forall i | 0 <= i < |cells| :: RecordBatches.RowConverts(columns, cells[i]) {
      forall i | 0 <= i < |batch| ensures RecordBatches.RowConverts(columns, decode(batch[i])) {
        assert RecordBatches.RowConverts(columns, cells[i]);
      }
    }
    r := if built.Ok? then Ok(()) else Err(built.error);
  }

  function DecodedRows(decode: Row -> RecordBatches.Cells, batch: seq<Row>): seq<RecordBatches.Cells> {
    seq(|batch|, i requires 0 <= i < |batch| => decode(batch[i]))
  }

  /** What the error says: that there is no column or a type is not the schema's, when all
      rows convert; otherwise which row and cell is the first that does not. */
  predicate Faulty(columns: seq<RecordBatches.Field>, decode: Row -> RecordBatches.Cells, batch: seq<Row>,
                   e: RecordBatches.BatchError) {
    if e == RecordBatches.Arrow then
      (columns == [] || !RecordBatches.TypesAgree(columns)) && RowsConvert(columns, decode, batch)
    else
      exists i | 0 <= i < |batch| :: RecordBatches.FirstFault(columns, DecodedRows(decode, batch), i, e)
  }

  predicate Convertible(columns: seq<RecordBatches.Field>, decode: Row -> RecordBatches.Cells, batch: seq<Row>) {
    columns != [] && RecordBatches.TypesAgree(columns) && RowsConvert(columns, decode, batch)
  }

  /** Why a merge through a handle nobody had overtaken was not made. */
  predicate MergeRefused(e: SyncError, env: seq<Await>, tick: nat) {
    || (e == NotWritten(Storage) && Awaited(env, tick).fails)
    || (e == NotWritten(ConcurrentWrite) && !Calm(env))
  }

  lemma LastTracked(before: Option<int>, batch: seq<Row>)
    requires batch != []
    ensures Track(before, batch) == if batch[|batch| - 1].mark.Some? then batch[|batch| - 1].mark else before
  {
  }

  /** Merging one buffered batch: its last watermark, the conversion, the upsert, the counters. */
  method Flush(w: World, t: TableSync, columns: seq<RecordBatches.Field>, me: nat, handle: nat, stats: Stats,
               before: Option<int>, batch: seq<Row>, env: seq<Await>, tick: nat, decode: Row -> RecordBatches.Cells)
    returns (r: Result<Stats, SyncError>, after: nat, newest: Option<int>)
    requires w.Valid() && t.primaryKey != [] && me in w.runs && me in w.mine
    requires w.runs[me].Merging? && w.runs[me].handle == handle && w.runs[me].newest == before
    requires batch != [] && w.runs[me].merged + |batch| <= |w.runs[me].answer|
    requires batch == w.runs[me].answer[w.runs[me].merged..w.runs[me].merged + |batch|]
    modifies w, w.data, w.marks
    ensures w.Valid() && old(w.log) <= w.log
    ensures Calm(env) ==> me in w.mine && |w.log| - |w.mine[me]| == |old(w.log)| - |old(w.mine)[me]|
    ensures r.Ok? ==>
      var run := old(w.runs)[me];
      && me in w.runs
      && w.runs[me] == Merging(run.from, after, run.answer, run.merged + |batch|, newest)
      && me in w.mine && w.mine[me] == old(w.mine)[me] + [MergeBatch(me, |batch|)]
    ensures r.Ok? ==>
      && r.value.table == stats.table
      && r.value.fetched == stats.fetched + |batch|
      && r.value.inserted + r.value.updated == stats.inserted + stats.updated + |batch|
    ensures Calm(env) && r.Ok? ==> |w.data.rows| - r.value.inserted == |old(w.data.rows)| - stats.inserted
    ensures r.Err? ==> CutShort(w, me, old(w.mine)[me])
    ensures r.Err? ==> (r.error.NotConverted? <==> !Convertible(columns, decode, batch))
    ensures r.Ok? ==> Convertible(columns, decode, batch) && !Awaited(env, tick).fails
    ensures r.Err? && !r.error.NotConverted? && (Calm(env) ==> handle == old(w.data.commits)) ==>
      MergeRefused(r.error, env, tick)
    ensures r.Ok? ==> Added(old(w.Count(me)), Metrics(r.value.inserted, r.value.updated))
                      == Added(w.Count(me), Metrics(stats.inserted, stats.updated))
    ensures Calm(env) ==> w.marks.commits == old(w.marks.commits)
    ensures Calm(env) && r.Ok? ==> after == w.data.commits
    ensures !Convertible(columns, decode, batch) ==> w.data.Value() == old(w.data.Value())
    ensures r.Err? && r.error.NotConverted? ==> Faulty(columns, decode, batch, r.error.batch)
  {
    hide World.Valid, World.Now, Track, RowsConvert, Convertible, Faulty, Calm, Awaited, MergeRefused;
    LastTracked(before, batch);
    after, newest := handle, before;
    if batch[|batch| - 1].mark.Some? {
      newest := batch[|batch| - 1].mark;
    }
    var built := Convert(columns, decode, batch);
    if built.Err? {
      w.Halt(me);
      return Err(NotConverted(built.error)), after, newest;
    }
    var merged := MergeNext(w, t, me, handle, batch, env, tick);
    if merged.Err? {
      return Err(NotWritten(merged.error)), after, newest;
    }
    assert Convertible(columns, decode, batch);
    after := merged.value.handle;
    r := Ok(stats.(fetched := stats.fetched + |batch|,
                   inserted := stats.inserted + merged.value.metrics.inserted,
                   updated := stats.updated + merged.value.metrics.updated));
  }

  /** The merge itself, after whatever else happens meanwhile. */
  method MergeNext(w: World, t: TableSync, me: nat, handle: nat, batch: seq<Row>, env: seq<Await>, tick: nat)
    returns (r: Result<Outcome, MergeError>)
    requires w.Valid() && t.primaryKey != [] && me in w.runs && me in w.mine
    requires w.runs[me].Merging? && w.runs[me].handle == handle
    requires batch != [] && w.runs[me].merged + |batch| <= |w.runs[me].answer|
    requires batch == w.runs[me].answer[w.runs[me].merged..w.runs[me].merged + |batch|]
    modifies w, w.data, w.marks
    ensures w.Valid() && old(w.log) <= w.log
    ensures Calm(env) ==> me in w.mine && |w.log| - |w.mine[me]| == |old(w.log)| - |old(w.mine)[me]|
    ensures r.Ok? ==>
      var run := old(w.runs)[me];
      && me in w.runs
      && w.runs[me] == Merging(run.from, r.value.handle, run.answer, run.merged + |batch|, Track(run.newest, batch))
      && me in w.mine && w.mine[me] == old(w.mine)[me] + [MergeBatch(me, |batch|)]
    ensures r.Ok? ==> r.value.metrics.inserted + r.value.metrics.updated == |batch|
    ensures r.Ok? ==> !Awaited(env, tick).fails && r.value.handle == w.data.commits
    ensures r.Ok? ==> w.Count(me) == Added(old(w.Count(me)), r.value.metrics)
    ensures r.Err? && (Calm(env) ==> handle == old(w.data.commits)) ==> MergeRefused(NotWritten(r.error), env, tick)
    ensures Calm(env) ==> w.marks.commits == old(w.marks.commits)
    ensures Calm(env) && r.Ok? ==> |w.data.rows| == |old(w.data.rows)| + r.value.metrics.inserted
    ensures r.Err? ==> CutShort(w, me, old(w.mine)[me])
  {
    hide World.Valid, World.Now, Track, MetricsOf, Calm;
    var now := w.Pause(me, env, tick);
    r := w.Upsert(me, handle, batch, t.primaryKey, !now.fails);
  }

  /** Where a run stands in its loop: what it has merged is what its events say. */
  ghost predicate Loops(w: World, me: nat, plan: Plan, last: Option<int>, handle: nat, stats: Stats,
                        newest: Option<int>, all: seq<Event>)
    reads w
  {
    && plan.id == me && plan.limit >= 1
    && stats.fetched <= |plan.answer|
    && stats.inserted + stats.updated == stats.fetched
    && me in w.runs && w.runs[me] == Merging(last, handle, plan.answer, stats.fetched, newest)
    && me in w.mine && w.mine[me] != []
    && w.mine[me] + Remaining(plan, stats.fetched) == all
    && w.Count(me) == Metrics(stats.inserted, stats.updated)
  }

  /** What a run finds when its loop begins: how many events were others', and the two tables. */
  datatype Footing = Footing(others: int, marksCommits: nat, rows: nat)

  /** With nobody else about, nothing has changed that the run did not change, and the checkpoint
      table not at all. */
  ghost predicate Undivided(w: World, me: nat, env: seq<Await>, was: Footing)
    reads w, w.marks
  {
    Calm(env) ==> me in w.mine && |w.log| - |w.mine[me]| == was.others && w.marks.commits == was.marksCommits
  }

  /** And then the run's handle is current, and Delta has grown by what it inserted. */
  ghost predicate Keeps(w: World, me: nat, env: seq<Await>, handle: nat, inserted: nat, was: Footing)
    reads w, w.data, w.marks
  {
    && Undivided(w, me, env, was)
    && (Calm(env) ==> handle == w.data.commits && |w.data.rows| == was.rows + inserted)
  }

  /** The buffer when it is flushed: full, or the last of the stream. */
  lemma BufferIsNextBatch(p: Plan, from: nat, to: nat)
    requires p.limit >= 1 && from < to <= |p.answer| && to - from <= p.limit
    requires to - from == p.limit || to == |p.answer|
    ensures |p.answer[from..to]| == to - from == NextSize(p, from)
    ensures Remaining(p, from) == [MergeBatch(p.id, to - from)] + Remaining(p, to)
  {
    RemainingStep(p, from);
  }

  /** Waiting for the next row. */
  method NextRow(w: World, me: nat, last: Option<int>, handle: nat, stats: Stats, newest: Option<int>,
                 env: seq<Await>, tick: nat, ghost plan: Plan, ghost all: seq<Event>, ghost was: Footing)
    returns (failed: bool)
    requires w.Valid() && Loops(w, me, plan, last, handle, stats, newest, all)
    requires Keeps(w, me, env, handle, stats.inserted, was)
    modifies w, w.data, w.marks
    ensures w.Valid() && old(w.log) <= w.log
    ensures if failed then Undivided(w, me, env, was) else Keeps(w, me, env, handle, stats.inserted, was)
    ensures failed <==> Awaited(env, tick).fails
    ensures failed ==> me !in w.runs && CutOff(w, me, all)
    ensures !failed ==> Loops(w, me, plan, last, handle, stats, newest, all)
  {
    hide World.Valid, World.Now, Calm, Awaited;
    SomethingRemains(plan, stats.fetched);
    ghost var done := w.mine[me];
    failed := w.Wait(me, env, tick);
    if failed {
      CutOffAfter(w, me, done, Remaining(plan, stats.fetched));
    }
  }

  /** Merging a full buffer, or the last one, as the next of the run's events. */
  method FlushBuffer(w: World, t: TableSync, columns: seq<RecordBatches.Field>, me: nat, last: Option<int>, handle: nat,
                     stats: Stats, newest: Option<int>, batch: seq<Row>, env: seq<Await>, tick: nat,
                     decode: Row -> RecordBatches.Cells,
                     ghost plan: Plan, ghost to: nat, ghost all: seq<Event>, ghost was: Footing)
    returns (r: Result<Stats, SyncError>, after: nat, tracked: Option<int>)
    requires w.Valid() && Loops(w, me, plan, last, handle, stats, newest, all) && t.primaryKey != []
    requires Keeps(w, me, env, handle, stats.inserted, was)
    requires stats.fetched < to <= |plan.answer| && to - stats.fetched <= plan.limit
    requires to - stats.fetched == plan.limit || to == |plan.answer|
    requires batch == plan.answer[stats.fetched..to]
    modifies w, w.data, w.marks
    ensures w.Valid() && old(w.log) <= w.log
    ensures r.Ok? ==> Keeps(w, me, env, after, r.value.inserted, was)
    ensures r.Err? ==> Undivided(w, me, env, was)
    ensures r.Ok? ==> Loops(w, me, plan, last, after, r.value, tracked, all)
    ensures r.Ok? ==> r.value.fetched == to && r.value.table == stats.table
    ensures r.Ok? ==> Convertible(columns, decode, batch) && !Awaited(env, tick).fails
    ensures r.Err? && r.error.NotConverted? ==>
      !Convertible(columns, decode, batch) && Faulty(columns, decode, batch, r.error.batch)
    ensures r.Err? && !r.error.NotConverted? ==> MergeRefused(r.error, env, tick)
    ensures r.Err? ==> me !in w.runs && CutOff(w, me, all)
  {
    hide RowsConvert, Convertible, Faulty, World.Valid, World.Now, Calm, Awaited, Track;
    hide Remaining, CutOff, MergeRefused;
    BufferIsNextBatch(plan, stats.fetched, to);
    ghost var done := w.mine[me];
    r, after, tracked := Flush(w, t, columns, me, handle, stats, newest, batch, env, tick, decode);
    if r.Err? {
      CutOffAfter(w, me, done, Remaining(plan, stats.fetched));
    } else {
      assert done + ([MergeBatch(me, |batch|)] + Remaining(plan, to)) == w.mine[me] + Remaining(plan, to);
    }
  }

  /** The loop over the row stream. */
  method Drain(w: World, t: TableSync, columns: seq<RecordBatches.Field>, limit: nat, me: nat, last: Option<int>,
               first: nat, answer: seq<Row>, env: seq<Await>, decode: Row -> RecordBatches.Cells,
               ghost plan: Plan, ghost all: seq<Event>, ghost was: Footing)
    returns (r: Result<Stats, SyncError>, stats: Stats, newest: Option<int>, tick: nat, handle: nat)
    requires plan.answer == answer && plan.limit == (if limit == 0 then 1 else limit) && t.primaryKey != []
    requires w.Valid() && Loops(w, me, plan, last, first, Stats(t.table, 0, 0, 0), None, all)
    requires Smooth(env, LOOP) && Keeps(w, me, env, first, 0, was)
    modifies w, w.data, w.marks
    ensures w.Valid() && old(w.log) <= w.log
    ensures r.Ok? ==> Keeps(w, me, env, handle, stats.inserted, was)
    ensures r.Err? ==> Undivided(w, me, env, was)
    ensures r.Ok? ==> Loops(w, me, plan, last, handle, stats, newest, all)
    ensures r.Ok? ==> stats.fetched == |answer| && stats.table == t.table && RowsConvert(columns, decode, answer)
    ensures r.Ok? ==> Flows(columns, decode, env, plan) && tick == LoopEnd(|answer|, plan.limit)
    ensures r.Err? ==> me !in w.runs && CutOff(w, me, all)
    ensures r.Err? ==> LoopCaused(r.error, columns, decode, env, plan)
  {
    hide World.Valid, RunEvents, World.Now, RowsConvert, CutOff, Convertible, Faulty, Keeps, Undivided, Loops;
    hide Smooth, Stands, LoopCaused, LoopAwaits, LoopEnd, MergeRefused, Flows, Awaited;
    StandsFirst(|answer|, plan.limit);
    stats, newest, tick := Stats(t.table, 0, 0, 0), None, LOOP;
    handle := first;
    var batch: seq<Row> := [];
    var pulled := 0;
    r := Ok(stats);
    while true
      invariant r.Ok? && w.Valid() && old(w.log) <= w.log
      invariant Loops(w, me, plan, last, handle, stats, newest, all)
      invariant Keeps(w, me, env, handle, stats.inserted, was)
      invariant stats.fetched <= pulled <= |answer| && batch == answer[stats.fetched..pulled]
      invariant |batch| < plan.limit
      invariant stats.table == t.table && ConvertedTo(columns, decode, answer, stats.fetched)
      invariant Stands(|answer|, plan.limit, stats.fetched, pulled, tick) && Smooth(env, tick)
      decreases |answer| - pulled
    {
      StandsForRow(|answer|, plan.limit, stats.fetched, pulled, tick);
      var failed := NextRow(w, me, last, handle, stats, newest, env, tick, plan, all, was);
      if failed {
        RowStops(columns, decode, env, plan, tick);
        return Err(Source), stats, newest, tick, handle;
      }
      SmoothStep(env, tick);
      tick := tick + 1;
      var endOfStream := pulled == |answer|;
      if !endOfStream {
        Pulled(answer, stats.fetched, pulled);
        batch, pulled := batch + [answer[pulled]], pulled + 1;
        if |batch| < limit {
          continue;
        }
      }
      if batch == [] {
        break;
      }
      StandsForMerge(|answer|, plan.limit, stats.fetched, if endOfStream then pulled else pulled - 1, tick - 1);
      r, handle, newest := FlushBuffer(w, t, columns, me, last, handle, stats, newest, batch, env, tick, decode, plan,
                                       pulled, all, was);
      if r.Err? {
        MergeStops(r.error, columns, decode, env, plan, stats.fetched, pulled, tick);
        return r, stats, newest, tick, handle;
      }
      MoreConvert(columns, decode, answer, stats.fetched, pulled);
      SmoothStep(env, tick);
      stats, batch, tick := r.value, [], tick + 1;
      if endOfStream {
        break;
      }
    }
    AllConverted(columns, decode, env, plan, tick);
  }

  /** The first `n` rows have been converted, if any, and so the columns are in order. */
  predicate ConvertedTo(columns: seq<RecordBatches.Field>, decode: Row -> RecordBatches.Cells, answer: seq<Row>, n: nat)
    requires n <= |answer|
  {
    n > 0 ==> Convertible(columns, decode, answer[..n])
  }

  lemma MoreConvert(columns: seq<RecordBatches.Field>, decode: Row -> RecordBatches.Cells, answer: seq<Row>,
                    from: nat, to: nat)
    requires from < to <= |answer|
    requires ConvertedTo(columns, decode, answer, from) && Convertible(columns, decode, answer[from..to])
    ensures ConvertedTo(columns, decode, answer, to)
  {
    hide RecordBatches.RowConverts, RecordBatches.TypesAgree;
    forall i | 0 <= i < to ensures RecordBatches.RowConverts(columns, decode(answer[..to][i])) {
      assert answer[..to][i] == if i < from then answer[..from][i] else answer[from..to][i - from];
    }
  }

  lemma AllConverted(columns: seq<RecordBatches.Field>, decode: Row -> RecordBatches.Cells, env: seq<Await>,
                     plan: Plan, tick: nat)
    requires plan.limit >= 1 && ConvertedTo(columns, decode, plan.answer, |plan.answer|)
    requires Smooth(env, tick) && tick == LoopEnd(|plan.answer|, plan.limit)
    ensures Flows(columns, decode, env, plan) && RowsConvert(columns, decode, plan.answer)
  {
    hide LoopAwaits, Smooth, RecordBatches.RowConverts;
    assert plan.answer[..|plan.answer|] == plan.answer;
  }

  lemma RowStops(columns: seq<RecordBatches.Field>, decode: Row -> RecordBatches.Cells, env: seq<Await>,
                 plan: Plan, tick: nat)
    requires plan.limit >= 1 && LOOP <= tick < LoopEnd(|plan.answer|, plan.limit)
    requires LoopAwaits(|plan.answer|, plan.limit)[tick - LOOP] == ForRow
    requires Smooth(env, tick) && Awaited(env, tick).fails
    ensures LoopCaused(Source, columns, decode, env, plan)
  {
    assert StopsAt(env, tick, |plan.answer|, plan.limit, ForRow);
  }

  /** Why the merge of the rows fetched since the last one was not made. */
  lemma MergeStops(e: SyncError, columns: seq<RecordBatches.Field>, decode: Row -> RecordBatches.Cells,
                   env: seq<Await>, plan: Plan, from: nat, to: nat, tick: nat)
    requires plan.limit >= 1 && LOOP <= tick < LoopEnd(|plan.answer|, plan.limit) && from < to <= |plan.answer|
    requires LoopAwaits(|plan.answer|, plan.limit)[tick - LOOP] == ForMerge && Smooth(env, tick)
    requires e.NotConverted? ==>
      !Convertible(columns, decode, plan.answer[from..to]) && Faulty(columns, decode, plan.answer[from..to], e.batch)
    requires !e.NotConverted? ==> MergeRefused(e, env, tick)
    ensures LoopCaused(e, columns, decode, env, plan)
  {
    hide LoopAwaits, Faulty;
    if e.NotConverted? {
      if Convertible(columns, decode, plan.answer) {
        PartConverts(columns, decode, plan.answer, from, to);
      }
      assert FaultyBatch(columns, decode, plan.answer, from, to, e.batch);
    } else if e == NotWritten(Storage) {
      assert StopsAt(env, tick, |plan.answer|, plan.limit, ForMerge);
    }
  }

  lemma PartConverts(columns: seq<RecordBatches.Field>, decode: Row -> RecordBatches.Cells, answer: seq<Row>,
                     from: nat, to: nat)
    requires from <= to <= |answer| && Convertible(columns, decode, answer)
    ensures Convertible(columns, decode, answer[from..to])
  {
    hide RecordBatches.RowConverts, RecordBatches.TypesAgree;
    forall i | 0 <= i < to - from ensures RecordBatches.RowConverts(columns, decode(answer[from..to][i])) {
      assert answer[from..to][i] == answer[from + i];
    }
  }

  lemma NewestIsLast(w: World, me: nat)
    requires w.Valid() && me in w.runs && w.runs[me].Merging? && w.runs[me].merged == |w.runs[me].answer|
    ensures w.runs[me].newest == LastMark(w.runs[me].answer)
  {
    w.Sound();
    var run := w.runs[me];
    assert run.answer[..|run.answer|] == run.answer;
    assert RunOk(w.Now(), run);
  }

  lemma ClosingAre(p: Plan)
    requires p.limit >= 1
    ensures Remaining(p, |p.answer|) ==
            if LastMark(p.answer).Some? then [OpenMark(p.id, true), Event.Advance(p.id, p.at)] else [Event.Finish(p.id)]
  {
  }

  /** What follows the loop: record the newest watermark, if there is one. */
  method Close(w: World, me: nat, last: Option<int>, stats: Stats, newest: Option<int>, at: int,
               env: seq<Await>, tick: nat, handle: nat, ghost plan: Plan)
    returns (r: Result<Stats, SyncError>)
    requires w.Valid() && plan.limit >= 1 && Loops(w, me, plan, last, handle, stats, newest, RunEvents(plan))
    requires stats.fetched == |plan.answer| && plan.at == at && tick == LoopEnd(|plan.answer|, plan.limit)
    modifies w, w.data, w.marks
    ensures w.Valid() && old(w.log) <= w.log && me !in w.runs
    ensures Calm(env) ==> me in w.mine && |w.log| - |w.mine[me]| == |old(w.log)| - |old(w.mine)[me]|
    ensures r.Ok? ==> me in w.mine && w.mine[me] == RunEvents(plan) && me !in w.cut && r.value == stats
    ensures r.Err? ==> CutOff(w, me, RunEvents(plan))
    ensures Calm(env) ==> w.data.rows == old(w.data.rows)
    ensures w.Count(me) == old(w.Count(me))
    ensures r.Ok? ==> Records(env, plan, old(w.marks.commits))
    ensures r.Err? ==> CloseCaused(r.error, env, plan, old(w.marks.commits))
  {
    hide World.Valid, RunEvents, World.Now, Remaining, ClosingEvents, LastMark, Calm, Awaited, LoopAwaits, OpenFails;
    NewestIsLast(w, me);
    ClosingAre(plan);
    if newest.Some? {
      var recorded := RecordNewest(w, me, newest.value, at, env, tick, RunEvents(plan));
      if recorded.Err? {
        return Err(recorded.error);
      }
    } else {
      w.Finish(me);
    }
    return Ok(stats);
  }

  /** `checkpoint::advance` at the end of a run. */
  method RecordNewest(w: World, me: nat, value: int, at: int, env: seq<Await>, tick: nat, ghost all: seq<Event>)
    returns (r: Result<(), SyncError>)
    requires w.Valid() && me in w.runs && me in w.mine && w.mine[me] != []
    requires w.runs[me].Merging? && w.runs[me].merged == |w.runs[me].answer| && w.runs[me].newest == Some(value)
    requires all == w.mine[me] + [OpenMark(me, true), Event.Advance(me, at)]
    modifies w, w.data, w.marks
    ensures w.Valid() && old(w.log) <= w.log && me !in w.runs
    ensures Calm(env) ==> me in w.mine && |w.log| - |w.mine[me]| == |old(w.log)| - |old(w.mine)[me]|
    ensures Calm(env) ==> w.data.rows == old(w.data.rows)
    ensures r.Ok? ==> me in w.mine && w.mine[me] == all && me !in w.cut
    ensures r.Err? ==> CutOff(w, me, all)
    ensures w.Count(me) == old(w.Count(me))
    ensures r.Ok? ==> MayOpen(env, tick, old(w.marks.commits)) && !Awaited(env, tick + 1).fails
    ensures r.Err? ==>
      || (r.error == NotWritten(Storage)
          && (OpenFails(env, tick, old(w.marks.commits)) || Awaited(env, tick + 1).fails))
      || (r.error == NotWritten(ConcurrentWrite) && !Calm(env))
  {
    hide World.Valid, World.Now, Calm;
    ghost var done := w.mine[me];
    var now := w.Pause(me, env, tick);
    var marks := w.OpenMarks(me, value, now.loads, now.creates);
    if marks.Err? {
      CutOffAfter(w, me, done, [OpenMark(me, true), Event.Advance(me, at)]);
      return Err(NotWritten(marks.error));
    }
    assert all == (done + [OpenMark(me, true)]) + [Event.Advance(me, at)];
    now := w.Pause(me, env, tick + 1);
    var advanced := w.Advance(me, marks.value, value, at, !now.fails);
    if advanced.Err? {
      CutOffAfter(w, me, done + [OpenMark(me, true)], [Event.Advance(me, at)]);
      return Err(NotWritten(advanced.error));
    }
    return Ok(());
  }
}
