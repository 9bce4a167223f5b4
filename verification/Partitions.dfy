/**
 * `plan_partitions` and `sync_tables_distributed` of python/tiberiusdelta/distributed.py:
 * how many pieces the tables are split into, and where each table ends up in the report.
 */
module Partitions {
  import opened Wrappers
  import opened Catalog
  import opened Sequences
  import opened Sync
  import Complete
  import Runs

  datatype DistributedError =
    | ProgressUnsupported
    | NoSession
    | BelowOne
    | PartitionsFailed(failed: nat, partitions: nat)

  function Min(a: int, b: int): int {
    if a < b then a else b
  }

  function Max(a: int, b: int): int {
    if a < b then b else a
  }

  /** A count of partitions that leaves none empty, and is no more than asked for or, when
      nothing is asked for, four to a core. */
  predicate Allowed(count: int, tableCount: int, parallelism: int, requested: Option<int>) {
    && count <= tableCount
    && (if requested.Some? then count <= requested.value else count <= 4 || count <= 4 * parallelism)
  }

  /** Refused exactly when there is a table and fewer than one partition is asked for;
      otherwise the greatest count allowed, which is at least one when there is a table. */
  function PlanPartitions(tableCount: int, parallelism: int, requested: Option<int>): (r: Result<nat, DistributedError>)
    ensures r.Err? <==> tableCount > 0 && requested.Some? && requested.value < 1
    ensures r.Ok? && tableCount > 0 ==> r.value >= 1 && Allowed(r.value, tableCount, parallelism, requested)
    ensures r.Ok? && tableCount > 0 ==> forall m | Allowed(m, tableCount, parallelism, requested) :: m <= r.value
    ensures r.Ok? && tableCount <= 0 ==> r.value == 0
  {
    if tableCount <= 0 then Ok(0)
    else if requested.Some? then
      if requested.value < 1 then Err(BelowOne) else Ok(Min(requested.value, tableCount))
    else Ok(Max(1, Min(tableCount, 4 * Max(1, parallelism))))
  }

  // ---------------------------------------------------------------------- one partition

  /** What a worker sends back: a table's result, or one failure naming the whole partition. */
  datatype WorkerEntry = Success(stats: Stats) | Failure(tables: seq<string>, error: string)

  /** What `sync_tables` gave for one partition. */
  type PartitionResult = Result<seq<Stats>, string>

  function TableNames(tables: seq<TableSync>): seq<string> {
    seq(|tables|, i requires 0 <= i < |tables| => tables[i].table)
  }

  function Entries(stats: seq<Stats>): seq<WorkerEntry> {
    seq(|stats|, i requires 0 <= i < |stats| => Success(stats[i]))
  }

  function Worker(part: seq<TableSync>, outcome: PartitionResult): seq<WorkerEntry> {
    if part == [] then []
    else
      match outcome
      case Ok(stats) => Entries(stats)
      case Err(error) => [Failure(TableNames(part), error)]
  }

  /** A run that returns a report has one line per table, in order. */
  predicate Answers(part: seq<TableSync>, outcome: PartitionResult) {
    outcome.Ok? ==>
      |outcome.value| == |part| && forall i | 0 <= i < |part| :: outcome.value[i].table == part[i].table
  }

  function Configured(tasks: seq<Runs.Task>): seq<TableSync> {
    seq(|tasks|, i requires 0 <= i < |tasks| => tasks[i].sync)
  }

  /** Which is what `run` returns. */
  lemma RunAnswers(tasks: seq<Runs.Task>, report: Runs.Report, plans: seq<Complete.Plan>)
    requires Runs.Tabulates(report, tasks, plans) && |plans| == |tasks|
    ensures Answers(Configured(tasks), Ok(report.tables))
    ensures Total(report.tables) == report.totalRowsFetched
  {
    TotalIsFetched(report.tables, plans);
  }

  lemma {:induction false} TotalIsFetched(stats: seq<Stats>, plans: seq<Complete.Plan>)
    requires |stats| == |plans| && forall i | 0 <= i < |plans| :: stats[i].fetched == |plans[i].answer|
    ensures Total(stats) == Runs.Fetched(plans)
  {
    if stats != [] {
      var n := |stats| - 1;
      TotalIsFetched(stats[..n], plans[..n]);
      TotalJoined(stats[..n], [stats[n]]);
      assert stats == stats[..n] + [stats[n]];
      assert Total([stats[n]]) == stats[n].fetched + Total([stats[n]][1..]);
    }
  }

  // ------------------------------------------------------------------------ the report

  function Collected(parts: seq<seq<TableSync>>, outcomes: seq<PartitionResult>): seq<WorkerEntry>
    requires |parts| == |outcomes|
  {
    if parts == [] then [] else Worker(parts[0], outcomes[0]) + Collected(parts[1..], outcomes[1..])
  }

  function Results(entries: seq<WorkerEntry>): seq<Stats> {
    if entries == [] then []
    else (if entries[0].Success? then [entries[0].stats] else []) + Results(entries[1..])
  }

  function Failures(entries: seq<WorkerEntry>): seq<WorkerEntry> {
    if entries == [] then []
    else (if entries[0].Failure? then [entries[0]] else []) + Failures(entries[1..])
  }

  function Total(stats: seq<Stats>): nat {
    if stats == [] then 0 else stats[0].fetched + Total(stats[1..])
  }

  datatype DistributedReport = DistributedReport(tables: seq<Stats>, failures: seq<WorkerEntry>, totalRowsFetched: nat)

  /** `sync_tables_distributed`, given how the cluster split the tables and what each
      partition's sync gave. */
  function SyncTablesDistributed(
      tables: seq<TableSync>, progress: bool, session: bool, parallelism: int, requested: Option<int>, raises: bool,
      parts: seq<seq<TableSync>>, outcomes: seq<PartitionResult>): Result<DistributedReport, DistributedError>
    requires |parts| == |outcomes|
  {
    if progress then Err(ProgressUnsupported)
    else if tables == [] then Ok(DistributedReport([], [], 0))
    else if !session then Err(NoSession)
    else
      var planned := PlanPartitions(|tables|, parallelism, requested);
      if planned.Err? then Err(planned.error)
      else
        var collected := Collected(parts, outcomes);
        var report := DistributedReport(Results(collected), Failures(collected), Total(Results(collected)));
        if report.failures != [] && raises then Err(PartitionsFailed(|report.failures|, planned.value)) else Ok(report)
  }

  /** Every way the call is refused, and when. */
  lemma RefusedExactly(tables: seq<TableSync>, progress: bool, session: bool, parallelism: int,
                       requested: Option<int>, raises: bool, parts: seq<seq<TableSync>>, outcomes: seq<PartitionResult>)
    requires |parts| == |outcomes|
    ensures var r := SyncTablesDistributed(tables, progress, session, parallelism, requested, raises, parts, outcomes);
            && (r == Err(ProgressUnsupported) <==> progress)
            && (r == Err(NoSession) <==> !progress && tables != [] && !session)
            && (r == Err(BelowOne) <==>
                  !progress && tables != [] && session && requested.Some? && requested.value < 1)
            && (!progress && tables == [] ==> r == Ok(DistributedReport([], [], 0)))
  {
    hide Collected, Results, Failures, Total;
  }

  /** The rows fetched by the partitions that did not fail. */
  function FetchedBy(parts: seq<seq<TableSync>>, outcomes: seq<PartitionResult>): nat
    requires |parts| == |outcomes|
  {
    if parts == [] then 0
    else (if parts[0] != [] && outcomes[0].Ok? then Total(outcomes[0].value) else 0)
         + FetchedBy(parts[1..], outcomes[1..])
  }

  /** How often the report mentions each table, as a result or within a failure. */
  function Mentions(entries: seq<WorkerEntry>): multiset<string> {
    if entries == [] then multiset{} else MentionOf(entries[0]) + Mentions(entries[1..])
  }

  function MentionOf(entry: WorkerEntry): multiset<string> {
    match entry
    case Success(stats) => multiset{stats.table}
    case Failure(tables, _) => multiset(tables)
  }

  lemma {:induction false} MentionsJoined(a: seq<WorkerEntry>, b: seq<WorkerEntry>)
    ensures Mentions(a + b) == Mentions(a) + Mentions(b)
  {
    if a == [] {
      assert a + b == b;
    } else {
      assert (a + b)[1..] == a[1..] + b;
      MentionsJoined(a[1..], b);
    }
  }

  /** A partition mentions its tables, each once, whether it succeeded or failed. */
  lemma PartitionMentions(part: seq<TableSync>, outcome: PartitionResult)
    requires Answers(part, outcome)
    ensures Mentions(Worker(part, outcome)) == multiset(TableNames(part))
  {
    if part == [] {
      assert TableNames(part) == [];
    } else if outcome.Ok? {
      EntriesMention(outcome.value);
      var names := seq(|outcome.value|, i requires 0 <= i < |outcome.value| => outcome.value[i].table);
      assert names == TableNames(part);
    } else {
      var e := Failure(TableNames(part), outcome.error);
      assert Mentions([e]) == multiset(e.tables) + Mentions([e][1..]);
    }
  }

  lemma {:induction false} EntriesMention(stats: seq<Stats>)
    ensures Mentions(Entries(stats)) == multiset(seq(|stats|, i requires 0 <= i < |stats| => stats[i].table))
  {
    var names := seq(|stats|, i requires 0 <= i < |stats| => stats[i].table);
    if stats != [] {
      EntriesMention(stats[1..]);
      var rest := seq(|stats| - 1, i requires 0 <= i < |stats| - 1 => stats[1..][i].table);
      assert names == [stats[0].table] + rest;
      assert Entries(stats)[1..] == Entries(stats[1..]);
    }
  }

  lemma {:induction false} CollectedMentions(parts: seq<seq<TableSync>>, outcomes: seq<PartitionResult>)
    requires |parts| == |outcomes| && forall i | 0 <= i < |parts| :: Answers(parts[i], outcomes[i])
    ensures Mentions(Collected(parts, outcomes)) == multiset(TableNames(Flatten(parts)))
  {
    if parts == [] {
      assert TableNames(Flatten(parts)) == [];
    } else {
      PartitionMentions(parts[0], outcomes[0]);
      CollectedMentions(parts[1..], outcomes[1..]);
      MentionsJoined(Worker(parts[0], outcomes[0]), Collected(parts[1..], outcomes[1..]));
      NamesJoined(parts[0], Flatten(parts[1..]));
    }
  }

  lemma NamesJoined(a: seq<TableSync>, b: seq<TableSync>)
    ensures multiset(TableNames(a + b)) == multiset(TableNames(a)) + multiset(TableNames(b))
  {
    assert TableNames(a + b) == TableNames(a) + TableNames(b);
  }

  /** Sorting the entries into results and failures loses and repeats nothing. */
  lemma {:induction false} SortedOut(entries: seq<WorkerEntry>)
    ensures Mentions(entries) == Mentions(Entries(Results(entries))) + Mentions(Failures(entries))
  {
    if entries != [] {
      hide Mentions, MentionOf, Results, Failures, Entries;
      var first, rest := entries[0], entries[1..];
      assert entries == [first] + rest;
      SortedOut(rest);
      SortedFirst(first, rest);
      MentionsFirst(first, rest);
      MentionsFirst(first, if first.Success? then Entries(Results(rest)) else Failures(rest));
    }
  }

  lemma SortedFirst(first: WorkerEntry, rest: seq<WorkerEntry>)
    ensures Results([first] + rest) == (if first.Success? then [first.stats] else []) + Results(rest)
    ensures Failures([first] + rest) == (if first.Failure? then [first] else []) + Failures(rest)
    ensures first.Success? ==> Entries(Results([first] + rest)) == [first] + Entries(Results(rest))
    ensures first.Success? ==> Failures([first] + rest) == Failures(rest)
    ensures first.Failure? ==> Results([first] + rest) == Results(rest)
  {
    assert ([first] + rest)[1..] == rest;
    assert [] + Results(rest) == Results(rest) && [] + Failures(rest) == Failures(rest);
  }

  lemma MentionsFirst(first: WorkerEntry, rest: seq<WorkerEntry>)
    ensures Mentions([first] + rest) == MentionOf(first) + Mentions(rest)
  {
    assert ([first] + rest)[1..] == rest;
  }

  /** A line of the report is a partition's, and a failure names its partition's tables and error. */
  predicate Reported(e: WorkerEntry, part: seq<TableSync>, outcome: PartitionResult) {
    && part != []
    && match e
       case Success(stats) => outcome.Ok? && stats in outcome.value
       case Failure(tables, error) => outcome == Err(error) && tables == TableNames(part)
  }

  /** Everything a partition reports is in the report, and nothing else is. */
  lemma {:induction false} CollectedExactly(parts: seq<seq<TableSync>>, outcomes: seq<PartitionResult>, e: WorkerEntry)
    requires |parts| == |outcomes|
    ensures e in Collected(parts, outcomes) <==> exists i | 0 <= i < |parts| :: Reported(e, parts[i], outcomes[i])
  {
    if parts != [] {
      CollectedExactly(parts[1..], outcomes[1..], e);
      WorkerExactly(parts[0], outcomes[0], e);
      hide Reported, Worker;
      if exists i | 0 <= i < |parts| :: Reported(e, parts[i], outcomes[i]) {
        var i :| 0 <= i < |parts| && Reported(e, parts[i], outcomes[i]);
        if i > 0 {
          assert Reported(e, parts[1..][i - 1], outcomes[1..][i - 1]);
        }
      }
      if e in Collected(parts[1..], outcomes[1..]) {
        var i :| 0 <= i < |parts| - 1 && Reported(e, parts[1..][i], outcomes[1..][i]);
        assert Reported(e, parts[i + 1], outcomes[i + 1]);
      }
    }
  }

  lemma WorkerExactly(part: seq<TableSync>, outcome: PartitionResult, e: WorkerEntry)
    ensures e in Worker(part, outcome) <==> Reported(e, part, outcome)
  {
    if part != [] && outcome.Ok? {
      var entries := Entries(outcome.value);
      if e in entries {
        var i :| 0 <= i < |entries| && entries[i] == e;
        assert e.stats == outcome.value[i];
      }
      if e.Success? && e.stats in outcome.value {
        var i :| 0 <= i < |outcome.value| && outcome.value[i] == e.stats;
        assert entries[i] == e;
      }
    }
  }

  lemma {:induction false} SortedMembers(entries: seq<WorkerEntry>, e: WorkerEntry)
    ensures e in Failures(entries) <==> e.Failure? && e in entries
    ensures e.Success? ==> (e.stats in Results(entries) <==> e in entries)
  {
    if entries != [] {
      SortedMembers(entries[1..], e);
      assert entries == [entries[0]] + entries[1..];
    }
  }

  /** So a report's lines are those of the partitions that succeeded, and its failures those of
      the partitions that failed, each with its own tables and error. */
  lemma ReportExactly(parts: seq<seq<TableSync>>, outcomes: seq<PartitionResult>, e: WorkerEntry)
    requires |parts| == |outcomes|
    ensures var collected := Collected(parts, outcomes);
            (if e.Success? then e.stats in Results(collected) else e in Failures(collected)) <==>
            exists i | 0 <= i < |parts| :: Reported(e, parts[i], outcomes[i])
  {
    CollectedExactly(parts, outcomes, e);
    SortedMembers(Collected(parts, outcomes), e);
  }

  lemma {:induction false} FewFailures(parts: seq<seq<TableSync>>, outcomes: seq<PartitionResult>)
    requires |parts| == |outcomes|
    ensures |Failures(Collected(parts, outcomes))| <= |parts|
    ensures (forall i | 0 <= i < |parts| :: parts[i] == [] || outcomes[i].Ok?) <==>
            Failures(Collected(parts, outcomes)) == []
  {
    if parts != [] {
      var head, rest := Worker(parts[0], outcomes[0]), Collected(parts[1..], outcomes[1..]);
      FewFailures(parts[1..], outcomes[1..]);
      FailuresJoined(head, rest);
      if outcomes[0].Ok? {
        NoFailures(outcomes[0].value);
      } else if parts[0] != [] {
        assert Failures(head) == head + Failures(head[1..]);
      }
    }
  }

  lemma {:induction false} FailuresJoined(a: seq<WorkerEntry>, b: seq<WorkerEntry>)
    ensures Failures(a + b) == Failures(a) + Failures(b)
  {
    if a == [] {
      assert a + b == b;
    } else {
      var first, rest := a[0], a[1..];
      assert a == [first] + rest && a + b == [first] + (rest + b);
      SortedFirst(first, rest);
      SortedFirst(first, rest + b);
      FailuresJoined(rest, b);
      hide Failures;
    }
  }

  lemma {:induction false} NoFailures(stats: seq<Stats>)
    ensures Failures(Entries(stats)) == []
  {
    if stats != [] {
      assert Entries(stats)[1..] == Entries(stats[1..]);
      NoFailures(stats[1..]);
    }
  }

  lemma {:induction false} TotalOfResults(parts: seq<seq<TableSync>>, outcomes: seq<PartitionResult>)
    requires |parts| == |outcomes|
    ensures Total(Results(Collected(parts, outcomes))) == FetchedBy(parts, outcomes)
  {
    if parts != [] {
      var head, rest := Worker(parts[0], outcomes[0]), Collected(parts[1..], outcomes[1..]);
      TotalOfResults(parts[1..], outcomes[1..]);
      ResultsJoined(head, rest);
      TotalJoined(Results(head), Results(rest));
      if outcomes[0].Ok? {
        AllResults(outcomes[0].value);
      } else if parts[0] != [] {
        assert Results(head) == [] + Results(head[1..]);
      }
    }
  }

  lemma {:induction false} ResultsJoined(a: seq<WorkerEntry>, b: seq<WorkerEntry>)
    ensures Results(a + b) == Results(a) + Results(b)
  {
    if a == [] {
      assert a + b == b;
    } else {
      var first, rest := a[0], a[1..];
      assert a == [first] + rest && a + b == [first] + (rest + b);
      SortedFirst(first, rest);
      SortedFirst(first, rest + b);
      ResultsJoined(rest, b);
      hide Results;
    }
  }

  lemma {:induction false} TotalJoined(a: seq<Stats>, b: seq<Stats>)
    ensures Total(a + b) == Total(a) + Total(b)
  {
    if a == [] {
      assert a + b == b;
    } else {
      assert (a + b)[1..] == a[1..] + b;
      TotalJoined(a[1..], b);
    }
  }

  lemma {:induction false} AllResults(stats: seq<Stats>)
    ensures Results(Entries(stats)) == stats
  {
    if stats != [] {
      assert Entries(stats)[1..] == Entries(stats[1..]);
      AllResults(stats[1..]);
    }
  }

  /**
   * Accounting. For every list of tables, every contiguous split into the planned number of
   * partitions and every pattern of failures, results and failures together mention each
   * table as often as it was listed, the total is that of the partitions that succeeded, and
   * the call fails exactly when some partition failed and failures are to be raised.
   */
  lemma Accounting(tables: seq<TableSync>, parallelism: int, requested: Option<int>, raises: bool,
                   parts: seq<seq<TableSync>>, outcomes: seq<PartitionResult>)
    requires tables != [] && PlanPartitions(|tables|, parallelism, requested).Ok?
    requires |parts| == |outcomes| == PlanPartitions(|tables|, parallelism, requested).value
    requires Flatten(parts) == tables && forall i | 0 <= i < |parts| :: Answers(parts[i], outcomes[i])
    ensures var r := SyncTablesDistributed(tables, false, true, parallelism, requested, raises, parts, outcomes);
            && (r.Err? <==> raises && exists i | 0 <= i < |parts| :: parts[i] != [] && outcomes[i].Err?)
            && (r.Err? ==> r.error.PartitionsFailed? && 1 <= r.error.failed <= r.error.partitions == |parts|)
            && (r.Ok? ==>
                  && r.value.totalRowsFetched == FetchedBy(parts, outcomes)
                  && Mentions(Entries(r.value.tables)) + Mentions(r.value.failures) == multiset(TableNames(tables)))
  {
    hide Collected, Results, Failures, Mentions, Total, FetchedBy, Entries, PlanPartitions;
    CollectedMentions(parts, outcomes);
    SortedOut(Collected(parts, outcomes));
    FewFailures(parts, outcomes);
    TotalOfResults(parts, outcomes);
  }

  /** So a table that is listed once is accounted for exactly once. */
  lemma ListedOnce(tables: seq<TableSync>, i: nat)
    requires i < |tables|
    ensures multiset(TableNames(tables))[tables[i].table] == 1 <==>
            forall j | 0 <= j < |tables| && j != i :: tables[j].table != tables[i].table
  {
    var names := TableNames(tables);
    var before, after := names[..i], names[i + 1..];
    assert names == before + [names[i]] + after;
    if forall j | 0 <= j < |tables| && j != i :: tables[j].table != tables[i].table {
      assert names[i] !in before && names[i] !in after;
    } else {
      var j :| 0 <= j < |tables| && j != i && tables[j].table == tables[i].table;
      assert names[i] in (if j < i then before else after) by {
        assert names[i] == if j < i then before[j] else after[j - i - 1];
      }
    }
  }
}
