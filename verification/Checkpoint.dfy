/**
 * The checkpoint store of src/checkpoint.rs: one Delta table per location, written by
 * `advance` and read back file by file into a map.
 */
module Checkpoints {
  import opened Wrappers
  import opened Rows
  import opened Sequences
  import opened Merge
  import opened Protocol
  import Names

  /** One advance that committed. */
  datatype Done = Done(uri: string, table: string, value: int, at: int)

  function DoneRow(d: Done): Row {
    MarkRow(d.table, d.value, d.at)
  }

  /** What a location should hold: for each table name, the last advance under it. */
  function Latest(log: seq<Done>, uri: string): map<Key, Row> {
    if log == [] then map[]
    else
      var front, last := Latest(log[..|log| - 1], uri), log[|log| - 1];
      if last.uri == uri then front[DoneRow(last).key := DoneRow(last)] else front
  }

  function LastValue(log: seq<Done>, uri: string): Option<int> {
    if log == [] then None
    else if log[|log| - 1].uri == uri then Some(log[|log| - 1].value)
    else LastValue(log[..|log| - 1], uri)
  }

  /** Every advance at this location was for one table. */
  predicate OneTable(log: seq<Done>, uri: string) {
    forall i, j | 0 <= i < j < |log| && log[i].uri == uri && log[j].uri == uri :: log[i].table == log[j].table
  }

  lemma {:induction false} LatestIsOf(log: seq<Done>, uri: string, k: Key)
    requires k in Latest(log, uri)
    ensures exists d | d in log :: d.uri == uri && k == [Str(d.table)] && Latest(log, uri)[k] == DoneRow(d)
  {
    var front, last := log[..|log| - 1], log[|log| - 1];
    if last.uri == uri && k == DoneRow(last).key {
      assert last in log;
    } else {
      LatestIsOf(front, uri, k);
      var d :| d in front && d.uri == uri && k == [Str(d.table)] && Latest(front, uri)[k] == DoneRow(d);
      assert d in log;
    }
  }

  lemma {:induction false} LatestHas(log: seq<Done>, uri: string, i: nat)
    requires i < |log| && log[i].uri == uri
    ensures [Str(log[i].table)] in Latest(log, uri)
  {
    if i < |log| - 1 {
      LatestHas(log[..|log| - 1], uri, i);
    }
  }

  /** With one table per location, the row there is the last successful advance's. */
  lemma {:induction false} LatestOfOneTable(log: seq<Done>, uri: string)
    requires OneTable(log, uri)
    ensures LastValue(log, uri).None? ==> Latest(log, uri) == map[]
    ensures LastValue(log, uri).Some? ==>
      exists k :: Latest(log, uri).Keys == {k} && Latest(log, uri)[k].mark == LastValue(log, uri)
  {
    if log != [] {
      var front, last := log[..|log| - 1], log[|log| - 1];
      LatestOfOneTable(front, uri);
      if last.uri == uri {
        var k := DoneRow(last).key;
        forall k' | k' in Latest(front, uri) ensures k' == k {
          LatestIsOf(front, uri, k');
          var d :| d in front && d.uri == uri && k' == [Str(d.table)];
          var i :| 0 <= i < |front| && front[i] == d;
          assert log[i] == d;
        }
        assert Latest(log, uri).Keys == {k};
      }
    }
  }

  lemma OneKeyExactly(log: seq<Done>, uri: string)
    ensures |Latest(log, uri)| <= 1 <==> OneTable(log, uri)
  {
    var latest := Latest(log, uri);
    if OneTable(log, uri) {
      LatestOfOneTable(log, uri);
      if LastValue(log, uri).Some? {
        var k :| latest.Keys == {k} && latest[k].mark == LastValue(log, uri);
        assert |latest| == |latest.Keys|;
      }
    } else {
      var i, j :| 0 <= i < j < |log| && log[i].uri == uri && log[j].uri == uri && log[i].table != log[j].table;
      LatestHas(log, uri, i);
      LatestHas(log, uri, j);
      var a, b := [Str(log[i].table)], [Str(log[j].table)];
      assert a[0] != b[0];
      assert {a, b} <= latest.Keys;
      TwoKeys(latest.Keys, a, b);
    }
  }

  lemma TwoKeys(keys: set<Key>, a: Key, b: Key)
    requires a in keys && b in keys && a != b
    ensures |keys| >= 2
  {
    assert keys == {a} + (keys - {a}) && b in keys - {a};
  }

  // --------------------------------------------------------------------------- the files

  /** `table_name` */
  function NameOf(r: Row): string {
    if |r.key| == 1 && r.key[0].Str? then r.key[0].s else ""
  }

  /** `last_value` */
  function ValueOf(r: Row): int {
    if r.mark.Some? then r.mark.value else 0
  }

  function Values(known: map<string, int>, rows: seq<Row>): map<string, int> {
    if rows == [] then known
    else
      var last := rows[|rows| - 1];
      Values(known, rows[..|rows| - 1])[NameOf(last) := ValueOf(last)]
  }

  /** `extend_from_batch`: a later row for the same name overwrites an earlier one. */
  method ExtendFromBatch(known: map<string, int>, batch: seq<Row>) returns (out: map<string, int>)
    ensures out == Values(known, batch)
  {
    out := known;
    var i := 0;
    while i < |batch|
      invariant i <= |batch| && out == Values(known, batch[..i])
    {
      assert batch[..i + 1][..i] == batch[..i];
      out := out[NameOf(batch[i]) := ValueOf(batch[i])];
      i := i + 1;
    }
    assert batch[..i] == batch;
  }

  lemma {:induction false} ValuesJoined(known: map<string, int>, a: seq<Row>, b: seq<Row>)
    ensures Values(known, a + b) == Values(Values(known, a), b)
  {
    if b == [] {
      assert a + b == a;
    } else {
      var n := |b| - 1;
      assert (a + b)[..|a + b| - 1] == a + b[..n];
      ValuesJoined(known, a, b[..n]);
    }
  }

  /** Rows with names of their own give the same map in whatever order they are read. */
  lemma {:induction false} ValuesAre(rows: seq<Row>)
    requires forall i, j | 0 <= i < j < |rows| :: NameOf(rows[i]) != NameOf(rows[j])
    ensures forall r | r in rows :: NameOf(r) in Values(map[], rows) && Values(map[], rows)[NameOf(r)] == ValueOf(r)
    ensures forall name | name in Values(map[], rows) :: exists r | r in rows :: NameOf(r) == name
  {
    if rows != [] {
      var n := |rows| - 1;
      var front, last := rows[..n], rows[n];
      ValuesAre(front);
      forall r | r in rows
        ensures NameOf(r) in Values(map[], rows) && Values(map[], rows)[NameOf(r)] == ValueOf(r)
      {
        var i :| 0 <= i < |rows| && rows[i] == r;
        if i < n {
          assert front[i] == r && r in front;
        }
      }
      forall name | name in Values(map[], rows) ensures exists r | r in rows :: NameOf(r) == name {
        if name == NameOf(last) {
          assert last in rows;
        } else {
          var r :| r in front && NameOf(r) == name;
          assert r in rows;
        }
      }
    }
  }

  /** What the files hold of a location is its rows, in any order. */
  predicate Files(files: seq<seq<Row>>, d: Delta) {
    multiset(Flatten(files)) == multiset(d.rows)
  }

  /** The store holds at each location what was last recorded there for each table. */
  predicate Recorded(d: Delta, log: seq<Done>, uri: string) {
    && Keyed(d.rows)
    && Contents(d.rows) == Latest(log, uri)
    && (d.commits == 0 ==> d.rows == [])
  }

  /** A location holds more than one row exactly when two tables have been recorded there. */
  lemma OneRowExactly(d: Delta, log: seq<Done>, uri: string)
    requires Recorded(d, log, uri)
    ensures |d.rows| <= 1 <==> OneTable(log, uri)
  {
    KeyCount(d.rows);
    ContentsHold(d.rows);
    OneKeyExactly(log, uri);
    assert |Latest(log, uri)| == |Latest(log, uri).Keys|;
  }

  /** Every advance went where `uri_for` puts its table. */
  predicate PlacedBy(log: seq<Done>, prefix: string) {
    forall i | 0 <= i < |log| ::
      && Names.Accepted(log[i].table) && '/' !in log[i].table
      && log[i].uri == Names.UriFor(prefix, Names.RelativePath(log[i].table).value)
  }

  /** So for accepted slash-free names every location is one table's and holds at most one row. */
  lemma NamesKeepRowsApart(d: Delta, log: seq<Done>, prefix: string, uri: string)
    requires PlacedBy(log, prefix) && Recorded(d, log, uri)
    ensures OneTable(log, uri) && |d.rows| <= 1
  {
    forall i, j | 0 <= i < j < |log| && log[i].uri == uri && log[j].uri == uri ensures log[i].table == log[j].table {
      var a, b := log[i].table, log[j].table;
      Names.SamePrefix(Names.TrimEnd(prefix) + "/", Names.RelativePath(a).value, Names.RelativePath(b).value);
      Names.SlashFreePathsDiffer(a, b);
    }
    OneRowExactly(d, log, uri);
  }

  /** A map of values by table name, for the rows of a location. */
  ghost predicate Tells(values: map<string, int>, latest: map<Key, Row>) {
    && (forall name :: name in values <==> [Str(name)] in latest)
    && (forall name | name in values :: values[name] == ValueOf(latest[[Str(name)]]))
  }

  /** However the rows lie in files, reading them gives the last value recorded for each table. */
  lemma FilesTell(files: seq<seq<Row>>, d: Delta, log: seq<Done>, uri: string)
    requires Recorded(d, log, uri) && Files(files, d)
    ensures Tells(Values(map[], Flatten(files)), Latest(log, uri))
  {
    var rows, latest := Flatten(files), Latest(log, uri);
    ContentsHold(d.rows);
    forall r | r in rows ensures r in d.rows && r.key == [Str(NameOf(r))] && latest[r.key] == r {
      assert r in multiset(rows);
      LatestIsOf(log, uri, r.key);
    }
    SamePieces(rows, d.rows);
    forall i, j | 0 <= i < j < |rows| ensures NameOf(rows[i]) != NameOf(rows[j]) {
      assert rows[i] in rows && rows[j] in rows;
    }
    ValuesAre(rows);
    forall k | k in latest ensures latest[k] in rows {
      assert latest[k] in multiset(d.rows);
    }
  }

  /** A rearrangement of keyed rows is keyed. */
  lemma SamePieces(rows: seq<Row>, keyed: seq<Row>)
    requires Keyed(keyed) && multiset(rows) == multiset(keyed)
    ensures Keyed(rows)
  {
    forall i | 0 <= i < |rows| ensures Usable(rows[i].key) {
      assert rows[i] in multiset(keyed);
    }
    forall i, j | 0 <= i < j < |rows| ensures rows[i].key != rows[j].key {
      assert rows[i] in multiset(keyed) && rows[j] in multiset(keyed);
      if rows[i].key == rows[j].key {
        SameKeySameRow(keyed, rows[i], rows[j]);
        Twice(rows, i, j);
        Once(keyed, rows[i]);
      }
    }
  }

  lemma Twice(rows: seq<Row>, i: nat, j: nat)
    requires i < j < |rows| && rows[i] == rows[j]
    ensures multiset(rows)[rows[i]] >= 2
  {
    assert rows == rows[..i] + [rows[i]] + rows[i + 1..j] + [rows[j]] + rows[j + 1..];
  }

  lemma {:induction false} Once(rows: seq<Row>, r: Row)
    requires Keyed(rows)
    ensures multiset(rows)[r] <= 1
  {
    if rows != [] {
      HeadKey(rows);
      assert rows == [rows[0]] + rows[1..];
      Once(rows[1..], r);
      if r in multiset(rows[1..]) {
        assert r in rows[1..] && r.key in Keys(rows[1..]);
      }
    }
  }

  // --------------------------------------------------------------------------- the store

  lemma RecordedMore(d: Delta, log: seq<Done>, done: Done)
    requires Recorded(d, log, done.uri)
    ensures Recorded(Committed(d, [DoneRow(done)]), log + [done], done.uri)
  {
    assert Latest(log + [done], done.uri) == Latest(log, done.uri)[DoneRow(done).key := DoneRow(done)] by {
      assert (log + [done])[..|log|] == log;
    }
    hide Latest, DoneRow, Merged, Keyed, Contents;
    var row := DoneRow(done);
    ContentsOfOne(done);
    MergedIsOverride(d.rows, [row]);
    OverrideOne(Contents(d.rows), row.key, row);
  }

  lemma OverrideOne(m: map<Key, Row>, k: Key, r: Row)
    ensures m + map[k := r] == m[k := r]
  {
  }

  lemma ContentsOfOne(done: Done)
    ensures var row := DoneRow(done); Keyed([row]) && Contents([row]) == map[row.key := row]
  {
    var row := DoneRow(done);
    assert row in [row];
    ContentsHold([row]);
  }

  lemma OthersRecorded(d: Delta, log: seq<Done>, done: Done, uri: string)
    requires Recorded(d, log, uri) && uri != done.uri
    ensures Recorded(d, log + [done], uri)
  {
    assert (log + [done])[..|log|] == log;
  }

  lemma Unambiguous(log: seq<Done>, uri: string, values: map<string, int>)
    requires OneTable(log, uri) && Tells(values, Latest(log, uri))
    ensures forall name | name in values :: Some(values[name]) == LastValue(log, uri)
    ensures values == map[] <==> LastValue(log, uri).None?
  {
    LatestOfOneTable(log, uri);
    hide Latest, LastValue, OneTable;
    if LastValue(log, uri).Some? {
      var k :| Latest(log, uri).Keys == {k} && Latest(log, uri)[k].mark == LastValue(log, uri);
      forall name | name in values ensures Some(values[name]) == LastValue(log, uri) {
        LatestNamed(log, uri, name);
        assert [Str(name)] == k;
      }
      LatestIsOf(log, uri, k);
    }
  }

  lemma LatestNamed(log: seq<Done>, uri: string, name: string)
    requires [Str(name)] in Latest(log, uri)
    ensures Latest(log, uri)[[Str(name)]].mark.Some?
  {
    LatestIsOf(log, uri, [Str(name)]);
    hide Latest;
    var d :| d in log && [Str(name)] == [Str(d.table)] && Latest(log, uri)[[Str(name)]] == DoneRow(d);
  }

  /** `into_values().next()`: any value, if there is one. */
  method Any(values: map<string, int>) returns (r: Option<int>)
    ensures r.None? <==> values == map[]
    ensures r.Some? ==> exists name | name in values :: values[name] == r.value
  {
    if values == map[] {
      return None;
    }
    var name :| name in values;
    return Some(values[name]);
  }

  class CheckpointStore {
    var tables: map<string, Delta>
    ghost var log: seq<Done>

    ghost predicate Valid()
      reads this
    {
      forall uri :: Recorded(At(tables, uri), log, uri)
    }

    constructor ()
      ensures Valid() && log == []
    {
      tables, log := map[], [];
    }

    /** A commit of one checkpoint row, to a table that is created if it has to be. */
    method Commit(done: Done)
      requires Valid()
      modifies this
      ensures Valid() && log == old(log) + [done]
      ensures tables == old(tables)[done.uri := Committed(Opened(At(old(tables), done.uri)), [DoneRow(done)])]
    {
      ghost var next := tables[done.uri := Committed(Opened(At(tables, done.uri)), [DoneRow(done)])];
      ghost var more := log + [done];
      forall uri ensures Recorded(At(next, uri), more, uri) {
        assert Recorded(At(tables, uri), log, uri);
        if uri == done.uri {
          RecordedMore(Opened(At(tables, uri)), log, done);
        } else {
          OthersRecorded(At(tables, uri), log, done, uri);
        }
      }
      tables := tables[done.uri := Committed(Opened(At(tables, done.uri)), [DoneRow(done)])];
      log := log + [done];
    }

    /** `merge::open_or_create` at a location: the handle is the number of commits seen. */
    method OpenAt(uri: string, loads: bool, creates: bool) returns (r: Result<nat, MergeError>)
      requires Valid()
      modifies this
      ensures Valid() && log == old(log)
      ensures var found := OpenedOrRefused(At(old(tables), uri), loads, creates);
              && (r.Ok? <==> found.Ok?)
              && (r.Ok? ==> tables == old(tables)[uri := found.value] && r.value == found.value.commits)
              && (r.Err? ==> r.error == Storage && tables == old(tables))
    {
      var d := At(tables, uri);
      var found := OpenedOrRefused(d, loads, creates);
      if found.Err? {
        return Err(found.error);
      }
      assert Recorded(d, log, uri);
      ghost var was := tables;
      tables := tables[uri := found.value];
      forall other ensures Recorded(At(tables, other), log, other) {
        assert Recorded(At(was, other), log, other);
      }
      return Ok(found.value.commits);
    }

    /**
     * `advance`: open, then upsert. `others` are advances that reach the store in between,
     * in order; one at the same location makes this one lose the race.
     */
    method Advance(done: Done, loads: bool, creates: bool, others: seq<Done>, stores: bool)
      returns (r: Result<(), MergeError>)
      requires Valid()
      modifies this
      ensures Valid()
      ensures var opens := if At(old(tables), done.uri).commits != 0 then loads else creates;
              && (r.Ok? <==> opens && stores && forall o | o in others :: o.uri != done.uri)
              && (!opens ==> r == Err(Storage) && log == old(log))
              && (opens ==> log == old(log) + others + if r.Ok? then [done] else [])
    {
      hide CheckpointStore.Valid, Merged;
      var found := OpenAt(done.uri, loads, creates);
      if found.Err? {
        return Err(found.error);
      }
      var i := 0;
      while i < |others|
        invariant Valid() && i <= |others|
        invariant log == old(log) + others[..i]
        invariant At(tables, done.uri).commits > 0
        invariant found.value <= At(tables, done.uri).commits
        invariant found.value == At(tables, done.uri).commits <==> forall o | o in others[..i] :: o.uri != done.uri
      {
        assert others[..i + 1] == others[..i] + [others[i]];
        Commit(others[i]);
        i := i + 1;
      }
      assert others[..i] == others;
      if !stores {
        return Err(Storage);
      }
      if found.value != At(tables, done.uri).commits {
        return Err(ConcurrentWrite);
      }
      Commit(done);
      return Ok(());
    }

    /**
     * `read_rows`, for whatever files the table's rows lie in: any failure to load reads as
     * empty, a file that cannot be read is an error, and otherwise the map holds the last
     * value recorded for each table.
     */
    method ReadRows(uri: string, loads: bool, files: seq<seq<Row>>, readable: bool)
      returns (r: Result<map<string, int>, ()>)
      requires Valid() && Files(files, At(tables, uri))
      ensures !loads ==> r == Ok(map[])
      ensures loads && r.Ok? ==> Tells(r.value, Latest(log, uri))
      ensures r.Err? <==> loads && !readable && files != [] && At(tables, uri).commits != 0
    {
      assert Recorded(At(tables, uri), log, uri);
      if At(tables, uri).commits == 0 || !loads {
        return Ok(map[]);
      }
      var out := map[];
      var i := 0;
      while i < |files|
        invariant i <= |files| && out == Values(map[], Flatten(files[..i]))
        invariant i > 0 ==> readable
      {
        if !readable {
          return Err(());
        }
        FlattenMore(files, i);
        ValuesJoined(map[], Flatten(files[..i]), files[i]);
        out := ExtendFromBatch(out, files[i]);
        i := i + 1;
      }
      assert files[..i] == files;
      FilesTell(files, At(tables, uri), log, uri);
      return Ok(out);
    }

    /**
     * `read`. With one table per location, a read yields none or the value of the last
     * advance that succeeded there, and yields that value when the load succeeds.
     */
    method Read(uri: string, loads: bool, files: seq<seq<Row>>, readable: bool) returns (r: Result<Option<int>, ()>)
      requires Valid() && Files(files, At(tables, uri))
      ensures r.Err? ==> loads && !readable
      ensures OneTable(log, uri) && r.Ok? ==> r.value == None || r.value == LastValue(log, uri)
      ensures OneTable(log, uri) && loads && readable ==> r == Ok(LastValue(log, uri))
    {
      var rows := ReadRows(uri, loads, files, readable);
      if rows.Err? {
        return Err(());
      }
      if OneTable(log, uri) && loads {
        Unambiguous(log, uri, rows.value);
      }
      hide *;
      var value := Any(rows.value);
      return Ok(value);
    }
  }
}
