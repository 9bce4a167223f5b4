/**
 * Many tables synced by workers that share one storage: every step of every worker reads
 * and writes whatever is stored at its table's two locations.
 */
module Workers {
  import opened Wrappers
  import opened Rows
  import opened Merge
  import opened Query
  import opened Protocol
  import opened Names

  /** What belongs to one table but is not stored: its source and the runs under way. */
  datatype Side = Side(source: Table, writes: nat, seen: Option<int>, runs: map<nat, Run>)

  /** All of storage, by location, and each table's side. */
  datatype Cluster = Cluster(stored: map<string, Delta>, sides: map<string, Side>)

  /** One table's part of the cluster, as the protocol sees it. */
  function View(l: Layout, c: Cluster, name: string): State
    requires name in c.sides && Accepted(name)
  {
    var side := c.sides[name];
    State(name, side.source, side.writes, side.seen,
          At(c.stored, DataAt(l, name)), At(c.stored, MarksAt(l, name)), side.runs)
  }

  /** Writing a table's new state back; two tables at one location would overwrite each other. */
  function Put(l: Layout, c: Cluster, name: string, s: State): Cluster
    requires Accepted(name)
  {
    Cluster(c.stored[DataAt(l, name) := s.data][MarksAt(l, name) := s.marks],
            c.sides[name := Side(s.source, s.writes, s.seen, s.runs)])
  }

  /** One worker's next step, or anything else that happens to that table. */
  datatype Move = Move(name: string, event: Event)

  predicate MayMove(l: Layout, c: Cluster, m: Move) {
    m.name in c.sides && Accepted(m.name) && Enabled(View(l, c, m.name), m.event)
  }

  function Moved(l: Layout, c: Cluster, m: Move): Cluster
    requires MayMove(l, c, m)
  {
    Put(l, c, m.name, Apply(View(l, c, m.name), m.event))
  }

  predicate MayAll(l: Layout, c: Cluster, moves: seq<Move>)
    decreases |moves|
  {
    moves == [] || (MayMove(l, c, moves[0]) && MayAll(l, Moved(l, c, moves[0]), moves[1..]))
  }

  function MovedAll(l: Layout, c: Cluster, moves: seq<Move>): Cluster
    requires MayAll(l, c, moves)
    decreases |moves|
  {
    if moves == [] then c else MovedAll(l, Moved(l, c, moves[0]), moves[1..])
  }

  /** One table's own steps, in order. */
  function OwnSteps(moves: seq<Move>, name: string): seq<Event> {
    if moves == [] then []
    else (if moves[0].name == name then [moves[0].event] else []) + OwnSteps(moves[1..], name)
  }

  /** No location is used twice. */
  predicate Separate(l: Layout, names: set<string>) {
    && (forall a | a in names :: Accepted(a))
    && (forall a, b | a in names && b in names ::
          && (DataAt(l, a) == DataAt(l, b) ==> a == b)
          && (MarksAt(l, a) == MarksAt(l, b) ==> a == b)
          && DataAt(l, a) != MarksAt(l, b))
  }

  /** Under the default layout, slash-free names outside the checkpoint directory are enough. */
  lemma DefaultLayoutSeparates(output: string, names: set<string>)
    requires output != ""
    requires forall a | a in names :: Accepted(a) && '/' !in a && Split(a, '.')[0] != CHECKPOINTS
    ensures Separate(DefaultLayout(output), names)
  {
    hide UriFor, TrimEnd, ParseQualified, DataAt, MarksAt, DefaultLayout;
    forall a, b | a in names && b in names
      ensures var l := DefaultLayout(output);
              && (DataAt(l, a) == DataAt(l, b) ==> a == b)
              && (MarksAt(l, a) == MarksAt(l, b) ==> a == b)
              && DataAt(l, a) != MarksAt(l, b)
    {
      Locations(output, a, b);
      LayoutsApart(output, a, b);
    }
  }

  /** Writing one table's state back is seen by that table only. */
  lemma Putting(l: Layout, c: Cluster, changed: string, s: State, name: string)
    requires Separate(l, c.sides.Keys) && changed in c.sides && name in c.sides && s.table == changed
    ensures var d := Put(l, c, changed, s);
            d.sides.Keys == c.sides.Keys && View(l, d, name) == if changed == name then s else View(l, c, name)
  {
    hide ParseQualified, DataAt, MarksAt;
  }

  /** A step changes its own table's view as the protocol says, and no other's. */
  lemma StepIsLocal(l: Layout, c: Cluster, m: Move, name: string)
    requires Separate(l, c.sides.Keys) && MayMove(l, c, m) && name in c.sides
    ensures var d := Moved(l, c, m);
            && d.sides.Keys == c.sides.Keys
            && View(l, d, name) == if m.name == name then Apply(View(l, c, name), m.event) else View(l, c, name)
  {
    TableStays(View(l, c, m.name), m.event);
    hide Apply, Enabled, ParseQualified, DataAt, MarksAt;
    Putting(l, c, m.name, Apply(View(l, c, m.name), m.event), name);
  }

  /** Seen from one table, a step comes off the front of its own steps, or does not concern it. */
  lemma SeenFromOneTable(l: Layout, c: Cluster, m: Move, rest: seq<Move>, name: string)
    requires Separate(l, c.sides.Keys) && MayMove(l, c, m) && name in c.sides
    ensures var d, own := Moved(l, c, m), OwnSteps([m] + rest, name);
            && name in d.sides
            && (History(View(l, c, name), own) <==> History(View(l, d, name), OwnSteps(rest, name)))
            && (History(View(l, c, name), own) ==>
                  After(View(l, c, name), own) == After(View(l, d, name), OwnSteps(rest, name)))
  {
    StepIsLocal(l, c, m, name);
    assert ([m] + rest)[1..] == rest;
    var s, tail := View(l, c, name), OwnSteps(rest, name);
    hide View, Moved, MayMove, Separate;
    if m.name == name {
      assert ([m.event] + tail)[1..] == tail;
    } else {
      assert [] + tail == tail;
    }
  }

  lemma FirstRefused(l: Layout, c: Cluster, m: Move, rest: seq<Move>)
    requires Separate(l, c.sides.Keys) && !MayMove(l, c, m) && m.name in c.sides
    ensures !History(View(l, c, m.name), OwnSteps([m] + rest, m.name))
  {
    assert ([m] + rest)[1..] == rest;
    assert OwnSteps([m] + rest, m.name)[0] == m.event;
  }

  /**
   * Interleaving. With locations apart, an interleaving of the workers' steps is possible
   * exactly when each table's own steps are a history of that table alone, and it leaves each
   * table the rows, checkpoint and everything else its own steps alone leave.
   */
  lemma {:induction false} Interleaving(l: Layout, c: Cluster, moves: seq<Move>)
    requires Separate(l, c.sides.Keys) && forall m | m in moves :: m.name in c.sides
    ensures MayAll(l, c, moves) <==> forall name | name in c.sides :: History(View(l, c, name), OwnSteps(moves, name))
    ensures MayAll(l, c, moves) ==>
      && MovedAll(l, c, moves).sides.Keys == c.sides.Keys
      && forall name | name in c.sides ::
           && History(View(l, c, name), OwnSteps(moves, name))
           && View(l, MovedAll(l, c, moves), name) == After(View(l, c, name), OwnSteps(moves, name))
    decreases |moves|
  {
    if moves != [] {
      var m, rest := moves[0], moves[1..];
      assert moves == [m] + rest;
      hide View, Moved, MayMove, Separate, History, After, OwnSteps;
      if MayMove(l, c, m) {
        var d := Moved(l, c, m);
        forall name | name in c.sides
          ensures name in d.sides
          ensures (History(View(l, c, name), OwnSteps(moves, name)) <==>
                     History(View(l, d, name), OwnSteps(rest, name)))
          ensures History(View(l, c, name), OwnSteps(moves, name)) ==>
            After(View(l, c, name), OwnSteps(moves, name)) == After(View(l, d, name), OwnSteps(rest, name))
        {
          SeenFromOneTable(l, c, m, rest, name);
        }
        StepIsLocal(l, c, m, m.name);
        Interleaving(l, d, rest);
      } else {
        FirstRefused(l, c, m, rest);
      }
    }
  }

  /** The steps of one table, without anybody else's. */
  function Only(moves: seq<Move>, name: string): seq<Move> {
    if moves == [] then []
    else (if moves[0].name == name then [moves[0]] else []) + Only(moves[1..], name)
  }

  lemma {:induction false} OnlyOwn(moves: seq<Move>, name: string, other: string)
    ensures OwnSteps(Only(moves, name), other) == if name == other then OwnSteps(moves, name) else []
    ensures forall m | m in Only(moves, name) :: m.name == name
  {
    if moves != [] {
      OnlyOwn(moves[1..], name, other);
      var rest := Only(moves[1..], name);
      if moves[0].name == name {
        assert ([moves[0]] + rest)[1..] == rest;
      } else {
        assert [] + rest == rest && [] + OwnSteps(moves[1..], name) == OwnSteps(moves[1..], name);
      }
    }
  }

  /** Running only one table's steps leaves that table as the whole interleaving does. */
  lemma AsIfAlone(l: Layout, c: Cluster, moves: seq<Move>, name: string)
    requires Separate(l, c.sides.Keys) && MayAll(l, c, moves) && name in c.sides
    requires forall m | m in moves :: m.name in c.sides
    ensures MayAll(l, c, Only(moves, name))
    ensures var together, alone := MovedAll(l, c, moves), MovedAll(l, c, Only(moves, name));
            name in together.sides && name in alone.sides && View(l, together, name) == View(l, alone, name)
  {
    Interleaving(l, c, moves);
    hide View, Separate;
    forall other | other in c.sides
      ensures OwnSteps(Only(moves, name), other) == if name == other then OwnSteps(moves, name) else []
      ensures History(View(l, c, other), OwnSteps(Only(moves, name), other))
    {
      OnlyOwn(moves, name, other);
    }
    OnlyOwn(moves, name, name);
    Interleaving(l, c, Only(moves, name));
  }

  /** So what holds of one table's history holds of each table in a cluster. */
  lemma CoverageEverywhere(l: Layout, c: Cluster, moves: seq<Move>, name: string, k: Key)
    requires Separate(l, c.sides.Keys) && MayAll(l, c, moves) && name in c.sides
    requires forall m | m in moves :: m.name in c.sides
    requires Initial(View(l, c, name))
    ensures name in MovedAll(l, c, moves).sides
    ensures var t := View(l, MovedAll(l, c, moves), name);
            k in t.source && AtOrBelow(t.source[k], Stored(t.marks)) ==>
              Keyed(t.data.rows) && k in Contents(t.data.rows) && Contents(t.data.rows)[k] == t.source[k]
  {
    Interleaving(l, c, moves);
    var s, own := View(l, c, name), OwnSteps(moves, name);
    var t := After(s, own);
    if k in t.source && AtOrBelow(t.source[k], Stored(t.marks)) {
      Coverage(s, own, k);
    }
  }
}
