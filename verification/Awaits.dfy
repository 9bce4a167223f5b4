/**
 * What a run of `sync_one` waits for, one await after another: which comes when, and which
 * of them was the first to fail.
 */
module Awaits {
  import opened Protocol

  /** What may happen while a run awaits something, whether the awaited thing fails, and
      whether a table it opens loads, or can be created if it is absent. */
  datatype Await = Await(others: seq<Event>, fails: bool, loads: bool, creates: bool)

  /** Nothing else happens while the run awaits. */
  predicate Calm(env: seq<Await>) {
    forall i | 0 <= i < |env| :: env[i].others == []
  }

  /** The run's `tick`-th await; nothing goes wrong at one nobody has said anything about. */
  function Awaited(env: seq<Await>, tick: nat): Await {
    if tick < |env| then env[tick] else Await([], false, true, true)
  }

  // The catalog lookup, the opening of the Delta table, the query, and then the loop.
  const LOOKUP: nat := 0
  const OPENING: nat := 1
  const QUERY: nat := 2
  const LOOP: nat := 3

  /** Whether a table that has had so many commits opens; not said when others may commit first. */
  predicate MayOpen(env: seq<Await>, tick: nat, commits: nat) {
    Calm(env) ==> if commits != 0 then Awaited(env, tick).loads else Awaited(env, tick).creates
  }

  /** Why a table did not open. */
  predicate OpenFails(env: seq<Await>, tick: nat, commits: nat) {
    if Calm(env) then !MayOpen(env, tick, commits) else !Awaited(env, tick).loads || !Awaited(env, tick).creates
  }

  /** Nothing awaited before `end` fails; opening the Delta table fails in its own way. */
  predicate Smooth(env: seq<Await>, end: nat) {
    forall i: nat | i < end && i != OPENING :: !Awaited(env, i).fails
  }

  /** The await `i` is the first that fails. */
  predicate FirstFailure(env: seq<Await>, i: nat) {
    i != OPENING && Smooth(env, i) && Awaited(env, i).fails
  }

  lemma SmoothStep(env: seq<Await>, end: nat)
    requires Smooth(env, end) && !Awaited(env, end).fails
    ensures Smooth(env, end + 1)
  {
  }

  // ------------------------------------------------------------------------------ the loop

  datatype Waiting = ForRow | ForMerge

  function ForRows(n: nat): seq<Waiting> {
    seq(n, i requires 0 <= i < n => ForRow)
  }

  /** What the loop waits for over a stream of so many rows: for each batch its rows and its
      merge; for what is left its rows, the end of the stream, and a merge if it is not empty. */
  function LoopAwaits(rows: nat, limit: nat): seq<Waiting>
    requires limit >= 1
  {
    if rows < limit then ForRows(rows + 1) + (if rows == 0 then [] else [ForMerge])
    else ForRows(limit) + [ForMerge] + LoopAwaits(rows - limit, limit)
  }

  /** The await after the loop's last. */
  function LoopEnd(rows: nat, limit: nat): nat
    requires limit >= 1
  {
    LOOP + |LoopAwaits(rows, limit)|
  }

  /** The run stops in its loop: what it waits for at `i` is the first thing to fail. */
  predicate StopsAt(env: seq<Await>, i: nat, rows: nat, limit: nat, w: Waiting)
    requires limit >= 1
  {
    LOOP <= i < LoopEnd(rows, limit) && LoopAwaits(rows, limit)[i - LOOP] == w && FirstFailure(env, i)
  }

  /** Where the loop stands at an await: `done` rows merged, `pulled` rows fetched. */
  predicate Stands(rows: nat, limit: nat, done: nat, pulled: nat, tick: nat) {
    && limit >= 1 && done <= pulled <= rows && pulled - done < limit
    && LOOP + pulled - done <= tick <= LoopEnd(rows, limit)
    && LoopAwaits(rows, limit)[tick - LOOP - (pulled - done)..] == LoopAwaits(rows - done, limit)
  }

  lemma StandsFirst(rows: nat, limit: nat)
    requires limit >= 1
    ensures Stands(rows, limit, 0, 0, LOOP)
  {
  }

  /** The loop waits for a row, or for the end of the stream. */
  lemma StandsForRow(rows: nat, limit: nat, done: nat, pulled: nat, tick: nat)
    requires Stands(rows, limit, done, pulled, tick)
    ensures LOOP <= tick < LoopEnd(rows, limit) && LoopAwaits(rows, limit)[tick - LOOP] == ForRow
    ensures pulled < rows && pulled + 1 - done < limit ==> Stands(rows, limit, done, pulled + 1, tick + 1)
    ensures pulled == rows && done == rows ==> tick + 1 == LoopEnd(rows, limit)
  {
    var rest := LoopAwaits(rows - done, limit);
    assert LoopAwaits(rows, limit)[tick - LOOP] == rest[pulled - done];
  }

  /** After the last row of a batch, or the end of the stream with rows left, for a merge. */
  lemma StandsForMerge(rows: nat, limit: nat, done: nat, pulled: nat, tick: nat)
    requires Stands(rows, limit, done, pulled, tick)
    requires (pulled < rows && pulled + 1 - done == limit) || (pulled == rows && done < rows)
    ensures LOOP <= tick + 1 < LoopEnd(rows, limit) && LoopAwaits(rows, limit)[tick + 1 - LOOP] == ForMerge
    ensures pulled < rows ==> Stands(rows, limit, pulled + 1, pulled + 1, tick + 2)
    ensures pulled == rows ==> tick + 2 == LoopEnd(rows, limit)
  {
    var all, rest, at := LoopAwaits(rows, limit), LoopAwaits(rows - done, limit), tick - LOOP - (pulled - done);
    assert all[tick + 1 - LOOP] == rest[pulled + 1 - done];
    if pulled < rows {
      assert all[tick + 2 - LOOP..] == all[at..][limit + 1..];
      assert rest[limit + 1..] == LoopAwaits(rows - done - limit, limit);
    }
  }
}
