/**
 * One run of `sync_one` from its first step to its last, with nothing in between: what it
 * leaves behind, what cutting it short leaves behind, and what the next run finds.
 */
module Complete {
  import opened Wrappers
  import opened Rows
  import opened Merge
  import opened Query
  import opened Batching
  import opened Protocol

  /** One run: its identity, whether its checkpoint failed to load, what the source answered. */
  datatype Plan = Plan(id: nat, lost: bool, answer: seq<Row>, limit: nat, at: int)

  function MergeEvents(id: nat, rest: seq<Row>, limit: nat): seq<Event>
    requires limit >= 1
  {
    if rest == [] then []
    else if |rest| <= limit then [MergeBatch(id, |rest|)]
    else [MergeBatch(id, limit)] + MergeEvents(id, rest[limit..], limit)
  }

  function ClosingEvents(p: Plan): seq<Event> {
    if LastMark(p.answer).Some? then [OpenMark(p.id, true), Advance(p.id, p.at)] else [Finish(p.id)]
  }

  /** Everything a run does, in the order of the code. */
  function RunEvents(p: Plan): seq<Event>
    requires p.limit >= 1
  {
    [ReadMark(p.id, p.lost), Open(p.id, true), Ask(p.id, p.answer)]
    + MergeEvents(p.id, p.answer, p.limit) + ClosingEvents(p)
  }

  function From(s: State, p: Plan): Option<int> {
    if p.lost then None else Stored(s.marks)
  }

  /** No run is under way. */
  predicate Quiet(s: State) {
    Invariant(s) && s.runs == map[]
  }

  /** The same without its promise: the stored checkpoint may be ahead of what is in Delta. */
  predicate Settled(s: State) {
    SourceOk(s) && DataOk(s) && MarksOk(s) && s.runs == map[]
  }

  predicate Possible(s: State, p: Plan) {
    p.limit >= 1 && IsAnswer(p.answer, s.source, From(s, p))
  }

  // ------------------------------------------------------------------ histories in pieces

  lemma {:induction false} HistoryJoined(s: State, a: seq<Event>, b: seq<Event>)
    requires History(s, a) && History(After(s, a), b)
    ensures History(s, a + b) && After(s, a + b) == After(After(s, a), b)
    decreases |a|
  {
    if a == [] {
      assert a + b == b;
    } else {
      assert (a + b)[1..] == a[1..] + b;
      HistoryJoined(Apply(s, a[0]), a[1..], b);
    }
  }

  lemma OneEvent(s: State, e: Event)
    requires Enabled(s, e)
    ensures History(s, [e]) && After(s, [e]) == Apply(s, e)
  {
    assert [e][1..] == [];
  }

  lemma EventThen(s: State, e: Event, rest: seq<Event>)
    requires Enabled(s, e) && History(Apply(s, e), rest)
    ensures History(s, [e] + rest) && After(s, [e] + rest) == After(Apply(s, e), rest)
  {
    assert ([e] + rest)[1..] == rest;
  }

  // ----------------------------------------------------------------- how far a run has got

  /** The first `m` rows of the answer are in the table, and nothing is recorded yet. */
  predicate Reaches(s: State, u: State, p: Plan, m: nat) {
    && m <= |p.answer|
    && u.source == s.source && u.writes == s.writes && u.table == s.table
    && Keyed(p.answer[..m])
    && u.data.rows == Merged(s.data.rows, p.answer[..m])
    && Stored(u.marks) == Stored(s.marks)
    && MarksOk(u)
    && u.runs.Keys <= {p.id}
  }

  predicate Midway(s: State, u: State, p: Plan, m: nat) {
    && Reaches(s, u, p, m)
    && u.data.commits > 0
    && u.runs == map[p.id := Merging(From(s, p), u.data.commits, p.answer, m, LastMark(p.answer[..m]))]
  }

  predicate Finished(s: State, u: State, p: Plan) {
    && u.source == s.source && u.writes == s.writes && u.table == s.table
    && u.data.commits > 0 && u.data.rows == Merged(s.data.rows, p.answer)
    && Stored(u.marks) == Track(Stored(s.marks), p.answer)
    && u.runs == map[]
  }

  /** The events left to a run that has merged `m` rows. */
  function Remaining(p: Plan, m: nat): seq<Event>
    requires p.limit >= 1 && m <= |p.answer|
  {
    MergeEvents(p.id, p.answer[m..], p.limit) + ClosingEvents(p)
  }

  /** What merging an answer relies on. */
  predicate Fit(s: State, p: Plan) {
    p.limit >= 1 && Keyed(s.data.rows) && Keyed(p.answer) && Ordered(p.answer)
  }

  lemma MidwayMoves(s: State, u: State, v: State, p: Plan, m: nat, size: nat)
    requires Fit(s, p) && Midway(s, u, p, m) && 1 <= size && m + size <= |p.answer|
    requires var batch := p.answer[m..m + size];
             v == u.(data := Committed(u.data, batch),
                     runs := map[p.id := Merging(From(s, p), u.data.commits + 1, p.answer, m + size,
                                                   Track(LastMark(p.answer[..m]), batch))])
    ensures Midway(s, v, p, m + size)
  {
    TrackStep(p.answer, m, size);
    SliceMerged(s.data.rows, p.answer, m, size);
  }

  /** The next merge of a run that has merged `m` rows. */
  lemma NextMerge(s: State, u: State, p: Plan, m: nat) returns (e: Event, v: State, m': nat)
    requires Fit(s, p) && Midway(s, u, p, m) && m < |p.answer|
    ensures Enabled(u, e) && v == Apply(u, e)
    ensures m < m' <= |p.answer| && m' == m + NextSize(p, m) && Midway(s, v, p, m') && p.id in v.runs
    ensures Remaining(p, m) == [e] + Remaining(p, m')
  {
    hide Apply, Enabled, Remaining;
    var size := NextSize(p, m);
    e, m' := MergeBatch(p.id, size), m + size;
    v := MergeMidway(s, u, p, m, size);
    assert Remaining(p, m) == [e] + Remaining(p, m') by {
      RemainingStep(p, m);
    }
  }

  lemma MergeMidway(s: State, u: State, p: Plan, m: nat, size: nat) returns (v: State)
    requires Fit(s, p) && Midway(s, u, p, m) && 1 <= size && m + size <= |p.answer|
    ensures Enabled(u, MergeBatch(p.id, size)) && v == Apply(u, MergeBatch(p.id, size))
    ensures Midway(s, v, p, m + size) && p.id in v.runs
  {
    v := LoneMerge(u, p.id, From(s, p), p.answer, m, LastMark(p.answer[..m]), size);
    MidwayMoves(s, u, v, p, m, size);
  }

  lemma LoneMerge(u: State, id: nat, from: Option<int>, answer: seq<Row>, m: nat, newest: Option<int>, size: nat)
    returns (v: State)
    requires u.runs == map[id := Merging(from, u.data.commits, answer, m, newest)]
    requires 1 <= size && m + size <= |answer|
    ensures Enabled(u, MergeBatch(id, size)) && v == Apply(u, MergeBatch(id, size))
    ensures var batch := answer[m..m + size];
            v == u.(data := Committed(u.data, batch),
                    runs := map[id := Merging(from, u.data.commits + 1, answer, m + size, Track(newest, batch))])
  {
    v := Apply(u, MergeBatch(id, size));
    ApplyMerge(u, id, size);
    assert v.runs == map[id := v.runs[id]];
  }

  lemma SliceMerged(rows: seq<Row>, answer: seq<Row>, m: nat, size: nat)
    requires Keyed(rows) && Keyed(answer) && m + size <= |answer|
    ensures Keyed(answer[..m + size])
    ensures Merged(Merged(rows, answer[..m]), answer[m..m + size]) == Merged(rows, answer[..m + size])
  {
    var a, b := answer[..m], answer[m..m + size];
    assert answer[..m + size] == a + b;
    assert answer == (a + b) + answer[m + size..];
    KeyedPieces(a + b, answer[m + size..]);
    MergedJoined(rows, a, b);
  }

  function NextSize(p: Plan, m: nat): nat
    requires m < |p.answer|
  {
    if |p.answer| - m <= p.limit then |p.answer| - m else p.limit
  }

  lemma RemainingStep(p: Plan, m: nat)
    requires p.limit >= 1 && m < |p.answer|
    ensures Remaining(p, m) == [MergeBatch(p.id, NextSize(p, m))] + Remaining(p, m + NextSize(p, m))
  {
    var rest, size := p.answer[m..], NextSize(p, m);
    assert rest[size..] == p.answer[m + size..];
    assert MergeEvents(p.id, rest, p.limit) == [MergeBatch(p.id, size)] + MergeEvents(p.id, rest[size..], p.limit);
  }

  /** The rows a run that has merged `m` has merged after `n` more of its events. */
  function MergedAfter(p: Plan, m: nat, n: nat): (merged: nat)
    requires p.limit >= 1 && m <= |p.answer|
    ensures m <= merged <= |p.answer|
    decreases n
  {
    if n == 0 || m == |p.answer| then m else MergedAfter(p, m + NextSize(p, m), n - 1)
  }

  /** The rows a run has merged after `n` of its events; the first three merge none. */
  function MergedBy(p: Plan, n: nat): (merged: nat)
    requires p.limit >= 1
    ensures merged <= |p.answer|
  {
    if n <= 3 then 0 else MergedAfter(p, 0, n - 3)
  }

  /** A batch for each event, until the answer runs out. */
  lemma {:induction false} MergedAfterIs(p: Plan, m: nat, n: nat)
    requires p.limit >= 1 && m <= |p.answer|
    ensures MergedAfter(p, m, n) == if m + n * p.limit <= |p.answer| then m + n * p.limit else |p.answer|
    decreases n
  {
    if n > 0 && m < |p.answer| {
      MergedAfterIs(p, m + NextSize(p, m), n - 1);
      assert n * p.limit == (n - 1) * p.limit + p.limit;
      assert (n - 1) * p.limit >= 0;
    } else if n > 0 {
      assert n * p.limit >= p.limit;
    }
  }

  /** A run stops between batches: what it has merged is whole batches, or everything. */
  lemma MergedWholeBatches(p: Plan, n: nat)
    requires p.limit >= 1
    ensures var batches := if n <= 3 then 0 else n - 3;
            MergedBy(p, n) == if batches * p.limit <= |p.answer| then batches * p.limit else |p.answer|
  {
    if n > 3 {
      MergedAfterIs(p, 0, n - 3);
    }
  }

  /** The first `n` of the remaining events can happen; fewer than all leave the run with `m`
      rows merged, all of them finish it. */
  predicate EndsAs(s: State, u: State, p: Plan, events: seq<Event>, n: nat, m: nat)
    decreases n
  {
    if n == 0 then
      if events == [] then Finished(s, u, p) else Reaches(s, u, p, m) && p.id in u.runs
    else
      events != [] && Enabled(u, events[0]) && EndsAs(s, Apply(u, events[0]), p, events[1..], n - 1, m)
  }

  lemma EndsNow(s: State, u: State, p: Plan, m: nat, events: seq<Event>)
    requires events != [] && Reaches(s, u, p, m) && p.id in u.runs
    ensures EndsAs(s, u, p, events, 0, m)
  {
  }

  lemma EndsAfter(s: State, u: State, p: Plan, e: Event, rest: seq<Event>, n: nat, m: nat)
    requires Enabled(u, e) && EndsAs(s, Apply(u, e), p, rest, n, m)
    ensures EndsAs(s, u, p, [e] + rest, n + 1, m)
  {
    assert ([e] + rest)[1..] == rest;
  }

  lemma EndsFinished(s: State, u: State, p: Plan, e: Event, m: nat)
    requires Enabled(u, e) && Finished(s, Apply(u, e), p)
    ensures EndsAs(s, u, p, [e], 1, m)
  {
    assert [e][1..] == [];
    assert EndsAs(s, Apply(u, e), p, [], 0, m);
  }

  /** Said as a history. */
  lemma {:induction false} EndsAsHistory(s: State, u: State, p: Plan, events: seq<Event>, n: nat, m: nat)
    requires EndsAs(s, u, p, events, n, m)
    ensures n <= |events| && History(u, events[..n])
    ensures var v := After(u, events[..n]);
            if n < |events| then Reaches(s, v, p, m) && p.id in v.runs else Finished(s, v, p)
    decreases n
  {
    if n > 0 {
      EndsAsHistory(s, Apply(u, events[0]), p, events[1..], n - 1, m);
      assert events[..n][1..] == events[1..][..n - 1];
    }
  }

  lemma ClosingEnds(s: State, u: State, p: Plan, n: nat)
    requires Fit(s, p) && Midway(s, u, p, |p.answer|) && n <= |ClosingEvents(p)|
    ensures EndsAs(s, u, p, ClosingEvents(p), n, |p.answer|)
  {
    hide Merged, Keyed, IsAnswer, Trails;
    var all := |p.answer|;
    assert p.answer[..all] == p.answer;
    if n == 0 {
      EndsNow(s, u, p, all, ClosingEvents(p));
    } else if LastMark(p.answer).Some? {
      var e := OpenMark(p.id, true);
      var v := Apply(u, e);
      if n == 1 {
        EndsNow(s, v, p, all, [Advance(p.id, p.at)]);
      } else {
        OneMark(v, LastMark(p.answer).value, p.at);
        EndsFinished(s, v, p, Advance(p.id, p.at), all);
      }
      EndsAfter(s, u, p, e, [Advance(p.id, p.at)], n - 1, all);
      assert ClosingEvents(p) == [e] + [Advance(p.id, p.at)];
    } else {
      EndsFinished(s, u, p, Finish(p.id), all);
    }
  }

  lemma {:induction false} RemainingEnds(s: State, u: State, p: Plan, m: nat, n: nat)
    requires Fit(s, p) && Midway(s, u, p, m) && n <= |Remaining(p, m)|
    ensures EndsAs(s, u, p, Remaining(p, m), n, MergedAfter(p, m, n))
    decreases |p.answer| - m
  {
    hide Apply, Enabled, EndsAs, History, After, Merged, Keyed, Track, LastMark;
    if m == |p.answer| {
      assert Remaining(p, m) == ClosingEvents(p);
      ClosingEnds(s, u, p, n);
    } else if n == 0 {
      assert Remaining(p, m) != [] by {
        RemainingStep(p, m);
      }
      EndsNow(s, u, p, m, Remaining(p, m));
    } else {
      var e, v, m' := NextMerge(s, u, p, m);
      var merged := MergedAfter(p, m, n);
      assert EndsAs(s, v, p, Remaining(p, m'), n - 1, merged) by {
        assert n - 1 <= |Remaining(p, m')|;
        RemainingEnds(s, v, p, m', n - 1);
      }
      EndsAfter(s, u, p, e, Remaining(p, m'), n - 1, merged);
    }
  }

  lemma ReadingStep(s: State, p: Plan) returns (a: State)
    requires Settled(s) && p.limit >= 1
    ensures Enabled(s, ReadMark(p.id, p.lost)) && a == Apply(s, ReadMark(p.id, p.lost)) && Reaches(s, a, p, 0)
    ensures a == s.(runs := map[p.id := Started(From(s, p))])
  {
    assert p.answer[..0] == [];
    PresentChangesNothing(s.data.rows, []);
    a := Apply(s, ReadMark(p.id, p.lost));
    assert a.runs == map[p.id := Started(From(s, p))];
  }

  lemma OpeningStep(s: State, p: Plan, a: State) returns (b: State)
    requires DataOk(s) && Reaches(s, a, p, 0) && a == s.(runs := map[p.id := Started(From(s, p))])
    ensures Enabled(a, Open(p.id, true)) && b == Apply(a, Open(p.id, true)) && Reaches(s, b, p, 0)
    ensures b == s.(data := Opened(s.data), runs := map[p.id := Holding(From(s, p), Opened(s.data).commits)])
  {
    hide Merged;
    b := Apply(a, Open(p.id, true));
    assert b.runs == map[p.id := Holding(From(s, p), Opened(s.data).commits)];
  }

  lemma AskingStep(s: State, p: Plan, b: State) returns (c: State)
    requires Possible(s, p) && Reaches(s, b, p, 0)
    requires b == s.(data := Opened(s.data), runs := map[p.id := Holding(From(s, p), Opened(s.data).commits)])
    ensures Enabled(b, Ask(p.id, p.answer)) && c == Apply(b, Ask(p.id, p.answer)) && Midway(s, c, p, 0)
    ensures c.data == Opened(s.data) && c.marks == s.marks
  {
    hide Merged, IsAnswer;
    c := Apply(b, Ask(p.id, p.answer));
    assert c.runs == map[p.id := Merging(From(s, p), Opened(s.data).commits, p.answer, 0, None)];
  }

  /** A run's first three events, from reading the checkpoint to the answer. */
  lemma OpeningSteps(s: State, p: Plan) returns (a: State, b: State, c: State)
    requires Settled(s) && Possible(s, p)
    ensures Enabled(s, ReadMark(p.id, p.lost)) && a == Apply(s, ReadMark(p.id, p.lost)) && Reaches(s, a, p, 0)
    ensures Enabled(a, Open(p.id, true)) && b == Apply(a, Open(p.id, true)) && Reaches(s, b, p, 0)
    ensures Enabled(b, Ask(p.id, p.answer)) && c == Apply(b, Ask(p.id, p.answer)) && Midway(s, c, p, 0)
    ensures p.id in a.runs && p.id in b.runs && c.data == Opened(s.data) && c.marks == s.marks
  {
    hide Apply, Enabled, Merged;
    a := ReadingStep(s, p);
    b := OpeningStep(s, p, a);
    c := AskingStep(s, p, b);
  }

  /** A run cut off after `n` of its events has merged a whole number of batches, or its whole
      answer, and recorded nothing; an uncut one has merged the answer and recorded its
      greatest watermark. */
  lemma RunPrefix(s: State, p: Plan, n: nat)
    requires Settled(s) && Possible(s, p) && 1 <= n <= |RunEvents(p)|
    ensures History(s, RunEvents(p)[..n])
    ensures var v := After(s, RunEvents(p)[..n]);
            if n < |RunEvents(p)| then Reaches(s, v, p, MergedBy(p, n)) && p.id in v.runs else Finished(s, v, p)
  {
    RunEventsAre(p);
    var all := RunEnds(s, p, n);
    EndsAsHistory(s, s, p, RunEvents(p), n, MergedBy(p, n));
  }

  lemma RunEnds(s: State, p: Plan, n: nat) returns (all: seq<Event>)
    requires Settled(s) && Possible(s, p) && 1 <= n <= 3 + |Remaining(p, 0)|
    ensures all == [ReadMark(p.id, p.lost)] + ([Open(p.id, true)] + ([Ask(p.id, p.answer)] + Remaining(p, 0)))
    ensures EndsAs(s, s, p, all, n, MergedBy(p, n))
  {
    hide Apply, Enabled, Remaining;
    var left := Remaining(p, 0);
    var a, b, c := OpeningSteps(s, p);
    EndsNow(s, a, p, 0, [Open(p.id, true)] + ([Ask(p.id, p.answer)] + left));
    EndsNow(s, b, p, 0, [Ask(p.id, p.answer)] + left);
    if n >= 3 {
      RemainingEnds(s, c, p, 0, n - 3);
    }
    all := OpeningEnds(s, p, a, b, c, left, n, MergedBy(p, n));
  }

  lemma OpeningEnds(s: State, p: Plan, a: State, b: State, c: State, left: seq<Event>, n: nat, m: nat)
    returns (all: seq<Event>)
    requires Enabled(s, ReadMark(p.id, p.lost)) && a == Apply(s, ReadMark(p.id, p.lost))
    requires Enabled(a, Open(p.id, true)) && b == Apply(a, Open(p.id, true))
    requires Enabled(b, Ask(p.id, p.answer)) && c == Apply(b, Ask(p.id, p.answer))
    requires EndsAs(s, a, p, [Open(p.id, true)] + ([Ask(p.id, p.answer)] + left), 0, 0)
    requires EndsAs(s, b, p, [Ask(p.id, p.answer)] + left, 0, 0)
    requires 1 <= n && (n < 3 ==> m == 0) && (n >= 3 ==> EndsAs(s, c, p, left, n - 3, m))
    ensures all == [ReadMark(p.id, p.lost)] + ([Open(p.id, true)] + ([Ask(p.id, p.answer)] + left))
    ensures EndsAs(s, s, p, all, n, m)
  {
    hide Apply, Enabled, EndsAs;
    var e0, e1, e2 := ReadMark(p.id, p.lost), Open(p.id, true), Ask(p.id, p.answer);
    if n >= 2 {
      if n >= 3 {
        EndsAfter(s, b, p, e2, left, n - 3, m);
      }
      EndsAfter(s, a, p, e1, [e2] + left, n - 2, m);
    }
    EndsAfter(s, s, p, e0, [e1] + ([e2] + left), n - 1, m);
    all := [e0] + ([e1] + ([e2] + left));
  }

  lemma RunEventsAre(p: Plan)
    requires p.limit >= 1
    ensures RunEvents(p) == [ReadMark(p.id, p.lost)] + ([Open(p.id, true)] + ([Ask(p.id, p.answer)] + Remaining(p, 0)))
  {
    assert p.answer[0..] == p.answer;
  }

  /** An answer longer than one batch makes a run of more than four events. */
  lemma LongRun(p: Plan)
    requires 1 <= p.limit < |p.answer|
    ensures |RunEvents(p)| > 4 && MergedBy(p, 4) == p.limit
  {
    RunEventsAre(p);
    RemainingStep(p, 0);
    MergedWholeBatches(p, 4);
  }

  /** What a complete run leaves, in closed form, from any stored checkpoint; and the
      invariant, if the checkpoint was one of the protocol's. */
  lemma CompleteRun(s: State, p: Plan)
    requires Settled(s) && Possible(s, p)
    ensures History(s, RunEvents(p))
    ensures var t := After(s, RunEvents(p)); Finished(s, t, p) && (Quiet(s) ==> Quiet(t))
  {
    RunPrefix(s, p, |RunEvents(p)|);
    assert RunEvents(p)[..|RunEvents(p)|] == RunEvents(p);
    if Quiet(s) {
      InvariantHolds(s, RunEvents(p));
    }
  }

  // --------------------------------------------------------------------- crash transparency

  /** A run that stops after the first `cut` of its events. */
  datatype Attempt = Attempt(plan: Plan, cut: nat)

  predicate WellCut(a: Attempt) {
    a.plan.limit >= 1 && 1 <= a.cut < |RunEvents(a.plan)|
  }

  function AttemptEvents(a: Attempt): seq<Event>
    requires WellCut(a)
  {
    RunEvents(a.plan)[..a.cut] + [Stop(a.plan.id)]
  }

  function AttemptsEvents(attempts: seq<Attempt>): seq<Event>
    requires forall a | a in attempts :: WellCut(a)
  {
    if attempts == [] then [] else AttemptEvents(attempts[0]) + AttemptsEvents(attempts[1..])
  }

  predicate NoNullMarks(source: Table) {
    forall k | k in source :: source[k].mark.Some?
  }

  /** The rows an attempt merged before it stopped. */
  function Brought(a: Attempt): seq<Row>
    requires WellCut(a)
  {
    a.plan.answer[..MergedBy(a.plan, a.cut)]
  }

  predicate BroughtBy(attempts: seq<Attempt>, r: Row)
    requires forall a | a in attempts :: WellCut(a)
  {
    exists a | a in attempts :: r in Brought(a)
  }

  /** Cut-off runs change nothing but the rows, and those only by what they brought. */
  ghost predicate Between(s: State, t: State, attempts: seq<Attempt>)
    requires forall a | a in attempts :: WellCut(a)
  {
    && t.source == s.source && t.writes == s.writes && t.table == s.table
    && Stored(t.marks) == Stored(s.marks)
    && (forall r | r in t.data.rows :: r in s.data.rows || BroughtBy(attempts, r))
    && (forall r | BroughtBy(attempts, r) :: r in t.data.rows && r.key in s.source && r == s.source[r.key])
  }

  lemma StoppedAttempt(s: State, a: Attempt)
    requires Quiet(s) && WellCut(a) && Possible(s, a.plan)
    ensures History(s, AttemptEvents(a)) && Keyed(Brought(a))
    ensures var t := After(s, AttemptEvents(a));
            && Quiet(t) && t.data.rows == Merged(s.data.rows, Brought(a))
            && t.source == s.source && t.writes == s.writes && t.table == s.table && Stored(t.marks) == Stored(s.marks)
  {
    RunPrefix(s, a.plan, a.cut);
    var v := After(s, RunEvents(a.plan)[..a.cut]);
    OneEvent(v, Stop(a.plan.id));
    HistoryJoined(s, RunEvents(a.plan)[..a.cut], [Stop(a.plan.id)]);
    InvariantHolds(s, AttemptEvents(a));
  }

  lemma BroughtIsCurrent(s: State, a: Attempt, r: Row)
    requires WellCut(a) && Possible(s, a.plan) && r in Brought(a)
    ensures r in a.plan.answer && r.key in s.source && r == s.source[r.key] && Above(r, From(s, a.plan))
  {
    assert r in a.plan.answer;
  }

  lemma {:induction false} StoppedAttempts(s: State, attempts: seq<Attempt>)
    requires Quiet(s) && forall a | a in attempts :: WellCut(a) && Possible(s, a.plan)
    ensures History(s, AttemptsEvents(attempts))
    ensures var t := After(s, AttemptsEvents(attempts)); Quiet(t) && Between(s, t, attempts)
    decreases |attempts|
  {
    if attempts != [] {
      var a, rest := attempts[0], attempts[1..];
      assert attempts == [a] + rest;
      StoppedAttempt(s, a);
      var t := After(s, AttemptEvents(a));
      StillPossible(s, t, rest);
      StoppedAttempts(t, rest);
      AttemptsReach(t, rest);
      HistoryJoined(s, AttemptEvents(a), AttemptsEvents(rest));
      hide Quiet, After, History, AttemptEvents, Between;
      OneMoreAttempt(s, t, After(t, AttemptsEvents(rest)), a, rest);
    }
  }

  lemma StillPossible(s: State, t: State, attempts: seq<Attempt>)
    requires forall a | a in attempts :: WellCut(a) && Possible(s, a.plan)
    requires t.source == s.source && Stored(t.marks) == Stored(s.marks)
    ensures forall a | a in attempts :: WellCut(a) && Possible(t, a.plan)
  {
    forall a | a in attempts ensures WellCut(a) && Possible(t, a.plan) {
      assert Possible(s, a.plan);
    }
  }

  lemma AttemptsReach(s: State, attempts: seq<Attempt>)
    requires Quiet(s) && (forall a | a in attempts :: WellCut(a)) && History(s, AttemptsEvents(attempts))
    ensures forall d | d in s.data.rows :: Reached(After(s, AttemptsEvents(attempts)).data.rows, d)
  {
    InvariantHolds(s, AttemptsEvents(attempts));
  }

  lemma OneMoreAttempt(s: State, t: State, u: State, a: Attempt, rest: seq<Attempt>)
    requires Keyed(s.data.rows) && WellCut(a) && Possible(s, a.plan) && Keyed(Brought(a))
    requires forall b | b in rest :: WellCut(b)
    requires t.data.rows == Merged(s.data.rows, Brought(a)) && Between(t, u, rest)
    requires t.source == s.source && t.writes == s.writes && t.table == s.table && Stored(t.marks) == Stored(s.marks)
    requires forall d | d in t.data.rows :: Reached(u.data.rows, d)
    ensures Between(s, u, [a] + rest)
  {
    MergedMembers(s.data.rows, Brought(a));
    hide Merged, Reached, Brought, Possible, BroughtBy;
    forall r ensures BroughtBy([a] + rest, r) <==> r in Brought(a) || BroughtBy(rest, r) {
      BroughtByOneMore(a, rest, r);
    }
    forall r | r in Brought(a) ensures r in u.data.rows && r.key in s.source && r == s.source[r.key] {
      BroughtIsCurrent(s, a, r);
      CurrentStays(t, u, rest, r);
    }
  }

  lemma BroughtByOneMore(a: Attempt, rest: seq<Attempt>, r: Row)
    requires WellCut(a) && forall b | b in rest :: WellCut(b)
    ensures BroughtBy([a] + rest, r) <==> r in Brought(a) || BroughtBy(rest, r)
  {
    if r in Brought(a) {
      assert a in [a] + rest;
    } else if BroughtBy(rest, r) {
      var b :| b in rest && r in Brought(b);
      assert b in [a] + rest;
    }
  }

  /** A current row that is in the table stays there. */
  lemma CurrentStays(t: State, u: State, rest: seq<Attempt>, r: Row)
    requires forall b | b in rest :: WellCut(b)
    requires Between(t, u, rest) && r in t.data.rows && r.key in t.source && r == t.source[r.key]
    requires Keyed(t.data.rows) && forall d | d in t.data.rows :: Reached(u.data.rows, d)
    ensures r in u.data.rows
  {
    assert Reached(u.data.rows, r);
    var d :| d in u.data.rows && d.key == r.key;
    if d in t.data.rows {
      SameKeySameRow(t.data.rows, d, r);
    }
  }

  lemma SameContents(x: seq<Row>, y: seq<Row>)
    requires Keyed(x) && Keyed(y) && forall r :: r in x <==> r in y
    ensures Contents(x) == Contents(y)
  {
    ContentsHold(x);
    ContentsHold(y);
    assert Keys(x) == Keys(y);
  }

  /** Two results of one query on one snapshot differ at most in the order of ties. */
  lemma SameAnswers(source: Table, from: Option<int>, a: seq<Row>, b: seq<Row>)
    requires IsAnswer(a, source, from) && IsAnswer(b, source, from)
    ensures forall r :: r in a <==> r in b
    ensures Keys(a) == Keys(b)
    ensures LastMark(a) == LastMark(b)
  {
    forall r | r in a ensures r in b {
      assert Above(source[r.key], from);
    }
    forall r | r in b ensures r in a {
      assert Above(source[r.key], from);
    }
    LastIsGreatest(a);
    LastIsGreatest(b);
  }

  /** No attempt merged a row without a watermark that the table did not hold before. Their
      answers, their batch sizes and where they stopped decide it. */
  predicate BringsNoNull(s: State, attempts: seq<Attempt>)
    requires forall a | a in attempts :: WellCut(a)
  {
    forall a | a in attempts :: NoNewNulls(s.data.rows, Brought(a))
  }

  predicate NoNewNulls(before: seq<Row>, rows: seq<Row>) {
    forall r | r in rows && r.mark.None? :: r in before
  }

  /** An unfetched row was in the table before the attempts, if it is there after them. */
  lemma UnfetchedWasThere(s: State, t: State, attempts: seq<Attempt>, a: seq<Row>, from: Option<int>, r: Row)
    requires forall x | x in attempts :: WellCut(x)
    requires Covered(s, from) && Between(s, t, attempts) && IsAnswer(a, s.source, from) && r.key !in Keys(a)
    requires from.None? || BringsNoNull(s, attempts)
    requires r in t.data.rows
    ensures r in s.data.rows
  {
    if BroughtBy(attempts, r) {
      UnfetchedIsNotAbove(s.source, a, from, r);
      if r.mark.None? {
        var x :| x in attempts && r in Brought(x);
        assert NoNewNulls(s.data.rows, Brought(x));
      } else {
        assert AtOrBelow(r, from);
      }
    }
  }

  lemma UnfetchedIsNotAbove(source: Table, a: seq<Row>, from: Option<int>, r: Row)
    requires IsAnswer(a, source, from) && r.key in source && r == source[r.key] && r.key !in Keys(a)
    ensures !Above(r, from)
  {
  }

  lemma UnfetchedUntouched(s: State, t: State, attempts: seq<Attempt>, a: seq<Row>, from: Option<int>, r: Row)
    requires forall x | x in attempts :: WellCut(x)
    requires Covered(s, from) && Between(s, t, attempts) && IsAnswer(a, s.source, from) && r.key !in Keys(a)
    requires from.None? || BringsNoNull(s, attempts)
    requires Keyed(s.data.rows) && forall d | d in s.data.rows :: Reached(t.data.rows, d)
    ensures r in t.data.rows <==> r in s.data.rows
  {
    if r in t.data.rows {
      UnfetchedWasThere(s, t, attempts, a, from, r);
    } else if r in s.data.rows {
      assert Reached(t.data.rows, r);
      var d :| d in t.data.rows && d.key == r.key;
      UnfetchedWasThere(s, t, attempts, a, from, d);
      SameKeySameRow(s.data.rows, d, r);
    }
  }

  /** What the attempts changed is made the same again by a complete run, exactly when it
      starts from no checkpoint or they brought no row without a watermark. */
  lemma ForgottenExactly(s: State, t: State, attempts: seq<Attempt>, a: seq<Row>, b: seq<Row>, from: Option<int>)
    requires forall x | x in attempts :: WellCut(x)
    requires DataOk(s) && DataOk(t) && Covered(s, from) && Between(s, t, attempts)
    requires forall d | d in s.data.rows :: Reached(t.data.rows, d)
    requires IsAnswer(a, s.source, from) && IsAnswer(b, s.source, from)
    ensures Keyed(Merged(t.data.rows, a)) && Keyed(Merged(s.data.rows, b))
    ensures Contents(Merged(t.data.rows, a)) == Contents(Merged(s.data.rows, b)) <==>
            from.None? || BringsNoNull(s, attempts)
  {
    SameAnswers(s.source, from, a, b);
    MergedMembers(t.data.rows, a);
    MergedMembers(s.data.rows, b);
    if from.None? || BringsNoNull(s, attempts) {
      forall r: Row | r.key !in Keys(a) ensures r in t.data.rows <==> r in s.data.rows {
        UnfetchedUntouched(s, t, attempts, a, from, r);
      }
      SameContents(Merged(t.data.rows, a), Merged(s.data.rows, b));
    } else {
      var x :| x in attempts && !NoNewNulls(s.data.rows, Brought(x));
      var r :| r in Brought(x) && r.mark.None? && r !in s.data.rows;
      assert BroughtBy(attempts, r);
      NullUnfetched(s.source, a, from, r);
      DifferentContents(Merged(t.data.rows, a), Merged(s.data.rows, b), r);
    }
  }

  lemma NullUnfetched(source: Table, a: seq<Row>, from: Option<int>, r: Row)
    requires IsAnswer(a, source, from) && from.Some? && r.mark.None? && r.key in source && r == source[r.key]
    ensures r.key !in Keys(a) && r !in a
  {
  }

  lemma DifferentContents(x: seq<Row>, y: seq<Row>, r: Row)
    requires Keyed(x) && Keyed(y) && r in x && r !in y
    ensures Contents(x) != Contents(y)
  {
    ContentsHold(x);
    ContentsHold(y);
    assert Contents(x)[r.key] == r;
  }

  /**
   * Crash transparency. Any number of runs over an unchanged source, each cut off after any
   * number of its events, followed by one complete run, leave the checkpoint of one
   * uninterrupted run, whatever the batch sizes and the order of ties; and its rows exactly
   * when the complete run starts from no checkpoint or the cut-off runs brought no row
   * without a watermark.
   */
  lemma CrashTransparency(s: State, attempts: seq<Attempt>, last: Plan, alone: Plan)
    requires Quiet(s) && forall a | a in attempts :: WellCut(a) && Possible(s, a.plan)
    requires Possible(s, last) && Possible(s, alone) && last.lost == alone.lost
    ensures History(s, AttemptsEvents(attempts) + RunEvents(last)) && History(s, RunEvents(alone))
    ensures var t, u := After(s, AttemptsEvents(attempts) + RunEvents(last)), After(s, RunEvents(alone));
            && Keyed(t.data.rows) && Keyed(u.data.rows)
            && Stored(t.marks) == Stored(u.marks)
            && t.runs == u.runs == map[]
            && (Contents(t.data.rows) == Contents(u.data.rows) <==> From(s, last).None? || BringsNoNull(s, attempts))
  {
    hide Merged, SourceOk, DataOk, MarksOk, RunEvents, AttemptsEvents, History, After;
    var from := From(s, last);
    StoppedAttempts(s, attempts);
    InvariantHolds(s, AttemptsEvents(attempts));
    var mid := After(s, AttemptsEvents(attempts));
    CompleteRun(mid, last);
    CompleteRun(s, alone);
    HistoryJoined(s, AttemptsEvents(attempts), RunEvents(last));
    SameAnswers(s.source, from, last.answer, alone.answer);
    ForgottenExactly(s, mid, attempts, last.answer, alone.answer, from);
  }

  /** A cut-off run that read its checkpoint brings no such row, nor does any run over a source
      in which every row has a watermark. */
  lemma NothingToForget(s: State, attempts: seq<Attempt>)
    requires forall a | a in attempts :: WellCut(a) && Possible(s, a.plan)
    requires NoNullMarks(s.source) || (Stored(s.marks).Some? && forall a: Attempt | a in attempts :: !a.plan.lost)
    ensures BringsNoNull(s, attempts)
  {
    forall a | a in attempts ensures NoNewNulls(s.data.rows, Brought(a)) {
      forall r | r in Brought(a) ensures r.mark.Some? {
        BroughtIsCurrent(s, a, r);
      }
    }
  }
}
