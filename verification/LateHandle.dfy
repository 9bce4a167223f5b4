/**
 * The protocol with one thing changed: a run may ask before it opens the Delta table. It
 * shows what the order of src/pipeline.rs is for, since coverage then fails.
 */
module LateHandle {
  import opened Wrappers
  import opened Rows
  import opened Merge
  import opened Query
  import opened Protocol
  import opened Complete

  /** A run that has its answer and no handle yet. */
  datatype Asked = Asked(from: Option<int>, answer: seq<Row>)

  datatype Late = Late(now: State, asked: map<nat, Asked>)

  /** The protocol's events, and the two steps in the wrong order. */
  datatype LateEvent = Usual(e: Event) | AskFirst(run: nat, answer: seq<Row>) | OpenAfter(run: nat)

  predicate MayHappen(l: Late, e: LateEvent) {
    match e
    case Usual(e) => Enabled(l.now, e)
    case AskFirst(id, answer) =>
      id in l.now.runs && l.now.runs[id].Started? && IsAnswer(answer, l.now.source, l.now.runs[id].from)
    case OpenAfter(id) => id in l.asked && id !in l.now.runs
  }

  function Happened(l: Late, e: LateEvent): Late
    requires MayHappen(l, e)
  {
    match e
    case Usual(e) => l.(now := Apply(l.now, e))
    case AskFirst(id, answer) =>
      Late(Ended(l.now, id).(seen := Greater(l.now.seen, LastMark(answer))),
           l.asked[id := Asked(l.now.runs[id].from, answer)])
    case OpenAfter(id) =>
      var data, asked := Opened(l.now.data), l.asked[id];
      Late(l.now.(data := data, runs := l.now.runs[id := Merging(asked.from, data.commits, asked.answer, 0, None)]),
           l.asked - {id})
  }

  predicate LateHistory(l: Late, events: seq<LateEvent>)
    decreases |events|
  {
    events == [] || (MayHappen(l, events[0]) && LateHistory(Happened(l, events[0]), events[1..]))
  }

  function LateAfter(l: Late, events: seq<LateEvent>): Late
    requires LateHistory(l, events)
    decreases |events|
  {
    if events == [] then l else LateAfter(Happened(l, events[0]), events[1..])
  }

  function AllUsual(events: seq<Event>): seq<LateEvent> {
    seq(|events|, i requires 0 <= i < |events| => Usual(events[i]))
  }

  /** Reached from `l` by these events. */
  predicate Leads(l: Late, events: seq<LateEvent>, m: Late) {
    LateHistory(l, events) && LateAfter(l, events) == m
  }

  lemma {:induction false} LeadsOn(l: Late, a: seq<LateEvent>, m: Late, b: seq<LateEvent>, n: Late)
    requires Leads(l, a, m) && Leads(m, b, n)
    ensures Leads(l, a + b, n)
    decreases |a|
  {
    if a == [] {
      assert a + b == b;
    } else {
      assert (a + b)[1..] == a[1..] + b;
      LeadsOn(Happened(l, a[0]), a[1..], m, b, n);
    }
  }

  lemma OneStep(l: Late, e: LateEvent)
    requires MayHappen(l, e)
    ensures Leads(l, [e], Happened(l, e))
  {
    assert [e][1..] == [];
  }

  /** Whatever the protocol allows is still allowed. */
  lemma {:induction false} UsualLeads(l: Late, events: seq<Event>)
    requires History(l.now, events)
    ensures Leads(l, AllUsual(events), l.(now := After(l.now, events)))
    decreases |events|
  {
    if events != [] {
      var next := Happened(l, Usual(events[0]));
      UsualLeads(next, events[1..]);
      assert AllUsual(events)[1..] == AllUsual(events[1..]);
    }
  }

  /** A run reads its checkpoint and asks; then the one row of the source is written again. */
  lemma Overtaken(s: State, k: Key) returns (l: Late)
    requires Usable(k) && Initial(s) && s.source == map[k := Row(k, Some(1), [], 0)] && s.writes == 1 && s.seen == None
    ensures Leads(Late(s, map[]),
                  [Usual(ReadMark(0, false)), AskFirst(0, [s.source[k]]), Usual(Write(k, Some(2), []))], l)
    ensures l.asked == map[0 := Asked(None, [s.source[k]])]
    ensures l.now == s.(source := map[k := Row(k, Some(2), [], 1)], writes := 2, seen := Some(1))
  {
    var older := s.source[k];
    var e0, e1, e2 := Usual(ReadMark(0, false)), AskFirst(0, [older]), Usual(Write(k, Some(2), []));
    var a := Happened(Late(s, map[]), e0);
    var b := Happened(a, e1);
    l := Happened(b, e2);
    OneStep(Late(s, map[]), e0);
    OneStep(a, e1);
    OneStep(b, e2);
    assert b.now.runs == map[];
    hide Leads, Happened, MayHappen;
    LeadsOn(Late(s, map[]), [e0], a, [e1], b);
    LeadsOn(Late(s, map[]), [e0] + [e1], b, [e2], l);
    assert [e0] + [e1] + [e2] == [e0, e1, e2];
  }

  /** Another run syncs the newer copy from start to end. */
  lemma Overtaking(l: Late, p: Plan, newer: Row) returns (m: Late)
    requires l.now.source == map[newer.key := newer] && newer.mark.Some?
    requires Usable(newer.key) && newer.version < l.now.writes
    requires l.now.data == l.now.marks == Delta(0, []) && l.now.runs == map[]
    requires p.limit >= 1 && p.answer == [newer]
    ensures Leads(l, AllUsual(RunEvents(p)), m)
    ensures m.asked == l.asked && m.now.source == l.now.source && m.now.runs == map[]
    ensures m.now.data.rows == [newer] && m.now.data.commits > 0 && Stored(m.now.marks) == newer.mark
  {
    CompleteRun(l.now, p);
    UsualLeads(l, RunEvents(p));
    OneRow([], newer);
    m := l.(now := After(l.now, RunEvents(p)));
  }

  /** The first run opens now, and its commit is accepted. */
  lemma Overwriting(m: Late, older: Row, newer: Row) returns (n: Late)
    requires m.asked == map[0 := Asked(None, [older])] && m.now.runs == map[] && m.now.data.commits > 0
    requires m.now.data.rows == [newer] && older.key == newer.key && Usable(older.key)
    ensures Leads(m, [OpenAfter(0), Usual(MergeBatch(0, 1))], n)
    ensures n.now.data.rows == [older] && n.now.source == m.now.source && n.now.marks == m.now.marks
  {
    var late := Happened(m, OpenAfter(0));
    OneStep(m, OpenAfter(0));
    var run := late.now.runs[0];
    assert run.answer[run.merged..run.merged + 1] == [older];
    OneRow([newer], older);
    hide Merged;
    n := Happened(late, Usual(MergeBatch(0, 1)));
    OneStep(late, Usual(MergeBatch(0, 1)));
    hide Leads, Happened, MayHappen;
    LeadsOn(m, [OpenAfter(0)], late, [Usual(MergeBatch(0, 1))], n);
    assert [OpenAfter(0)] + [Usual(MergeBatch(0, 1))] == [OpenAfter(0), Usual(MergeBatch(0, 1))];
  }

  /**
   * Why the handle is opened before the query. A run asks; the row it was given is written
   * again, and another run syncs the newer copy and records its watermark; the first run
   * opens the table, and its commit is accepted. The older copy replaces the newer one, and
   * the row at the stored checkpoint is no longer covered.
   */
  lemma LateHandleRegresses(table: string, k: Key)
    requires Usable(k)
    ensures var older, newer := Row(k, Some(1), [], 0), Row(k, Some(2), [], 1);
            var s := State(table, map[k := older], 1, None, Delta(0, []), Delta(0, []), map[]);
            var events := [Usual(ReadMark(0, false)), AskFirst(0, [older]), Usual(Write(k, Some(2), []))]
                          + AllUsual(RunEvents(Plan(1, false, [newer], 1, 0)))
                          + [OpenAfter(0), Usual(MergeBatch(0, 1))];
            && Initial(s) && LateHistory(Late(s, map[]), events)
            && var t := LateAfter(Late(s, map[]), events).now;
               k in t.source && t.source[k] == newer && t.data.rows == [older]
               && Stored(t.marks) == newer.mark && !Covered(t, newer.mark)
  {
    var older, newer := Row(k, Some(1), [], 0), Row(k, Some(2), [], 1);
    var s := State(table, map[k := older], 1, None, Delta(0, []), Delta(0, []), map[]);
    var l := Overtaken(s, k);
    var m := Overtaking(l, Plan(1, false, [newer], 1, 0), newer);
    var n := Overwriting(m, older, newer);
    var a, b := [Usual(ReadMark(0, false)), AskFirst(0, [older]), Usual(Write(k, Some(2), []))],
                AllUsual(RunEvents(Plan(1, false, [newer], 1, 0)));
    assert !Covered(n.now, newer.mark) by {
      assert n.now.source[k] == newer && AtOrBelow(newer, newer.mark);
    }
    hide Happened, MayHappen, RunEvents, AllUsual;
    LeadsOn(Late(s, map[]), a, l, b, m);
    LeadsOn(Late(s, map[]), a + b, m, [OpenAfter(0), Usual(MergeBatch(0, 1))], n);
  }
}
