// The retention store (internal/state/store.go): the operations as steps on a map of cells, what any run of
// them leaves behind, and the store itself, which updates its targets' fields in place.

module StoreTrace {
  import opened Options
  import opened Outcomes
  import opened Retention
  import opened RetentionLaws

  // What the rest of the exporter may do to the store.
  datatype Op = SetTo(targets: seq<string>) | Mark(target: string, at: int) | Put(r: Result, at: int)

  datatype Shelf = Shelf(cells: map<string, Cell>, order: seq<string>)

  const EMPTY := Shelf(map[], [])

  function Elements(s: seq<string>): set<string> { set t | t in s }

  predicate NoDuplicates(s: seq<string>) { forall i, j :: 0 <= i < j < |s| ==> s[i] != s[j] }

  // The first occurrence of each target, in order.
  function Distinct(targets: seq<string>): (d: seq<string>)
    ensures Elements(d) == Elements(targets) && NoDuplicates(d)
  {
    if targets == [] then [] else
    var t := targets[|targets| - 1];
    var d := Distinct(targets[..|targets| - 1]);
    assert targets == targets[..|targets| - 1] + [t];
    if t in d then d else
      assert Elements(d + [t]) == Elements(d) + {t};
      d + [t]
  }

  // Where a target is listed first.
  function First(targets: seq<string>, t: string): (k: nat)
    requires t in targets
    ensures k < |targets| && targets[k] == t && t !in targets[..k]
  {
    var most := targets[..|targets| - 1];
    assert targets == most + [targets[|targets| - 1]];
    if t in most then
      assert most[..First(most, t)] == targets[..First(most, t)];
      First(most, t)
    else |targets| - 1
  }

  // They are listed in the order of their first occurrences.
  lemma {:induction false} DistinctInOrder(targets: seq<string>, i: nat, j: nat)
    requires i < j < |Distinct(targets)|
    ensures var d := Distinct(targets);
      d[i] in targets && d[j] in targets && First(targets, d[i]) < First(targets, d[j])
  {
    var most, t := targets[..|targets| - 1], targets[|targets| - 1];
    assert targets == most + [t];
    var d, was := Distinct(targets), Distinct(most);
    assert d[i] in Elements(d) && d[j] in Elements(d) && d[i] == was[i];
    assert was[i] in Elements(was) && was[i] in Elements(most);
    if j < |was| {
      assert was[j] in Elements(was) && was[j] in Elements(most);
      DistinctInOrder(most, i, j);
    } else {
      assert t !in Elements(was) && t !in Elements(most) && t !in most;
    }
  }

  lemma {:induction false} DistinctOfDistinct(targets: seq<string>)
    requires NoDuplicates(targets)
    ensures Distinct(targets) == targets
  {
    if targets == [] {
    } else {
      var most := targets[..|targets| - 1];
      DistinctOfDistinct(most);
      assert targets == most + [targets[|targets| - 1]];
    }
  }

  // Every target listed once, and no state kept for any other.
  predicate Tidy(s: Shelf) { s.cells.Keys == Elements(s.order) && NoDuplicates(s.order) }

  function Retained(cells: map<string, Cell>, t: string): Cell { if t in cells then cells[t] else NEW_CELL }

  function DoOp(s: Shelf, op: Op, pp: bool): Shelf {
    match op
    case SetTo(targets) => Shelf(map t | t in Elements(targets) :: Retained(s.cells, t), Distinct(targets))
    case Mark(t, at) => if t in s.cells then s.(cells := s.cells[t := Marked(s.cells[t], at)]) else s
    case Put(r, at) => if r.target in s.cells then s.(cells := s.cells[r.target := Applied(s.cells[r.target], r, at, pp)]) else s
  }

  function RunOps(ops: seq<Op>, pp: bool): (s: Shelf)
    ensures Tidy(s)
  {
    if ops == [] then EMPTY else DoOp(RunOps(ops[..|ops| - 1], pp), ops[|ops| - 1], pp)
  }

  // What happened to a target since it was last added; nothing at all if it is not tracked.
  function Since(ops: seq<Op>, t: string): Option<seq<Event>> {
    if ops == [] then None else
    var before := Since(ops[..|ops| - 1], t);
    match ops[|ops| - 1]
    case SetTo(targets) => if t !in targets then None else if before.None? then Some([]) else before
    case Mark(m, at) => if before.Some? && m == t then Some(before.value + [Began(at)]) else before
    case Put(r, at) => if before.Some? && r.target == t then Some(before.value + [Finished(r, at)]) else before
  }

  // The target list last installed.
  function Installed(ops: seq<Op>): seq<string> {
    if ops == [] then [] else
    match ops[|ops| - 1]
    case SetTo(targets) => targets
    case _ => Installed(ops[..|ops| - 1])
  }

  // After any run of operations the store tracks the distinct targets last installed, each in the state its
  // own history since it was added leads to.
  lemma {:induction false} StoreRefinesHistory(ops: seq<Op>, pp: bool)
    ensures var s := RunOps(ops, pp);
      && s.order == Distinct(Installed(ops))
      && forall t :: (t in s.cells <==> Since(ops, t).Some?)
                  && (t in s.cells ==> s.cells[t] == Play(Since(ops, t).value, pp))
  {
    if ops == [] {
    } else {
      var before, op := ops[..|ops| - 1], ops[|ops| - 1];
      StoreRefinesHistory(before, pp);
      var s := RunOps(ops, pp);
      forall t ensures t in s.cells <==> Since(ops, t).Some?
               ensures t in s.cells ==> s.cells[t] == Play(Since(ops, t).value, pp) {
        OpRefines(before, op, pp, t);
        assert before + [op] == ops;
      }
    }
  }

  lemma OpRefines(before: seq<Op>, op: Op, pp: bool, t: string)
    requires var s := RunOps(before, pp);
      (t in s.cells <==> Since(before, t).Some?) && (t in s.cells ==> s.cells[t] == Play(Since(before, t).value, pp))
    ensures var s := RunOps(before + [op], pp);
      (t in s.cells <==> Since(before + [op], t).Some?) && (t in s.cells ==> s.cells[t] == Play(Since(before + [op], t).value, pp))
  {
    hide Play, Applied, Marked, Distinct;
    assert (before + [op])[..|before|] == before;
    if t in RunOps(before, pp).cells {
      var h := Since(before, t).value;
      match op
      case Mark(_, at) => PlayOneMore(h, Began(at), pp);
      case Put(r, at) => PlayOneMore(h, Finished(r, at), pp);
      case SetTo(_) =>
    } else {
      PlayNothing(pp);
    }
  }

  lemma PlayOneMore(h: seq<Event>, e: Event, pp: bool)
    ensures Play(h + [e], pp) == Step(Play(h, pp), e, pp)
  {
    hide Step;
    assert (h + [e])[..|h|] == h;
  }

  lemma PlayNothing(pp: bool)
    ensures Play([], pp) == NEW_CELL
  {
  }

  // --- what a scrape returns ----------------------------------------------------------------------

  function Scrape(s: Shelf, now: int, staleAfter: int): seq<Snapshot> {
    seq(|s.order|, i requires 0 <= i < |s.order| => SnapshotOf(s.order[i], Retained(s.cells, s.order[i]), now, staleAfter))
  }

  // Nothing that drops the target, or completes another scan of it.
  predicate Harmless(op: Op, t: string) {
    (op.SetTo? ==> t in op.targets) && !(op.Put? && op.r.target == t && op.r.outcome.Complete?)
  }

  // Operation j delivered the most recent completed scan of the target since it was last added.
  predicate IsLatestComplete(ops: seq<Op>, t: string, j: int) {
    && 0 <= j < |ops| && ops[j].Put? && ops[j].r.target == t && ops[j].r.outcome.Complete?
    && Since(ops[..j], t).Some?
    && forall i :: j < i < |ops| ==> Harmless(ops[i], t)
  }

  // The last completed scan in a target's history is one particular operation.
  lemma {:induction false} LatestComplete(ops: seq<Op>, t: string) returns (j: int)
    requires Since(ops, t).Some? && LastGood(Since(ops, t).value).Some?
    ensures IsLatestComplete(ops, t, j) && LastGood(Since(ops, t).value) == Some(Good(ops[j].r.m, ops[j].at))
  {
    hide LastGood;
    var n := |ops| - 1;
    var before, op := ops[..n], ops[n];
    NothingIsGood([]);
    var h := Since(before, t).value;
    if op.Put? && op.r.target == t {
      LastGoodStep(h, Finished(op.r, op.at));
    } else if op.Mark? && op.target == t {
      LastGoodStep(h, Began(op.at));
    }
    if op.Put? && op.r.target == t && op.r.outcome.Complete? {
      j := n;
    } else {
      j := LatestComplete(before, t);
      assert before[..j] == ops[..j];
      assert forall i :: j < i < n ==> ops[i] == before[i];
    }
  }

  lemma NothingIsGood(h: seq<Event>)
    requires h == []
    ensures LastGood(h).None?
  {
  }

  // With partial results withheld, a scrape after any run shows a measurement for a target only from a
  // completed scan of that very target, delivered since it was last added: the most recent one.
  lemma SizesAreOfCompleteScans(ops: seq<Op>, now: int, staleAfter: int, i: nat)
    requires i < |RunOps(ops, false).order|
    ensures var t, s := RunOps(ops, false).order[i], Scrape(RunOps(ops, false), now, staleAfter)[i];
      && s.status.target == t && Since(ops, t).Some?
      && (s.hasGood ==> exists j :: IsLatestComplete(ops, t, j) && ops[j].r.m == s.m)
  {
    hide SnapshotOf, Play, Only, Since, LastGood, IsLatestComplete;
    var t := RunOps(ops, false).order[i];
    StoreRefinesHistory(ops, false);
    assert t in Elements(RunOps(ops, false).order);
    ShownWithheld(t, Since(ops, t).value, now, staleAfter);
    if Scrape(RunOps(ops, false), now, staleAfter)[i].hasGood {
      var j := LatestComplete(ops, t);
    }
  }

  lemma ShownWithheld(t: string, h: seq<Event>, now: int, staleAfter: int)
    ensures var s := SnapshotOf(t, Play(h, false), now, staleAfter);
      && s.status.target == t
      && (s.hasGood ==> LastGood(h).Some? && s.m == LastGood(h).value.m)
  {
    hide Play, Only, Stale, LastGood, LastShown;
    WithheldIsGood(h);
    MeasurementShown(t, h, false, now, staleAfter);
  }

  lemma WithheldIsGood(h: seq<Event>)
    ensures LastShown(h, false) == if LastGood(h).Some? then Some(LastGood(h).value.m) else None
  {
    hide Only;
    WithheldShowsComplete(h);
  }
}
