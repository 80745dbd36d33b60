// What every scan cycle of the exporter does to the store, whatever reloads run beside it
// (cmd/directory-size-exporter/main.go:114-135, 262-288).

module CycleLaws {
  import opened Options
  import opened FileTree
  import opened Outcomes
  import Targets
  import Retention
  import opened StoreTrace
  import opened Exporter
  import Scan = ScanProtocol
  import ScanLedger
  import ScanSteps
  import ScanSafety

  // A start mark, or a result, for this target.
  predicate Concerns(op: Op, t: string, result: bool) { if result then op.Put? && op.r.target == t else op.Mark? && op.target == t }

  // How many of them the store was told in cycle n.
  function Times(ops: seq<Op>, stamps: seq<int>, n: int, t: string, result: bool): nat
    requires |ops| == |stamps|
  {
    if ops == [] then 0 else
    var k := |ops| - 1;
    Times(ops[..k], stamps[..k], n, t, result) + One(stamps[k] == n && Concerns(ops[k], t, result))
  }

  function Among(ops: seq<Op>, t: string, result: bool): nat {
    if ops == [] then 0 else Among(ops[..|ops| - 1], t, result) + One(Concerns(ops[|ops| - 1], t, result))
  }

  lemma {:induction false} TimesAppend(ops: seq<Op>, stamps: seq<int>, told: seq<Op>, n: int, t: string, result: bool)
    requires |ops| == |stamps|
    ensures Times(ops + told, stamps + seq(|told|, _ => n), n, t, result)
         == Times(ops, stamps, n, t, result) + Among(told, t, result)
  {
    var more := seq(|told|, _ => n);
    if told == [] {
      assert ops + told == ops && stamps + more == stamps;
    } else {
      var k := |told| - 1;
      var fewer := seq(|told[..k]|, _ => n);
      TimesAppend(ops, stamps, told[..k], n, t, result);
      assert (ops + told)[..|ops + told| - 1] == ops + told[..k];
      assert (stamps + more)[..|ops + told| - 1] == stamps + fewer;
    }
  }

  lemma {:induction false} NotYet(ops: seq<Op>, stamps: seq<int>, n: int, t: string, result: bool)
    requires |ops| == |stamps| && forall j :: 0 <= j < |stamps| ==> stamps[j] < n
    ensures Times(ops, stamps, n, t, result) == 0
  {
    if ops == [] {
    } else {
      NotYet(ops[..|ops| - 1], stamps[..|ops| - 1], n, t, result);
    }
  }

  // --- what holds all along -------------------------------------------------------------------------

  ghost predicate Accounted(e: State) {
    && |e.ops| == |e.stamps| && (forall j :: 0 <= j < |e.stamps| ==> e.stamps[j] <= |e.worlds|)
    && (e.ops != [] ==> e.ops[0].SetTo? && e.ops[0].targets != [])
    && (e.cycle.Walking? ==> InStepWith(e.ops, e.stamps, |e.worlds|, e.cycle.paths, e.cycle.s))
  }

  // The sink has been told as often as the walk started and landed each target.
  ghost predicate InStepWith(ops: seq<Op>, stamps: seq<int>, n: int, paths: seq<string>, s: Scan.State)
    requires |ops| == |stamps|
  {
    && |paths| == |s.targets| && NoDuplicates(paths)
    && forall k :: 0 <= k < |paths| ==> Agrees(ops, stamps, n, paths[k], s.targets[k])
  }

  ghost predicate Agrees(ops: seq<Op>, stamps: seq<int>, n: int, t: string, x: Scan.Target)
    requires |ops| == |stamps|
  {
    Times(ops, stamps, n, t, false) == x.began && Times(ops, stamps, n, t, true) == x.landed
  }

  // One step of the walk tells of one target at most, and of it just what the walk did.
  lemma ToldIsDone(cfg: Scan.Config, paths: seq<string>, s: Scan.State, a: Scan.Action,
                   started: int, ended: int, duration: real, k: nat)
    requires Scan.Can(cfg, s, a) && |paths| == |s.targets| && k < |paths| && NoDuplicates(paths)
    ensures k < |Scan.Do(cfg, s, a).targets|
    ensures var told, x, y := Told(cfg, paths, s, a, started, ended, duration), s.targets[k], Scan.Do(cfg, s, a).targets[k];
      Among(told, paths[k], false) == y.began - x.began && Among(told, paths[k], true) == y.landed - x.landed
  {
    ScanSteps.SameTargets(cfg, s, a);
    if ScanSteps.ByWorker(a) {
      ScanSafety.WorkerLeavesTarget(cfg, s, a, k);
      hide Scan.Do, Scan.Can;
      assert Told(cfg, paths, s, a, started, ended, duration) == [];
    } else if a.Start? {
      StartIsTold(cfg, paths, s, started, ended, duration, k);
    } else if a.Deliver? {
      DeliveryIsTold(cfg, paths, s, a, started, ended, duration, k);
    } else {
      RestIsSilent(cfg, paths, s, a, started, ended, duration, k);
    }
  }

  lemma AmongOne(op: Op, t: string, result: bool)
    ensures Among([op], t, result) == One(Concerns(op, t, result))
  {
    assert [op][..0] == [];
  }

  lemma AmongTwo(a: Op, b: Op, t: string, result: bool)
    ensures Among([a] + [b], t, result) == One(Concerns(a, t, result)) + One(Concerns(b, t, result))
  {
    assert ([a] + [b])[..1] == [a];
    AmongOne(a, t, result);
  }

  lemma StartIsTold(cfg: Scan.Config, paths: seq<string>, s: Scan.State, started: int, ended: int, duration: real, k: nat)
    requires Scan.Can(cfg, s, Scan.Start) && |paths| == |s.targets| && k < |paths| && NoDuplicates(paths)
    ensures k < |Scan.Do(cfg, s, Scan.Start).targets|
    ensures var told := Told(cfg, paths, s, Scan.Start, started, ended, duration);
      var x, y := s.targets[k], Scan.Do(cfg, s, Scan.Start).targets[k];
      Among(told, paths[k], false) == y.began - x.began && Among(told, paths[k], true) == y.landed - x.landed
  {
    var m := s.main.k;
    var mark := Mark(paths[m], started);
    AmongOne(mark, paths[k], false);
    AmongOne(mark, paths[k], true);
    hide Among, Scan.RootFaults, Scan.RootOutcome, Scan.FenceOf;
    if Scan.RootReady(s.targets[m].probe) {
      assert Told(cfg, paths, s, Scan.Start, started, ended, duration) == [mark];
    } else {
      var put := Put(ResultOf(paths[m], Scan.DoStart(cfg, s).targets[m].report.value, duration), ended);
      AmongTwo(mark, put, paths[k], false);
      AmongTwo(mark, put, paths[k], true);
    }
  }

  lemma DeliveryIsTold(cfg: Scan.Config, paths: seq<string>, s: Scan.State, a: Scan.Action,
                       started: int, ended: int, duration: real, k: nat)
    requires Scan.Can(cfg, s, a) && a.Deliver? && |paths| == |s.targets| && k < |paths| && NoDuplicates(paths)
    ensures k < |Scan.Do(cfg, s, a).targets|
    ensures var told, x, y := Told(cfg, paths, s, a, started, ended, duration), s.targets[k], Scan.Do(cfg, s, a).targets[k];
      Among(told, paths[k], false) == y.began - x.began && Among(told, paths[k], true) == y.landed - x.landed
  {
    var put := Put(ResultOf(paths[a.t], Scan.DoReport(cfg, s.targets[a.t]).report.value, duration), ended);
    AmongOne(put, paths[k], false);
    AmongOne(put, paths[k], true);
    hide Among, MeasurementOf;
    assert Told(cfg, paths, s, a, started, ended, duration) == [put];
  }

  lemma RestIsSilent(cfg: Scan.Config, paths: seq<string>, s: Scan.State, a: Scan.Action,
                     started: int, ended: int, duration: real, k: nat)
    requires Scan.Can(cfg, s, a) && |paths| == |s.targets| && k < |paths|
    requires !ScanSteps.ByWorker(a) && !a.Start? && !a.Deliver?
    ensures k < |Scan.Do(cfg, s, a).targets| && Told(cfg, paths, s, a, started, ended, duration) == []
    ensures var x, y := s.targets[k], Scan.Do(cfg, s, a).targets[k]; y.began == x.began && y.landed == x.landed
    ensures forall result :: Among([], paths[k], result) == 0
  {
    hide Scan.DoTake, Scan.DoBegin, Scan.DoOpen, Scan.DoRead, Scan.DoPay, Scan.DoSift, Scan.DoBatchEnd, Scan.DoFlush,
         Scan.DoReserve, Scan.DoPush, Scan.DoFinish, Scan.DoCheck, Scan.DoStart, Scan.DoReport, Scan.Wake, Scan.AllReported,
         Scan.Reads, Scan.Opens, ResultOf;
  }

  // Telling the store something in cycle n leaves all but that as it was.
  lemma TellingAdds(ops: seq<Op>, stamps: seq<int>, told: seq<Op>, n: int, paths: seq<string>, s: Scan.State, s': Scan.State)
    requires |ops| == |stamps| && InStepWith(ops, stamps, n, paths, s) && |s'.targets| == |s.targets|
    requires forall k :: 0 <= k < |paths| ==>
      Among(told, paths[k], false) == s'.targets[k].began - s.targets[k].began
      && Among(told, paths[k], true) == s'.targets[k].landed - s.targets[k].landed
    ensures InStepWith(ops + told, stamps + seq(|told|, _ => n), n, paths, s')
  {
    forall k | 0 <= k < |paths| ensures Agrees(ops + told, stamps + seq(|told|, _ => n), n, paths[k], s'.targets[k]) {
      assert Agrees(ops, stamps, n, paths[k], s.targets[k]);
      hide Agrees, Among;
      TellingOne(ops, stamps, told, n, paths[k], s.targets[k], s'.targets[k]);
    }
  }

  lemma TellingOne(ops: seq<Op>, stamps: seq<int>, told: seq<Op>, n: int, t: string, x: Scan.Target, y: Scan.Target)
    requires |ops| == |stamps| && Agrees(ops, stamps, n, t, x)
    requires Among(told, t, false) == y.began - x.began && Among(told, t, true) == y.landed - x.landed
    ensures Agrees(ops + told, stamps + seq(|told|, _ => n), n, t, y)
  {
    hide Times, Among;
    TimesAppend(ops, stamps, told, n, t, false);
    TimesAppend(ops, stamps, told, n, t, true);
  }

  lemma StepKeepsAccounts(setup: Setup, e: State, v: Exporter.Event)
    requires Scan.ValidConfig(setup.scan) && Inv(setup, e) && Can(setup, e, v) && Accounted(e)
    ensures Accounted(Do(setup, e, v))
  {
    hide Inv, Told, DoOps, Scan.Do, Scan.Can, Scan.Fresh, Targets.Resolve, PathsOf, Walks, InStepWith, FindsSome, Exporter.First;
    match v
    case Boot(_, _, _) => BootInstallsSome(setup, e, v);
    case Apply(who) => ApplyKeeps(setup, e, v);
    case StartCycle(world, init) => StartsEven(setup, e, v);
    case Walk(a, started, ended, duration) => WalkKeepsStep(setup, e, v);
    case _ =>
  }

  lemma BootInstallsSome(setup: Setup, e: State, v: Exporter.Event)
    requires Can(setup, e, v) && v.Boot?
    ensures Accounted(Do(setup, e, v))
  {
    hide DoOps, Targets.Resolve;
    var targets := Exporter.First(setup, v).reply.resolution.targets;
    assert |PathsOf(targets)| == |targets|;
  }

  lemma ApplyKeeps(setup: Setup, e: State, v: Exporter.Event)
    requires Can(setup, e, v) && v.Apply? && Accounted(e)
    ensures Accounted(Do(setup, e, v))
  {
    hide DoOps, InStepWith;
    var told := [SetTo(At(e, v.who).paths)];
    forall t, result ensures Among(told, t, result) == 0 { AmongOne(told[0], t, result); }
    if e.cycle.Walking? {
      assert |e.cycle.paths| == |e.cycle.s.targets| by { SizesAgree(e.ops, e.stamps, |e.worlds|, e.cycle.paths, e.cycle.s); }
      TellingAdds(e.ops, e.stamps, told, |e.worlds|, e.cycle.paths, e.cycle.s, e.cycle.s);
    }
  }

  lemma SizesAgree(ops: seq<Op>, stamps: seq<int>, n: int, paths: seq<string>, s: Scan.State)
    requires |ops| == |stamps| && InStepWith(ops, stamps, n, paths, s)
    ensures |paths| == |s.targets| && NoDuplicates(paths)
  {
  }

  lemma StartsEven(setup: Setup, e: State, v: Exporter.Event)
    requires Inv(setup, e) && Can(setup, e, v) && v.StartCycle? && Accounted(e)
    ensures Accounted(Do(setup, e, v))
  {
    var paths, n := e.shelf.order, |e.worlds| + 1;
    assert NoDuplicates(paths) by { ShelfIsRun(setup, e); }
    hide Inv, Times, Targets.Resolve;
    forall k | 0 <= k < |paths| ensures Agrees(e.ops, e.stamps, n, paths[k], v.init.targets[k]) {
      NotYet(e.ops, e.stamps, n, paths[k], false);
      NotYet(e.ops, e.stamps, n, paths[k], true);
    }
  }

  lemma WalkKeepsStep(setup: Setup, e: State, v: Exporter.Event)
    requires Can(setup, e, v) && v.Walk? && Accounted(e)
    ensures Accounted(Do(setup, e, v))
  {
    hide DoOps, InStepWith, Told, Scan.Do, Scan.Can;
    var s, paths := e.cycle.s, e.cycle.paths;
    var s', told := Scan.Do(setup.scan, s, v.a), Told(setup.scan, paths, s, v.a, v.started, v.ended, v.duration);
    SizesAgree(e.ops, e.stamps, |e.worlds|, paths, s);
    ScanSteps.SameTargets(setup.scan, s, v.a);
    forall k: nat | k < |paths|
      ensures Among(told, paths[k], false) == s'.targets[k].began - s.targets[k].began
           && Among(told, paths[k], true) == s'.targets[k].landed - s.targets[k].landed
    {
      ToldIsDone(setup.scan, paths, s, v.a, v.started, v.ended, v.duration, k);
    }
    TellingAdds(e.ops, e.stamps, told, |e.worlds|, paths, s, s');
    ToldSetsNothing(setup.scan, paths, s, v.a, v.started, v.ended, v.duration);
  }

  lemma {:induction false} RunKeepsAccounts(setup: Setup, run: seq<State>, events: seq<Exporter.Event>, e: State, k: nat)
    requires Scan.ValidConfig(setup.scan) && IsRun(setup, run, events, e) && k <= |events|
    ensures Accounted(run[k])
  {
    hide Inv, Can, Do, Accounted;
    if k == 0 {
      assert Accounted(OFF) by { NothingYet(); }
    } else {
      RunKeepsAccounts(setup, run, events, e, k - 1);
      RunKeeps(setup, run, events, e, k - 1);
      assert StepsAt(setup, run, events, k - 1);
      StepKeepsAccounts(setup, run[k - 1], events[k - 1]);
    }
  }

  lemma NothingYet()
    ensures Accounted(OFF)
  {
  }

  lemma ReachableAccounts(setup: Setup, e: State)
    requires Reachable(setup, e)
    ensures Accounted(e)
  {
    hide Accounted;
    var run, events :| IsRun(setup, run, events, e);
    RunKeepsAccounts(setup, run, events, e, |events|);
  }

  // --- what a cycle does ----------------------------------------------------------------------------

  // When a cycle has returned, the store has been told of each of its targets, in it, one start and one result.
  lemma CycleTellsEachOnce(setup: Setup, e: State, k: nat)
    requires Reachable(setup, e) && e.cycle.Walking? && e.cycle.s.main.Returned? && k < |e.cycle.paths|
    ensures |e.ops| == |e.stamps|
    ensures Times(e.ops, e.stamps, |e.worlds|, e.cycle.paths[k], false) == 1
    ensures Times(e.ops, e.stamps, |e.worlds|, e.cycle.paths[k], true) == 1
  {
    ReachableAccounts(setup, e);
    SizesAgree(e.ops, e.stamps, |e.worlds|, e.cycle.paths, e.cycle.s);
    assert Agrees(e.ops, e.stamps, |e.worlds|, e.cycle.paths[k], e.cycle.s.targets[k]);
    assert Scan.Reachable(setup.scan, e.cycle.s) by { ReachableInv(setup, e); }
    hide Reachable, Scan.Reachable, Times;
    ScanSafety.OneResultEach(setup.scan, e.cycle.s, k);
  }

  // The store never starts out with nothing to watch.
  lemma StartsWithSome(setup: Setup, e: State)
    requires Reachable(setup, e) && e.ops != []
    ensures e.ops[0].SetTo? && e.ops[0].targets != []
  {
    ReachableAccounts(setup, e);
  }

  function Unfinished(ws: seq<Scan.Worker>): nat {
    if ws == [] then 0 else One(!ws[0].pc.Exited?) + Unfinished(ws[1..])
  }

  // Workers still alive when a cycle is over count as leaked in the next, with those leaked before; and nobody else.
  lemma LeaksCarryOver(setup: Setup, e: State)
    requires Reachable(setup, e) && Can(setup, e, EndCycle)
    ensures Do(setup, e, EndCycle).live == e.cycle.s.leaked + Unfinished(e.cycle.s.workers)
    ensures Do(setup, e, EndCycle).cycle.Between?
  {
    assert Scan.Reachable(setup.scan, e.cycle.s) by { ReachableInv(setup, e); }
    hide Reachable, Scan.Reachable;
    ScanSafety.ResourcesAreBounded(setup.scan, e.cycle.s);
    LiveAreUnfinished(e.cycle.s.workers);
  }

  lemma {:induction false} LiveAreUnfinished(ws: seq<Scan.Worker>)
    ensures ScanLedger.Sum(ws, ScanLedger.Live) == Unfinished(ws)
  {
    if ws == [] {
    } else {
      ScanSteps.NoGaugeInRefs(ws[0].local, ScanLedger.Live);
      LiveAreUnfinished(ws[1..]);
    }
  }

  // --- what the resolver remembers ------------------------------------------------------------------

  function PassOf(v: Exporter.Event): Targets.Call
    requires v.Boot? || v.Resolve?
  {
    Targets.Call(v.patterns, v.expansions, v.now)
  }

  // The passes of a run: the first one, and those of the reloads that got the lock.
  function Passes(events: seq<Exporter.Event>): seq<Targets.Call> {
    if events == [] then [] else
    var v := events[|events| - 1];
    Passes(events[..|events| - 1]) + if v.Boot? || v.Resolve? then [PassOf(v)] else []
  }

  // Whichever threads reload, the resolver is where its passes alone, in that order, lead: successful, failed or
  // not applied yet. So what holds over passes (grace, vanishing times, deltas) holds of the exporter.
  lemma {:induction false} MemoryIsRun(setup: Setup, run: seq<State>, events: seq<Exporter.Event>, e: State, k: nat)
    requires Scan.ValidConfig(setup.scan) && IsRun(setup, run, events, e) && k <= |events|
    ensures Targets.WellFormed(Passes(events[..k]))
    ensures run[k].memory == Targets.Run(Passes(events[..k]), setup.rules)
  {
    hide Can, Do, Targets.Run, Targets.WellFormed, Passes;
    if k == 0 {
      FirstMemory(setup, run[k], events[..k]);
    } else {
      MemoryIsRun(setup, run, events, e, k - 1);
      assert StepsAt(setup, run, events, k - 1);
      assert events[..k] == events[..k - 1] + [events[k - 1]];
      NextMemory(setup, run[k - 1], events[k - 1], events[..k - 1], events[..k]);
    }
  }

  lemma FirstMemory(setup: Setup, e: State, past: seq<Exporter.Event>)
    requires e == OFF && past == []
    ensures Targets.WellFormed(Passes(past)) && e.memory == Targets.Run(Passes(past), setup.rules)
  {
    hide Targets.Resolve;
  }

  lemma NextMemory(setup: Setup, e: State, v: Exporter.Event, past: seq<Exporter.Event>, more: seq<Exporter.Event>)
    requires Can(setup, e, v) && more == past + [v]
    requires Targets.WellFormed(Passes(past)) && e.memory == Targets.Run(Passes(past), setup.rules)
    ensures Targets.WellFormed(Passes(more)) && Do(setup, e, v).memory == Targets.Run(Passes(more), setup.rules)
  {
    PassMoves(setup, e, v, Passes(past));
    hide Can, Do, Targets.Run, Targets.WellFormed;
    assert more[..|more| - 1] == past && Passes(past) + [] == Passes(past);
  }

  lemma PassMoves(setup: Setup, e: State, v: Exporter.Event, passes: seq<Targets.Call>)
    requires Can(setup, e, v) && Targets.WellFormed(passes) && e.memory == Targets.Run(passes, setup.rules)
    ensures if v.Boot? || v.Resolve? then RunsOn(setup, passes, PassOf(v), Do(setup, e, v)) else Do(setup, e, v).memory == e.memory
  {
    hide Targets.Run, Targets.WellFormed;
    MemoryMovesTo(setup, e, v);
    if v.Boot? || v.Resolve? { OnePassMore(setup, passes, PassOf(v)); }
    hide Do, Can;
  }

  lemma MemoryMovesTo(setup: Setup, e: State, v: Exporter.Event)
    requires Can(setup, e, v)
    ensures v.Boot? || v.Resolve? ==> |v.patterns| == |v.expansions|
    ensures Do(setup, e, v).memory == if v.Boot? || v.Resolve?
      then Targets.Resolve(e.memory, v.patterns, v.expansions, setup.rules, v.now).memory else e.memory
  {
    hide Targets.Resolve, Told, DoOps, Scan.Do, Scan.Can, Scan.Fresh, PathsOf, Walks, FindsSome, Exporter.First;
  }

  lemma OnePassMore(setup: Setup, passes: seq<Targets.Call>, pass: Targets.Call)
    requires Targets.WellFormed(passes) && |pass.patterns| == |pass.expansions|
    ensures Targets.WellFormed(passes + [pass])
    ensures Targets.Run(passes + [pass], setup.rules)
         == Targets.Resolve(Targets.Run(passes, setup.rules), pass.patterns, pass.expansions, setup.rules, pass.now).memory
  {
    hide Targets.Resolve;
    assert (passes + [pass])[..|passes|] == passes;
  }

  ghost predicate RunsOn(setup: Setup, passes: seq<Targets.Call>, pass: Targets.Call, e: State) {
    var more := passes + [pass];
    Targets.WellFormed(more) && e.memory == Targets.Run(more, setup.rules)
  }
}
