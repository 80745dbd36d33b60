// The exporter's moving parts together (cmd/directory-size-exporter/main.go): threads that reload the targets
// under one lock, a scan loop whose cycles run the scan protocol, and the store both feed.

module Exporter {
  import opened Options
  import opened FsErrors
  import opened FileTree
  import opened HardLinks
  import opened Outcomes
  import opened Retention
  import opened RetentionLaws
  import opened StoreTrace
  import Paths = Ordering
  import Targets
  import Scan = ScanProtocol
  import ScanSteps
  import ScanSafety
  import ScanVerdict
  import Look = Reference
  import opened LinkReference

  datatype Setup = Setup(rules: Targets.Rules, publishPartial: bool, scan: Scan.Config)

  // A caller of reload: outside, or holding the lock before resolving, before or after applying.
  datatype Reloader = Outside | Locked | Resolved(paths: seq<string>) | Applied

  datatype Cycle = Between | Walking(paths: seq<string>, s: Scan.State)

  // What the file system answers at a target: Lstat, and the tree below.
  datatype Sight = Sight(probe: Scan.Probe, tree: Tree)

  type World = map<string, Sight>

  // owner: who holds reloadMu. worlds: what each cycle so far finds at each of its targets. ops: all that was
  // ever done to the store; stamps: how many cycles had started by then, so the last of them delivered it.
  datatype State = State(memory: Targets.Memory, shelf: Shelf, owner: Option<int>, reloaders: map<int, Reloader>,
                         cycle: Cycle, live: int, ctxDone: bool, ready: bool,
                         worlds: seq<World>, ops: seq<Op>, stamps: seq<int>)

  datatype Event =
    | Boot(patterns: seq<string>, expansions: seq<Targets.Expansion>, now: int)
    | TryLock(who: int)
    | Resolve(who: int, patterns: seq<string>, expansions: seq<Targets.Expansion>, now: int)
    | Apply(who: int)
    | Unlock(who: int)
    | StartCycle(world: World, init: Scan.State)
    | Walk(a: Scan.Action, started: int, ended: int, duration: real)
    | EndCycle
    | LeakedExits          // between cycles: a worker leaked by an earlier one ends
    | Cancel               // between cycles: the process is told to stop

  const OFF := State(Targets.NOTHING, EMPTY, None, map[], Between, 0, false, false, [], [], [])

  function PathsOf(targets: seq<Targets.Target>): seq<string> {
    seq(|targets|, i requires 0 <= i < |targets| => targets[i].path)
  }

  function At(e: State, who: int): Reloader { if who in e.reloaders then e.reloaders[who] else Outside }

  // --- results ------------------------------------------------------------------------------------

  // buildResult
  function MeasurementOf(r: Scan.Report): Measurement {
    Measurement(r.bytes.size, r.bytes.alloc, r.bytes.files, r.tally[Directory], r.bytes.hardlinked, r.bytes.saved, r.exhausted)
  }

  function ResultOf(target: string, r: Scan.Report, duration: real): Result {
    Result(target, r.outcome, MeasurementOf(r), duration,
           map c: Class | c in ALL_CLASSES && r.tally[Fault(c)] > 0 :: r.tally[Fault(c)],
           r.tally[Vanished], r.tally[Entry], r.tally[Statted], r.tally[DirRead], r.tally[Fact.OtherDevice])
  }

  // --- steps --------------------------------------------------------------------------------------

  // newApp comes first, and goes on only with some target to watch.
  ghost predicate Can(setup: Setup, e: State, v: Event) {
    if v.Boot? then e == OFF && |v.patterns| == |v.expansions| && FindsSome(First(setup, v)) else e.ops != [] && May(setup, e, v)
  }

  ghost function First(setup: Setup, v: Event): Targets.Pass
    requires v.Boot? && |v.patterns| == |v.expansions|
  {
    Targets.Resolve(OFF.memory, v.patterns, v.expansions, setup.rules, v.now)
  }

  predicate FindsSome(pass: Targets.Pass) { pass.reply.Resolved? && pass.reply.resolution.targets != [] }

  predicate May(setup: Setup, e: State, v: Event) {
    match v
    case TryLock(who) => At(e, who).Outside?
    case Resolve(who, patterns, expansions, _) => At(e, who).Locked? && |patterns| == |expansions|
    case Apply(who) => At(e, who).Resolved?
    case Unlock(who) => At(e, who).Applied?
    case StartCycle(world, init) => e.cycle.Between? && e.shelf.order != []
      && Scan.Fresh(init) && init.leaked == e.live && init.ctxDone == e.ctxDone && Walks(e.shelf.order, world, init)
    case Walk(a, _, _, _) => e.cycle.Walking? && Scan.Can(setup.scan, e.cycle.s, a)
      && |e.cycle.paths| == |e.cycle.s.targets|
    case EndCycle => e.cycle.Walking? && e.cycle.s.main.Returned?
    case LeakedExits => e.cycle.Between? && e.live > 0
    case Cancel => e.cycle.Between?
    case Boot(_, _, _) => false
  }

  // Target k of the cycle is the k-th path, with what the file system holds there.
  predicate Walks(paths: seq<string>, world: World, s: Scan.State) {
    |paths| == |s.targets| && forall k :: 0 <= k < |paths| ==> Saw(world, paths[k], s.targets[k])
  }

  predicate Saw(world: World, target: string, x: Scan.Target) {
    target in world && world[target] == Sight(x.probe, x.tree)
  }

  // What a step of the walk tells the sink.
  function Told(cfg: Scan.Config, paths: seq<string>, s: Scan.State, a: Scan.Action,
                started: int, ended: int, duration: real): seq<Op>
    requires Scan.Can(cfg, s, a) && |paths| == |s.targets|
  {
    match a
    case Start =>
      var k := s.main.k;
      [Mark(paths[k], started)] +
      if Scan.RootReady(s.targets[k].probe) then []
      else [Put(ResultOf(paths[k], Scan.DoStart(cfg, s).targets[k].report.value, duration), ended)]
    case Deliver(t) => [Put(ResultOf(paths[t], Scan.DoReport(cfg, s.targets[t]).report.value, duration), ended)]
    case _ => []
  }

  function DoOps(shelf: Shelf, ops: seq<Op>, pp: bool): Shelf {
    if ops == [] then shelf else DoOp(DoOps(shelf, ops[..|ops| - 1], pp), ops[|ops| - 1], pp)
  }

  function Tell(setup: Setup, e: State, ops: seq<Op>): State {
    e.(shelf := DoOps(e.shelf, ops, setup.publishPartial), ops := e.ops + ops,
       stamps := e.stamps + seq(|ops|, _ => |e.worlds|))
  }

  function Move(e: State, who: int, to: Reloader): State { e.(reloaders := e.reloaders[who := to]) }

  ghost function Do(setup: Setup, e: State, v: Event): State
    requires Can(setup, e, v)
  {
    match v
    case Boot(patterns, expansions, now) =>
      var pass := Targets.Resolve(e.memory, patterns, expansions, setup.rules, now);
      Tell(setup, e, [SetTo(PathsOf(pass.reply.resolution.targets))]).(memory := pass.memory)
    case TryLock(who) =>
      // a reload that finds another running returns at once
      if e.owner.Some? then e else Move(e, who, Locked).(owner := Some(who))
    case Resolve(who, patterns, expansions, now) =>
      var pass := Targets.Resolve(e.memory, patterns, expansions, setup.rules, now);
      if pass.reply.Resolved? then Move(e, who, Resolved(PathsOf(pass.reply.resolution.targets))).(memory := pass.memory)
      else Move(e, who, Applied).(memory := pass.memory)
    case Apply(who) => Move(Tell(setup, e, [SetTo(At(e, who).paths)]), who, Applied)
    case Unlock(who) => Move(e, who, Outside).(owner := None)
    case StartCycle(world, init) => e.(cycle := Walking(e.shelf.order, init), worlds := e.worlds + [world])
    case Walk(a, started, ended, duration) =>
      var told := Told(setup.scan, e.cycle.paths, e.cycle.s, a, started, ended, duration);
      Tell(setup, e, told).(cycle := Walking(e.cycle.paths, Scan.Do(setup.scan, e.cycle.s, a)),
                            ctxDone := e.ctxDone || a.CancelProcess?)
    case EndCycle => e.(cycle := Between, live := e.cycle.s.live, ready := e.ready || !e.ctxDone)
    case LeakedExits => e.(live := e.live - 1)
    case Cancel => e.(ctxDone := true)
  }

  ghost predicate StepsAt(setup: Setup, run: seq<State>, events: seq<Event>, k: int) {
    0 <= k < |events| && |run| == |events| + 1 && Can(setup, run[k], events[k]) && run[k + 1] == Do(setup, run[k], events[k])
  }

  // A run from before newApp to this state.
  ghost predicate IsRun(setup: Setup, run: seq<State>, events: seq<Event>, e: State) {
    |run| == |events| + 1 && run[0] == OFF && run[|events|] == e
    && forall k {:trigger StepsAt(setup, run, events, k)} :: 0 <= k < |events| ==> StepsAt(setup, run, events, k)
  }

  ghost predicate Reachable(setup: Setup, e: State) {
    Scan.ValidConfig(setup.scan) && exists run, events :: IsRun(setup, run, events, e)
  }

  // --- invariant ----------------------------------------------------------------------------------

  // The result is what a walk reported that found this at the result's target.
  ghost predicate FromWalk(cfg: Scan.Config, world: World, r: Result) {
    exists s: Scan.State, t: int :: Reports(cfg, s, t, r) && Saw(world, r.target, s.targets[t])
  }

  ghost predicate Reports(cfg: Scan.Config, s: Scan.State, t: int, r: Result) {
    Scan.Reachable(cfg, s) && Scan.AtTargetIdx(s, t) && s.targets[t].report.Some? && Relays(r, s.targets[t].report.value)
  }

  // Field by field, what was counted is what is told.
  ghost predicate Relays(r: Result, x: Scan.Report) {
    && r.outcome == x.outcome && BytesOf(r.m) == x.bytes && r.m.exhausted == x.exhausted
    && r.m.directories == x.tally[Directory] && r.entries == x.tally[Entry] && r.statCalls == x.tally[Statted]
    && r.vanished == x.tally[Vanished] && r.dirsRead == x.tally[DirRead] && r.skippedXdev == x.tally[Fact.OtherDevice]
    && forall c: Class :: CountAt(r.errors, c) == x.tally[Fault(c)]
  }

  ghost predicate InStep(e: State) { e.shelf.order == Paths.Sorted(e.memory.known.Keys) }

  ghost predicate LockHeld(e: State) {
    && (forall who :: who in e.reloaders && !e.reloaders[who].Outside? ==> e.owner == Some(who))
    && (e.owner.Some? ==> !At(e, e.owner.value).Outside?)
    && (if e.owner.Some? && At(e, e.owner.value).Resolved?
        then At(e, e.owner.value).paths == Paths.Sorted(e.memory.known.Keys) else InStep(e))
  }

  ghost predicate CycleRuns(setup: Setup, e: State) {
    e.cycle.Walking? ==>
      Scan.Reachable(setup.scan, e.cycle.s) && e.worlds != [] && Walks(e.cycle.paths, e.worlds[|e.worlds| - 1], e.cycle.s)
      && e.cycle.paths != [] && e.cycle.s.ctxDone == e.ctxDone
  }

  // Every result came from a walk of the cycle last started when it was delivered.
  ghost predicate AllFromWalks(setup: Setup, worlds: seq<World>, ops: seq<Op>, stamps: seq<int>) {
    |stamps| == |ops| && forall j :: 0 <= j < |ops| && ops[j].Put? ==> Delivered(setup, worlds, ops[j].r, stamps[j])
  }

  ghost predicate Delivered(setup: Setup, worlds: seq<World>, r: Result, stamp: int) {
    1 <= stamp <= |worlds| && FromWalk(setup.scan, worlds[stamp - 1], r)
  }

  ghost predicate Inv(setup: Setup, e: State) {
    && Targets.Tidy(e.memory) && e.shelf == RunOps(e.ops, setup.publishPartial)
    && LockHeld(e) && CycleRuns(setup, e) && AllFromWalks(setup, e.worlds, e.ops, e.stamps)
  }

  lemma PathsAreSorted(m: Targets.Memory, patterns: seq<string>, expansions: seq<Targets.Expansion>, rules: Targets.Rules, now: int)
    requires |patterns| == |expansions| && Targets.Tidy(m)
    requires Targets.Resolve(m, patterns, expansions, rules, now).reply.Resolved?
    ensures var pass := Targets.Resolve(m, patterns, expansions, rules, now);
      PathsOf(pass.reply.resolution.targets) == Paths.Sorted(pass.memory.known.Keys)
  {
    var pass := Targets.Resolve(m, patterns, expansions, rules, now);
    hide Targets.Resolve, Paths.Less;
    Targets.ResolvedIsExact(m, patterns, expansions, rules, now);
    var paths, known := PathsOf(pass.reply.resolution.targets), pass.memory.known;
    forall p ensures p in Paths.Elements(paths) <==> p in known {
      if p in known {
        var i :| 0 <= i < |pass.reply.resolution.targets| && pass.reply.resolution.targets[i].path == p;
        assert paths[i] == p;
      }
    }
    Paths.OneListing(paths, Paths.Sorted(known.Keys));
  }

  lemma SortedIsDistinct(paths: set<string>)
    ensures Distinct(Paths.Sorted(paths)) == Paths.Sorted(paths)
  {
    Paths.AscendingHasNoDuplicates(Paths.Sorted(paths));
    DistinctOfDistinct(Paths.Sorted(paths));
  }

  lemma {:induction false} ToldIsRun(ops: seq<Op>, told: seq<Op>, pp: bool)
    ensures DoOps(RunOps(ops, pp), told, pp) == RunOps(ops + told, pp)
  {
    if told == [] {
      assert ops + told == ops;
    } else {
      var most := told[..|told| - 1];
      ToldIsRun(ops, most, pp);
      assert (ops + told)[..|ops + told| - 1] == ops + most;
      hide DoOp;
    }
  }

  lemma OffInv(setup: Setup)
    ensures Inv(setup, OFF)
  {
    hide FromWalk, Paths.Sorted;
    Paths.OneListing([], Paths.Sorted(OFF.memory.known.Keys));
  }

  // --- each step keeps it ---------------------------------------------------------------------------

  lemma StoreKept(setup: Setup, e: State, v: Event)
    requires Inv(setup, e) && Can(setup, e, v)
    ensures var e' := Do(setup, e, v); Targets.Tidy(e'.memory) && e'.shelf == RunOps(e'.ops, setup.publishPartial)
  {
    hide LockHeld, CycleRuns, AllFromWalks, RunOps, DoOps, Told, DoOp, Targets.Resolve, Targets.Tidy, PathsOf,
         Scan.Do, Scan.Can, Scan.Fresh;
    match v
    case Boot(patterns, expansions, now) =>
      Targets.PassKeepsTidy(e.memory, patterns, expansions, setup.rules, now);
      var pass := Targets.Resolve(e.memory, patterns, expansions, setup.rules, now);
      ToldIsRun(e.ops, [SetTo(PathsOf(pass.reply.resolution.targets))], setup.publishPartial);
    case Resolve(_, patterns, expansions, now) => Targets.PassKeepsTidy(e.memory, patterns, expansions, setup.rules, now);
    case Apply(who) => ToldIsRun(e.ops, [SetTo(At(e, who).paths)], setup.publishPartial);
    case Walk(a, started, ended, duration) =>
      ToldIsRun(e.ops, Told(setup.scan, e.cycle.paths, e.cycle.s, a, started, ended, duration), setup.publishPartial);
    case _ =>
  }

  // The walk tells the sink nothing that changes which targets are tracked.
  lemma {:induction false} TellingKeepsOrder(shelf: Shelf, told: seq<Op>, pp: bool)
    requires forall op :: op in told ==> !op.SetTo?
    ensures DoOps(shelf, told, pp).order == shelf.order
  {
    if told == [] {
    } else {
      TellingKeepsOrder(shelf, told[..|told| - 1], pp);
    }
  }

  lemma LockKept(setup: Setup, e: State, v: Event)
    requires Inv(setup, e) && Can(setup, e, v)
    ensures LockHeld(Do(setup, e, v))
  {
    hide CycleRuns, AllFromWalks, RunOps, Targets.Resolve, Targets.Tidy, PathsOf, Scan.Do, Scan.Can, Scan.Fresh,
         Walks, Paths.Sorted, DoOps, Told;
    match v
    case Boot(patterns, expansions, now) =>
      MemoryMoves(setup, e, patterns, expansions, now);
      var pass := Targets.Resolve(e.memory, patterns, expansions, setup.rules, now);
      ApplyInstalls(e.shelf, PathsOf(pass.reply.resolution.targets), pass.memory.known.Keys, setup.publishPartial);
    case Resolve(_, patterns, expansions, now) => MemoryMoves(setup, e, patterns, expansions, now);
    case Apply(who) => ApplyInstalls(e.shelf, At(e, who).paths, e.memory.known.Keys, setup.publishPartial);
    case Walk(a, started, ended, duration) =>
      ToldSetsNothing(setup.scan, e.cycle.paths, e.cycle.s, a, started, ended, duration);
      TellingKeepsOrder(e.shelf, Told(setup.scan, e.cycle.paths, e.cycle.s, a, started, ended, duration), setup.publishPartial);
    case _ =>
  }

  // A resolution that succeeds lists what is known from then on; one that fails changes nothing known.
  lemma MemoryMoves(setup: Setup, e: State, patterns: seq<string>, expansions: seq<Targets.Expansion>, now: int)
    requires |patterns| == |expansions| && Targets.Tidy(e.memory)
    ensures var pass := Targets.Resolve(e.memory, patterns, expansions, setup.rules, now);
      if pass.reply.Resolved? then PathsOf(pass.reply.resolution.targets) == Paths.Sorted(pass.memory.known.Keys)
      else pass.memory.known == e.memory.known
  {
    hide Targets.Resolve, Targets.Tidy, PathsOf, Paths.Sorted;
    if Targets.Resolve(e.memory, patterns, expansions, setup.rules, now).reply.Resolved? {
      PathsAreSorted(e.memory, patterns, expansions, setup.rules, now);
    } else {
      Targets.FailureKeepsKnown(e.memory, patterns, expansions, setup.rules, now);
    }
  }

  lemma ApplyInstalls(shelf: Shelf, paths: seq<string>, known: set<string>, pp: bool)
    requires paths == Paths.Sorted(known)
    ensures DoOps(shelf, [SetTo(paths)], pp).order == paths
  {
    hide Paths.Sorted, Distinct;
    SortedIsDistinct(known);
    assert [SetTo(paths)][..0] == [];
  }

  lemma ToldSetsNothing(cfg: Scan.Config, paths: seq<string>, s: Scan.State, a: Scan.Action,
                        started: int, ended: int, duration: real)
    requires |paths| == |s.targets| && Scan.Can(cfg, s, a)
    ensures forall op :: op in Told(cfg, paths, s, a, started, ended, duration) ==> !op.SetTo?
  {
    hide Scan.DoStart, Scan.DoReport, ResultOf;
  }

  lemma WalkKeepsWorld(paths: seq<string>, world: World, cfg: Scan.Config, s: Scan.State, a: Scan.Action)
    requires Walks(paths, world, s) && Scan.Can(cfg, s, a)
    ensures Walks(paths, world, Scan.Do(cfg, s, a))
  {
    hide Scan.Do, Scan.Can;
    ScanSteps.SameTargets(cfg, s, a);
    forall k | 0 <= k < |paths| ensures Saw(world, paths[k], Scan.Do(cfg, s, a).targets[k]) {
      assert Saw(world, paths[k], s.targets[k]);
      ScanSafety.AnswersFixed(cfg, s, a, k);
    }
  }

  lemma CycleKept(setup: Setup, e: State, v: Event)
    requires Scan.ValidConfig(setup.scan) && Inv(setup, e) && Can(setup, e, v)
    ensures CycleRuns(setup, Do(setup, e, v))
  {
    hide LockHeld, AllFromWalks, RunOps, Targets.Resolve, Targets.Tidy, PathsOf, Scan.Reachable, Scan.Fresh, Told,
         DoOps, Walks, Scan.Do, Scan.Can;
    match v
    case StartCycle(_, init) => ScanSafety.FreshIsReachable(setup.scan, init);
    case Walk(a, _, _, _) =>
      ScanSafety.StaysReachable(setup.scan, e.cycle.s, a);
      WalkKeepsWorld(e.cycle.paths, e.worlds[|e.worlds| - 1], setup.scan, e.cycle.s, a);
      ScanSafety.ContextFollows(setup.scan, e.cycle.s, a);
    case _ =>
  }

  // What the sink is told of a result is what the walk has just reported, of what it was given.
  lemma ToldFromWalk(cfg: Scan.Config, world: World, paths: seq<string>, s: Scan.State, a: Scan.Action,
                     started: int, ended: int, duration: real)
    requires Scan.Reachable(cfg, s) && Scan.Can(cfg, s, a) && Walks(paths, world, s)
    ensures forall op :: op in Told(cfg, paths, s, a, started, ended, duration) && op.Put? ==> FromWalk(cfg, world, op.r)
  {
    hide Scan.Reachable, FromWalk, Told, Scan.Do, Scan.Can, Saw;
    ScanSafety.StaysReachable(cfg, s, a);
    WalkKeepsWorld(paths, world, cfg, s, a);
    forall op | op in Told(cfg, paths, s, a, started, ended, duration) && op.Put? ensures FromWalk(cfg, world, op.r) {
      var t := ToldReport(cfg, paths, s, a, started, ended, duration, op);
      ReportFromWalk(cfg, world, paths, Scan.Do(cfg, s, a), t, duration, op.r);
    }
  }

  lemma ReportFromWalk(cfg: Scan.Config, world: World, paths: seq<string>, s: Scan.State, t: int, duration: real, r: Result)
    requires Scan.Reachable(cfg, s) && Walks(paths, world, s)
    requires Scan.AtTargetIdx(s, t) && s.targets[t].report.Some? && r == ResultOf(paths[t], s.targets[t].report.value, duration)
    ensures FromWalk(cfg, world, r)
  {
    hide Scan.Reachable, Saw, Relays;
    ResultRelays(paths[t], s.targets[t].report.value, duration);
    assert Reports(cfg, s, t, r);
    hide Reports;
  }

  lemma ResultRelays(target: string, x: Scan.Report, duration: real)
    ensures Relays(ResultOf(target, x, duration), x)
  {
    var r := ResultOf(target, x, duration);
    forall c: Class ensures CountAt(r.errors, c) == x.tally[Fault(c)] { EveryClass(c); }
  }

  // What a result says, by what the file system answered at its target: everything there is to count, if the
  // scan was carried through; what was wrong with the root, if it could not be used.
  ghost predicate TellsTruth(cfg: Scan.Config, x: Sight, r: Result) {
    match x.probe
    case ProbeDir(_) =>
      !r.outcome.Missing? && !r.outcome.RootError? &&
      (r.outcome.Complete? || r.outcome.Partial? ==> TellsTree(cfg, x.tree, ScanVerdict.CutAt(cfg, x.probe), r))
    case ProbeFails(e) =>
      && r.outcome == (if e.notExist || e.errno == Some(ESTALE) then Missing else RootError)
      && TellsNothing(r) && forall c: Class :: CountAt(r.errors, c) == One(Look.OfClass(e, c))
    case ProbeLink => r.outcome == RootError && TellsNothing(r) && forall c: Class :: CountAt(r.errors, c) == One(c == Class.Other)
    case ProbeOther => r.outcome == Missing && TellsNothing(r) && forall c: Class :: CountAt(r.errors, c) == 0
  }

  predicate TellsNothing(r: Result) {
    r.m == NO_MEASUREMENT && r.entries == r.statCalls == r.vanished == r.dirsRead == r.skippedXdev == 0
  }

  ghost predicate TellsTree(cfg: Scan.Config, tree: Tree, fence: Fence, r: Result) {
    var files, dedup := Look.FilesMet(tree, fence), cfg.policy.dedup;
    && (r.outcome.Complete? <==> ScanVerdict.Clean(cfg, tree, fence))
    && r.entries == Look.Expected(tree, fence, Entry) && r.statCalls == Look.Expected(tree, fence, Statted)
    && r.vanished == Look.Expected(tree, fence, Vanished) && r.dirsRead == Look.Expected(tree, fence, DirRead)
    && r.skippedXdev == Look.Expected(tree, fence, Fact.OtherDevice)
    && r.m.directories == Look.Expected(tree, fence, Directory)
    && (forall c: Class :: CountAt(r.errors, c) == Look.Expected(tree, fence, Fault(c)))
    && (r.m.exhausted <==> |Pairs(files, dedup)| > cfg.policy.maxTracked)
    && r.m.hardlinked == LinkCount(files, dedup) && r.m.size + r.m.saved == AllSizes(files)
    && (LinksAgree(files, dedup) && !r.m.exhausted ==>
          r.m.size == OnceSize(files, dedup) && r.m.alloc == OnceAlloc(files, dedup) && r.m.files == OnceCount(files, dedup))
  }

  lemma ToldIsTrue(cfg: Scan.Config, world: World, r: Result)
    requires FromWalk(cfg, world, r)
    ensures r.target in world && TellsTruth(cfg, world[r.target], r)
  {
    var s: Scan.State, t: int :| Reports(cfg, s, t, r) && Saw(world, r.target, s.targets[t]);
    hide FromWalk, Relays, TellsTree;
    var x, rep := s.targets[t], s.targets[t].report.value;
    VerdictIsTrue(cfg, s, t);
    hide Scan.Reachable;
    if x.probe.ProbeDir? {
      if r.outcome.Complete? || r.outcome.Partial? {
        ScanVerdict.ReportIsTrue(cfg, s, t);
        TreeIsTold(cfg, x.tree, ScanVerdict.CutAt(cfg, x.probe), rep, r);
      }
    } else {
      RootIsTold(cfg, Sight(x.probe, x.tree), rep, r);
    }
  }

  // Whatever the run, a usable root has no verdict on the root, and another has no other.
  lemma VerdictIsTrue(cfg: Scan.Config, s: Scan.State, t: int)
    requires Scan.Reachable(cfg, s) && Scan.AtTargetIdx(s, t) && s.targets[t].report.Some?
    ensures var x, rep := s.targets[t], s.targets[t].report.value;
      if x.probe.ProbeDir? then !rep.outcome.Missing? && !rep.outcome.RootError? else ScanVerdict.ReportsRoot(x.probe, rep)
  {
    var init: Scan.State, acts: seq<Scan.Action> :| Scan.Fresh(init) && Scan.Reaches(cfg, init, acts, s);
    hide Scan.Fresh, Scan.Reaches, ScanVerdict.StoppedInTime, ScanVerdict.RanOut, ScanVerdict.Clean, ScanVerdict.IsTrue,
         ScanVerdict.ReportsRoot, Scan.Reachable;
    ScanSafety.SameNumber(cfg, init, acts, s);
    ScanVerdict.AnswersStay(cfg, init, acts, s, t);
    ScanVerdict.VerdictTable(cfg, init, acts, s, t);
  }

  lemma TreeIsTold(cfg: Scan.Config, tree: Tree, fence: Fence, x: Scan.Report, r: Result)
    requires Relays(r, x) && ScanVerdict.IsTrue(cfg, tree, fence, x)
    requires x.outcome.Complete? <==> ScanVerdict.Clean(cfg, tree, fence)
    ensures TellsTree(cfg, tree, fence, r)
  {
    hide ScanVerdict.Clean, Look.Expected, Look.FilesMet, LinksAgree, Pairs, CountAt;
  }

  lemma RootIsTold(cfg: Scan.Config, x: Sight, rep: Scan.Report, r: Result)
    requires Relays(r, rep) && ScanVerdict.ReportsRoot(x.probe, rep)
    ensures TellsTruth(cfg, x, r)
  {
    hide CountAt, TellsTree, Look.OfClass;
    if x.probe.ProbeFails? {
      var e := x.probe.why;
      var k :| Look.OfClass(e, k) && rep.tally == multiset{Fault(k)};
      forall c: Class ensures CountAt(r.errors, c) == One(Look.OfClass(e, c)) {
        Look.ErrorsAreSorted(e, k);
        Look.ErrorsAreSorted(e, c);
        hide Classify;
      }
    }
  }

  lemma ToldReport(cfg: Scan.Config, paths: seq<string>, s: Scan.State, a: Scan.Action,
                   started: int, ended: int, duration: real, op: Op)
    returns (t: int)
    requires |paths| == |s.targets| && Scan.Can(cfg, s, a)
    requires op in Told(cfg, paths, s, a, started, ended, duration) && op.Put?
    ensures var s' := Scan.Do(cfg, s, a);
      Scan.AtTargetIdx(s', t) && t < |paths| && s'.targets[t].report.Some?
      && op.r == ResultOf(paths[t], s'.targets[t].report.value, duration)
  {
    ScanSteps.SameTargets(cfg, s, a);
    hide ResultOf, Scan.RootFaults, Scan.RootOutcome, Scan.FenceOf, Scan.RootReady;
    t := if a.Start? then s.main.k else a.t;
  }

  lemma ResultsKept(setup: Setup, e: State, v: Event)
    requires Inv(setup, e) && Can(setup, e, v)
    ensures var e' := Do(setup, e, v); AllFromWalks(setup, e'.worlds, e'.ops, e'.stamps)
  {
    hide LockHeld, RunOps, Targets.Resolve, Targets.Tidy, PathsOf, Scan.Reachable, Scan.Fresh, Told, DoOps, Scan.Can,
         Scan.Do, FromWalk, Walks;
    match v
    case Walk(a, started, ended, duration) =>
      ToldFromWalk(setup.scan, e.worlds[|e.worlds| - 1], e.cycle.paths, e.cycle.s, a, started, ended, duration);
    case _ =>
  }

  lemma {:induction false} RunKeeps(setup: Setup, run: seq<State>, events: seq<Event>, e: State, k: nat)
    requires Scan.ValidConfig(setup.scan) && IsRun(setup, run, events, e) && k <= |events|
    ensures Inv(setup, run[k])
  {
    hide Inv, Can, Do;
    if k == 0 {
      OffInv(setup);
    } else {
      RunKeeps(setup, run, events, e, k - 1);
      assert StepsAt(setup, run, events, k - 1);
      StepKeeps(setup, run[k - 1], events[k - 1]);
    }
  }

  lemma StepKeeps(setup: Setup, e: State, v: Event)
    requires Scan.ValidConfig(setup.scan) && Inv(setup, e) && Can(setup, e, v)
    ensures Inv(setup, Do(setup, e, v))
  {
    hide Can, Do, LockHeld, CycleRuns, AllFromWalks, Targets.Tidy, RunOps;
    StoreKept(setup, e, v);
    LockKept(setup, e, v);
    CycleKept(setup, e, v);
    ResultsKept(setup, e, v);
  }

  lemma ReachableInv(setup: Setup, e: State)
    requires Reachable(setup, e)
    ensures Inv(setup, e)
  {
    hide Inv;
    var run, events :| IsRun(setup, run, events, e);
    RunKeeps(setup, run, events, e, |events|);
  }

  // --- what the exporter promises -------------------------------------------------------------------

  // Whenever no reload is under way, the store tracks exactly the known targets of the last successful
  // resolution, sorted; and at any time each in the state its own history since it was added leads to.
  lemma ReloadIsSerialised(setup: Setup, e: State)
    requires Reachable(setup, e)
    ensures e.owner.None? ==> e.shelf.order == Paths.Sorted(e.memory.known.Keys)
    ensures forall t :: t in e.shelf.cells <==> Since(e.ops, t).Some?
    ensures forall t :: t in e.shelf.cells ==> e.shelf.cells[t] == Play(Since(e.ops, t).value, setup.publishPartial)
  {
    ReachableInv(setup, e);
    StoreRefinesHistory(e.ops, setup.publishPartial);
    hide Reachable, CycleRuns, AllFromWalks, Targets.Tidy, Play, Since;
  }

  // The measurement of everything at a target, down to the root's device when one-filesystem is on: its
  // recursive measure, nothing in it unreadable, and one posting of exactly its files with no inode overflowed.
  // When links agree, that is one amount per singly-linked file and one per inode.
  ghost predicate IsMeasureOf(cfg: Scan.Config, m: Measurement, x: Sight) {
    Scan.RootReady(x.probe) &&
    var fence := Scan.FenceOf(cfg, x.probe);
    var files := Files(x.tree, fence);
    && ScanSafety.Faultless(x.tree, fence, cfg.policy) && !m.exhausted
    && m.directories == Measure(x.tree, fence, Directory)
    && (exists order: seq<File> :: multiset(order) == multiset(files) && BytesOf(m) == PostAll(order, cfg.policy).bytes)
    && (Consistent(files, cfg.policy) ==>
          m.size == Exact(files, cfg.policy, Size) && m.alloc == Exact(files, cfg.policy, Alloc)
          && m.files == Exact(files, cfg.policy, Count))
  }

  function BytesOf(m: Measurement): Bytes { Bytes(m.size, m.alloc, m.files, m.hardlinked, m.saved) }

  // Operation j delivered the target's most recent completed scan since it was last added, with this
  // measurement, which is exact for what the cycle that delivered it found there.
  ghost predicate MeasuredBy(setup: Setup, e: State, t: string, m: Measurement, j: int) {
    && IsLatestComplete(e.ops, t, j) && e.ops[j].r.m == m
    && j < |e.stamps| && 1 <= e.stamps[j] <= |e.worlds| && t in e.worlds[e.stamps[j] - 1]
    && IsMeasureOf(setup.scan, m, e.worlds[e.stamps[j] - 1][t])
    && TellsTruth(setup.scan, e.worlds[e.stamps[j] - 1][t], e.ops[j].r)
  }

  // End to end: with partial results withheld, every measurement any scrape can ever show for a target is that
  // of its most recent completed scan since it was last added, and is the exact measure of what the cycle that
  // delivered it found there.
  lemma PublishedIsExact(setup: Setup, e: State, now: int, staleAfter: int, i: nat)
    requires Reachable(setup, e) && !setup.publishPartial && i < |e.shelf.order|
    ensures var s, t := Scrape(e.shelf, now, staleAfter)[i], e.shelf.order[i];
      && s.status.target == t && Since(e.ops, t).Some?
      && (s.hasGood ==> exists j :: MeasuredBy(setup, e, t, s.m, j))
  {
    hide Reachable, Inv, AllFromWalks, SnapshotOf, MeasuredBy, Harmless, Since, RunOps;
    ReachableInv(setup, e);
    ShelfIsRun(setup, e);
    SizesAreOfCompleteScans(e.ops, now, staleAfter, i);
    var s, t := Scrape(e.shelf, now, staleAfter)[i], e.shelf.order[i];
    if s.hasGood {
      var j :| IsLatestComplete(e.ops, t, j) && e.ops[j].r.m == s.m;
      LatestIsMeasured(setup, e, t, j);
    }
  }

  // Everything the store is ever told of a scan is true of what the cycle that told it found.
  lemma EverythingToldIsTrue(setup: Setup, e: State, j: nat)
    requires Reachable(setup, e) && j < |e.ops| && e.ops[j].Put?
    ensures j < |e.stamps| && 1 <= e.stamps[j] <= |e.worlds|
    ensures var world, r := e.worlds[e.stamps[j] - 1], e.ops[j].r;
      r.target in world && TellsTruth(setup.scan, world[r.target], r)
  {
    hide Reachable, Inv, FromWalk, TellsTruth, RunOps;
    ReachableInv(setup, e);
    ShelfIsRun(setup, e);
    assert Delivered(setup, e.worlds, e.ops[j].r, e.stamps[j]);
    ToldIsTrue(setup.scan, e.worlds[e.stamps[j] - 1], e.ops[j].r);
  }

  lemma ShelfIsRun(setup: Setup, e: State)
    requires Inv(setup, e)
    ensures e.shelf == RunOps(e.ops, setup.publishPartial) && AllFromWalks(setup, e.worlds, e.ops, e.stamps)
  {
    hide LockHeld, CycleRuns, RunOps, AllFromWalks;
  }

  lemma LatestIsMeasured(setup: Setup, e: State, t: string, j: int)
    requires AllFromWalks(setup, e.worlds, e.ops, e.stamps) && IsLatestComplete(e.ops, t, j)
    ensures MeasuredBy(setup, e, t, e.ops[j].r.m, j)
  {
    hide Since, FromWalk, IsMeasureOf, Harmless, TellsTruth;
    var r, world := e.ops[j].r, e.worlds[e.stamps[j] - 1];
    assert Delivered(setup, e.worlds, r, e.stamps[j]);
    CompletedIsMeasured(setup.scan, world, r);
    ToldIsTrue(setup.scan, world, r);
  }

  lemma CompletedIsMeasured(cfg: Scan.Config, world: World, r: Result)
    requires FromWalk(cfg, world, r) && r.outcome.Complete?
    ensures r.target in world && IsMeasureOf(cfg, r.m, world[r.target])
  {
    var s: Scan.State, t: int :| Reports(cfg, s, t, r) && Saw(world, r.target, s.targets[t]);
    hide FromWalk, Scan.Reachable, PostAll, ScanSafety.Faultless, Files, Measure, Consistent, Exact, Scan.FenceOf;
    ScanSafety.CompleteMeansExact(cfg, s, t);
    var report, g := s.targets[t].report.value, s.targets[t];
    assert report.tally[Directory] == Measure(g.tree, g.fence, Directory);
    if Consistent(Files(g.tree, g.fence), cfg.policy) {
      ScanSafety.CompleteSizeIsExact(cfg, s, t, Size);
      ScanSafety.CompleteSizeIsExact(cfg, s, t, Alloc);
      ScanSafety.CompleteSizeIsExact(cfg, s, t, Count);
    }
  }

  // Every target of the cycle was started once and delivered one result, none cut short by shutdown.
  predicate AllScanned(s: Scan.State) {
    forall k :: 0 <= k < |s.targets| ==> Scanned(s.targets[k])
  }

  predicate Scanned(x: Scan.Target) {
    x.began == 1 && x.landed == 1 && x.report.Some? && x.report.value.outcome != Cancelled
  }

  // Readiness turns on only at the end of such a cycle, and never turns off.
  lemma ReadyAfterFullCycle(setup: Setup, e: State, v: Event)
    requires Reachable(setup, e) && Can(setup, e, v)
    ensures e.ready ==> Do(setup, e, v).ready
    ensures Do(setup, e, v).ready <==> e.ready || (v.EndCycle? && !e.ctxDone)
    ensures !e.ready && Do(setup, e, v).ready ==> e.cycle.Walking? && AllScanned(e.cycle.s)
  {
    hide Reachable, Scan.Reachable, LockHeld, AllFromWalks, RunOps, DoOps, Told, Targets.Resolve, Targets.Tidy,
         PathsOf, Scan.Can, Scan.Do, Walks, Scan.Fresh, FindsSome, First, BytesOf;
    ReachableInv(setup, e);
    if v.EndCycle? && !e.ctxDone {
      forall k | 0 <= k < |e.cycle.s.targets| ensures Scanned(e.cycle.s.targets[k]) {
        ScanSafety.OneResultEach(setup.scan, e.cycle.s, k);
        ScanSafety.NoCancelledWhileLive(setup.scan, e.cycle.s, k);
      }
    }
  }
}
