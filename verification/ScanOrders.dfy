// What the order of a walk can change in its result (internal/scan/target.go:167-194): nothing while the inode
// set has room, or while the inodes weigh alike; otherwise, already in one directory, the figures themselves.

module ScanOrders {
  import opened Options
  import opened FileTree
  import opened HardLinks
  import opened Outcomes
  import opened ScanProtocol
  import opened ScanInvariant
  import opened ScanSteps
  import opened ScanSafety
  import opened ScanWitness

  // A target with this tree at this root was walked to its end and reported.
  ghost predicate ReportsOn(cfg: Config, s: State, t: int, tree: Tree, probe: Probe) {
    && Reachable(cfg, s) && AtTargetIdx(s, t) && s.targets[t].tree == tree && s.targets[t].probe == probe
    && s.targets[t].report.Some? && Whole(s.targets[t].report.value.outcome)
  }

  predicate Whole(o: Outcome) { o.Complete? || o.Partial? }

  ghost predicate Indifferent(files: seq<File>, p: Policy, figure: Figure)
    requires Consistent(files, p)
  {
    !(0 < p.maxTracked < |Keys(files, p)|) || EqualExcess(files, p, figure)
  }

  // Any two such reports, of whatever runs, agree.
  ghost predicate AllAgree(cfg: Config, tree: Tree, probe: Probe, figure: Figure) {
    forall s, t, s', t' :: ReportsOn(cfg, s, t, tree, probe) && ReportsOn(cfg, s', t', tree, probe) ==>
      Counted(s.targets[t].report.value.bytes, figure) == Counted(s'.targets[t'].report.value.bytes, figure)
  }

  // Two runs over the same tree, complete or not, report the same figure if all its linked inodes can be
  // tracked or none would save more than another.
  lemma ReportsAgree(cfg: Config, tree: Tree, probe: Probe, figure: Figure)
    requires RootReady(probe) && var files := Files(tree, FenceOf(cfg, probe));
      Consistent(files, cfg.policy) && Indifferent(files, cfg.policy, figure)
    ensures AllAgree(cfg, tree, probe, figure)
  {
    var files := Files(tree, FenceOf(cfg, probe));
    forall s, t, s', t' | ReportsOn(cfg, s, t, tree, probe) && ReportsOn(cfg, s', t', tree, probe)
      ensures Counted(s.targets[t].report.value.bytes, figure) == Counted(s'.targets[t'].report.value.bytes, figure)
    {
      var a := OrderBehind(cfg, s, t, files);
      var b := OrderBehind(cfg, s', t', files);
      hide *;
      SameFigure(a, b, files, cfg.policy, figure);
    }
  }

  // The order in which its files reached the inode set is all of a report that depends on the run.
  lemma OrderBehind(cfg: Config, s: State, t: int, files: seq<File>) returns (order: seq<File>)
    requires AtTargetIdx(s, t) && ReportsOn(cfg, s, t, s.targets[t].tree, s.targets[t].probe)
    requires RootReady(s.targets[t].probe) && files == Files(s.targets[t].tree, FenceOf(cfg, s.targets[t].probe))
    ensures multiset(order) == multiset(files) && s.targets[t].report.value.bytes == PostAll(order, cfg.policy).bytes
  {
    hide Reachable, PostAll, Files, Measure;
    CompleteMeansExact(cfg, s, t);
    order :| multiset(order) == multiset(files) && s.targets[t].report.value.bytes == PostAll(order, cfg.policy).bytes
      && s.targets[t].report.value.exhausted == PostAll(order, cfg.policy).exhausted;
  }

  // --- a directory of files, read in any order ------------------------------------------------------

  function FileItem(f: File): Item { Item(false, StatFile(f)) }

  function Items(files: seq<File>): (items: seq<Item>)
    ensures |items| == |files|
  {
    if files == [] then [] else [FileItem(files[0])] + Items(files[1..])
  }

  function Dir(files: seq<File>): Tree { Listing(Items(files), Eof) }

  lemma {:induction false} FilesOfItems(files: seq<File>, fence: Fence)
    ensures FilesIn(Items(files), fence) == files
  {
    if files == [] {
    } else {
      FilesOfItems(files[1..], fence);
      FileOfItem(files[0], fence);
      hide FilesAt, FileItem;
      assert Items(files)[0] == FileItem(files[0]) && Items(files)[1..] == Items(files[1..]);
      assert FilesIn(Items(files), fence) == FilesAt(Items(files)[0], fence) + FilesIn(Items(files)[1..], fence);
      assert files == [files[0]] + files[1..];
    }
  }

  lemma FileOfItem(f: File, fence: Fence)
    ensures FilesAt(FileItem(f), fence) == [f]
  {
  }

  // Reordering the files reorders the items.
  lemma {:induction false} CountItems(files: seq<File>, it: Item)
    ensures multiset(Items(files))[it] == (if !it.typedLink && it.stat.StatFile? then multiset(files)[it.stat.file] else 0)
  {
    if files == [] {
    } else {
      CountItems(files[1..], it);
      assert files == [files[0]] + files[1..];
      assert multiset(files) == multiset{files[0]} + multiset(files[1..]);
      assert multiset(Items(files)) == multiset{FileItem(files[0])} + multiset(Items(files[1..]));
    }
  }

  lemma SameItems(a: seq<File>, b: seq<File>)
    requires multiset(a) == multiset(b)
    ensures multiset(Items(a)) == multiset(Items(b))
  {
    forall it: Item ensures multiset(Items(a))[it] == multiset(Items(b))[it] {
      CountItems(a, it);
      CountItems(b, it);
    }
  }

  // The lone worker of a lone target stands at pc, having passed these files through the inode set.
  ghost predicate Walking(cfg: Config, s: State, tree: Tree, probe: Probe, pc: Pc, met: seq<File>) {
    && Reachable(cfg, s) && s.workers == [Worker([], pc)] && |s.targets| == 1 && !s.ctxDone
    && Unhurried(s.targets[0], tree, probe) && s.targets[0].order == met
    && s.targets[0].pending == 1 && s.targets[0].sup.Waiting?
  }

  predicate Unhurried(x: Target, tree: Tree, probe: Probe) {
    x.tree == tree && x.probe == probe && !x.abandoned && !x.scanDone
  }

  lemma DirBegun(cfg: Config, tree: Tree, dev: int) returns (s: State)
    requires ValidConfig(cfg)
    ensures Walking(cfg, s, tree, ProbeDir(dev), Opening(Ref(0, tree)), [])
  {
    hide Reachable, FenceOf;
    RootIsQueued(cfg, tree, dev);
    var s0 := At(AtTarget(1), [], [], Holding(Ref(0, tree)), Queued(cfg, tree, dev).(sup := Waiting), 1);
    StaysReachable(cfg, s0, Begin(0));
    s := Do(cfg, s0, Begin(0));
  }

  lemma DirOpened(cfg: Config, s: State, tree: Tree, probe: Probe, order: seq<Item>) returns (s': State)
    requires Walking(cfg, s, tree, probe, Opening(Ref(0, tree)), [])
    requires tree.Listing? && multiset(order) == multiset(tree.items)
    ensures Walking(cfg, s', tree, probe, Reading(Ref(0, tree), order, tree.tail, NO_HAUL), [])
  {
    hide Reachable;
    StaysReachable(cfg, s, Open(0, order));
    s' := Do(cfg, s, Open(0, order));
  }

  // One batch of one file: read, paid for, sifted.
  lemma BatchTaken(cfg: Config, s: State, tree: Tree, probe: Probe, rest: seq<Item>, got: Haul, met: seq<File>) returns (s': State)
    requires Walking(cfg, s, tree, probe, Reading(Ref(0, tree), rest, Eof, got), met) && rest != []
    requires cfg.batch > 0
    ensures Walking(cfg, s', tree, probe, Sifting(Ref(0, tree), rest[..1], rest[1..], Eof, false, got), met)
  {
    hide Reachable;
    StaysReachable(cfg, s, Read(0, 1, false));
    var s1 := Do(cfg, s, Read(0, 1, false));
    assert s1.workers == [Worker([], Metered(Ref(0, tree), rest[..1], rest[1..], Eof, false, got))];
    StaysReachable(cfg, s1, Pay(0, true));
    s' := Do(cfg, s1, Pay(0, true));
  }

  lemma FileSifted(cfg: Config, s: State, tree: Tree, probe: Probe, f: File, rest: seq<Item>, got: Haul, met: seq<File>)
    returns (s': State, got': Haul)
    requires Walking(cfg, s, tree, probe, Sifting(Ref(0, tree), [FileItem(f)], rest, Eof, false, got), met)
    ensures Walking(cfg, s', tree, probe, Reading(Ref(0, tree), rest, Eof, got'), met + [f]) && got'.kids == got.kids
  {
    hide Reachable, Charge, Judge, Remember;
    StaysReachable(cfg, s, Sift(0));
    var s1 := Do(cfg, s, Sift(0));
    got' := Gather(got, FileItem(f), s.targets[0].fence, s.targets[0].inodes, cfg.policy);
    assert [FileItem(f)][1..] == [];
    assert s1.workers == [Worker([], Sifting(Ref(0, tree), [], rest, Eof, false, got'))];
    StaysReachable(cfg, s1, BatchEnd(0));
    s' := Do(cfg, s1, BatchEnd(0));
  }

  lemma {:induction false} AllSifted(cfg: Config, s: State, tree: Tree, probe: Probe, todo: seq<File>, got: Haul, met: seq<File>)
    returns (s': State, got': Haul)
    requires Walking(cfg, s, tree, probe, Reading(Ref(0, tree), Items(todo), Eof, got), met) && cfg.batch > 0
    ensures Walking(cfg, s', tree, probe, Reading(Ref(0, tree), [], Eof, got'), met + todo) && got'.kids == got.kids
    decreases |todo|
  {
    hide Walking;
    if todo == [] {
      s', got' := s, got;
      assert met + todo == met;
    } else {
      var s1 := BatchTaken(cfg, s, tree, probe, Items(todo), got, met);
      assert Items(todo)[..1] == [FileItem(todo[0])] && Items(todo)[1..] == Items(todo[1..]);
      var s2, got2 := FileSifted(cfg, s1, tree, probe, todo[0], Items(todo[1..]), got, met);
      s', got' := AllSifted(cfg, s2, tree, probe, todo[1..], got2, met + [todo[0]]);
      assert met + [todo[0]] + todo[1..] == met + todo;
    }
  }

  lemma DirFlushed(cfg: Config, s: State, tree: Tree, probe: Probe, got: Haul, met: seq<File>) returns (s': State)
    requires Walking(cfg, s, tree, probe, Reading(Ref(0, tree), [], Eof, got), met) && got.kids == []
    ensures Walking(cfg, s', tree, probe, Flushed(Ref(0, tree), []), met)
  {
    hide Reachable, PlusB, Repeat;
    StaysReachable(cfg, s, Read(0, 0, false));
    var s1 := Do(cfg, s, Read(0, 0, false));
    assert s1.workers[0].pc.got.kids == [];
    StaysReachable(cfg, s1, Flush(0));
    s' := Do(cfg, s1, Flush(0));
  }

  lemma DirFinished(cfg: Config, s: State, tree: Tree, probe: Probe, met: seq<File>) returns (s': State)
    requires Walking(cfg, s, tree, probe, Flushed(Ref(0, tree), []), met)
    ensures Latched(cfg, s', tree, probe, met) && s'.targets[0].sup.Waiting?
  {
    hide Reachable;
    StaysReachable(cfg, s, Reserve(0));
    var s1 := Do(cfg, s, Reserve(0));
    assert s1.workers == [Worker([], Finishing(Ref(0, tree)))];
    StaysReachable(cfg, s1, Finish(0));
    s' := Do(cfg, s1, Finish(0));
  }

  // The walk is over, with nothing to keep its supervisor from a verdict on it.
  ghost predicate Latched(cfg: Config, s: State, tree: Tree, probe: Probe, met: seq<File>) {
    && Reachable(cfg, s) && |s.targets| == 1 && !s.ctxDone
    && Unhurried(s.targets[0], tree, probe) && s.targets[0].order == met && s.targets[0].done
  }

  lemma Judged(cfg: Config, s: State, tree: Tree, probe: Probe, met: seq<File>) returns (s': State)
    requires Latched(cfg, s, tree, probe, met) && s.targets[0].sup.Waiting?
    ensures Latched(cfg, s', tree, probe, met) && s'.targets[0].sup.ScanLive?
  {
    hide Reachable;
    StaysReachable(cfg, s, LatchSeen(0));
    var s1 := Do(cfg, s, LatchSeen(0));
    StaysReachable(cfg, s1, ReadCtx(0));
    var s2 := Do(cfg, s1, ReadCtx(0));
    StaysReachable(cfg, s2, ReadScanCtx(0));
    s' := Do(cfg, s2, ReadScanCtx(0));
  }

  lemma Delivered(cfg: Config, s: State, tree: Tree, probe: Probe, met: seq<File>) returns (s': State)
    requires Latched(cfg, s, tree, probe, met) && s.targets[0].sup.ScanLive?
    ensures ReportsOn(cfg, s', 0, tree, probe) && s'.targets[0].order == met
  {
    hide Reachable, NoFaults;
    StaysReachable(cfg, s, ReadErrors(0));
    var s1 := Do(cfg, s, ReadErrors(0));
    StaysReachable(cfg, s1, Deliver(0));
    s' := Do(cfg, s1, Deliver(0));
  }

  lemma BytesAreOfOrder(cfg: Config, s: State, t: int)
    requires AtTargetIdx(s, t) && ReportsOn(cfg, s, t, s.targets[t].tree, s.targets[t].probe)
    ensures s.targets[t].report.value.bytes == PostAll(s.targets[t].order, cfg.policy).bytes
  {
    ReachableInv(cfg, s);
    assert Flags(cfg, s, t);
    hide Inv, PostAll, Reachable;
    LatchedBytes(cfg, s, t);
  }

  // Every order of a directory's files is the order of some run.
  lemma EveryOrderHappens(cfg: Config, files: seq<File>, order: seq<File>, dev: int) returns (s: State)
    requires ValidConfig(cfg) && multiset(order) == multiset(files)
    ensures ReportsOn(cfg, s, 0, Dir(files), ProbeDir(dev))
    ensures s.targets[0].report.value.bytes == PostAll(order, cfg.policy).bytes
  {
    hide Walking, Latched, PostAll, Items, Reachable;
    var tree, probe := Dir(files), ProbeDir(dev);
    SameItems(order, files);
    var begun := DirBegun(cfg, tree, dev);
    var s0 := DirOpened(cfg, begun, tree, probe, Items(order));
    var s1, got := AllSifted(cfg, s0, tree, probe, order, NO_HAUL, []);
    assert [] + order == order;
    var s2 := DirFlushed(cfg, s1, tree, probe, got, order);
    var s3 := DirFinished(cfg, s2, tree, probe, order);
    var s4 := Judged(cfg, s3, tree, probe, order);
    s := Delivered(cfg, s4, tree, probe, order);
    BytesAreOfOrder(cfg, s, 0);
  }

  // For a directory of files the condition is exact, over runs: if it fails, two runs report different figures.
  lemma DirectoryAgreesIff(cfg: Config, files: seq<File>, dev: int, figure: Figure)
    requires ValidConfig(cfg)
    ensures Consistent(files, cfg.policy) ==>
      (AllAgree(cfg, Dir(files), ProbeDir(dev), figure) <==> Indifferent(files, cfg.policy, figure))
  {
    hide PostAll, Reachable, Keys, Consistent;
    FilesOfItems(files, FenceOf(cfg, ProbeDir(dev)));
    if !Consistent(files, cfg.policy) {
    } else if Indifferent(files, cfg.policy, figure) {
      ReportsAgree(cfg, Dir(files), ProbeDir(dev), figure);
    } else {
      var p := cfg.policy;
      var u, v :| u in Keys(files, p) && v in Keys(files, p) && Excess(files, p, figure, u) != Excess(files, p, figure, v);
      var a, b := OrderMatters(files, p, figure, u, v);
      var s := EveryOrderHappens(cfg, files, a, dev);
      var s' := EveryOrderHappens(cfg, files, b, dev);
    }
  }
}
