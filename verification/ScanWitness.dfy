// A run that shows the one gap in "complete means the root was read": a root that passes Lstat and is gone
// when it is opened (internal/scan/walk.go:35-45).

module ScanWitness {
  import opened Options
  import opened FsErrors
  import opened FileTree
  import opened HardLinks
  import opened Outcomes
  import opened ScanProtocol
  import opened ScanSafety

  // One worker and one target.
  function At(main: Main, deque: seq<Ref>, hand: seq<Ref>, pc: Pc, x: Target, pushes: int): State {
    State(main, hand, deque, false, [], [Worker([], pc)], [x], false, 0, 1, 0, 0, pushes)
  }

  // The target with its root queued, and as the worker leaves it.
  function Queued(cfg: Config, tree: Tree, dev: int): Target {
    Root(ProbeDir(dev), tree).(began := 1, fence := FenceOf(cfg, ProbeDir(dev)), launched := true, pending := 1)
  }

  function Walked(cfg: Config, e: FsError, dev: int): Target {
    Queued(cfg, Unopenable(e), dev).(sup := Waiting, flushed := multiset{Vanished, DirRead}, pending := 0, done := true, zeros := 1)
  }

  lemma RootIsPushed(cfg: Config, tree: Tree, dev: int)
    requires ValidConfig(cfg)
    ensures Reachable(cfg, At(AtTarget(1), [Ref(0, tree)], [], Ready, Queued(cfg, tree, dev).(sup := Waiting), 1))
  {
    hide Reachable;
    var ref, x := Ref(0, tree), Queued(cfg, tree, dev);
    var s0 := At(AtTarget(0), [], [], Ready, Root(ProbeDir(dev), tree), 0);
    FreshIsReachable(cfg, s0);
    StaysReachable(cfg, s0, Start);
    var s1 := At(RootReserved(0), [], [ref], Ready, x, 0);
    assert Do(cfg, s0, Start) == s1;
    StaysReachable(cfg, s1, PushRoot);
    assert Do(cfg, s1, PushRoot) == At(AtTarget(1), [ref], [], Ready, x.(sup := Waiting), 1);
  }

  lemma RootIsQueued(cfg: Config, tree: Tree, dev: int)
    requires ValidConfig(cfg)
    ensures var ref := Ref(0, tree);
      Reachable(cfg, At(AtTarget(1), [], [], Holding(ref), Queued(cfg, tree, dev).(sup := Waiting), 1))
  {
    hide Reachable, Fresh, FenceOf;
    RootIsPushed(cfg, tree, dev);
    var ref, x := Ref(0, tree), Queued(cfg, tree, dev).(sup := Waiting);
    var s2 := At(AtTarget(1), [ref], [], Ready, x, 1);
    StaysReachable(cfg, s2, Take(0));
    var s3 := At(AtTarget(1), [ref], [], Looking, x, 1);
    assert Do(cfg, s2, Take(0)) == s3;
    StaysReachable(cfg, s3, Take(0));
    assert Do(cfg, s3, Take(0)) == At(AtTarget(1), [], [], Holding(ref), x, 1);
  }

  lemma RootIsOpened(cfg: Config, e: FsError, dev: int)
    requires ValidConfig(cfg) && IsVanished(e)
    ensures var ref, x := Ref(0, Unopenable(e)), Queued(cfg, Unopenable(e), dev).(sup := Waiting);
      Reachable(cfg, At(AtTarget(1), [], [], Closing(ref, NO_HAUL.(tally := multiset{Vanished})), x, 1))
  {
    hide Reachable;
    RootIsQueued(cfg, Unopenable(e), dev);
    var ref, x := Ref(0, Unopenable(e)), Queued(cfg, Unopenable(e), dev).(sup := Waiting);
    var s0 := At(AtTarget(1), [], [], Holding(ref), x, 1);
    var s1 := At(AtTarget(1), [], [], Opening(ref), x, 1);
    StaysReachable(cfg, s0, Begin(0));
    assert Do(cfg, s0, Begin(0)) == s1;
    StaysReachable(cfg, s1, Open(0, []));
    assert Do(cfg, s1, Open(0, [])) == At(AtTarget(1), [], [], Closing(ref, NO_HAUL.(tally := multiset{Vanished})), x, 1);
  }

  lemma RootIsFlushed(cfg: Config, e: FsError, dev: int)
    requires ValidConfig(cfg) && IsVanished(e)
    ensures var x := Queued(cfg, Unopenable(e), dev).(sup := Waiting, flushed := multiset{Vanished, DirRead});
      Reachable(cfg, At(AtTarget(1), [], [], Flushed(Ref(0, Unopenable(e)), []), x, 1))
  {
    hide Reachable;
    RootIsOpened(cfg, e, dev);
    var ref, x := Ref(0, Unopenable(e)), Queued(cfg, Unopenable(e), dev).(sup := Waiting);
    var s0 := At(AtTarget(1), [], [], Closing(ref, NO_HAUL.(tally := multiset{Vanished})), x, 1);
    StaysReachable(cfg, s0, Flush(0));
    FlushedNothing(s0, x, ref, s0.workers[0].pc.got);
    assert Do(cfg, s0, Flush(0)) == DoFlush(s0, 0);
    hide Do, Can, DoFlush;
    assert x.flushed + multiset{Vanished} + multiset{DirRead} == multiset{Vanished, DirRead};
  }

  // A directory that could not be opened adds its tally, and nothing else.
  lemma FlushedNothing(s: State, x: Target, ref: Ref, got: Haul)
    requires s.workers == [Worker([], Closing(ref, got))] && s.targets == [x]
    requires ref.target == 0 && ref.tree.Unopenable? && got.kids == [] && got.bytes == NO_BYTES
    ensures DoFlush(s, 0)
         == s.(workers := [Worker([], Flushed(ref, []))], targets := [x.(flushed := x.flushed + got.tally + multiset{DirRead})])
  {
    hide PlusB, Repeat;
    NothingMore(x.bytes);
    NoneRepeated(Directory, |got.kids|);
    var pc := s.workers[0].pc;
    assert pc.got.kids == [] && pc.got.bytes == NO_BYTES;
    assert x.flushed + got.tally + Repeat(Directory, |got.kids|) + multiset{DirRead} == x.flushed + got.tally + multiset{DirRead};
  }

  lemma NoneRepeated(x: Fact, n: nat)
    requires n == 0
    ensures Repeat(x, n) == multiset{}
  {
  }

  lemma RootIsWalked(cfg: Config, e: FsError, dev: int)
    requires ValidConfig(cfg) && IsVanished(e)
    ensures Reachable(cfg, At(AtTarget(1), [], [], Checking, Walked(cfg, e, dev), 1))
  {
    hide Reachable;
    RootIsFlushed(cfg, e, dev);
    var ref, x := Ref(0, Unopenable(e)), Queued(cfg, Unopenable(e), dev).(sup := Waiting, flushed := multiset{Vanished, DirRead});
    var s0 := At(AtTarget(1), [], [], Flushed(ref, []), x, 1);
    var s1 := At(AtTarget(1), [], [], Finishing(ref), x, 1);
    StaysReachable(cfg, s0, Reserve(0));
    assert Do(cfg, s0, Reserve(0)) == s1;
    StaysReachable(cfg, s1, Finish(0));
    assert Do(cfg, s1, Finish(0)) == At(AtTarget(1), [], [], Checking, Walked(cfg, e, dev), 1);
  }

  lemma LatchIsSeen(cfg: Config, e: FsError, dev: int)
    requires ValidConfig(cfg) && IsVanished(e)
    ensures Reachable(cfg, At(AtTarget(1), [], [], Checking, Walked(cfg, e, dev).(sup := Settled), 1))
  {
    hide Reachable, FenceOf;
    RootIsWalked(cfg, e, dev);
    var s := At(AtTarget(1), [], [], Checking, Walked(cfg, e, dev).(sup := Waiting), 1);
    StaysReachable(cfg, s, LatchSeen(0));
    assert Do(cfg, s, LatchSeen(0)) == At(AtTarget(1), [], [], Checking, Walked(cfg, e, dev).(sup := Settled), 1);
  }

  lemma ContextIsLive(cfg: Config, e: FsError, dev: int)
    requires ValidConfig(cfg) && IsVanished(e)
    ensures Reachable(cfg, At(AtTarget(1), [], [], Checking, Walked(cfg, e, dev).(sup := CtxLive), 1))
  {
    hide Reachable, FenceOf;
    LatchIsSeen(cfg, e, dev);
    var s := At(AtTarget(1), [], [], Checking, Walked(cfg, e, dev).(sup := Settled), 1);
    StaysReachable(cfg, s, ReadCtx(0));
    assert Do(cfg, s, ReadCtx(0)) == At(AtTarget(1), [], [], Checking, Walked(cfg, e, dev).(sup := CtxLive), 1);
  }

  lemma ScanIsLive(cfg: Config, e: FsError, dev: int)
    requires ValidConfig(cfg) && IsVanished(e)
    ensures Reachable(cfg, At(AtTarget(1), [], [], Checking, Walked(cfg, e, dev).(sup := ScanLive), 1))
  {
    hide Reachable, FenceOf;
    ContextIsLive(cfg, e, dev);
    var s := At(AtTarget(1), [], [], Checking, Walked(cfg, e, dev).(sup := CtxLive), 1);
    StaysReachable(cfg, s, ReadScanCtx(0));
    assert Do(cfg, s, ReadScanCtx(0)) == At(AtTarget(1), [], [], Checking, Walked(cfg, e, dev).(sup := ScanLive), 1);
  }

  lemma RootIsJudged(cfg: Config, e: FsError, dev: int)
    requires ValidConfig(cfg) && IsVanished(e)
    ensures Reachable(cfg, At(AtTarget(1), [], [], Checking, Walked(cfg, e, dev).(sup := Decided(Complete)), 1))
  {
    hide Reachable, FenceOf;
    ScanIsLive(cfg, e, dev);
    var s := At(AtTarget(1), [], [], Checking, Walked(cfg, e, dev).(sup := ScanLive), 1);
    StaysReachable(cfg, s, ReadErrors(0));
    assert Do(cfg, s, ReadErrors(0)) == At(AtTarget(1), [], [], Checking, Walked(cfg, e, dev).(sup := Decided(Complete)), 1);
  }

  // Whatever the configuration, there is a run that ends in a complete report of nothing at all.
  lemma VanishedRootCompletes(cfg: Config, e: FsError, dev: int) returns (s: State)
    requires ValidConfig(cfg) && IsVanished(e)
    ensures Reachable(cfg, s) && |s.targets| == 1 && s.targets[0].tree == Unopenable(e)
    ensures s.targets[0].report == Some(Report(Complete, multiset{Vanished, DirRead}, NO_BYTES, false))
  {
    hide Reachable, FenceOf;
    RootIsJudged(cfg, e, dev);
    var s0 := At(AtTarget(1), [], [], Checking, Walked(cfg, e, dev).(sup := Decided(Complete)), 1);
    StaysReachable(cfg, s0, Deliver(0));
    s := Do(cfg, s0, Deliver(0));
  }
}
