// What a scan cycle guarantees, whatever the interleaving, the number of workers, the batch size, the
// donation thresholds and the order directories are read in.

module ScanSafety {
  import opened Options
  import opened FsErrors
  import opened FileTree
  import opened HardLinks
  import opened Outcomes
  import opened ScanProtocol
  import opened ScanLedger
  import opened ScanInvariant
  import opened ScanSteps

  // A report is the measure of the tree: every counter has the value of the recursive reference, and the
  // counted bytes are those of one posting of exactly the tree's files.
  ghost predicate Measures(r: Report, tree: Tree, fence: Fence, p: Policy) {
    && (forall x: Fact :: r.tally[x] == Measure(tree, fence, x))
    && exists order: seq<File> ::
         multiset(order) == multiset(Files(tree, fence)) && r.bytes == PostAll(order, p).bytes
         && r.exhausted == PostAll(order, p).exhausted
  }

  // Once a target's latch fired and nothing was skipped, its counters are the measure of its tree.
  lemma LatchedIsMeasured(cfg: Config, s: State, t: int)
    requires Inv(cfg, s) && AtTargetIdx(s, t) && s.targets[t].zeros == 1 && !s.targets[t].cut
    ensures var g := s.targets[t]; Measures(Report(Complete, g.flushed, g.bytes, g.exhausted), g.tree, g.fence, cfg.policy)
  {
    var g := s.targets[t];
    assert Flags(cfg, s, t);
    forall x: Fact ensures g.flushed[x] == Measure(g.tree, g.fence, x) { LatchedCounter(cfg, s, t, x); }
    LatchedFiles(cfg, s, t);
    LatchedBytes(cfg, s, t);
    hide Inv, Flags;
  }

  lemma LatchedCounter(cfg: Config, s: State, t: int, x: Fact)
    requires Inv(cfg, s) && AtTargetIdx(s, t) && s.targets[t].zeros == 1 && !s.targets[t].cut
    ensures var g := s.targets[t]; g.flushed[x] == Measure(g.tree, g.fence, x)
    ensures x.Met? ==> multiset(s.targets[t].order)[x.f] == s.targets[t].flushed[x]
  {
    assert Flags(cfg, s, t) && Ledger(cfg, s, t, x, InSize);
    hide Inv, InFlight, PostAll;
    NothingOutstanding(s, Held(t, x), t);
    NothingOutstanding(s, Owed(t, s.targets[t].fence, x), t);
  }

  lemma LatchedFiles(cfg: Config, s: State, t: int)
    requires Inv(cfg, s) && AtTargetIdx(s, t) && s.targets[t].zeros == 1 && !s.targets[t].cut
    ensures multiset(s.targets[t].order) == multiset(Files(s.targets[t].tree, s.targets[t].fence))
  {
    var g := s.targets[t];
    forall f: File ensures multiset(g.order)[f] == multiset(Files(g.tree, g.fence))[f] {
      LatchedCounter(cfg, s, t, Met(f));
      FilesMeasured(g.tree, g.fence, f);
      hide Inv;
    }
    hide Inv;
  }

  lemma LatchedCoin(cfg: Config, s: State, t: int, c: Coin)
    requires Inv(cfg, s) && AtTargetIdx(s, t) && s.targets[t].zeros == 1
    ensures CoinOf(s.targets[t].bytes, c) == CoinOf(PostAll(s.targets[t].order, cfg.policy).bytes, c)
    ensures s.targets[t].exhausted == PostAll(s.targets[t].order, cfg.policy).exhausted
  {
    assert Flags(cfg, s, t) && Ledger(cfg, s, t, Entry, c);
    hide Inv, InFlight, PostAll;
    NothingOutstanding(s, Purse(t, c), t);
  }

  lemma LatchedBytes(cfg: Config, s: State, t: int)
    requires Inv(cfg, s) && AtTargetIdx(s, t) && s.targets[t].zeros == 1
    ensures s.targets[t].bytes == PostAll(s.targets[t].order, cfg.policy).bytes
    ensures s.targets[t].exhausted == PostAll(s.targets[t].order, cfg.policy).exhausted
  {
    LatchedCoin(cfg, s, t, InSize); LatchedCoin(cfg, s, t, InAlloc); LatchedCoin(cfg, s, t, InFiles);
    LatchedCoin(cfg, s, t, InLinks); LatchedCoin(cfg, s, t, InSaved);
    hide Inv, PostAll;
  }

  // What in the file system makes a walk of this tree faultless: every read, stat and open the walk needs
  // succeeds or finds its entry gone, and there are no more linked inodes than may be tracked.
  ghost predicate Faultless(tree: Tree, fence: Fence, p: Policy) {
    (forall c: Class :: Measure(tree, fence, Fault(c)) == 0) && |Keys(Files(tree, fence), p)| <= p.maxTracked
  }

  // A result delivered as complete or partial saw the whole tree, cut off exactly at the root's device when
  // one-filesystem is on; and which of the two it is depends on the tree alone, not on the interleaving.
  lemma CompleteMeansExact(cfg: Config, s: State, t: int)
    requires Reachable(cfg, s) && AtTargetIdx(s, t) && s.targets[t].report.Some?
    requires s.targets[t].report.value.outcome.Complete? || s.targets[t].report.value.outcome.Partial?
    ensures var g := s.targets[t]; var r := g.report.value;
      && RootReady(g.probe) && g.fence == FenceOf(cfg, g.probe)
      && Measures(r, g.tree, g.fence, cfg.policy)
      && (r.outcome.Complete? <==> NoFaults(r.tally) && !r.exhausted)
      && (r.outcome.Complete? <==> Faultless(g.tree, g.fence, cfg.policy))
  {
    hide Reachable, Faultless, PostAll, Measure, Files;
    ReachableInv(cfg, s);
    assert Flags(cfg, s, t);
    LatchedIsMeasured(cfg, s, t);
    FaultlessShows(s.targets[t].report.value, s.targets[t].tree, s.targets[t].fence, cfg.policy);
  }

  // Without faults in the tree there are none in a report that measures it, and the other way round.
  lemma FaultlessShows(r: Report, tree: Tree, fence: Fence, p: Policy)
    requires Measures(r, tree, fence, p) && p.maxTracked > 0
    ensures NoFaults(r.tally) && !r.exhausted <==> Faultless(tree, fence, p)
  {
    hide Measure, PostAll, Files, Keys;
    var order: seq<File> :|
      multiset(order) == multiset(Files(tree, fence)) && r.bytes == PostAll(order, p).bytes
      && r.exhausted == PostAll(order, p).exhausted;
    OverflowIff(order, p);
    KeysOrderFree(order, Files(tree, fence), p);
    forall c: Class ensures r.tally[Fault(c)] == Measure(tree, fence, Fault(c)) {}
  }

  // With dedup consistent, the bytes of a complete report are one amount per singly-linked file and one per
  // inode, in whatever order the workers met the links.
  lemma CompleteSizeIsExact(cfg: Config, s: State, t: int, figure: Figure)
    requires Reachable(cfg, s) && AtTargetIdx(s, t) && s.targets[t].report.Some?
    requires s.targets[t].report.value.outcome.Complete?
    requires Consistent(Files(s.targets[t].tree, s.targets[t].fence), cfg.policy)
    ensures var g := s.targets[t];
      Counted(g.report.value.bytes, figure) == Exact(Files(g.tree, g.fence), cfg.policy, figure)
  {
    var g := s.targets[t];
    CompleteMeansExact(cfg, s, t);
    hide Reachable;
    var order: seq<File> :| multiset(order) == multiset(Files(g.tree, g.fence))
      && g.report.value.bytes == PostAll(order, cfg.policy).bytes
      && g.report.value.exhausted == PostAll(order, cfg.policy).exhausted;
    DedupIsOrderFree(order, Files(g.tree, g.fence), cfg.policy, figure);
  }

  // Where inode tracking overflowed, the bytes lie between that exact amount and the raw sum of all links.
  lemma PartialSizeIsBracketed(cfg: Config, s: State, t: int, figure: Figure)
    requires Reachable(cfg, s) && AtTargetIdx(s, t) && s.targets[t].report.Some?
    requires s.targets[t].report.value.outcome.Partial?
    requires var fs := Files(s.targets[t].tree, s.targets[t].fence); Consistent(fs, cfg.policy) && NonNegative(fs)
    ensures var g := s.targets[t]; var fs := Files(g.tree, g.fence);
      Exact(fs, cfg.policy, figure) <= Counted(g.report.value.bytes, figure) <= Raw(fs, figure)
  {
    var g := s.targets[t];
    CompleteMeansExact(cfg, s, t);
    hide Reachable;
    var order: seq<File> :| multiset(order) == multiset(Files(g.tree, g.fence))
      && g.report.value.bytes == PostAll(order, cfg.policy).bytes
      && g.report.value.exhausted == PostAll(order, cfg.policy).exhausted;
    DedupIsOrderFree(order, Files(g.tree, g.fence), cfg.policy, figure);
  }

  // A finished walk read one directory more than it counted below the root.
  lemma DirsReadIsDirectoriesPlusOne(cfg: Config, s: State, t: int)
    requires Reachable(cfg, s) && AtTargetIdx(s, t) && s.targets[t].report.Some?
    requires s.targets[t].report.value.outcome.Complete? || s.targets[t].report.value.outcome.Partial?
    ensures s.targets[t].report.value.tally[DirRead] == s.targets[t].report.value.tally[Directory] + 1
  {
    CompleteMeansExact(cfg, s, t);
    DirReadsAreDirsPlusOne(s.targets[t].tree, s.targets[t].fence);
  }

  // A root that passed Lstat and could not be opened: the result is complete, with nothing in it, exactly when
  // the error says the root is gone (walk.go:38). A complete report shows this by having met no entry and one
  // vanished one.
  lemma VanishedRootShows(cfg: Config, s: State, t: int)
    requires Reachable(cfg, s) && AtTargetIdx(s, t) && s.targets[t].report.Some?
    requires s.targets[t].report.value.outcome.Complete? || s.targets[t].report.value.outcome.Partial?
    ensures var r, tree := s.targets[t].report.value, s.targets[t].tree;
      && (tree.Unopenable? ==> (r.outcome.Complete? <==> IsVanished(tree.why)) && r.bytes == NO_BYTES)
      && (r.outcome.Complete? ==> (tree.Unopenable? <==> r.tally[Entry] == 0 && r.tally[Vanished] == 1))
  {
    hide Reachable, Faultless, Measures, NoFaults, IsVanished;
    CompleteMeansExact(cfg, s, t);
    var g := s.targets[t];
    if g.tree.Unopenable? {
      UnopenedShows(g.report.value, g.tree, g.fence, cfg.policy);
    } else {
      OpenedShows(g.report.value, g.tree, g.fence, cfg.policy);
    }
  }

  lemma OpenedShows(r: Report, tree: Tree, fence: Fence, p: Policy)
    requires Measures(r, tree, fence, p) && tree.Listing?
    ensures r.tally[Entry] > 0 || r.tally[Vanished] == 0
  {
    hide PostAll, Files, Measure;
    EnteredOrEmpty(tree, fence);
    assert r.tally[Entry] == Measure(tree, fence, Entry);
    assert r.tally[Vanished] == Measure(tree, fence, Vanished);
  }

  lemma UnopenedShows(r: Report, tree: Tree, fence: Fence, p: Policy)
    requires Measures(r, tree, fence, p) && tree.Unopenable?
    ensures r.bytes == NO_BYTES && !r.exhausted && (NoFaults(r.tally) <==> IsVanished(tree.why))
    ensures r.tally[Entry] == 0 && (NoFaults(r.tally) ==> r.tally[Vanished] == 1)
  {
    var order: seq<File> :|
      multiset(order) == multiset(Files(tree, fence)) && r.bytes == PostAll(order, p).bytes
      && r.exhausted == PostAll(order, p).exhausted;
    assert |multiset(order)| == 0;
    var c := Classify(tree.why);
    assert r.tally[Fault(c)] == Measure(tree, fence, Fault(c));
    assert r.tally[Vanished] == Measure(tree, fence, Vanished) && r.tally[Entry] == Measure(tree, fence, Entry);
    forall d: Class ensures r.tally[Fault(d)] == Measure(tree, fence, Fault(d)) {}
  }

  // The latch counts exactly the directories queued, held, reserved or dropped; it reaches zero at most
  // once, and done is closed only by that or by giving the target up.
  lemma LatchCountsOutstanding(cfg: Config, s: State, t: int)
    requires Reachable(cfg, s) && AtTargetIdx(s, t)
    ensures var g := s.targets[t];
      && g.pending == InFlight(s, Outstanding(t)) && g.pending >= 0
      && g.zeros <= 1 && (g.zeros == 1 ==> g.pending == 0 && g.done)
      && (g.done ==> g.zeros == 1 || g.abandoned)
      && (g.launched && g.pending == 0 ==> g.done)
  {
    ReachableInv(cfg, s);
    assert Flags(cfg, s, t) && Ledger(cfg, s, t, Entry, InSize);
    SumNonNegative(s.workers, Outstanding(t));
    QueuedNonNegative(s, Outstanding(t));
  }

  // Bytes counted plus bytes saved by dedup are all bytes met, at every moment; and tracking stays capped.
  lemma AccountsBalance(cfg: Config, s: State, t: int)
    requires Reachable(cfg, s) && AtTargetIdx(s, t)
    ensures var g := s.targets[t];
      && g.bytes.size + InFlight(s, Purse(t, InSize)) + g.bytes.saved + InFlight(s, Purse(t, InSaved)) == Raw(g.order, Size)
      && (forall f: File :: multiset(g.order)[f] == g.flushed[Met(f)] + InFlight(s, Held(t, Met(f))))
      && |g.inodes| <= cfg.policy.maxTracked
  {
    ReachableInv(cfg, s);
    var g := s.targets[t];
    assert Ledger(cfg, s, t, Entry, InSize) && Ledger(cfg, s, t, Entry, InSaved);
    forall f: File ensures multiset(g.order)[f] == g.flushed[Met(f)] + InFlight(s, Held(t, Met(f))) {
      assert Ledger(cfg, s, t, Met(f), InSize);
    }
    CountedPlusSaved(g.order, cfg.policy);
    TrackingIsCapped(g.order, cfg.policy);
  }

  // When ScanAll has returned, every target got one start mark and one result.
  lemma OneResultEach(cfg: Config, s: State, t: int)
    requires Reachable(cfg, s) && AtTargetIdx(s, t) && s.main.Returned?
    ensures s.targets[t].began == 1 && s.targets[t].landed == 1 && s.targets[t].report.Some?
  {
    ReachableInv(cfg, s);
    assert Flags(cfg, s, t);
  }

  // Never more handles than workers that could hold them, never more queued than the limit plus the roots;
  // live workers are this cycle's unfinished ones plus those leaked earlier.
  lemma ResourcesAreBounded(cfg: Config, s: State)
    requires Reachable(cfg, s)
    ensures s.live == s.leaked + Sum(s.workers, Live)
    ensures 0 <= s.open <= Sum(s.workers, Live) <= |s.workers|
    ensures |s.deque| <= cfg.limit + s.rootPushes
  {
    ReachableInv(cfg, s);
    HandlesNeedWorkers(s.workers);
    SumNonNegative(s.workers, Handles);
  }

  lemma {:induction false} HandlesNeedWorkers(ws: seq<Worker>)
    ensures Sum(ws, Handles) <= Sum(ws, Live) <= |ws|
  {
    if ws == [] {
    } else {
      NoGaugeInRefs(ws[0].local, Live);
      NoGaugeInRefs(ws[0].local, Handles);
      OneHandle(ws[0].pc);
      HandlesNeedWorkers(ws[1..]);
    }
  }

  lemma {:induction false} OneHandle(pc: Pc)
    ensures PcHandles(pc) <= 1 && (pc.Exited? ==> PcHandles(pc) == 0)
  {
    if !pc.Hung? {
    } else {
      OneHandle(pc.inside);
    }
  }

  // After a clean drain the published gauge counts earlier cycles' leaks only.
  lemma CleanDrainShowsOldLeaks(cfg: Config, s: State)
    requires Reachable(cfg, s) && Can(cfg, s, Drained) && forall i | AtWorker(s, i) :: s.workers[i].pc.Exited?
    ensures Do(cfg, s, Drained).gauge == s.leaked
  {
    ReachableInv(cfg, s);
    AllGone(s.workers);
  }

  lemma {:induction false} AllGone(ws: seq<Worker>)
    requires forall i | 0 <= i < |ws| :: ws[i].pc.Exited?
    ensures Sum(ws, Live) == 0
  {
    if ws == [] {
    } else {
      NoGaugeInRefs(ws[0].local, Live);
      AllGone(ws[1..]);
    }
  }

  // Nothing a cycle does changes what the file system answers for its targets.
  predicate SameAnswers(s: State, s': State, t: int)
    requires AtTargetIdx(s, t) && AtTargetIdx(s', t)
  {
    s'.targets[t].tree == s.targets[t].tree && s'.targets[t].probe == s.targets[t].probe
  }

  // Nor does a worker touch what its supervisor has decided.
  predicate SameVerdict(s: State, s': State, t: int)
    requires AtTargetIdx(s, t) && AtTargetIdx(s', t)
  {
    var x, y := s.targets[t], s'.targets[t];
    && y.sup == x.sup && y.report == x.report && y.launched == x.launched && y.abandoned == x.abandoned
    && y.scanDone == x.scanDone && y.began == x.began && y.landed == x.landed && s'.ctxDone == s.ctxDone
  }

  lemma AnswersFixed(cfg: Config, s: State, a: Action, t: int)
    requires Can(cfg, s, a) && AtTargetIdx(s, t)
    ensures AtTargetIdx(Do(cfg, s, a), t) && SameAnswers(s, Do(cfg, s, a), t)
  {
    hide Do, Can;
    if ByWorker(a) { WorkerLeavesTarget(cfg, s, a, t); } else { OthersKeepAnswers(cfg, s, a, t); }
  }

  lemma OthersKeepAnswers(cfg: Config, s: State, a: Action, t: int)
    requires Can(cfg, s, a) && AtTargetIdx(s, t) && !ByWorker(a)
    ensures AtTargetIdx(Do(cfg, s, a), t) && SameAnswers(s, Do(cfg, s, a), t)
  {
    hide Do, Can, SameAnswers;
    if a.Start? {
      StartKnowsAnswers(cfg, s, t);
    } else if BySupervisor(a) {
      SupervisorKeepsAnswers(cfg, s, a, t);
    } else {
      RestKeepsAnswers(cfg, s, a, t);
    }
  }

  lemma StartKnowsAnswers(cfg: Config, s: State, t: int)
    requires Can(cfg, s, Start) && AtTargetIdx(s, t)
    ensures AtTargetIdx(Do(cfg, s, Start), t) && SameAnswers(s, Do(cfg, s, Start), t)
  {
    hide DoTake, DoBegin, DoOpen, DoRead, DoPay, DoSift, DoBatchEnd, DoFlush, DoReserve, DoPush, DoFinish, DoCheck,
         DoPushRoot, DoReport, Launch, FenceOf, RootReady, Reads, Opens, AllReported, Wake;
    LaunchKeeps(cfg, s.targets[s.main.k]);
  }

  lemma LaunchKeeps(cfg: Config, x: Target)
    ensures var y := Launch(cfg, x); y.tree == x.tree && y.probe == x.probe
    ensures var y := Launch(cfg, x); y.report == x.report || (y.report.Some? && y.report.value.outcome != Cancelled)
    ensures var y := Launch(cfg, x); y.sup == x.sup || y.sup.Reported?
  {
    hide RootFaults, RootOutcome, FenceOf;
    NeverCancelled(x.probe);
  }

  lemma SupervisorKeepsAnswers(cfg: Config, s: State, a: Action, t: int)
    requires Can(cfg, s, a) && AtTargetIdx(s, t) && BySupervisor(a)
    ensures AtTargetIdx(Do(cfg, s, a), t) && SameAnswers(s, Do(cfg, s, a), t)
  {
    hide DoTake, DoBegin, DoOpen, DoRead, DoPay, DoSift, DoBatchEnd, DoFlush, DoReserve, DoPush, DoFinish, DoCheck,
         DoStart, DoPushRoot, NoFaults, ScanErr, Reads, Opens, AllReported, Wake;
  }

  lemma RestKeepsAnswers(cfg: Config, s: State, a: Action, t: int)
    requires Can(cfg, s, a) && AtTargetIdx(s, t) && !ByWorker(a) && !BySupervisor(a) && !a.Start?
    ensures AtTargetIdx(Do(cfg, s, a), t) && SameAnswers(s, Do(cfg, s, a), t)
  {
    hide DoTake, DoBegin, DoOpen, DoRead, DoPay, DoSift, DoBatchEnd, DoFlush, DoReserve, DoPush, DoFinish, DoCheck,
         DoStart, DoReport, Wake, Reads, Opens, AllReported;
  }

  lemma WorkerLeavesTarget(cfg: Config, s: State, a: Action, t: int)
    requires Can(cfg, s, a) && AtTargetIdx(s, t) && ByWorker(a)
    ensures var s' := Do(cfg, s, a); AtTargetIdx(s', t) && SameAnswers(s, s', t) && SameVerdict(s, s', t)
  {
    hide Do, Can;
    if a.Begin? {
      BeginKeepsAnswers(cfg, s, a, t);
    } else if a.Read? || a.Pay? {
      BatchKeepsAnswers(cfg, s, a, t);
    } else if a.Sift? {
      SiftKeepsAnswers(cfg, s, a, t);
    } else if a.Flush? {
      FlushKeepsAnswers(cfg, s, a, t);
    } else if a.Reserve? || a.Finish? {
      FinishKeepsAnswers(cfg, s, a, t);
    } else {
      WorkerKeepsAnswers(cfg, s, a, t);
    }
  }

  lemma BeginKeepsAnswers(cfg: Config, s: State, a: Action, t: int)
    requires Can(cfg, s, a) && AtTargetIdx(s, t) && a.Begin?
    ensures var s' := Do(cfg, s, a); AtTargetIdx(s', t) && SameAnswers(s, s', t) && SameVerdict(s, s', t)
  {
    hide DoTake, DoOpen, DoRead, DoPay, DoSift, DoBatchEnd, DoFlush, DoReserve, DoPush, DoFinish, DoCheck, DoStart,
         DoPushRoot, DoReport, Stopping, DoComplete, Reads, Opens, AllReported;
    CompletingKeepsAnswers(s.targets[s.workers[a.i].pc.ref.target]);
  }

  lemma CompletingKeepsAnswers(x: Target)
    ensures var y := DoComplete(x); y.tree == x.tree && y.probe == x.probe && y.sup == x.sup && y.report == x.report
    ensures var y := DoComplete(x); y.launched == x.launched && y.abandoned == x.abandoned && y.scanDone == x.scanDone
    ensures DoComplete(x).began == x.began && DoComplete(x).landed == x.landed
  {
  }

  lemma BatchKeepsAnswers(cfg: Config, s: State, a: Action, t: int)
    requires Can(cfg, s, a) && AtTargetIdx(s, t) && (a.Read? || a.Pay?)
    ensures var s' := Do(cfg, s, a); AtTargetIdx(s', t) && SameAnswers(s, s', t) && SameVerdict(s, s', t)
  {
    hide DoTake, DoBegin, DoOpen, DoSift, DoBatchEnd, DoFlush, DoReserve, DoPush, DoFinish, DoCheck, DoStart, DoPushRoot,
         DoReport, Stopping, Reads, TailTally, Opens, AllReported;
  }

  lemma SiftKeepsAnswers(cfg: Config, s: State, a: Action, t: int)
    requires Can(cfg, s, a) && AtTargetIdx(s, t) && a.Sift?
    ensures var s' := Do(cfg, s, a); AtTargetIdx(s', t) && SameAnswers(s, s', t) && SameVerdict(s, s', t)
  {
    hide DoTake, DoBegin, DoOpen, DoRead, DoPay, DoBatchEnd, DoFlush, DoReserve, DoPush, DoFinish, DoCheck, DoStart,
         DoPushRoot, DoReport, Gather, Judge, Remember, Stopping, Reads, Opens, AllReported;
  }

  lemma FlushKeepsAnswers(cfg: Config, s: State, a: Action, t: int)
    requires Can(cfg, s, a) && AtTargetIdx(s, t) && a.Flush?
    ensures var s' := Do(cfg, s, a); AtTargetIdx(s', t) && SameAnswers(s, s', t) && SameVerdict(s, s', t)
  {
    hide DoTake, DoBegin, DoOpen, DoRead, DoPay, DoSift, DoBatchEnd, DoReserve, DoPush, DoFinish, DoCheck, DoStart,
         DoPushRoot, DoReport, PlusB, Repeat, DoComplete, Reads, Opens, AllReported;
  }

  lemma FinishKeepsAnswers(cfg: Config, s: State, a: Action, t: int)
    requires Can(cfg, s, a) && AtTargetIdx(s, t) && (a.Reserve? || a.Finish?)
    ensures var s' := Do(cfg, s, a); AtTargetIdx(s', t) && SameAnswers(s, s', t) && SameVerdict(s, s', t)
  {
    hide DoTake, DoBegin, DoOpen, DoRead, DoPay, DoSift, DoBatchEnd, DoFlush, DoPush, DoCheck, DoStart, DoPushRoot,
         DoReport, DoComplete, Reads, Opens, AllReported;
    CompletingKeepsAnswers(s.targets[s.workers[a.i].pc.ref.target]);
  }

  lemma WorkerKeepsAnswers(cfg: Config, s: State, a: Action, t: int)
    requires Can(cfg, s, a) && AtTargetIdx(s, t) && (a.Take? || a.Open? || a.BatchEnd? || a.Push? || a.Check? || a.Hang?)
    ensures var s' := Do(cfg, s, a); AtTargetIdx(s', t) && SameAnswers(s, s', t) && SameVerdict(s, s', t)
  {
    hide DoBegin, DoRead, DoPay, DoSift, DoFlush, DoReserve, DoFinish, DoStart, DoPushRoot, DoReport, Donated, Refs,
         Opens, OpenFailTally, Wake, Reads, AllReported;
  }

  // A cancelled result is only given once the process context is done.
  predicate CancelKnown(s: State, t: int)
    requires AtTargetIdx(s, t)
  {
    var x := s.targets[t];
    (x.sup == Decided(Cancelled) || (x.report.Some? && x.report.value.outcome == Cancelled)) ==> s.ctxDone
  }

  lemma StepKeepsCancelKnown(cfg: Config, s: State, a: Action, t: int)
    requires Can(cfg, s, a) && AtTargetIdx(s, t) && CancelKnown(s, t)
    ensures AtTargetIdx(Do(cfg, s, a), t) && CancelKnown(Do(cfg, s, a), t)
  {
    hide Do, Can;
    if ByWorker(a) {
      WorkerLeavesTarget(cfg, s, a, t);
    } else if BySupervisor(a) {
      SupervisorKnowsCancel(cfg, s, a, t);
    } else if a.Start? {
      StartKnowsCancel(cfg, s, t);
    } else {
      OthersKnowCancel(cfg, s, a, t);
    }
  }

  lemma OthersKnowCancel(cfg: Config, s: State, a: Action, t: int)
    requires Can(cfg, s, a) && AtTargetIdx(s, t) && CancelKnown(s, t) && !ByWorker(a) && !BySupervisor(a) && !a.Start?
    ensures AtTargetIdx(Do(cfg, s, a), t) && CancelKnown(Do(cfg, s, a), t)
  {
    hide DoTake, DoBegin, DoOpen, DoRead, DoPay, DoSift, DoBatchEnd, DoFlush, DoReserve, DoPush, DoFinish, DoCheck,
         DoStart, DoReport, Wake, AllReported, Reads, Opens;
  }

  lemma StartKnowsCancel(cfg: Config, s: State, t: int)
    requires Can(cfg, s, Start) && AtTargetIdx(s, t) && CancelKnown(s, t)
    ensures AtTargetIdx(Do(cfg, s, Start), t) && CancelKnown(Do(cfg, s, Start), t)
  {
    hide DoTake, DoBegin, DoOpen, DoRead, DoPay, DoSift, DoBatchEnd, DoFlush, DoReserve, DoPush, DoFinish, DoCheck,
         DoPushRoot, DoReport, Launch, FenceOf, RootReady, Reads, Opens, AllReported, Wake;
    LaunchKeeps(cfg, s.targets[s.main.k]);
  }

  lemma NeverCancelled(p: Probe)
    ensures RootOutcome(p) != Cancelled
  {
    hide IsVanished;
  }

  lemma SupervisorKnowsCancel(cfg: Config, s: State, a: Action, t: int)
    requires Can(cfg, s, a) && AtTargetIdx(s, t) && CancelKnown(s, t) && BySupervisor(a)
    ensures AtTargetIdx(Do(cfg, s, a), t) && CancelKnown(Do(cfg, s, a), t)
  {
    hide Do, Can;
    if a.Deliver? { DeliveryKnowsCancel(cfg, s, a, t); } else { VerdictKnowsCancel(cfg, s, a, t); }
  }

  lemma DeliveryKnowsCancel(cfg: Config, s: State, a: Action, t: int)
    requires Can(cfg, s, a) && AtTargetIdx(s, t) && CancelKnown(s, t) && a.Deliver?
    ensures AtTargetIdx(Do(cfg, s, a), t) && CancelKnown(Do(cfg, s, a), t)
  {
    hide DoTake, DoBegin, DoOpen, DoRead, DoPay, DoSift, DoBatchEnd, DoFlush, DoReserve, DoPush, DoFinish, DoCheck,
         DoStart, DoPushRoot, NoFaults, ScanErr, Reads, Opens, AllReported, Wake;
  }

  lemma VerdictKnowsCancel(cfg: Config, s: State, a: Action, t: int)
    requires Can(cfg, s, a) && AtTargetIdx(s, t) && CancelKnown(s, t) && BySupervisor(a) && !a.Deliver?
    ensures AtTargetIdx(Do(cfg, s, a), t) && CancelKnown(Do(cfg, s, a), t)
  {
    hide DoTake, DoBegin, DoOpen, DoRead, DoPay, DoSift, DoBatchEnd, DoFlush, DoReserve, DoPush, DoFinish, DoCheck,
         DoStart, DoPushRoot, DoReport, NoFaults, ScanErr, Reads, Opens, AllReported, Wake;
  }

  lemma {:induction false} RunKeepsCancelKnown(cfg: Config, s: State, acts: seq<Action>, s': State, t: int)
    requires Reaches(cfg, s, acts, s') && AtTargetIdx(s, t) && CancelKnown(s, t)
    ensures AtTargetIdx(s', t) && CancelKnown(s', t)
    decreases |acts|
  {
    hide CancelKnown, Do, Can;
    if acts == [] {
    } else {
      StepKeepsCancelKnown(cfg, s, acts[0], t);
      RunKeepsCancelKnown(cfg, Do(cfg, s, acts[0]), acts[1..], s', t);
    }
  }

  // The process context is done from the moment it is cancelled, and not before.
  lemma ContextFollows(cfg: Config, s: State, a: Action)
    requires Can(cfg, s, a)
    ensures Do(cfg, s, a).ctxDone == (s.ctxDone || a.CancelProcess?)
  {
    hide Do, Can;
    if ByWorker(a) { WorkerLeavesContext(cfg, s, a); } else { OthersLeaveContext(cfg, s, a); }
  }

  lemma WorkerLeavesContext(cfg: Config, s: State, a: Action)
    requires Can(cfg, s, a) && ByWorker(a)
    ensures Do(cfg, s, a).ctxDone == s.ctxDone
  {
    hide Stopping, DoComplete, Gather, Note, Donated, Refs, Wake, TailTally, OpenFailTally, PlusB, Repeat, DoStart,
         DoPushRoot, DoReport, NoFaults, ScanErr, AllReported, Opens, Reads;
  }

  lemma OthersLeaveContext(cfg: Config, s: State, a: Action)
    requires Can(cfg, s, a) && !ByWorker(a)
    ensures Do(cfg, s, a).ctxDone == (s.ctxDone || a.CancelProcess?)
  {
    hide DoTake, DoBegin, DoOpen, DoRead, DoPay, DoSift, DoBatchEnd, DoFlush, DoReserve, DoPush, DoFinish, DoCheck,
         DoReport, RootFaults, RootOutcome, Wake, NoFaults, ScanErr, FenceOf, RootReady, AllReported, Reads, Opens;
  }

  lemma NoCancelledWhileLive(cfg: Config, s: State, t: int)
    requires Reachable(cfg, s) && AtTargetIdx(s, t) && s.targets[t].report.Some? && !s.ctxDone
    ensures s.targets[t].report.value.outcome != Cancelled
  {
    var init: State, acts: seq<Action> :| Fresh(init) && Reaches(cfg, init, acts, s);
    SameNumber(cfg, init, acts, s);
    assert CancelKnown(init, t);
    RunKeepsCancelKnown(cfg, init, acts, s, t);
    hide Fresh, Reaches;
  }

  lemma {:induction false} SameNumber(cfg: Config, s: State, acts: seq<Action>, s': State)
    requires Reaches(cfg, s, acts, s')
    ensures |s'.targets| == |s.targets|
    decreases |acts|
  {
    hide Do, Can;
    if acts == [] {
    } else {
      SameTargets(cfg, s, acts[0]);
      SameNumber(cfg, Do(cfg, s, acts[0]), acts[1..], s');
    }
  }

  lemma {:induction false} OneMoreStep(cfg: Config, s: State, acts: seq<Action>, s': State, a: Action)
    requires Reaches(cfg, s, acts, s') && Can(cfg, s', a)
    ensures Reaches(cfg, s, acts + [a], Do(cfg, s', a))
    decreases |acts|
  {
    hide Do, Can;
    if acts == [] {
      assert [a][1..] == [];
    } else {
      OneMoreStep(cfg, Do(cfg, s, acts[0]), acts[1..], s', a);
      assert (acts + [a])[1..] == acts[1..] + [a];
    }
  }

  lemma StaysReachable(cfg: Config, s: State, a: Action)
    requires Reachable(cfg, s) && Can(cfg, s, a)
    ensures Reachable(cfg, Do(cfg, s, a))
  {
    hide Do, Can, Fresh, Reaches;
    var init: State, acts: seq<Action> :| Fresh(init) && Reaches(cfg, init, acts, s);
    OneMoreStep(cfg, init, acts, s, a);
  }

  lemma FreshIsReachable(cfg: Config, init: State)
    requires ValidConfig(cfg) && Fresh(init)
    ensures Reachable(cfg, init)
  {
    assert Reaches(cfg, init, [], init);
    hide Fresh, Reaches;
  }
}
