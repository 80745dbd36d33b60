// A scan cycle ends: every action uses up work, so no interleaving runs forever, and a cycle that has not
// returned can always go on. Calls that never return (Hang) are included.

module ScanProgress {
  import opened Options
  import opened FsErrors
  import opened FileTree
  import opened HardLinks
  import opened Outcomes
  import opened ScanProtocol
  import opened ScanLedger
  import opened ScanInvariant
  import opened ScanSteps

  function SupervisorWork(sup: Supervisor): int {
    match sup
    case Unborn => 8
    case Waiting => 7
    case Draining => 6
    case Settled => 5
    case CtxLive => 4
    case ScanLive => 3
    case Decided(_) => 2
    case Reported => 0
  }

  function TargetWork(g: Target): int {
    SupervisorWork(g.sup) + One(!g.scanDone) + if g.launched || g.sup.Reported? then 0 else Effort(g.tree)
  }

  function TargetsWork(gs: seq<Target>): int {
    if gs == [] then 0 else TargetWork(gs[0]) + TargetsWork(gs[1..])
  }

  function MainWork(s: State): int {
    match s.main
    case AtTarget(k) => 2 * (|s.targets| - k) + 3
    case RootReserved(k) => 2 * (|s.targets| - k) + 2
    case DrainingPool => 1
    case Returned => 0
  }

  // Steps left to take, not counting wake-ups that find nothing.
  function WorkLeft(s: State): int {
    MainWork(s) + TargetsWork(s.targets) + InFlight(s, Work) + One(!s.ctxDone) + s.leaked
  }

  function WakeUps(s: State): int { Sum(s.workers, Awake) }

  // Each action lowers the work, or keeps it and consumes a wake-up.
  predicate Drops(s: State, s': State) {
    WorkLeft(s') < WorkLeft(s) || (WorkLeft(s') == WorkLeft(s) && WakeUps(s') < WakeUps(s))
  }

  // --- pieces ------------------------------------------------------------------------------------

  lemma {:induction false} TargetsUpdate(gs: seq<Target>, t: int, h: Target)
    requires 0 <= t < |gs|
    ensures TargetsWork(gs[t := h]) == TargetsWork(gs) - TargetWork(gs[t]) + TargetWork(h)
  {
    if t == 0 {
      assert gs[t := h][1..] == gs[1..];
    } else {
      assert gs[t := h][1..] == gs[1..][t - 1 := h];
      TargetsUpdate(gs[1..], t - 1, h);
    }
  }

  lemma {:induction false} TargetsSame(gs: seq<Target>, hs: seq<Target>)
    requires |gs| == |hs| && forall t | 0 <= t < |gs| :: TargetWork(hs[t]) == TargetWork(gs[t])
    ensures TargetsWork(hs) == TargetsWork(gs)
  {
    if gs == [] {
    } else {
      assert TargetWork(hs[0]) == TargetWork(gs[0]);
      TargetsSame(gs[1..], hs[1..]);
    }
  }

  lemma EffortPositive(t: Tree)
    ensures Effort(t) >= 20
    ensures t.Listing? ==> Effort(t) == 20 + EffortIn(t.items)
  {
    if t.Listing? {
      assert TailTally(t.tail)[DirRead] == 0 && TailTally(t.tail)[Entry] == 0;
    }
  }

  // Sifting an entry costs more than the directory it may add to the haul.
  lemma EffortOfItem(it: Item, fence: Fence, kids: seq<Tree>)
    ensures Descends(it, fence) ==>
      EffortOf(kids + [it.stat.sub]) - EffortOf(kids) + 5 == 20 * MeasureItem(it, None, DirRead) + 5 * MeasureItem(it, None, Entry)
    ensures MeasureItem(it, None, Entry) >= 1
  {
    if Descends(it, fence) {
      DirsAppend(kids, it.stat.sub, None, DirRead);
      DirsAppend(kids, it.stat.sub, None, Entry);
    }
  }

  lemma EffortSplit(items: seq<Item>, n: nat)
    requires n <= |items|
    ensures EffortIn(items) == EffortIn(items[..n]) + EffortIn(items[n..])
  {
    assert items == items[..n] + items[n..];
    ItemsAppend(items[..n], items[n..], None, DirRead);
    ItemsAppend(items[..n], items[n..], None, Entry);
  }

  // --- the worker's program counter ---------------------------------------------------------------

  // A step of a worker other than Take and Push moves its program counter to one with less work.
  lemma ReaderSpends(cfg: Config, s: State, a: Action)
    requires a.Begin? || a.Open? || a.Read? || a.Pay?
    requires Can(cfg, s, a) && WorkerOk(s, s.workers[a.i])
    ensures |Do(cfg, s, a).workers| == |s.workers|
    ensures PcWork(Do(cfg, s, a).workers[a.i].pc) < PcWork(s.workers[a.i].pc)
  {
    hide DoTake, DoBegin, DoOpen, DoRead, DoPay, DoSift, DoBatchEnd, DoFlush, DoReserve, DoPush, DoFinish, DoCheck,
         DoStart, DoPushRoot, DoReport, Can, PcWork, WorkerOk;
    if a.Begin? {
      BeginSpends(cfg, s, a.i);
    } else if a.Open? {
      OpenSpends(cfg, s, a.i, a.order);
    } else {
      BatchSpends(cfg, s, a);
    }
  }

  lemma BeginSpends(cfg: Config, s: State, i: int)
    requires Can(cfg, s, Begin(i))
    ensures |DoBegin(cfg, s, i).workers| == |s.workers|
    ensures PcWork(DoBegin(cfg, s, i).workers[i].pc) < PcWork(s.workers[i].pc)
  {
    hide DoComplete, Effort, EffortIn, Stopping, Reads, Opens, AllReported;
    EffortPositive(s.workers[i].pc.ref.tree);
  }

  lemma OpenSpends(cfg: Config, s: State, i: int, order: seq<Item>)
    requires Can(cfg, s, Open(i, order))
    ensures |DoOpen(s, i, order).workers| == |s.workers|
    ensures PcWork(DoOpen(s, i, order).workers[i].pc) < PcWork(s.workers[i].pc)
  {
    hide Effort, EffortIn, OpenFailTally, Stopping, Reads, Opens, AllReported;
    var tree := s.workers[i].pc.ref.tree;
    EffortPositive(tree);
    if tree.Listing? { AnyOrderEffort(tree, order); }
  }

  lemma AnyOrderEffort(tree: Tree, order: seq<Item>)
    requires tree.Listing? && Opens(tree, order)
    ensures EffortIn(order) == EffortIn(tree.items)
  {
    hide EffortIn, MeasureItems;
    OrderFree(order, tree.items, None, DirRead);
    OrderFree(order, tree.items, None, Entry);
    SameEffort(order, tree.items);
  }

  lemma BatchSpends(cfg: Config, s: State, a: Action)
    requires (a.Read? || a.Pay?) && Can(cfg, s, a) && WorkerOk(s, s.workers[a.i])
    ensures |Do(cfg, s, a).workers| == |s.workers|
    ensures PcWork(Do(cfg, s, a).workers[a.i].pc) < PcWork(s.workers[a.i].pc)
  {
    hide DoTake, DoBegin, DoOpen, DoSift, DoBatchEnd, DoFlush, DoReserve, DoPush, DoFinish, DoCheck, DoStart,
         DoPushRoot, DoReport, Effort, EffortIn, TailTally, Stopping, AllReported, Opens;
    var pc := s.workers[a.i].pc;
    EffortAtLeast(pc.rest);
    if a.Read? {
      if 0 <= a.n <= |pc.rest| { EffortSplit(pc.rest, a.n); }
    } else {
      EffortAtLeast(pc.todo);
    }
  }

  lemma SameEffort(a: seq<Item>, b: seq<Item>)
    requires MeasureItems(a, None, DirRead) == MeasureItems(b, None, DirRead)
    requires MeasureItems(a, None, Entry) == MeasureItems(b, None, Entry)
    ensures EffortIn(a) == EffortIn(b)
  {
  }

  lemma {:induction false} EffortAtLeast(items: seq<Item>)
    ensures EffortIn(items) >= 5 * |items|
  {
    if items == [] {
    } else {
      EffortOfItem(items[0], None, []);
      EffortAtLeast(items[1..]);
    }
  }

  lemma SiftSpends(cfg: Config, s: State, i: int)
    requires AtWorker(s, i) && s.workers[i].pc.Sifting? && HasTarget(s, s.workers[i].pc) && s.workers[i].pc.todo != []
    ensures PcWork(DoSift(cfg, s, i).workers[i].pc) < PcWork(s.workers[i].pc)
  {
    hide Note, Judge, Charge, EffortOf;
    var pc := s.workers[i].pc;
    EffortOfItem(pc.todo[0], s.targets[pc.ref.target].fence, pc.got.kids);
  }

  lemma PublisherSpends(cfg: Config, s: State, a: Action)
    requires a.Flush? || a.Reserve? || a.Finish?
    requires Can(cfg, s, a) && WorkerOk(s, s.workers[a.i])
    ensures |Do(cfg, s, a).workers| == |s.workers|
    ensures PcWork(Do(cfg, s, a).workers[a.i].pc) < PcWork(s.workers[a.i].pc)
  {
    hide DoTake, DoBegin, DoOpen, DoRead, DoPay, DoSift, DoBatchEnd, DoPush, DoCheck, DoStart, DoPushRoot, DoReport,
         DoComplete, PlusB, Repeat, EffortOf, EffortIn, Reads, Opens, AllReported;
    if a.Reserve? { NoEffort([], s.workers[a.i].pc.kids); }
  }

  lemma BatchEndSpends(s: State, i: int)
    requires AtWorker(s, i) && s.workers[i].pc.Sifting? && s.workers[i].pc.todo == []
    ensures PcWork(DoBatchEnd(s, i).workers[i].pc) < PcWork(s.workers[i].pc)
  {
    hide EffortOf, EffortIn;
    EffortAtLeast(s.workers[i].pc.rest);
    NoEffort(s.workers[i].pc.todo, []);
  }

  lemma NoEffort(items: seq<Item>, kids: seq<Tree>)
    ensures items == [] ==> EffortIn(items) == 0
    ensures EffortOf(kids) >= 0
  {
  }

  lemma {:induction false} PcWorkNonNegative(pc: Pc)
    ensures PcWork(pc) >= 0
    ensures InCall(pc) ==> PcWork(pc) >= 1
  {
    hide EffortIn, Effort;
    if pc.Opening? || pc.Holding? {
      EffortPositive(pc.ref.tree);
    } else if pc.Reading? || pc.Sifting? || pc.Metered? {
      EffortAtLeast(pc.rest);
      if !pc.Reading? { EffortAtLeast(pc.todo); }
    }
  }

  lemma WorkerSpends(cfg: Config, s: State, a: Action)
    requires ByWorker(a) && !a.Take? && !a.Push? && Can(cfg, s, a) && WorkerOk(s, s.workers[a.i])
    ensures |Do(cfg, s, a).workers| == |s.workers|
    ensures PcWork(Do(cfg, s, a).workers[a.i].pc) < PcWork(s.workers[a.i].pc)
  {
    hide Do, Can, PcWork, WorkerOk;
    if a.Begin? || a.Open? || a.Read? || a.Pay? {
      ReaderSpends(cfg, s, a);
    } else if a.Flush? || a.Reserve? || a.Finish? {
      PublisherSpends(cfg, s, a);
    } else {
      PlainSpends(cfg, s, a);
    }
  }

  lemma PlainSpends(cfg: Config, s: State, a: Action)
    requires a.Sift? || a.BatchEnd? || a.Check? || a.Hang?
    requires Can(cfg, s, a) && WorkerOk(s, s.workers[a.i])
    ensures |Do(cfg, s, a).workers| == |s.workers|
    ensures PcWork(Do(cfg, s, a).workers[a.i].pc) < PcWork(s.workers[a.i].pc)
  {
    hide DoTake, DoBegin, DoOpen, DoRead, DoPay, DoSift, DoBatchEnd, DoFlush, DoReserve, DoPush, DoFinish, DoStart,
         DoPushRoot, DoReport, EffortOf, EffortIn, WorkerOk, Reads, Opens, AllReported;
    if a.Sift? {
      SiftSpends(cfg, s, a.i);
    } else if a.BatchEnd? {
      BatchEndSpends(s, a.i);
    } else if a.Hang? {
      PcWorkNonNegative(s.workers[a.i].pc);
    }
  }

  // --- one action --------------------------------------------------------------------------------

  lemma StepDropsWorker(cfg: Config, s: State, a: Action)
    requires Inv(cfg, s) && ByWorker(a) && Can(cfg, s, a)
    ensures Drops(s, Do(cfg, s, a))
  {
    hide DoTake, DoBegin, DoOpen, DoRead, DoPay, DoSift, DoBatchEnd, DoFlush, DoReserve, DoPush, DoFinish,
         DoCheck, DoStart, DoPushRoot, DoReport, Inv, Shape, Stage, Gauges, Tame,
         TargetsWork, MainWork, WorkerOk, Drops, LeavesMain, InFlight, WakeUps,
         Reads, Opens, AllReported, Wake;
    IsAWorker(cfg, s, a);
    WorkersAreOk(cfg, s, a.i);
    WorkerLeavesMain(cfg, s, a);
    WorkerKeepsTargetsWork(cfg, s, a);
    CtxStays(cfg, s, a);
    if a.Take? {
      TakeDrops(s, a.i);
      LessInFlight(s, Do(cfg, s, a));
    } else if a.Push? {
      PushDrops(cfg, s, a.i);
      LessInFlight(s, Do(cfg, s, a));
    } else {
      WorkerStepDrops(cfg, s, a);
    }
  }

  // With everything else as it was, less in flight is less work.
  lemma LessInFlight(s: State, s': State)
    requires LeavesMain(s, s') && TargetsWork(s'.targets) == TargetsWork(s.targets) && s'.ctxDone == s.ctxDone
    requires InFlight(s', Work) < InFlight(s, Work) || (InFlight(s', Work) == InFlight(s, Work) && WakeUps(s') < WakeUps(s))
    ensures Drops(s, s')
  {
    hide InFlight, TargetsWork, WakeUps;
  }

  lemma WorkersAreOk(cfg: Config, s: State, i: int)
    requires Inv(cfg, s) && AtWorker(s, i)
    ensures WorkerOk(s, s.workers[i])
  {
    hide Stage, Gauges, WorkerOk;
  }

  lemma WorkerKeepsTargetsWork(cfg: Config, s: State, a: Action)
    requires Inv(cfg, s) && ByWorker(a) && Can(cfg, s, a) && AtWorker(s, a.i)
    ensures TargetsWork(Do(cfg, s, a).targets) == TargetsWork(s.targets)
  {
    hide Inv, Do, Can, TargetsWork;
    SameTargets(cfg, s, a);
    forall t | AtTargetIdx(s, t) ensures Tame(s.targets[t], Do(cfg, s, a).targets[t]) {
      WorkerHolds(cfg, s, a.i, t);
      WorkerTouches(cfg, s, a, t);
    }
    TargetsTame(s, Do(cfg, s, a));
  }

  lemma WorkerStepDrops(cfg: Config, s: State, a: Action)
    requires ByWorker(a) && !a.Take? && !a.Push? && Can(cfg, s, a) && AtWorker(s, a.i) && WorkerOk(s, s.workers[a.i])
    requires var s' := Do(cfg, s, a);
      LeavesMain(s, s') && TargetsWork(s'.targets) == TargetsWork(s.targets) && s'.ctxDone == s.ctxDone
    ensures Drops(s, Do(cfg, s, a))
  {
    hide Do, Can, TargetsWork;
    var s' := Do(cfg, s, a);
    StepOk(cfg, s, a);
    StepKeepsQueue(cfg, s, a);
    WorkerSpends(cfg, s, a);
    hide WorkerOk;
    Stepped(s, a.i, s'.workers[a.i].pc, s', Work);
    hide InFlight;
  }

  lemma TargetsTame(s: State, s': State)
    requires |s'.targets| == |s.targets| && forall t | AtTargetIdx(s, t) :: AtTargetIdx(s', t) && Tame(s.targets[t], s'.targets[t])
    ensures TargetsWork(s'.targets) == TargetsWork(s.targets)
  {
    forall t | 0 <= t < |s.targets| ensures TargetWork(s'.targets[t]) == TargetWork(s.targets[t]) {
      assert AtTargetIdx(s, t);
    }
    TargetsSame(s.targets, s'.targets);
  }

  lemma CtxStays(cfg: Config, s: State, a: Action)
    requires ByWorker(a) && Can(cfg, s, a)
    ensures Do(cfg, s, a).ctxDone == s.ctxDone
  {
    hide EntryTally, Judge, Remember, Charge, PlusB, Repeat, Note, Gather, DoComplete, OpenFailTally, TailTally,
         Wake, Refs;
  }

  lemma StepKeepsQueue(cfg: Config, s: State, a: Action)
    requires ByWorker(a) && !a.Take? && !a.Push? && Can(cfg, s, a) && WorkerOk(s, s.workers[a.i])
    ensures Moves(s, a.i, Do(cfg, s, a).workers[a.i].pc, Do(cfg, s, a))
  {
    StepOk(cfg, s, a);
    WorkerLeavesMain(cfg, s, a);
    hide Do, Can;
  }

  lemma TakeDrops(s: State, i: int)
    requires AtWorker(s, i) && (s.workers[i].pc.Ready? || s.workers[i].pc.Looking?)
    ensures var s' := DoTake(s, i);
      InFlight(s', Work) < InFlight(s, Work) || (InFlight(s', Work) == InFlight(s, Work) && WakeUps(s') < WakeUps(s))
  {
    var s' := DoTake(s, i);
    var w, w' := s.workers[i], s'.workers[i];
    assert s'.workers == s.workers[i := w'];
    SumUpdate(s.workers, i, w', Work);
    SumUpdate(s.workers, i, w', Awake);
    TakeSpends(s, i);
    hide Sum, OfWorker, OfRefs;
  }

  lemma TakeSpends(s: State, i: int)
    requires AtWorker(s, i) && (s.workers[i].pc.Ready? || s.workers[i].pc.Looking?)
    ensures var s', w := DoTake(s, i), s.workers[i];
      var work, work' := OfWorker(w, Work) + OfRefs(s.deque, Work), OfWorker(s'.workers[i], Work) + OfRefs(s'.deque, Work);
      work' < work || (work' == work && OfWorker(s'.workers[i], Awake) < OfWorker(w, Awake))
  {
    hide Effort;
    var w := s.workers[i];
    NoWakeInRefs(w.local);
    NoWakeInRefs(DoTake(s, i).workers[i].local);
    if w.pc.Ready? && w.local != [] {
      RefsLast(w.local, Work);
    } else if w.pc.Looking? && s.deque != [] {
      RefsLast(s.deque, Work);
    }
  }

  lemma {:induction false} NoWakeInRefs(refs: seq<Ref>)
    ensures OfRefs(refs, Awake) == 0
  {
    if refs == [] {
    } else {
      NoWakeInRefs(refs[1..]);
    }
  }

  lemma PublishedWork(w: Worker, w': Worker, n: nat)
    requires w.pc.Reserved?
    requires var local := w.local + Refs(w.pc.ref.target, w.pc.kids);
      n <= |local| && w' == Worker(local[n..], Finishing(w.pc.ref))
    ensures var local := w.local + Refs(w.pc.ref.target, w.pc.kids);
      OfWorker(w', Work) + OfRefs(local[..n], Work) < OfWorker(w, Work)
  {
    var kids := Refs(w.pc.ref.target, w.pc.kids);
    RefsAppend(w.local, kids, Work);
    RefsOfKids(w.pc.ref.target, w.pc.kids, Work);
    RefsSplit(w.local + kids, n, Work);
    hide EffortOf, OfRefs, Refs;
  }

  lemma PushDrops(cfg: Config, s: State, i: int)
    requires AtWorker(s, i) && s.workers[i].pc.Reserved?
    ensures InFlight(DoPush(cfg, s, i), Work) < InFlight(s, Work)
  {
    var w := s.workers[i];
    var local := w.local + Refs(w.pc.ref.target, w.pc.kids);
    var n := Donated(cfg.limit, cfg.shareOver, s.deque, local);
    var w' := Worker(local[n..], Finishing(w.pc.ref));
    SumUpdate(s.workers, i, w', Work);
    SumWake(s.workers[i := w'], Work);
    PublishedWork(w, w', n);
    RefsAppend(s.deque, local[..n], Work);
    hide Sum, OfRefs, Wake, Refs, OfWorker, Donated;
  }

  lemma SupervisorSpends(cfg: Config, s: State, a: Action)
    requires BySupervisor(a) && Can(cfg, s, a)
    ensures AtTargetIdx(s, a.t) && |Do(cfg, s, a).targets| == |s.targets|
    ensures var s' := Do(cfg, s, a);
      s'.targets == s.targets[a.t := s'.targets[a.t]] && TargetWork(s'.targets[a.t]) < TargetWork(s.targets[a.t])
  {
    hide DoTake, DoBegin, DoOpen, DoRead, DoPay, DoSift, DoBatchEnd, DoFlush, DoReserve, DoPush, DoFinish,
         DoCheck, DoStart, DoPushRoot, NoFaults, ScanErr, Effort, Reads, Opens, AllReported, Wake;
    EffortPositive(s.targets[a.t].tree);
  }

  lemma SupervisorLeavesRest(cfg: Config, s: State, a: Action)
    requires BySupervisor(a) && Can(cfg, s, a)
    ensures var s' := Do(cfg, s, a);
      s'.main == s.main && s'.workers == s.workers && s'.deque == s.deque && s'.hand == s.hand && s'.lost == s.lost
      && s'.ctxDone == s.ctxDone && s'.leaked == s.leaked
  {
    hide DoTake, DoBegin, DoOpen, DoRead, DoPay, DoSift, DoBatchEnd, DoFlush, DoReserve, DoPush, DoFinish, DoCheck,
         DoStart, DoPushRoot, NoFaults, ScanErr, Reads, Opens, AllReported, Wake;
  }

  lemma StepDropsSupervisor(cfg: Config, s: State, a: Action)
    requires BySupervisor(a) && Can(cfg, s, a)
    ensures WorkLeft(Do(cfg, s, a)) < WorkLeft(s)
  {
    hide Do, Can, Sum, OfRefs, TargetWork, TargetsWork;
    SupervisorSpends(cfg, s, a);
    SupervisorLeavesRest(cfg, s, a);
    TargetsUpdate(s.targets, a.t, Do(cfg, s, a).targets[a.t]);
  }

  lemma StartDrops(cfg: Config, s: State)
    requires Stage(s) && s.main.AtTarget? && 0 <= s.main.k < |s.targets|
    ensures WorkLeft(DoStart(cfg, s)) < WorkLeft(s)
  {
    hide Sum, Effort, RootFaults, RootOutcome;
    var s', k := DoStart(cfg, s), s.main.k;
    EffortPositive(s.targets[k].tree);
    TargetsUpdate(s.targets, k, s'.targets[k]);
    if RootReady(s.targets[k].probe) { Handed(s, s', Work); }
  }

  lemma PushRootDrops(s: State)
    requires Stage(s) && s.main.RootReserved? && 0 <= s.main.k < |s.targets|
    ensures WorkLeft(DoPushRoot(s)) < WorkLeft(s)
  {
    var s', k := DoPushRoot(s), s.main.k;
    TargetsUpdate(s.targets, k, s'.targets[k]);
    SumWake(s.workers, Work);
    RefsAppend(s.deque, s.hand, Work);
    hide Sum, Effort, OfRef, Wake;
  }

  lemma StepDropsMain(cfg: Config, s: State, a: Action)
    requires Stage(s) && !ByWorker(a) && !BySupervisor(a) && Can(cfg, s, a)
    ensures WorkLeft(Do(cfg, s, a)) < WorkLeft(s)
  {
    hide DoTake, DoBegin, DoOpen, DoRead, DoPay, DoSift, DoBatchEnd, DoFlush, DoReserve, DoPush, DoFinish, DoCheck,
         DoStart, DoPushRoot, DoReport, Stage, WorkLeft, AllReported, Reads, Opens, Wake;
    if a.Start? {
      StartDrops(cfg, s);
    } else if a.PushRoot? {
      PushRootDrops(s);
    } else if a.ClosePool? {
      CloseDrops(cfg, s);
    } else {
      EnvironmentDrops(cfg, s, a);
    }
  }

  lemma CloseDrops(cfg: Config, s: State)
    requires Can(cfg, s, ClosePool)
    ensures WorkLeft(Do(cfg, s, ClosePool)) < WorkLeft(s)
  {
    hide DoTake, DoBegin, DoOpen, DoRead, DoPay, DoSift, DoBatchEnd, DoFlush, DoReserve, DoPush, DoFinish, DoCheck,
         DoStart, DoPushRoot, DoReport, Sum, OfRef, Wake, TargetsWork, Reads, Opens;
    SumWake(s.workers, Work);
    RefsAppend(s.lost, s.deque, Work);
  }

  lemma EnvironmentDrops(cfg: Config, s: State, a: Action)
    requires Can(cfg, s, a) && (a.Drained? || a.CancelProcess? || a.ScanCtxFires? || a.LeakedExits?)
    ensures WorkLeft(Do(cfg, s, a)) < WorkLeft(s)
  {
    hide DoTake, DoBegin, DoOpen, DoRead, DoPay, DoSift, DoBatchEnd, DoFlush, DoReserve, DoPush, DoFinish, DoCheck,
         DoStart, DoPushRoot, DoReport, Sum, OfRefs, Effort, Wake, Reads, Opens, AllReported;
    if a.ScanCtxFires? { TargetsUpdate(s.targets, a.t, Do(cfg, s, a).targets[a.t]); }
  }

  lemma StepDrops(cfg: Config, s: State, a: Action)
    requires Inv(cfg, s) && Can(cfg, s, a)
    ensures Drops(s, Do(cfg, s, a))
  {
    if ByWorker(a) {
      StepDropsWorker(cfg, s, a);
    } else {
      UseInv(cfg, s);
      hide Inv, WorkLeft, Do, Can, Stage;
      if BySupervisor(a) { StepDropsSupervisor(cfg, s, a); } else { StepDropsMain(cfg, s, a); }
    }
  }

  // --- no infinite run ----------------------------------------------------------------------------

  lemma {:induction false} QueuedWork(refs: seq<Ref>)
    ensures OfRefs(refs, Work) >= 0
  {
    if refs == [] {
    } else {
      EffortPositive(refs[0].tree);
      QueuedWork(refs[1..]);
    }
  }

  lemma {:induction false} WorkersWork(ws: seq<Worker>)
    ensures Sum(ws, Work) >= 0
  {
    if ws == [] {
    } else {
      QueuedWork(ws[0].local);
      PcWorkNonNegative(ws[0].pc);
      WorkersWork(ws[1..]);
    }
  }

  lemma {:induction false} TargetsWorkNonNegative(gs: seq<Target>)
    ensures TargetsWork(gs) >= 0
  {
    if gs == [] {
    } else {
      EffortPositive(gs[0].tree);
      TargetsWorkNonNegative(gs[1..]);
    }
  }

  lemma WorkNonNegative(cfg: Config, s: State)
    requires Inv(cfg, s)
    ensures WorkLeft(s) >= 0 && WakeUps(s) >= 0
  {
    UseInv(cfg, s);
    WorkersWork(s.workers);
    QueuedWork(s.deque);
    QueuedWork(s.hand);
    QueuedWork(s.lost);
    TargetsWorkNonNegative(s.targets);
    SumNonNegative(s.workers, Awake);
    hide Inv, Shape;
  }

  ghost predicate StepsAt(cfg: Config, run: nat -> State, acts: nat -> Action, n: nat) {
    Can(cfg, run(n), acts(n)) && run(n + 1) == Do(cfg, run(n), acts(n))
  }

  // No interleaving of a scan cycle goes on for ever, whoever moves, hangs, times out or is cancelled.
  lemma {:induction false} EveryRunEnds(cfg: Config, run: nat -> State, acts: nat -> Action, k: nat)
    requires Inv(cfg, run(k))
    ensures exists n: nat :: n >= k && !StepsAt(cfg, run, acts, n)
    decreases WorkLeft(run(k)), WakeUps(run(k))
  {
    if StepsAt(cfg, run, acts, k) {
      StepKeeps(cfg, run(k), acts(k));
      StepDrops(cfg, run(k), acts(k));
      WorkNonNegative(cfg, run(k));
      hide Inv, WorkLeft, WakeUps;
      EveryRunEnds(cfg, run, acts, k + 1);
    }
  }

  lemma NoRunIsEndless(cfg: Config, run: nat -> State, acts: nat -> Action)
    requires Reachable(cfg, run(0))
    ensures exists n: nat :: !StepsAt(cfg, run, acts, n)
  {
    hide Inv, Reachable, StepsAt;
    ReachableInv(cfg, run(0));
    EveryRunEnds(cfg, run, acts, 0);
  }

  // --- no deadlock ---------------------------------------------------------------------------------

  // A step of the engine itself: of the main goroutine or of a supervisor. Workers may all be stuck, and what
  // the environment may do, cancelling the process included, is no progress of the cycle's own.
  predicate OwnMove(a: Action) { a.Start? || a.PushRoot? || a.ClosePool? || a.Drained? || BySupervisor(a) }

  // The one way to stall: every target is started, and those without a result all wait, with no hard timeout,
  // for a walk that is neither over nor cancelled.
  predicate Stalled(cfg: Config, s: State) {
    && !cfg.hard && s.main == AtTarget(|s.targets|) && !AllReported(s)
    && (forall t | 0 <= t < |s.targets| :: s.targets[t].sup.Reported? || StuckOn(cfg, s, s.targets[t]))
  }

  predicate StuckOn(cfg: Config, s: State, x: Target) { x.sup.Waiting? && !x.done && !ScanErr(cfg, s, x) }

  // However many calls hang, an unreturned cycle has a step of its own to take unless it is stalled. With a
  // hard timeout configured it never is.
  lemma CycleNeverStalls(cfg: Config, s: State) returns (a: Action)
    requires Reachable(cfg, s) && !s.main.Returned? && !Stalled(cfg, s)
    ensures OwnMove(a) && Can(cfg, s, a)
  {
    hide Inv, Shape, Gauges, Reachable, StuckOn;
    ReachableInv(cfg, s);
    UseInv(cfg, s);
    match s.main
    case AtTarget(k) =>
      if k < |s.targets| {
        a := Start;
      } else if AllReported(s) {
        a := ClosePool;
      } else {
        var t :| 0 <= t < |s.targets| && !s.targets[t].sup.Reported? && (cfg.hard || !StuckOn(cfg, s, s.targets[t]));
        a := SupervisorMove(cfg, s, t);
      }
    case RootReserved(k) => a := PushRoot;
    case DrainingPool => a := Drained;
  }

  lemma SupervisorMove(cfg: Config, s: State, t: int) returns (a: Action)
    requires AtTargetIdx(s, t) && !s.targets[t].sup.Reported? && !s.targets[t].sup.Unborn?
    requires cfg.hard || !StuckOn(cfg, s, s.targets[t])
    ensures BySupervisor(a) && Can(cfg, s, a)
  {
    match s.targets[t].sup
    case Waiting =>
      a := if s.targets[t].done then LatchSeen(t) else if ScanErr(cfg, s, s.targets[t]) then ScanCtxSeen(t) else TimerFires(t);
    case Draining => a := TimerFires(t);
    case Settled => a := ReadCtx(t);
    case CtxLive => a := ReadScanCtx(t);
    case ScanLive => a := ReadErrors(t);
    case Decided(_) => a := Deliver(t);
  }

  // And a stalled cycle has none: the condition is exact.
  lemma StallsIff(cfg: Config, s: State)
    requires Reachable(cfg, s) && !s.main.Returned?
    ensures (exists a :: OwnMove(a) && Can(cfg, s, a)) <==> !Stalled(cfg, s)
  {
    hide Reachable;
    if !Stalled(cfg, s) {
      var a := CycleNeverStalls(cfg, s);
    } else {
      forall a | OwnMove(a) ensures !Can(cfg, s, a) { StalledStays(cfg, s, a); }
    }
  }

  lemma StalledStays(cfg: Config, s: State, a: Action)
    requires Stalled(cfg, s) && OwnMove(a)
    ensures !Can(cfg, s, a)
  {
    hide AllReported, Reads, Opens;
  }

  // --- no lost wake-up -----------------------------------------------------------------------------

  // A worker parks only with nothing to do anywhere it can see, and is woken when that changes.
  lemma ParkedMeansIdle(cfg: Config, s: State, i: int)
    requires Reachable(cfg, s) && AtWorker(s, i) && s.workers[i].pc.Parked?
    ensures s.workers[i].local == [] && s.deque == [] && !s.closed
  {
    ReachableInv(cfg, s);
    assert WorkerOk(s, s.workers[i]);
  }

  ghost predicate WorkerCanMove(cfg: Config, s: State, i: int) {
    exists a :: ByWorker(a) && !a.Hang? && a.i == i && Can(cfg, s, a)
  }

  // A worker can move unless it is parked, gone or stuck in a call.
  lemma BusyWorker(cfg: Config, s: State, i: int)
    requires ValidConfig(cfg) && AtWorker(s, i) && WorkerOk(s, s.workers[i])
    ensures var pc := s.workers[i].pc; WorkerCanMove(cfg, s, i) || pc.Parked? || pc.Exited? || pc.Hung?
  {
    var pc := s.workers[i].pc;
    if !pc.Parked? && !pc.Exited? && !pc.Hung? {
      var a := WorkerMove(cfg, s, i);
    }
  }

  lemma WorkerMove(cfg: Config, s: State, i: int) returns (a: Action)
    requires ValidConfig(cfg) && AtWorker(s, i) && WorkerOk(s, s.workers[i])
    requires var pc := s.workers[i].pc; !pc.Parked? && !pc.Exited? && !pc.Hung?
    ensures ByWorker(a) && !a.Hang? && a.i == i && Can(cfg, s, a)
  {
    match s.workers[i].pc
    case Ready => a := Take(i);
    case Looking => a := Take(i);
    case Holding(_) => a := Begin(i);
    case Opening(r) => a := Open(i, if r.tree.Listing? then r.tree.items else []);
    case Reading(_, _, _, _) => a := Read(i, 1, false);
    case Metered(_, _, _, _, _, _) => a := Pay(i, true);
    case Sifting(_, todo, _, _, _, _) => a := if todo == [] then BatchEnd(i) else Sift(i);
    case Closing(_, _) => a := Flush(i);
    case Flushed(_, _) => a := Reserve(i);
    case Reserved(_, _) => a := Push(i);
    case Finishing(_) => a := Finish(i);
    case Checking => a := Check(i);
  }

  lemma {:induction false} ParkedHoldNothing(ws: seq<Worker>, t: int)
    requires forall i | 0 <= i < |ws| :: ws[i] == Worker([], Parked)
    ensures Sum(ws, Outstanding(t)) == 0
  {
    if ws == [] {
    } else {
      ParkedHoldNothing(ws[1..], t);
    }
  }

  // With calls returning, the pool open and the process live, the workers only come to rest once every
  // queued target's latch has fired.
  lemma RestMeansLatched(cfg: Config, s: State, t: int)
    requires Reachable(cfg, s) && !s.closed && !s.ctxDone && |s.workers| > 0
    requires forall i | AtWorker(s, i) :: !s.workers[i].pc.Hung? && !WorkerCanMove(cfg, s, i)
    requires AtTargetIdx(s, t) && s.targets[t].launched && !s.main.RootReserved?
    ensures s.targets[t].done && s.targets[t].zeros == 1
  {
    ReachableInv(cfg, s);
    UseInv(cfg, s);
    assert Flags(cfg, s, t) && Ledger(cfg, s, t, Entry, InSize);
    hide Inv, Reachable, Flags, Gauges;
    forall i | AtWorker(s, i) ensures s.workers[i] == Worker([], Parked) && s.deque == [] {
      assert WorkerOk(s, s.workers[i]);
      hide WorkerCanMove, PcOk;
      BusyWorker(cfg, s, i);
    }
    assert AtWorker(s, 0);
    ParkedHoldNothing(s.workers, t);
    AtRest(cfg, s, t);
  }

  // What the engine does not do to itself: timers, cancellations, leaked workers' ends, hanging calls.
  predicate Outside(a: Action) {
    a.TimerFires? || a.CancelProcess? || a.ScanCtxFires? || a.LeakedExits? || a.Hang?
  }

  // So with calls returning and the process live the cycle does not need a timer to come to its end: when
  // nothing is left to do but for the outside, it has returned.
  lemma RestMeansReturned(cfg: Config, s: State)
    requires Reachable(cfg, s) && !s.ctxDone && |s.workers| > 0
    requires forall i | AtWorker(s, i) :: !s.workers[i].pc.Hung?
    requires forall a | Can(cfg, s, a) :: Outside(a)
    ensures s.main.Returned?
  {
    hide Reachable, Can;
    if !s.main.Returned? {
      if s.main == AtTarget(|s.targets|) {
        forall t | AtTargetIdx(s, t) && !s.targets[t].sup.Reported? ensures s.targets[t].done {
          LaunchedIsLatched(cfg, s, t);
        }
      }
      var a := GoesOn(cfg, s);
    }
  }

  // With every walk over that is still waited for, the engine goes on by itself.
  lemma GoesOn(cfg: Config, s: State) returns (a: Action)
    requires Reachable(cfg, s) && !s.main.Returned?
    requires s.main == AtTarget(|s.targets|) ==>
      forall t | AtTargetIdx(s, t) :: s.targets[t].sup.Reported? || s.targets[t].done
    ensures OwnMove(a) && !Outside(a) && Can(cfg, s, a)
  {
    hide Inv, Shape, Gauges, Reachable, Flags;
    ReachableInv(cfg, s);
    UseInv(cfg, s);
    match s.main
    case RootReserved(_) => a := PushRoot;
    case DrainingPool => a := Drained;
    case AtTarget(k) =>
      if k < |s.targets| {
        a := Start;
      } else if AllReported(s) {
        a := ClosePool;
      } else {
        var t :| 0 <= t < |s.targets| && !s.targets[t].sup.Reported?;
        a := OnceLatched(cfg, s, t);
      }
  }

  lemma LaunchedIsLatched(cfg: Config, s: State, t: int)
    requires Reachable(cfg, s) && !s.ctxDone && |s.workers| > 0 && s.main == AtTarget(|s.targets|)
    requires forall i | AtWorker(s, i) :: !s.workers[i].pc.Hung?
    requires forall a | Can(cfg, s, a) :: Outside(a)
    requires AtTargetIdx(s, t) && !s.targets[t].sup.Reported?
    ensures s.targets[t].done
  {
    ReachableInv(cfg, s);
    UseInv(cfg, s);
    assert Flags(cfg, s, t);
    hide Inv, Shape, Gauges, Reachable, Flags, Can;
    forall i | AtWorker(s, i) ensures !WorkerCanMove(cfg, s, i) {}
    RestMeansLatched(cfg, s, t);
  }

  // A supervisor whose walk is over needs no timer.
  lemma OnceLatched(cfg: Config, s: State, t: int) returns (a: Action)
    requires AtTargetIdx(s, t) && s.targets[t].done && !s.targets[t].sup.Reported? && !s.targets[t].sup.Unborn?
    ensures BySupervisor(a) && !Outside(a) && Can(cfg, s, a)
  {
    match s.targets[t].sup
    case Waiting => a := LatchSeen(t);
    case Draining => a := LatchSeen(t);
    case Settled => a := ReadCtx(t);
    case CtxLive => a := ReadScanCtx(t);
    case ScanLive => a := ReadErrors(t);
    case Decided(_) => a := Deliver(t);
  }

  lemma AtRest(cfg: Config, s: State, t: int)
    requires AtTargetIdx(s, t) && Flags(cfg, s, t) && Ledger(cfg, s, t, Entry, InSize) && s.targets[t].launched
    requires Sum(s.workers, Outstanding(t)) == 0 && s.deque == s.hand == s.lost == []
    ensures s.targets[t].done && s.targets[t].zeros == 1
  {
    hide PostAll, Measure;
  }
}
