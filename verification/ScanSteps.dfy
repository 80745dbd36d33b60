// Every action keeps the invariant: the remaining ledgers, the flags, the shape, the stage and the gauges.

module ScanSteps {
  import opened Options
  import opened FsErrors
  import opened FileTree
  import opened HardLinks
  import opened Outcomes
  import opened ScanProtocol
  import opened ScanLedger
  import opened ScanInvariant

  // --- ledgers: main goroutine, supervisors, environment -------------------------------------------

  // Same counts, same target up to what the ledger does not look at.
  lemma Untouched(cfg: Config, s: State, s': State, t: int, x: Fact, c: Coin)
    requires AtTargetIdx(s, t) && AtTargetIdx(s', t) && Ledger(cfg, s, t, x, c)
    requires InFlight(s', Outstanding(t)) == InFlight(s, Outstanding(t))
    requires InFlight(s', Held(t, x)) == InFlight(s, Held(t, x))
    requires InFlight(s', Owed(t, s.targets[t].fence, x)) == InFlight(s, Owed(t, s.targets[t].fence, x))
    requires InFlight(s', Purse(t, c)) == InFlight(s, Purse(t, c))
    requires SameBooks(s.targets[t], s'.targets[t])
    ensures Ledger(cfg, s', t, x, c)
  {
    hide InFlight, PostAll, Measure, CoinOf;
  }

  predicate SameBooks(g: Target, h: Target) {
    && h.pending == g.pending && h.launched == g.launched && h.cut == g.cut && h.flushed == g.flushed
    && h.probe == g.probe && h.tree == g.tree && h.fence == g.fence && h.order == g.order && h.bytes == g.bytes
    && h.inodes == g.inodes && h.exhausted == g.exhausted && (h.sup.Unborn? ==> g.sup.Unborn?)
  }

  lemma Still(s: State, s': State, l: Lens)
    requires s'.workers == s.workers && s'.deque == s.deque && s'.hand == s.hand && s'.lost == s.lost
    ensures InFlight(s', l) == InFlight(s, l)
  {
  }

  lemma LedgerStill(cfg: Config, s: State, s': State, t: int, x: Fact, c: Coin)
    requires AtTargetIdx(s, t) && AtTargetIdx(s', t) && Ledger(cfg, s, t, x, c)
    requires s'.workers == s.workers && s'.deque == s.deque && s'.hand == s.hand && s'.lost == s.lost
    requires SameBooks(s.targets[t], s'.targets[t])
    ensures Ledger(cfg, s', t, x, c)
  {
    hide InFlight, Balanced;
    Still(s, s', Outstanding(t));
    Still(s, s', Held(t, x));
    Still(s, s', Owed(t, s.targets[t].fence, x));
    Still(s, s', Purse(t, c));
    Untouched(cfg, s, s', t, x, c);
  }

  // Moving queued directories between hand, deque and the dropped pile, and waking workers.
  lemma Requeued(s: State, s': State, l: Lens)
    requires Kept(l) && s'.workers == Wake(s.workers)
    requires (s'.deque == s.deque + s.hand && s'.hand == [] && s'.lost == s.lost)
          || (s'.lost == s.lost + s.deque && s'.deque == [] && s'.hand == s.hand)
    ensures InFlight(s', l) == InFlight(s, l)
  {
    SumWake(s.workers, l);
    RefsAppend(s.deque, s.hand, l);
    RefsAppend(s.lost, s.deque, l);
  }

  lemma LedgerRequeued(cfg: Config, s: State, s': State, t: int, x: Fact, c: Coin)
    requires AtTargetIdx(s, t) && AtTargetIdx(s', t) && Ledger(cfg, s, t, x, c) && s'.workers == Wake(s.workers)
    requires (s'.deque == s.deque + s.hand && s'.hand == [] && s'.lost == s.lost)
          || (s'.lost == s.lost + s.deque && s'.deque == [] && s'.hand == s.hand)
    requires SameBooks(s.targets[t], s'.targets[t])
    ensures Ledger(cfg, s', t, x, c)
  {
    hide InFlight, Balanced;
    Requeued(s, s', Outstanding(t));
    Requeued(s, s', Held(t, x));
    Requeued(s, s', Owed(t, s.targets[t].fence, x));
    Requeued(s, s', Purse(t, c));
    Untouched(cfg, s, s', t, x, c);
  }

  // Starting a target puts its whole tree into the main goroutine's hand.
  lemma LedgerStart(cfg: Config, s: State, t: int, x: Fact, c: Coin)
    requires AtTargetIdx(s, t) && Ledger(cfg, s, t, x, c) && Stage(s)
    requires s.main.AtTarget? && 0 <= s.main.k < |s.targets|
    ensures Ledger(cfg, DoStart(cfg, s), t, x, c)
  {
    var s', k := DoStart(cfg, s), s.main.k;
    if !RootReady(s.targets[k].probe) {
      if t == k { Rejected(cfg, s, x, c); } else { LedgerStill(cfg, s, s', t, x, c); }
    } else {
      Handed(s, s', Outstanding(t)); Handed(s, s', Held(t, x)); Handed(s, s', Owed(t, s'.targets[t].fence, x));
      Handed(s, s', Purse(t, c));
      if t == k { Launched(cfg, s, x, c); } else { hide InFlight, Balanced, DoStart; Other(cfg, s, s', t, x, c); }
    }
  }

  lemma Other(cfg: Config, s: State, s': State, t: int, x: Fact, c: Coin)
    requires AtTargetIdx(s, t) && AtTargetIdx(s', t) && s'.targets[t] == s.targets[t] && Ledger(cfg, s, t, x, c)
    requires InFlight(s', Outstanding(t)) == InFlight(s, Outstanding(t))
    requires InFlight(s', Held(t, x)) == InFlight(s, Held(t, x))
    requires InFlight(s', Owed(t, s.targets[t].fence, x)) == InFlight(s, Owed(t, s.targets[t].fence, x))
    requires InFlight(s', Purse(t, c)) == InFlight(s, Purse(t, c))
    ensures Ledger(cfg, s', t, x, c)
  {
    hide InFlight, Balanced;
  }

  lemma Handed(s: State, s': State, l: Lens)
    requires s.main.AtTarget? && 0 <= s.main.k < |s.targets| && s.hand == []
    requires s'.workers == s.workers && s'.deque == s.deque && s'.lost == s.lost
    requires s'.hand == [Ref(s.main.k, s.targets[s.main.k].tree)]
    ensures InFlight(s', l) == InFlight(s, l) + OfRef(s'.hand[0], l)
  {
    assert s'.hand[1..] == [];
  }

  lemma Rejected(cfg: Config, s: State, x: Fact, c: Coin)
    requires Stage(s) && s.main.AtTarget? && 0 <= s.main.k < |s.targets| && !RootReady(s.targets[s.main.k].probe)
    requires Ledger(cfg, s, s.main.k, x, c)
    ensures Ledger(cfg, DoStart(cfg, s), s.main.k, x, c)
  {
    hide InFlight, PostAll, Measure, CoinOf;
    var s', t := DoStart(cfg, s), s.main.k;
    Still(s, s', Outstanding(t)); Still(s, s', Held(t, x)); Still(s, s', Owed(t, s.targets[t].fence, x));
    Still(s, s', Purse(t, c));
    assert x.Met? ==> RootFaults(s.targets[t].probe)[x] == 0;
  }

  lemma Launched(cfg: Config, s: State, x: Fact, c: Coin)
    requires Stage(s) && s.main.AtTarget? && 0 <= s.main.k < |s.targets| && RootReady(s.targets[s.main.k].probe)
    requires Ledger(cfg, s, s.main.k, x, c)
    ensures Ledger(cfg, DoStart(cfg, s), s.main.k, x, c)
  {
    hide InFlight, PostAll, Measure, CoinOf;
    var s', t := DoStart(cfg, s), s.main.k;
    var fence := s'.targets[t].fence;
    NothingOutstanding(s, Held(t, x), t);
    NothingOutstanding(s, Owed(t, fence, x), t);
    Handed(s, s', Outstanding(t)); Handed(s, s', Held(t, x)); Handed(s, s', Owed(t, fence, x)); Handed(s, s', Purse(t, c));
  }

  predicate ByWorker(a: Action) {
    a.Take? || a.Begin? || a.Open? || a.Read? || a.Pay? || a.Sift? || a.BatchEnd? || a.Flush? || a.Reserve? || a.Push?
    || a.Finish? || a.Check? || a.Hang?
  }

  predicate BySupervisor(a: Action) {
    a.LatchSeen? || a.ScanCtxSeen? || a.TimerFires? || a.ReadCtx? || a.ReadScanCtx? || a.ReadErrors? || a.Deliver?
  }

  lemma LedgerByReader(cfg: Config, s: State, a: Action, t: int, x: Fact, c: Coin)
    requires AtTargetIdx(s, t) && Ledger(cfg, s, t, x, c) && Flags(cfg, s, t) && Shape(s)
    requires a.Begin? || a.Open? || a.Read? || a.Pay? || a.Sift? || a.BatchEnd?
    requires Can(cfg, s, a)
    ensures Ledger(cfg, Do(cfg, s, a), t, x, c)
  {
    hide Ledger, Flags, DoBegin, DoOpen, DoRead, DoPay, DoSift, DoBatchEnd;
    match a
    case Begin(i) => LedgerBegin(cfg, s, i, t, x, c);
    case Open(i, order) => LedgerOpen(cfg, s, i, order, t, x, c);
    case Read(i, n, eof) => LedgerRead(cfg, s, i, n, eof, t, x, c);
    case Pay(i, granted) => LedgerPay(cfg, s, i, granted, t, x, c);
    case Sift(i) => LedgerSift(cfg, s, i, t, x, c);
    case BatchEnd(i) => LedgerBatchEnd(cfg, s, i, t, x, c);
  }

  lemma LedgerByPublisher(cfg: Config, s: State, a: Action, t: int, x: Fact, c: Coin)
    requires AtTargetIdx(s, t) && Ledger(cfg, s, t, x, c) && Flags(cfg, s, t)
    requires a.Take? || a.Flush? || a.Reserve? || a.Push? || a.Finish? || a.Check? || a.Hang?
    requires Can(cfg, s, a)
    ensures Ledger(cfg, Do(cfg, s, a), t, x, c)
  {
    hide Ledger, Flags, DoTake, DoFlush, DoReserve, DoPush, DoFinish, DoCheck;
    match a
    case Take(i) => LedgerTake(cfg, s, i, t, x, c);
    case Flush(i) => LedgerFlush(cfg, s, i, t, x, c);
    case Reserve(i) => LedgerReserve(cfg, s, i, t, x, c);
    case Push(i) => LedgerPush(cfg, s, i, t, x, c);
    case Finish(i) => LedgerFinish(cfg, s, i, t, x, c);
    case Check(i) => LedgerCheck(cfg, s, i, t, x, c);
    case Hang(i) => LedgerHang(cfg, s, i, t, x, c);
  }

  // Supervisors and the environment leave the counters of a target alone.
  lemma SupervisorStill(cfg: Config, s: State, a: Action, t: int)
    requires BySupervisor(a) && Can(cfg, s, a) && AtTargetIdx(s, t)
    ensures var s' := Do(cfg, s, a);
      && AtTargetIdx(s', t) && SameBooks(s.targets[t], s'.targets[t])
      && s'.workers == s.workers && s'.deque == s.deque && s'.hand == s.hand && s'.lost == s.lost
  {
    hide Do, Can, SameBooks;
    if a.ReadErrors? || a.Deliver? || a.TimerFires? {
      VerdictStill(cfg, s, a, t);
    } else if a.ReadCtx? || a.ReadScanCtx? {
      ReadStill(cfg, s, a, t);
    } else {
      SelectStill(cfg, s, a, t);
    }
  }

  lemma VerdictStill(cfg: Config, s: State, a: Action, t: int)
    requires (a.ReadErrors? || a.Deliver? || a.TimerFires?) && Can(cfg, s, a) && AtTargetIdx(s, t)
    ensures var s' := Do(cfg, s, a);
      && AtTargetIdx(s', t) && SameBooks(s.targets[t], s'.targets[t])
      && s'.workers == s.workers && s'.deque == s.deque && s'.hand == s.hand && s'.lost == s.lost
  {
    hide DoTake, DoBegin, DoOpen, DoRead, DoPay, DoSift, DoBatchEnd, DoFlush, DoReserve, DoPush, DoFinish, DoCheck,
         DoStart, DoPushRoot, NoFaults, ScanErr, Reads, Opens, AllReported, Wake;
  }

  lemma ReadStill(cfg: Config, s: State, a: Action, t: int)
    requires (a.ReadCtx? || a.ReadScanCtx?) && Can(cfg, s, a) && AtTargetIdx(s, t)
    ensures var s' := Do(cfg, s, a);
      && AtTargetIdx(s', t) && SameBooks(s.targets[t], s'.targets[t])
      && s'.workers == s.workers && s'.deque == s.deque && s'.hand == s.hand && s'.lost == s.lost
  {
    hide DoTake, DoBegin, DoOpen, DoRead, DoPay, DoSift, DoBatchEnd, DoFlush, DoReserve, DoPush, DoFinish, DoCheck,
         DoStart, DoPushRoot, DoReport, NoFaults, ScanErr, Reads, Opens, AllReported, Wake;
  }

  lemma SelectStill(cfg: Config, s: State, a: Action, t: int)
    requires (a.LatchSeen? || a.ScanCtxSeen?) && Can(cfg, s, a) && AtTargetIdx(s, t)
    ensures var s' := Do(cfg, s, a);
      && AtTargetIdx(s', t) && SameBooks(s.targets[t], s'.targets[t])
      && s'.workers == s.workers && s'.deque == s.deque && s'.hand == s.hand && s'.lost == s.lost
  {
    hide DoTake, DoBegin, DoOpen, DoRead, DoPay, DoSift, DoBatchEnd, DoFlush, DoReserve, DoPush, DoFinish, DoCheck,
         DoStart, DoPushRoot, DoReport, NoFaults, ScanErr, Reads, Opens, AllReported, Wake;
  }

  lemma LedgerByMain(cfg: Config, s: State, a: Action, t: int, x: Fact, c: Coin)
    requires AtTargetIdx(s, t) && Ledger(cfg, s, t, x, c) && Stage(s)
    requires !ByWorker(a) && !BySupervisor(a) && Can(cfg, s, a)
    ensures AtTargetIdx(Do(cfg, s, a), t) && Ledger(cfg, Do(cfg, s, a), t, x, c)
  {
    hide Ledger, Stage;
    if a.Start? {
      LedgerStart(cfg, s, t, x, c);
    } else if a.PushRoot? || a.ClosePool? {
      LedgerRequeued(cfg, s, Do(cfg, s, a), t, x, c);
    } else {
      LedgerStill(cfg, s, Do(cfg, s, a), t, x, c);
    }
  }

  lemma SameTargets(cfg: Config, s: State, a: Action)
    requires Can(cfg, s, a)
    ensures var s' := Do(cfg, s, a); |s'.targets| == |s.targets| && |s'.workers| == |s.workers|
  {
    hide DoTake, DoBegin, DoOpen, DoRead, DoPay, DoSift, DoBatchEnd, DoFlush, DoReserve, DoPush, DoFinish, DoCheck;
  }

  lemma LedgerKept(cfg: Config, s: State, a: Action, t: int, x: Fact, c: Coin)
    requires Inv(cfg, s) && Can(cfg, s, a) && AtTargetIdx(s, t)
    ensures AtTargetIdx(Do(cfg, s, a), t) && Ledger(cfg, Do(cfg, s, a), t, x, c)
  {
    SameTargets(cfg, s, a);
    assert Ledger(cfg, s, t, x, c) && Flags(cfg, s, t) && Shape(s) && Stage(s);
    hide Inv, Ledger, Flags, Shape, Stage, Do, Can;
    if a.Begin? || a.Open? || a.Read? || a.Pay? || a.Sift? || a.BatchEnd? {
      LedgerByReader(cfg, s, a, t, x, c);
    } else if ByWorker(a) {
      LedgerByPublisher(cfg, s, a, t, x, c);
    } else if BySupervisor(a) {
      SupervisorStill(cfg, s, a, t);
      LedgerStill(cfg, s, Do(cfg, s, a), t, x, c);
    } else {
      LedgerByMain(cfg, s, a, t, x, c);
    }
  }

  // --- flags -------------------------------------------------------------------------------------

  // Every action leaves the fields the supervisor logic reads alone, except as listed here.
  predicate Tame(g: Target, h: Target) {
    && h.probe == g.probe && h.tree == g.tree && h.fence == g.fence
    && h.launched == g.launched && h.abandoned == g.abandoned && h.scanDone == g.scanDone && h.sup == g.sup
    && h.report == g.report && h.began == g.began && h.landed == g.landed
  }

  // What a worker may do to a target it holds a directory of, the latch not having fired.
  predicate Worked(cfg: Config, s: State, g: Target, h: Target) {
    && Tame(g, h)
    && (h.cut ==> g.cut || g.abandoned || ScanErr(cfg, s, g) || s.ctxDone)
    && ((h.pending > 0 && h.zeros == g.zeros && h.done == g.done)
        || (h.pending == 0 && h.zeros == g.zeros + 1 && h.done && (h.cut ==> g.cut || g.abandoned || ScanErr(cfg, s, g))))
  }

  lemma FlagsWorked(cfg: Config, s: State, s': State, t: int)
    requires AtTargetIdx(s, t) && AtTargetIdx(s', t) && Flags(cfg, s, t) && s'.ctxDone == s.ctxDone
    requires s.targets[t].launched && s.targets[t].zeros == 0 && Worked(cfg, s, s.targets[t], s'.targets[t])
    ensures Flags(cfg, s', t)
  {
    hide NoFaults;
  }

  lemma FlagsSame(cfg: Config, s: State, s': State, t: int)
    requires AtTargetIdx(s, t) && AtTargetIdx(s', t) && Flags(cfg, s, t)
    requires s'.targets[t] == s.targets[t] && (s.ctxDone ==> s'.ctxDone)
    ensures Flags(cfg, s', t)
  {
    hide NoFaults;
  }

  // What a worker's step does to the one target it touches.
  ghost predicate Touches(cfg: Config, s: State, i: int, s': State, t: int)
    requires AtWorker(s, i) && AtTargetIdx(s, t)
  {
    && AtTargetIdx(s', t) && s'.ctxDone == s.ctxDone
    && (s'.targets[t] == s.targets[t]
        || (PcOutstanding(s.workers[i].pc, t) >= 1 && Worked(cfg, s, s.targets[t], s'.targets[t])))
  }

  lemma TouchBegin(cfg: Config, s: State, i: int, t: int)
    requires AtWorker(s, i) && s.workers[i].pc.Holding? && HasTarget(s, s.workers[i].pc) && AtTargetIdx(s, t)
    requires s.targets[t].pending >= PcOutstanding(s.workers[i].pc, t)
    ensures Touches(cfg, s, i, DoBegin(cfg, s, i), t)
  {
    hide Worked, DoComplete;
    var g := s.targets[t];
    if s.workers[i].pc.ref.target == t && Stopping(cfg, s, g) { DiscardWorked(cfg, s, g); }
  }

  lemma DiscardWorked(cfg: Config, s: State, g: Target)
    requires Stopping(cfg, s, g) && g.pending >= 1
    ensures Worked(cfg, s, g, DoComplete(g).(cut := true))
  {
    hide ScanErr;
    if g.pending == 1 {
      assert DoComplete(g) == g.(pending := 0, zeros := g.zeros + 1, done := true);
    } else {
      assert DoComplete(g) == g.(pending := g.pending - 1);
    }
    hide DoComplete;
  }

  lemma TouchFinish(s: State, i: int, t: int, cfg: Config)
    requires AtWorker(s, i) && s.workers[i].pc.Finishing? && HasTarget(s, s.workers[i].pc) && AtTargetIdx(s, t)
    requires s.targets[t].pending >= PcOutstanding(s.workers[i].pc, t)
    ensures Touches(cfg, s, i, DoFinish(s, i), t)
  {
  }

  lemma TouchRead(cfg: Config, s: State, i: int, n: int, eof: bool, t: int)
    requires AtWorker(s, i) && s.workers[i].pc.Reading? && HasTarget(s, s.workers[i].pc) && Reads(cfg, s, i, n, eof)
    requires AtTargetIdx(s, t) && s.targets[t].pending >= PcOutstanding(s.workers[i].pc, t)
    ensures Touches(cfg, s, i, DoRead(cfg, s, i, n, eof), t)
  {
    hide TailTally;
  }

  lemma TouchPay(cfg: Config, s: State, i: int, granted: bool, t: int)
    requires AtWorker(s, i) && s.workers[i].pc.Metered? && HasTarget(s, s.workers[i].pc) && (!granted ==> s.ctxDone)
    requires AtTargetIdx(s, t) && s.targets[t].pending >= PcOutstanding(s.workers[i].pc, t)
    ensures Touches(cfg, s, i, DoPay(s, i, granted), t)
  {
  }

  lemma TouchSift(cfg: Config, s: State, i: int, t: int)
    requires AtWorker(s, i) && s.workers[i].pc.Sifting? && HasTarget(s, s.workers[i].pc) && s.workers[i].pc.todo != []
    requires AtTargetIdx(s, t) && s.targets[t].pending >= PcOutstanding(s.workers[i].pc, t)
    ensures Touches(cfg, s, i, DoSift(cfg, s, i), t)
  {
    hide Gather, Judge, Remember;
  }

  lemma TouchFlush(cfg: Config, s: State, i: int, t: int)
    requires AtWorker(s, i) && s.workers[i].pc.Closing? && HasTarget(s, s.workers[i].pc)
    requires AtTargetIdx(s, t) && s.targets[t].pending >= PcOutstanding(s.workers[i].pc, t)
    ensures Touches(cfg, s, i, DoFlush(s, i), t)
  {
    hide PlusB, Repeat;
  }

  lemma TouchReserve(cfg: Config, s: State, i: int, t: int)
    requires AtWorker(s, i) && s.workers[i].pc.Flushed? && HasTarget(s, s.workers[i].pc)
    requires AtTargetIdx(s, t) && s.targets[t].pending >= PcOutstanding(s.workers[i].pc, t)
    ensures Touches(cfg, s, i, DoReserve(s, i), t)
  {
  }

  lemma WorkerTouches(cfg: Config, s: State, a: Action, t: int)
    requires ByWorker(a) && Can(cfg, s, a) && AtTargetIdx(s, t)
    requires s.targets[t].pending >= PcOutstanding(s.workers[a.i].pc, t)
    ensures Touches(cfg, s, a.i, Do(cfg, s, a), t)
  {
    hide DoTake, DoBegin, DoOpen, DoRead, DoPay, DoSift, DoBatchEnd, DoFlush, DoReserve, DoPush, DoFinish,
         DoCheck, DoStart, DoPushRoot, DoReport, PcOutstanding, Worked, Reads, Opens, AllReported, Wake;
    match a
    case Begin(i) => TouchBegin(cfg, s, i, t);
    case Read(i, n, eof) => TouchRead(cfg, s, i, n, eof, t);
    case Pay(i, granted) => TouchPay(cfg, s, i, granted, t);
    case Sift(i) => TouchSift(cfg, s, i, t);
    case Flush(i) => TouchFlush(cfg, s, i, t);
    case Reserve(i) => TouchReserve(cfg, s, i, t);
    case Finish(i) => TouchFinish(s, i, t, cfg);
    case _ => TouchNothing(cfg, s, a);
  }

  // The other steps of a worker leave every target alone.
  lemma TouchNothing(cfg: Config, s: State, a: Action)
    requires (a.Take? || a.Open? || a.BatchEnd? || a.Push? || a.Check? || a.Hang?) && Can(cfg, s, a)
    ensures Do(cfg, s, a).targets == s.targets && Do(cfg, s, a).ctxDone == s.ctxDone
  {
    hide DoBegin, DoRead, DoPay, DoSift, DoFlush, DoReserve, DoFinish, DoStart, DoPushRoot, DoReport,
         OpenFailTally, Donated, Refs, Reads, Opens, AllReported, Wake;
  }

  // A worker holding a directory of t finds t launched, with its latch not fired.
  lemma WorkerHolds(cfg: Config, s: State, i: int, t: int)
    requires Inv(cfg, s) && AtWorker(s, i) && AtTargetIdx(s, t)
    ensures s.targets[t].pending >= PcOutstanding(s.workers[i].pc, t)
    ensures PcOutstanding(s.workers[i].pc, t) >= 1 ==> s.targets[t].launched && s.targets[t].zeros == 0
  {
    assert Ledger(cfg, s, t, Entry, InSize) && Flags(cfg, s, t);
    hide Inv;
    PcNonNegative(s.workers[i].pc, Outstanding(t));
    SumAtLeast(s.workers, i, Outstanding(t));
    QueuedNonNegative(s, Outstanding(t));
  }

  lemma FlagsByWorker(cfg: Config, s: State, a: Action, t: int)
    requires Inv(cfg, s) && ByWorker(a) && Can(cfg, s, a) && AtTargetIdx(s, t)
    ensures AtTargetIdx(Do(cfg, s, a), t) && Flags(cfg, Do(cfg, s, a), t)
  {
    var s' := Do(cfg, s, a);
    assert Flags(cfg, s, t) && AtWorker(s, a.i);
    WorkerHolds(cfg, s, a.i, t);
    WorkerTouches(cfg, s, a, t);
    hide Inv, Do, Can, Flags, Worked;
    if s'.targets[t] == s.targets[t] { FlagsSame(cfg, s, s', t); } else { FlagsWorked(cfg, s, s', t); }
  }

  // The supervisor's reads: what each of them has established by the time it decides.
  lemma FlagsBySupervisor(cfg: Config, s: State, a: Action, t: int)
    requires Flags0(cfg, s, t) && BySupervisor(a) && Can(cfg, s, a)
    ensures AtTargetIdx(Do(cfg, s, a), t) && Flags(cfg, Do(cfg, s, a), t)
  {
    hide DoTake, DoBegin, DoOpen, DoRead, DoPay, DoSift, DoBatchEnd, DoFlush, DoReserve, DoPush, DoFinish, DoCheck,
         DoStart, DoPushRoot, DoReport, Reads, Opens, AllReported, NoFaults, ScanErr, Flags, Justified;
    if a.t != t {
      FlagsSame(cfg, s, Do(cfg, s, a), t);
    } else if a.ReadErrors? || a.Deliver? {
      VerdictFlags(cfg, s, a, t);
    } else {
      SelectFlags(cfg, s, a, t);
    }
  }

  lemma SelectFlags(cfg: Config, s: State, a: Action, t: int)
    requires Flags0(cfg, s, t) && BySupervisor(a) && !a.ReadErrors? && !a.Deliver? && a.t == t && Can(cfg, s, a)
    ensures AtTargetIdx(Do(cfg, s, a), t) && Flags(cfg, Do(cfg, s, a), t)
  {
    hide DoTake, DoBegin, DoOpen, DoRead, DoPay, DoSift, DoBatchEnd, DoFlush, DoReserve, DoPush, DoFinish, DoCheck,
         DoStart, DoPushRoot, DoReport, NoFaults, Reads, Opens, AllReported;
  }

  lemma VerdictFlags(cfg: Config, s: State, a: Action, t: int)
    requires Flags0(cfg, s, t) && (a.ReadErrors? || a.Deliver?) && a.t == t && Can(cfg, s, a)
    ensures AtTargetIdx(Do(cfg, s, a), t) && Flags(cfg, Do(cfg, s, a), t)
  {
    hide DoTake, DoBegin, DoOpen, DoRead, DoPay, DoSift, DoBatchEnd, DoFlush, DoReserve, DoPush, DoFinish, DoCheck,
         DoStart, DoPushRoot, NoFaults, Reads, Opens, AllReported;
  }

  predicate Flags0(cfg: Config, s: State, t: int) { AtTargetIdx(s, t) && Flags(cfg, s, t) }

  lemma FlagsStart(cfg: Config, s: State, t: int)
    requires Flags0(cfg, s, t) && Stage(s) && s.main.AtTarget? && 0 <= s.main.k < |s.targets|
    requires !s.targets[t].launched ==> s.targets[t].pending == 0 && !s.targets[t].cut
    ensures AtTargetIdx(DoStart(cfg, s), t) && Flags(cfg, DoStart(cfg, s), t)
  {
    hide NoFaults, RootFaults, Flags, RootReady, FenceOf, RootOutcome;
    if t != s.main.k { FlagsSame(cfg, s, DoStart(cfg, s), t); } else { FlagsOfStarted(cfg, s); }
  }

  lemma FlagsOfStarted(cfg: Config, s: State)
    requires Stage(s) && s.main.AtTarget? && 0 <= s.main.k < |s.targets| && Flags0(cfg, s, s.main.k)
    requires !s.targets[s.main.k].launched ==> s.targets[s.main.k].pending == 0 && !s.targets[s.main.k].cut
    ensures Flags(cfg, DoStart(cfg, s), s.main.k)
  {
    hide NoFaults, RootFaults, ScanErr, FenceOf;
    var g := DoStart(cfg, s).targets[s.main.k];
    assert g == Launch(cfg, s.targets[s.main.k]);
    hide DoStart;
  }

  lemma FlagsPushRoot(cfg: Config, s: State, t: int)
    requires Flags0(cfg, s, t) && Stage(s) && s.main.RootReserved? && 0 <= s.main.k < |s.targets|
    ensures AtTargetIdx(DoPushRoot(s), t) && Flags(cfg, DoPushRoot(s), t)
  {
    hide NoFaults;
    if t != s.main.k { FlagsSame(cfg, s, DoPushRoot(s), t); }
  }

  lemma FlagsScanCtx(cfg: Config, s: State, u: int, t: int)
    requires Flags0(cfg, s, t) && AtTargetIdx(s, u) && cfg.scanTimeout
    ensures Flags(cfg, SetTarget(s, u, s.targets[u].(scanDone := true)), t)
  {
    hide NoFaults;
  }

  lemma FlagsByMain(cfg: Config, s: State, a: Action, t: int)
    requires Flags0(cfg, s, t) && Stage(s) && !ByWorker(a) && !BySupervisor(a) && Can(cfg, s, a)
    requires !s.targets[t].launched ==> s.targets[t].pending == 0 && !s.targets[t].cut
    ensures AtTargetIdx(Do(cfg, s, a), t) && Flags(cfg, Do(cfg, s, a), t)
  {
    hide Flags, Stage, DoStart, DoPushRoot;
    if a.Start? {
      FlagsStart(cfg, s, t);
    } else if a.PushRoot? {
      FlagsPushRoot(cfg, s, t);
    } else if a.ScanCtxFires? {
      FlagsScanCtx(cfg, s, a.t, t);
    } else {
      FlagsSame(cfg, s, Do(cfg, s, a), t);
    }
  }

  lemma FlagsKept(cfg: Config, s: State, a: Action, t: int)
    requires Inv(cfg, s) && Can(cfg, s, a) && AtTargetIdx(s, t)
    ensures AtTargetIdx(Do(cfg, s, a), t) && Flags(cfg, Do(cfg, s, a), t)
  {
    if ByWorker(a) {
      FlagsByWorker(cfg, s, a, t);
    } else {
      assert Ledger(cfg, s, t, Entry, InSize) && Flags(cfg, s, t);
      hide Inv, Do, Can, Flags, Stage, InFlight;
      if BySupervisor(a) { FlagsBySupervisor(cfg, s, a, t); } else { FlagsByMain(cfg, s, a, t); }
    }
  }

  // --- shape -------------------------------------------------------------------------------------

  // One worker moves, the deque shrinks or stays, the pool does not close.
  lemma ShapeMoved(s: State, i: int, w: Worker, s': State)
    requires Shape(s) && AtWorker(s, i) && s'.workers == s.workers[i := w] && |s'.targets| == |s.targets|
    requires s'.closed == s.closed && s'.ctxDone == s.ctxDone
    requires (forall r | r in s'.deque :: r in s.deque) && (s.deque == [] ==> s'.deque == [])
    requires WorkerOk(s', w)
    ensures Shape(s')
  {
    hide PcOk;
    forall j | 0 <= j < |s'.workers| ensures WorkerOk(s', s'.workers[j]) {
      if j != i { assert WorkerOk(s, s.workers[j]); }
    }
  }

  lemma ShapeTake(s: State, i: int)
    requires Shape(s) && AtWorker(s, i) && (s.workers[i].pc.Ready? || s.workers[i].pc.Looking?)
    ensures Shape(DoTake(s, i))
  {
    var s' := DoTake(s, i);
    assert WorkerOk(s, s.workers[i]);
    ShapeMoved(s, i, s'.workers[i], s');
  }

  // Every other step of a worker that keeps its stack.
  lemma ShapeStep(cfg: Config, s: State, a: Action)
    requires Shape(s) && ByWorker(a) && !a.Take? && !a.Push? && Can(cfg, s, a)
    ensures Shape(Do(cfg, s, a))
  {
    var s' := Do(cfg, s, a);
    assert WorkerOk(s, s.workers[a.i]);
    StepOk(cfg, s, a);
    hide Shape, Do, Can;
    ShapeMoved(s, a.i, s'.workers[a.i], s');
  }

  predicate Steps(s: State, i: int, s': State) {
    && AtWorker(s, i) && |s'.workers| == |s.workers|
    && s'.workers == s.workers[i := s.workers[i].(pc := s'.workers[i].pc)]
    && |s'.targets| == |s.targets| && s'.closed == s.closed && s'.ctxDone == s.ctxDone && s'.deque == s.deque
    && WorkerOk(s', s'.workers[i])
  }

  lemma StepOk(cfg: Config, s: State, a: Action)
    requires ByWorker(a) && !a.Take? && !a.Push? && Can(cfg, s, a) && WorkerOk(s, s.workers[a.i])
    ensures Steps(s, a.i, Do(cfg, s, a))
  {
    hide Do, Can, WorkerOk, Steps;
    if a.Begin? || a.Open? || a.Read? || a.Pay? {
      ReaderStepOk(cfg, s, a);
    } else if a.Flush? || a.Reserve? || a.Finish? {
      PublisherStepOk(cfg, s, a);
    } else {
      PlainStepOk(cfg, s, a);
    }
  }

  lemma PlainStepOk(cfg: Config, s: State, a: Action)
    requires a.Sift? || a.BatchEnd? || a.Check? || a.Hang?
    requires Can(cfg, s, a) && WorkerOk(s, s.workers[a.i])
    ensures Steps(s, a.i, Do(cfg, s, a))
  {
    hide DoTake, DoBegin, DoOpen, DoRead, DoPay, DoFlush, DoReserve, DoPush, DoFinish, DoStart, DoPushRoot, DoReport,
         Note, Gather, Reads, Opens, AllReported, Wake;
  }

  lemma PublisherStepOk(cfg: Config, s: State, a: Action)
    requires a.Flush? || a.Reserve? || a.Finish?
    requires Can(cfg, s, a) && WorkerOk(s, s.workers[a.i])
    ensures Steps(s, a.i, Do(cfg, s, a))
  {
    hide DoTake, DoBegin, DoOpen, DoRead, DoPay, DoSift, DoBatchEnd, DoPush, DoCheck, DoStart, DoPushRoot, DoReport,
         PlusB, Repeat, DoComplete, Reads, Opens, AllReported, Wake;
  }

  lemma ReaderStepOk(cfg: Config, s: State, a: Action)
    requires a.Begin? || a.Open? || a.Read? || a.Pay?
    requires Can(cfg, s, a) && WorkerOk(s, s.workers[a.i])
    ensures Steps(s, a.i, Do(cfg, s, a))
  {
    hide Do, Can, WorkerOk, Steps;
    if a.Begin? || a.Open? { OpenerStepOk(cfg, s, a); } else { BatchStepOk(cfg, s, a); }
  }

  lemma OpenerStepOk(cfg: Config, s: State, a: Action)
    requires (a.Begin? || a.Open?) && Can(cfg, s, a) && WorkerOk(s, s.workers[a.i])
    ensures Steps(s, a.i, Do(cfg, s, a))
  {
    hide DoTake, DoRead, DoPay, DoSift, DoBatchEnd, DoFlush, DoReserve, DoPush, DoFinish, DoCheck, DoStart,
         DoPushRoot, DoReport, DoComplete, OpenFailTally, Stopping, Reads, Opens, AllReported, Wake;
  }

  lemma BatchStepOk(cfg: Config, s: State, a: Action)
    requires (a.Read? || a.Pay?) && Can(cfg, s, a) && WorkerOk(s, s.workers[a.i])
    ensures Steps(s, a.i, Do(cfg, s, a))
  {
    hide DoTake, DoBegin, DoOpen, DoSift, DoBatchEnd, DoFlush, DoReserve, DoPush, DoFinish, DoCheck, DoStart,
         DoPushRoot, DoReport, TailTally, Stopping, Opens, AllReported, Wake;
  }

  lemma ShapeWoken(s: State, s': State)
    requires Shape(s) && s'.workers == Wake(s.workers) && |s'.targets| == |s.targets| && RefsIn(s'.deque, |s.targets|)
    requires (s.closed ==> s'.closed) && (s.ctxDone ==> s'.ctxDone)
    ensures Shape(s')
  {
    hide PcOk;
    forall j | 0 <= j < |s'.workers| ensures WorkerOk(s', s'.workers[j]) {
      assert WorkerOk(s, s.workers[j]);
      WokenOk(s.workers[j].pc, |s.targets|);
    }
  }

  lemma WokenOk(pc: Pc, n: int)
    requires PcOk(pc, n)
    ensures PcOk(if pc.Parked? then Looking else pc, n)
  {
  }

  lemma ShapePush(cfg: Config, s: State, i: int)
    requires Shape(s) && AtWorker(s, i) && s.workers[i].pc.Reserved?
    ensures Shape(DoPush(cfg, s, i))
  {
    var w := s.workers[i];
    var local := w.local + Refs(w.pc.ref.target, w.pc.kids);
    var n := Donated(cfg.limit, cfg.shareOver, s.deque, local);
    var w' := Worker(local[n..], Finishing(w.pc.ref));
    var mid := s.(workers := s.workers[i := w']);
    assert WorkerOk(s, w);
    assert RefsIn(local, |s.targets|);
    ShapeMoved(s, i, w', mid);
    var s' := DoPush(cfg, s, i);
    assert RefsIn(s.deque + local[..n], |s.targets|);
    if n > 0 {
      hide Shape;
      ShapeWoken(mid, s');
    } else {
      assert s.deque + local[..n] == s.deque;
      assert s' == mid;
    }
  }

  lemma ShapeByMain(cfg: Config, s: State, a: Action)
    requires Shape(s) && Stage(s) && !ByWorker(a) && Can(cfg, s, a)
    ensures Shape(Do(cfg, s, a))
  {
    hide DoTake, DoBegin, DoOpen, DoRead, DoPay, DoSift, DoBatchEnd, DoFlush, DoReserve, DoPush, DoFinish, DoCheck,
         DoReport, Launch, PcOk, NoFaults, ScanErr, AllReported, Reads, Opens, Started, Unstarted;
    var s' := Do(cfg, s, a);
    if a.PushRoot? || a.ClosePool? {
      ShapeWoken(s, s');
    } else {
      forall j | 0 <= j < |s'.workers| ensures WorkerOk(s', s'.workers[j]) { assert WorkerOk(s, s.workers[j]); }
    }
  }

  lemma ShapeKept(cfg: Config, s: State, a: Action)
    requires Inv(cfg, s) && Can(cfg, s, a)
    ensures Shape(Do(cfg, s, a))
  {
    hide Flags, Ledger, Gauges, Shape, Stage, DoTake, DoPush;
    if a.Take? {
      ShapeTake(s, a.i);
    } else if a.Push? {
      ShapePush(cfg, s, a.i);
    } else if ByWorker(a) {
      ShapeStep(cfg, s, a);
    } else {
      ShapeByMain(cfg, s, a);
    }
  }

  // --- stage -------------------------------------------------------------------------------------

  lemma WorkerLeavesMain(cfg: Config, s: State, a: Action)
    requires ByWorker(a) && Can(cfg, s, a)
    ensures LeavesMain(s, Do(cfg, s, a))
  {
    hide Do, Can, LeavesMain;
    if a.Begin? || a.Open? || a.Read? || a.Pay? || a.Sift? {
      ReaderLeavesMain(cfg, s, a);
    } else if a.Flush? || a.Reserve? || a.Finish? {
      PublisherLeavesMain(cfg, s, a);
    } else {
      PlainLeavesMain(cfg, s, a);
    }
  }

  lemma PlainLeavesMain(cfg: Config, s: State, a: Action)
    requires Can(cfg, s, a) && (a.Take? || a.Push? || a.BatchEnd? || a.Check? || a.Hang?)
    ensures LeavesMain(s, Do(cfg, s, a))
  {
    hide DoBegin, DoOpen, DoRead, DoPay, DoSift, DoFlush, DoReserve, DoFinish, DoStart, DoPushRoot, DoReport, Wake,
         Refs, Donated, Reads, Opens, AllReported;
  }

  predicate LeavesMain(s: State, s': State) {
    s'.main == s.main && s'.hand == s.hand && s'.lost == s.lost && s'.closed == s.closed && s'.leaked == s.leaked
    && s'.rootPushes == s.rootPushes && s'.gauge == s.gauge && |s'.targets| == |s.targets|
  }

  lemma ReaderLeavesMain(cfg: Config, s: State, a: Action)
    requires Can(cfg, s, a) && (a.Begin? || a.Open? || a.Read? || a.Pay? || a.Sift?)
    ensures LeavesMain(s, Do(cfg, s, a))
  {
    hide DoTake, DoBatchEnd, DoFlush, DoReserve, DoPush, DoFinish, DoCheck, DoStart, DoPushRoot, DoReport, Note,
         Gather, DoComplete, OpenFailTally, TailTally, Stopping, Reads, Opens, AllReported, Wake;
  }

  lemma PublisherLeavesMain(cfg: Config, s: State, a: Action)
    requires Can(cfg, s, a) && (a.Flush? || a.Reserve? || a.Finish?)
    ensures LeavesMain(s, Do(cfg, s, a))
  {
    hide DoTake, DoBegin, DoOpen, DoRead, DoPay, DoSift, DoBatchEnd, DoPush, DoCheck, DoStart, DoPushRoot, DoReport,
         PlusB, Repeat, DoComplete, Reads, Opens, AllReported, Wake;
  }

  lemma StageByWorker(cfg: Config, s: State, a: Action)
    requires Inv(cfg, s) && ByWorker(a) && Can(cfg, s, a)
    ensures Stage(Do(cfg, s, a))
  {
    hide Inv, Do, Can, Stage, Shape, Gauges;
    var s' := Do(cfg, s, a);
    IsAWorker(cfg, s, a);
    WorkerLeavesMain(cfg, s, a);
    forall t | AtTargetIdx(s, t) ensures Tame(s.targets[t], s'.targets[t]) {
      WorkerHolds(cfg, s, a.i, t);
      WorkerTouches(cfg, s, a, t);
    }
    UseInv(cfg, s);
    StageTame(s, s');
  }

  lemma IsAWorker(cfg: Config, s: State, a: Action)
    requires ByWorker(a) && Can(cfg, s, a)
    ensures AtWorker(s, a.i)
  {
    hide Reads, Opens, AllReported;
  }

  lemma StageTame(s: State, s': State)
    requires Stage(s) && s'.main == s.main && s'.hand == s.hand && s'.lost == s.lost && s'.closed == s.closed
    requires |s'.targets| == |s.targets| && forall t | AtTargetIdx(s, t) :: Tame(s.targets[t], s'.targets[t])
    ensures Stage(s')
  {
  }

  lemma UseInv(cfg: Config, s: State)
    requires Inv(cfg, s)
    ensures Shape(s) && Stage(s) && Gauges(cfg, s)
  {
  }

  lemma StageByMain(cfg: Config, s: State, a: Action)
    requires Stage(s) && !ByWorker(a) && Can(cfg, s, a)
    requires forall t | AtTargetIdx(s, t) && !s.targets[t].launched :: s.targets[t].sup.Unborn? || s.targets[t].sup.Reported?
    ensures Stage(Do(cfg, s, a))
  {
    hide Do, Can, Stage;
    if BySupervisor(a) {
      StageBySupervisor(cfg, s, a);
    } else if a.Start? {
      StageByStart(cfg, s);
    } else {
      StageByRest(cfg, s, a);
    }
  }

  lemma StageByStart(cfg: Config, s: State)
    requires Stage(s) && Can(cfg, s, Start)
    ensures Stage(Do(cfg, s, Start))
  {
    hide DoTake, DoBegin, DoOpen, DoRead, DoPay, DoSift, DoBatchEnd, DoFlush, DoReserve, DoPush, DoFinish,
         DoCheck, DoPushRoot, DoReport, RootOutcome, RootFaults, FenceOf, NoFaults, Reads, Opens, AllReported, Wake;
  }

  lemma StageByRest(cfg: Config, s: State, a: Action)
    requires Stage(s) && !ByWorker(a) && !BySupervisor(a) && !a.Start? && Can(cfg, s, a)
    requires forall t | AtTargetIdx(s, t) && !s.targets[t].launched :: s.targets[t].sup.Unborn? || s.targets[t].sup.Reported?
    ensures Stage(Do(cfg, s, a))
  {
    hide DoTake, DoBegin, DoOpen, DoRead, DoPay, DoSift, DoBatchEnd, DoFlush, DoReserve, DoPush, DoFinish,
         DoCheck, DoStart, DoReport, NoFaults, ScanErr, Reads, Opens, Wake;
  }

  lemma StageBySupervisor(cfg: Config, s: State, a: Action)
    requires Stage(s) && BySupervisor(a) && Can(cfg, s, a)
    requires forall t | AtTargetIdx(s, t) && !s.targets[t].launched :: s.targets[t].sup.Unborn? || s.targets[t].sup.Reported?
    ensures Stage(Do(cfg, s, a))
  {
    hide Do, Can, Stage;
    SupervisorKeepsRest(cfg, s, a);
    StageOfSupervised(s, Do(cfg, s, a), a.t);
  }

  // A supervisor's step concerns its own target, which has been started and not reported.
  lemma SupervisorKeepsRest(cfg: Config, s: State, a: Action)
    requires BySupervisor(a) && Can(cfg, s, a)
    ensures var s' := Do(cfg, s, a);
      && AtTargetIdx(s, a.t) && s'.main == s.main && s'.hand == s.hand && s'.lost == s.lost && s'.closed == s.closed
      && s'.targets == s.targets[a.t := s'.targets[a.t]]
      && !s.targets[a.t].sup.Unborn? && !s.targets[a.t].sup.Reported? && !s'.targets[a.t].sup.Unborn?
      && s'.targets[a.t].launched == s.targets[a.t].launched
  {
    hide DoTake, DoBegin, DoOpen, DoRead, DoPay, DoSift, DoBatchEnd, DoFlush, DoReserve, DoPush, DoFinish,
         DoCheck, DoStart, DoPushRoot, NoFaults, ScanErr, Reads, Opens, AllReported, Wake;
  }

  lemma StageOfSupervised(s: State, s': State, t: int)
    requires Stage(s) && AtTargetIdx(s, t) && s'.main == s.main && s'.hand == s.hand && s'.lost == s.lost && s'.closed == s.closed
    requires |s'.targets| == |s.targets| && s'.targets == s.targets[t := s'.targets[t]]
    requires !s.targets[t].sup.Unborn? && !s.targets[t].sup.Reported? && !s'.targets[t].sup.Unborn?
    requires s'.targets[t].launched == s.targets[t].launched
    requires forall u | AtTargetIdx(s, u) && !s.targets[u].launched :: s.targets[u].sup.Unborn? || s.targets[u].sup.Reported?
    ensures Stage(s')
  {
    assert s.targets[t].launched;
    assert !s.closed;
  }

  // --- gauges ------------------------------------------------------------------------------------

  lemma GaugesByWorker(cfg: Config, s: State, a: Action)
    requires Inv(cfg, s) && ByWorker(a) && Can(cfg, s, a)
    ensures Gauges(cfg, Do(cfg, s, a))
  {
    hide DoTake, DoBegin, DoOpen, DoRead, DoPay, DoSift, DoBatchEnd, DoFlush, DoReserve, DoPush, DoFinish, DoCheck,
         DoStart, DoPushRoot, DoReport, Inv, Gauges, Stage, WorkerOk, Reads, Opens, AllReported, Wake;
    UseInv(cfg, s);
    assert WorkerOk(s, s.workers[a.i]);
    if a.Take? {
      GaugesTake(cfg, s, a.i);
    } else if a.Push? {
      GaugesPush(cfg, s, a.i);
    } else {
      GaugesStep(cfg, s, a);
    }
  }

  lemma GaugesStep(cfg: Config, s: State, a: Action)
    requires Gauges(cfg, s) && ByWorker(a) && !a.Take? && !a.Push? && Can(cfg, s, a)
    requires AtWorker(s, a.i) && WorkerOk(s, s.workers[a.i])
    ensures Gauges(cfg, Do(cfg, s, a))
  {
    hide Do, Can, WorkerOk, Sum;
    var s' := Do(cfg, s, a);
    WorkerLeavesMain(cfg, s, a);
    StepOk(cfg, s, a);
    StepGauges(cfg, s, a);
    SumUpdate(s.workers, a.i, s'.workers[a.i], Live);
    SumUpdate(s.workers, a.i, s'.workers[a.i], Handles);
  }

  predicate GaugesMove(s: State, i: int, s': State)
    requires AtWorker(s, i) && AtWorker(s', i)
  {
    && s'.live - s.live == One(!s'.workers[i].pc.Exited?) - One(!s.workers[i].pc.Exited?)
    && s'.open - s.open == PcHandles(s'.workers[i].pc) - PcHandles(s.workers[i].pc)
  }

  lemma StepGauges(cfg: Config, s: State, a: Action)
    requires ByWorker(a) && !a.Take? && !a.Push? && Can(cfg, s, a) && WorkerOk(s, s.workers[a.i])
    ensures |Do(cfg, s, a).workers| == |s.workers| && GaugesMove(s, a.i, Do(cfg, s, a))
  {
    hide Do, Can, WorkerOk, GaugesMove;
    if a.Begin? || a.Open? || a.Read? || a.Pay? {
      ReaderGauges(cfg, s, a);
    } else if a.Flush? || a.Reserve? || a.Finish? {
      PublisherGauges(cfg, s, a);
    } else {
      PlainGauges(cfg, s, a);
    }
  }

  lemma PlainGauges(cfg: Config, s: State, a: Action)
    requires a.Sift? || a.BatchEnd? || a.Check? || a.Hang?
    requires Can(cfg, s, a) && WorkerOk(s, s.workers[a.i])
    ensures |Do(cfg, s, a).workers| == |s.workers| && GaugesMove(s, a.i, Do(cfg, s, a))
  {
    hide DoTake, DoBegin, DoOpen, DoRead, DoPay, DoFlush, DoReserve, DoPush, DoFinish, DoStart, DoPushRoot, DoReport,
         Note, Gather, Reads, Opens, AllReported, Wake;
  }

  lemma PublisherGauges(cfg: Config, s: State, a: Action)
    requires a.Flush? || a.Reserve? || a.Finish?
    requires Can(cfg, s, a) && WorkerOk(s, s.workers[a.i])
    ensures |Do(cfg, s, a).workers| == |s.workers| && GaugesMove(s, a.i, Do(cfg, s, a))
  {
    hide DoTake, DoBegin, DoOpen, DoRead, DoPay, DoSift, DoBatchEnd, DoPush, DoCheck, DoStart, DoPushRoot, DoReport,
         PlusB, Repeat, DoComplete, Reads, Opens, AllReported, Wake;
  }

  lemma ReaderGauges(cfg: Config, s: State, a: Action)
    requires a.Begin? || a.Open? || a.Read? || a.Pay?
    requires Can(cfg, s, a) && WorkerOk(s, s.workers[a.i])
    ensures |Do(cfg, s, a).workers| == |s.workers| && GaugesMove(s, a.i, Do(cfg, s, a))
  {
    hide Do, Can, WorkerOk, GaugesMove;
    if a.Begin? || a.Open? { OpenerGauges(cfg, s, a); } else { BatchGauges(cfg, s, a); }
  }

  lemma OpenerGauges(cfg: Config, s: State, a: Action)
    requires (a.Begin? || a.Open?) && Can(cfg, s, a) && WorkerOk(s, s.workers[a.i])
    ensures |Do(cfg, s, a).workers| == |s.workers| && GaugesMove(s, a.i, Do(cfg, s, a))
  {
    hide DoTake, DoRead, DoPay, DoSift, DoBatchEnd, DoFlush, DoReserve, DoPush, DoFinish, DoCheck, DoStart,
         DoPushRoot, DoReport, DoComplete, OpenFailTally, Stopping, Reads, Opens, AllReported, Wake;
  }

  lemma BatchGauges(cfg: Config, s: State, a: Action)
    requires (a.Read? || a.Pay?) && Can(cfg, s, a) && WorkerOk(s, s.workers[a.i])
    ensures |Do(cfg, s, a).workers| == |s.workers| && GaugesMove(s, a.i, Do(cfg, s, a))
  {
    hide DoTake, DoBegin, DoOpen, DoSift, DoBatchEnd, DoFlush, DoReserve, DoPush, DoFinish, DoCheck, DoStart,
         DoPushRoot, DoReport, TailTally, Stopping, Opens, AllReported, Wake, Reads;
  }

  lemma GaugesTake(cfg: Config, s: State, i: int)
    requires Gauges(cfg, s) && AtWorker(s, i) && (s.workers[i].pc.Ready? || s.workers[i].pc.Looking?)
    ensures Gauges(cfg, DoTake(s, i))
  {
    hide Sum;
    var s' := DoTake(s, i);
    TakeTouchesOne(s, i);
    GaugeUpdate(s.workers, i, s'.workers[i], Live);
    GaugeUpdate(s.workers, i, s'.workers[i], Handles);
  }

  lemma TakeTouchesOne(s: State, i: int)
    requires AtWorker(s, i) && (s.workers[i].pc.Ready? || s.workers[i].pc.Looking?)
    ensures DoTake(s, i).workers == s.workers[i := DoTake(s, i).workers[i]]
  {
  }

  lemma GaugeUpdate(ws: seq<Worker>, i: int, w: Worker, l: Lens)
    requires 0 <= i < |ws| && (l.Live? || l.Handles?)
    ensures Sum(ws[i := w], l) == Sum(ws, l) - OfPc(ws[i].pc, l) + OfPc(w.pc, l)
    ensures Sum(Wake(ws[i := w]), l) == Sum(ws[i := w], l)
  {
    SumUpdate(ws, i, w, l);
    NoGaugeInRefs(ws[i].local, l);
    NoGaugeInRefs(w.local, l);
    SumWake(ws[i := w], l);
  }

  lemma {:induction false} NoGaugeInRefs(refs: seq<Ref>, l: Lens)
    requires l.Live? || l.Handles?
    ensures OfRefs(refs, l) == 0
  {
    if refs == [] {
    } else {
      NoGaugeInRefs(refs[1..], l);
    }
  }

  lemma GaugesPush(cfg: Config, s: State, i: int)
    requires Gauges(cfg, s) && AtWorker(s, i) && s.workers[i].pc.Reserved?
    ensures Gauges(cfg, DoPush(cfg, s, i))
  {
    hide Refs, Sum, Wake;
    var w := s.workers[i];
    var local := w.local + Refs(w.pc.ref.target, w.pc.kids);
    var n := Donated(cfg.limit, cfg.shareOver, s.deque, local);
    var w' := Worker(local[n..], Finishing(w.pc.ref));
    GaugeUpdate(s.workers, i, w', Live);
    GaugeUpdate(s.workers, i, w', Handles);
  }

  lemma GaugesByMain(cfg: Config, s: State, a: Action)
    requires Gauges(cfg, s) && Stage(s) && !ByWorker(a) && Can(cfg, s, a)
    ensures Gauges(cfg, Do(cfg, s, a))
  {
    hide DoTake, DoBegin, DoOpen, DoRead, DoPay, DoSift, DoBatchEnd, DoFlush, DoReserve, DoPush, DoFinish, DoCheck,
         DoReport, Launch, Sum, Wake, NoFaults, ScanErr, AllReported, Reads, Opens, Started, Unstarted;
    SumWake(s.workers, Live);
    SumWake(s.workers, Handles);
  }

  // --- the invariant -----------------------------------------------------------------------------

  lemma StepKeeps(cfg: Config, s: State, a: Action)
    requires Inv(cfg, s) && Can(cfg, s, a)
    ensures Inv(cfg, Do(cfg, s, a))
  {
    var s' := Do(cfg, s, a);
    SameTargets(cfg, s, a);
    UseInv(cfg, s);
    forall t, x, c | AtTargetIdx(s', t) ensures Ledger(cfg, s', t, x, c) { LedgerKept(cfg, s, a, t, x, c); }
    forall t | AtTargetIdx(s', t) ensures Flags(cfg, s', t) { FlagsKept(cfg, s, a, t); }
    ShapeKept(cfg, s, a);
    forall t | AtTargetIdx(s, t) && !s.targets[t].launched
      ensures s.targets[t].sup.Unborn? || s.targets[t].sup.Reported? { assert Flags(cfg, s, t); }
    if ByWorker(a) {
      StageByWorker(cfg, s, a);
      GaugesByWorker(cfg, s, a);
    } else {
      StageByMain(cfg, s, a);
      GaugesByMain(cfg, s, a);
    }
    hide Do, Can, Shape, Stage, Gauges, Flags, Ledger;
  }

  lemma {:induction false} NobodyBusy(ws: seq<Worker>, l: Lens)
    requires forall i | 0 <= i < |ws| :: ws[i] == Worker([], Ready)
    ensures Sum(ws, l) == if l.Live? || l.Work? then |ws| else 0
  {
    if ws == [] {
    } else {
      NobodyBusy(ws[1..], l);
    }
  }

  lemma FreshInv(cfg: Config, s: State)
    requires ValidConfig(cfg) && Fresh(s)
    ensures Inv(cfg, s)
  {
    forall t, x, c | AtTargetIdx(s, t) ensures Ledger(cfg, s, t, x, c) {
      NobodyBusy(s.workers, Outstanding(t)); NobodyBusy(s.workers, Held(t, x));
      NobodyBusy(s.workers, Owed(t, s.targets[t].fence, x)); NobodyBusy(s.workers, Purse(t, c));
    }
    NobodyBusy(s.workers, Live);
    NobodyBusy(s.workers, Handles);
  }

  lemma {:induction false} RunKeeps(cfg: Config, s: State, acts: seq<Action>, s': State)
    requires Inv(cfg, s) && Reaches(cfg, s, acts, s')
    ensures Inv(cfg, s')
    decreases |acts|
  {
    hide Inv, Do, Can;
    if acts == [] {
    } else {
      StepKeeps(cfg, s, acts[0]);
      RunKeeps(cfg, Do(cfg, s, acts[0]), acts[1..], s');
    }
  }

  // The invariant holds in every state of every run of a scan cycle.
  lemma ReachableInv(cfg: Config, s: State)
    requires Reachable(cfg, s)
    ensures Inv(cfg, s)
  {
    hide Inv, Reaches;
    var init: State, acts: seq<Action> :| Fresh(init) && Reaches(cfg, init, acts, s);
    FreshInv(cfg, init);
    RunKeeps(cfg, init, acts, s);
  }
}
