// The invariant of a scan cycle, and that every action of every goroutine keeps it.

module ScanInvariant {
  import opened Options
  import opened FsErrors
  import opened FileTree
  import opened HardLinks
  import opened Outcomes
  import opened ScanProtocol
  import opened ScanLedger

  // --- shape ------------------------------------------------------------------------------------

  predicate RefsIn(refs: seq<Ref>, n: int) { forall r | r in refs :: 0 <= r.target < n }

  predicate PcOk(pc: Pc, n: int) {
    match pc
    case Holding(r) => 0 <= r.target < n
    case Opening(r) => 0 <= r.target < n
    case Reading(r, _, _, _) => 0 <= r.target < n && r.tree.Listing?
    case Metered(r, todo, rest, tail, eof, _) =>
      0 <= r.target < n && r.tree.Listing? && todo != [] && (eof ==> rest == [] && tail.Eof?)
    case Sifting(r, _, rest, tail, eof, _) => 0 <= r.target < n && r.tree.Listing? && (eof ==> rest == [] && tail.Eof?)
    case Closing(r, _) => 0 <= r.target < n
    case Flushed(r, _) => 0 <= r.target < n
    case Reserved(r, kids) => 0 <= r.target < n
    case Finishing(r) => 0 <= r.target < n
    case Hung(inside) => InCall(inside) && PcOk(inside, n)
    case _ => true
  }

  predicate WorkerOk(s: State, w: Worker) {
    && RefsIn(w.local, |s.targets|)
    && PcOk(w.pc, |s.targets|)
    && (w.pc.Parked? || w.pc.Looking? ==> w.local == [])
    && (w.pc.Parked? ==> s.deque == [] && !s.closed)
    && (w.pc.Exited? ==> s.closed || s.ctxDone)
  }

  predicate Shape(s: State) {
    && (forall i | 0 <= i < |s.workers| :: WorkerOk(s, s.workers[i]))
    && RefsIn(s.deque, |s.targets|)
  }

  // Where the main goroutine is decides which targets have started and whether the pool is open.
  predicate Stage(s: State) {
    && (s.closed <==> s.main.DrainingPool? || s.main.Returned?)
    && (s.closed ==> AllReported(s))
    && (!s.closed ==> s.lost == [])
    && (!s.main.RootReserved? ==> s.hand == [])
    && match s.main
       case AtTarget(k) => 0 <= k <= |s.targets| && Unstarted(s, k) && Started(s, k)
       case RootReserved(k) => 0 <= k < |s.targets| && Unstarted(s, k + 1) && Started(s, k)
         && s.targets[k].launched && s.targets[k].sup.Unborn? && s.hand == [Ref(k, s.targets[k].tree)]
       case _ => Started(s, |s.targets|)
  }

  predicate Unstarted(s: State, from: int)
    requires 0 <= from
  {
    forall t | from <= t < |s.targets| :: s.targets[t].sup.Unborn? && !s.targets[t].launched
  }

  predicate Started(s: State, upTo: int)
    requires upTo <= |s.targets|
  {
    forall t | 0 <= t < upTo :: !s.targets[t].sup.Unborn?
  }

  predicate Gauges(cfg: Config, s: State) {
    && s.leaked >= 0 && s.rootPushes >= 0
    && s.live == s.leaked + Sum(s.workers, Live)
    && s.open == Sum(s.workers, Handles)
    && |s.deque| <= cfg.limit + s.rootPushes
  }

  // --- the ledger of one target, for one counter x and one dedup counter c ------------------------

  ghost predicate Ledger(cfg: Config, s: State, t: int, x: Fact, c: Coin)
    requires AtTargetIdx(s, t)
  {
    Balanced(cfg.policy, s.targets[t], x, c, InFlight(s, Outstanding(t)), InFlight(s, Held(t, x)),
             InFlight(s, Owed(t, s.targets[t].fence, x)), InFlight(s, Purse(t, c)))
  }

  // outstanding: directories in flight; held, purse: counted and not flushed; owed: still to be counted.
  ghost predicate Balanced(p: Policy, g: Target, x: Fact, c: Coin, outstanding: int, held: int, owed: int, purse: int) {
    var books := PostAll(g.order, p);
    && g.pending == outstanding
    && (g.launched && !g.cut ==> g.flushed[x] + held + owed == Measure(g.tree, g.fence, x))
    && (x.Met? ==> multiset(g.order)[x.f] == g.flushed[x] + held)
    && CoinOf(g.bytes, c) + purse == CoinOf(books.bytes, c)
    && g.inodes == books.inodes && g.exhausted == books.exhausted
    && (!g.launched ==> g.pending == 0 && !g.cut)
    && (g.sup.Unborn? && !g.launched ==> g.flushed == multiset{})
  }

  // The latch, and what the supervisor may conclude from what it has read so far.
  predicate Flags(cfg: Config, s: State, t: int)
    requires AtTargetIdx(s, t)
  {
    var g := s.targets[t];
    && 0 <= g.zeros <= 1
    && (g.zeros == 1 ==> g.launched && g.pending == 0 && g.done)
    && (g.launched && g.pending == 0 ==> g.zeros == 1)
    && (g.done ==> g.zeros == 1 || g.abandoned)
    && (g.cut ==> g.abandoned || ScanErr(cfg, s, g) || s.ctxDone)
    && (!g.launched ==> g.sup.Unborn? || g.sup.Reported?)
    && (g.launched ==> RootReady(g.probe) && g.fence == FenceOf(cfg, g.probe))
    && g.began == One(g.launched || g.sup.Reported?)
    && g.landed == One(g.sup.Reported?)
    && (g.sup.Reported? <==> g.report.Some?)
    && (g.sup.Reported? && !g.launched ==> g.report.value.outcome.Missing? || g.report.value.outcome.RootError?)
    && match g.sup
       case Settled => g.done
       case CtxLive => g.done && (g.cut ==> g.abandoned || ScanErr(cfg, s, g))
       case ScanLive => g.zeros == 1 && !g.cut
       case Decided(o) => Justified(g, o) && o != Missing && o != RootError
       case Reported => g.launched ==>
         && Justified(g, g.report.value.outcome)
         && (g.report.value.outcome.Complete? || g.report.value.outcome.Partial? ==>
              g.report.value.tally == g.flushed && g.report.value.bytes == g.bytes
              && g.report.value.exhausted == g.exhausted)
       case _ => true
  }

  // An outcome that lets a measurement be published: the latch fired on its own and nothing was skipped.
  predicate Justified(g: Target, o: Outcome) {
    && (o.Complete? || o.Partial? ==> g.zeros == 1 && !g.cut)
    && (o.Complete? ==> NoFaults(g.flushed) && !g.exhausted)
    && (o.Partial? ==> !NoFaults(g.flushed) || g.exhausted)
  }

  ghost predicate Inv(cfg: Config, s: State) {
    && ValidConfig(cfg) && Shape(s) && Stage(s) && Gauges(cfg, s)
    && (forall t | AtTargetIdx(s, t) :: Flags(cfg, s, t))
    && (forall t, x, c | AtTargetIdx(s, t) :: Ledger(cfg, s, t, x, c))
  }

  // --- the ledger survives each action ------------------------------------------------------------

  predicate Kept(l: Lens) { l.Outstanding? || l.Owed? || l.Held? || l.Purse? }

  // The target a worker is busy with, or -1.
  function Busy(pc: Pc): int {
    match pc
    case Holding(r) => r.target
    case Opening(r) => r.target
    case Reading(r, _, _, _) => r.target
    case Metered(r, _, _, _, _, _) => r.target
    case Sifting(r, _, _, _, _, _) => r.target
    case Closing(r, _) => r.target
    case Flushed(r, _) => r.target
    case Reserved(r, _) => r.target
    case Finishing(r) => r.target
    case Hung(inside) => Busy(inside)
    case _ => -1
  }

  lemma {:induction false} NotBusy(pc: Pc, l: Lens)
    requires Kept(l) && l.t >= 0 && Busy(pc) != l.t
    ensures OfPc(pc, l) == 0
  {
    if !pc.Hung? {
    } else {
      NotBusy(pc.inside, l);
    }
  }

  // One worker moves from one program point to the next; queues and stacks stay.
  predicate Moves(s: State, i: int, pc: Pc, s': State) {
    && AtWorker(s, i)
    && s'.workers == s.workers[i := s.workers[i].(pc := pc)]
    && s'.deque == s.deque && s'.hand == s.hand && s'.lost == s.lost
  }

  lemma Stepped(s: State, i: int, pc: Pc, s': State, l: Lens)
    requires Moves(s, i, pc, s')
    ensures InFlight(s', l) == InFlight(s, l) - OfPc(s.workers[i].pc, l) + OfPc(pc, l)
  {
    SumUpdate(s.workers, i, s.workers[i].(pc := pc), l);
  }

  // The target whose ledger is looked at is not the one the worker is busy with.
  lemma Elsewhere(cfg: Config, s: State, i: int, pc: Pc, s': State, t: int, x: Fact, c: Coin)
    requires AtTargetIdx(s, t) && Ledger(cfg, s, t, x, c) && Moves(s, i, pc, s')
    requires Busy(s.workers[i].pc) != t && Busy(pc) != t
    requires |s'.targets| == |s.targets| && s'.targets[t] == s.targets[t]
    ensures Ledger(cfg, s', t, x, c)
  {
    var o, h, w, p := Outstanding(t), Held(t, x), Owed(t, s.targets[t].fence, x), Purse(t, c);
    Idle(s, i, pc, s', o); Idle(s, i, pc, s', h); Idle(s, i, pc, s', w); Idle(s, i, pc, s', p);
  }

  lemma Idle(s: State, i: int, pc: Pc, s': State, l: Lens)
    requires Moves(s, i, pc, s') && Kept(l) && l.t >= 0
    requires Busy(s.workers[i].pc) != l.t && Busy(pc) != l.t
    ensures InFlight(s', l) == InFlight(s, l)
  {
    Stepped(s, i, pc, s', l);
    NotBusy(s.workers[i].pc, l);
    NotBusy(pc, l);
  }

  // The target it is busy with: its fields and the four counts move together.
  lemma Here(cfg: Config, s: State, i: int, pc: Pc, s': State, t: int, x: Fact, c: Coin,
             o: int, h: int, w: int, p: int)
    requires AtTargetIdx(s, t) && Moves(s, i, pc, s') && |s'.targets| == |s.targets|
    requires s'.targets[t].fence == s.targets[t].fence
    requires var was := s.workers[i].pc;
      && o == PcOutstanding(pc, t) - PcOutstanding(was, t)
      && h + HaulFor(was, t).tally[x] == HaulFor(pc, t).tally[x]
      && w == PcOwed(pc, t, s.targets[t].fence, x) - PcOwed(was, t, s.targets[t].fence, x)
      && p == CoinOf(HaulFor(pc, t).bytes, c) - CoinOf(HaulFor(was, t).bytes, c)
    requires Balanced(cfg.policy, s'.targets[t], x, c, InFlight(s, Outstanding(t)) + o, InFlight(s, Held(t, x)) + h,
                      InFlight(s, Owed(t, s.targets[t].fence, x)) + w, InFlight(s, Purse(t, c)) + p)
    ensures Ledger(cfg, s', t, x, c)
  {
    Stepped(s, i, pc, s', Outstanding(t));
    Stepped(s, i, pc, s', Held(t, x));
    Stepped(s, i, pc, s', Owed(t, s.targets[t].fence, x));
    Stepped(s, i, pc, s', Purse(t, c));
  }

  // Taking a directory off a stack moves it into the worker's hands.
  lemma TakeMoves(s: State, i: int, l: Lens)
    requires AtWorker(s, i) && (s.workers[i].pc.Ready? || s.workers[i].pc.Looking?) && Kept(l)
    ensures InFlight(DoTake(s, i), l) == InFlight(s, l)
  {
    var s' := DoTake(s, i);
    var w' := s'.workers[i];
    assert s'.workers == s.workers[i := w'];
    SumUpdate(s.workers, i, w', l);
    Handover(s, i, l);
    hide DoTake, OfWorker, OfRefs, Sum;
  }

  lemma Handover(s: State, i: int, l: Lens)
    requires AtWorker(s, i) && (s.workers[i].pc.Ready? || s.workers[i].pc.Looking?) && Kept(l)
    ensures var s' := DoTake(s, i);
      OfWorker(s'.workers[i], l) + OfRefs(s'.deque, l) == OfWorker(s.workers[i], l) + OfRefs(s.deque, l)
  {
    hide Measure, MeasureDirs, OfRef, OfPc;
    var w := s.workers[i];
    if w.local != [] {
      RefsLast(w.local, l);
      InHand(w.local[|w.local| - 1], w.pc, l);
    }
    if s.deque != [] {
      RefsLast(s.deque, l);
      InHand(s.deque[|s.deque| - 1], w.pc, l);
    }
    EmptyHanded(w.pc, l);
  }

  lemma InHand(r: Ref, was: Pc, l: Lens)
    requires Kept(l) && (was.Ready? || was.Looking?)
    ensures OfPc(Holding(r), l) == OfPc(was, l) + OfRef(r, l)
  {
  }

  lemma EmptyHanded(was: Pc, l: Lens)
    requires Kept(l) && (was.Ready? || was.Looking?)
    ensures OfPc(was, l) == OfPc(Looking, l) == OfPc(Parked, l) == OfPc(Exited, l)
  {
  }

  lemma LedgerTake(cfg: Config, s: State, i: int, t: int, x: Fact, c: Coin)
    requires AtTargetIdx(s, t) && Ledger(cfg, s, t, x, c)
    requires AtWorker(s, i) && (s.workers[i].pc.Ready? || s.workers[i].pc.Looking?)
    ensures Ledger(cfg, DoTake(s, i), t, x, c)
  {
    TakeMoves(s, i, Outstanding(t)); TakeMoves(s, i, Owed(t, s.targets[t].fence, x));
    TakeMoves(s, i, Held(t, x)); TakeMoves(s, i, Purse(t, c));
  }

  lemma LedgerBegin(cfg: Config, s: State, i: int, t: int, x: Fact, c: Coin)
    requires AtTargetIdx(s, t) && Ledger(cfg, s, t, x, c) && Flags(cfg, s, t)
    requires AtWorker(s, i) && s.workers[i].pc.Holding? && HasTarget(s, s.workers[i].pc)
    ensures Ledger(cfg, DoBegin(cfg, s, i), t, x, c)
  {
    hide InFlight, Balanced, Measure, CoinOf;
    var ref := s.workers[i].pc.ref;
    if ref.target != t {
      var s' := DoBegin(cfg, s, i);
      Elsewhere(cfg, s, i, s'.workers[i].pc, s', t, x, c);
    } else if Stopping(cfg, s, s.targets[t]) {
      Discards(cfg, s, i, t, x, c);
    } else {
      GoesOn(cfg, s, i, t, x, c);
    }
  }

  lemma GoesOn(cfg: Config, s: State, i: int, t: int, x: Fact, c: Coin)
    requires AtTargetIdx(s, t) && Ledger(cfg, s, t, x, c)
    requires AtWorker(s, i) && s.workers[i].pc.Holding? && s.workers[i].pc.ref.target == t && !Stopping(cfg, s, s.targets[t])
    ensures Ledger(cfg, DoBegin(cfg, s, i), t, x, c)
  {
    hide InFlight, Balanced, Measure, CoinOf;
    Here(cfg, s, i, Opening(s.workers[i].pc.ref), DoBegin(cfg, s, i), t, x, c, 0, 0, 0, 0);
  }

  lemma Discards(cfg: Config, s: State, i: int, t: int, x: Fact, c: Coin)
    requires AtTargetIdx(s, t) && Ledger(cfg, s, t, x, c) && Flags(cfg, s, t)
    requires AtWorker(s, i) && s.workers[i].pc.Holding? && s.workers[i].pc.ref.target == t && Stopping(cfg, s, s.targets[t])
    ensures Ledger(cfg, DoBegin(cfg, s, i), t, x, c)
  {
    hide InFlight, PostAll, Measure, CoinOf;
    Holds(cfg, s, i, t, x, c);
    var g, owed: int := s.targets[t], Measure(s.workers[i].pc.ref.tree, s.targets[t].fence, x);
    Completes(cfg.policy, g, x, c, InFlight(s, Outstanding(t)), InFlight(s, Held(t, x)),
              InFlight(s, Owed(t, g.fence, x)), InFlight(s, Purse(t, c)), owed);
    hide Balanced;
    Here(cfg, s, i, Ready, DoBegin(cfg, s, i), t, x, c, -1, 0, -owed, 0);
  }

  lemma Completes(p: Policy, g: Target, x: Fact, c: Coin, o: int, h: int, w: int, q: int, skipped: int)
    requires Balanced(p, g, x, c, o, h, w, q) && g.launched
    ensures Balanced(p, DoComplete(g), x, c, o - 1, h, w, q)
    ensures Balanced(p, DoComplete(g).(cut := true), x, c, o - 1, h, w - skipped, q)
  {
    hide PostAll, Measure, CoinOf;
  }

  lemma LedgerOpen(cfg: Config, s: State, i: int, order: seq<Item>, t: int, x: Fact, c: Coin)
    requires AtTargetIdx(s, t) && Ledger(cfg, s, t, x, c)
    requires AtWorker(s, i) && s.workers[i].pc.Opening? && Opens(s.workers[i].pc.ref.tree, order)
    ensures Ledger(cfg, DoOpen(s, i, order), t, x, c)
  {
    hide InFlight, PostAll, CoinOf, MeasureItems, MeasureItem, EntryTally;
    var s' := DoOpen(s, i, order);
    var ref, pc := s.workers[i].pc.ref, s'.workers[i].pc;
    if ref.target != t {
      Elsewhere(cfg, s, i, pc, s', t, x, c);
    } else {
      OpenCounts(ref, order, t, s.targets[t].fence, x);
      var n: int := if ref.tree.Unopenable? then OpenFailTally(ref.tree.why)[x] else 0;
      Here(cfg, s, i, pc, s', t, x, c, 0, n, -n, 0);
    }
  }

  // Opening a directory turns its measure into what its listing will bring.
  lemma OpenCounts(ref: Ref, order: seq<Item>, t: int, fence: Fence, x: Fact)
    requires ref.target == t && Opens(ref.tree, order)
    ensures ref.tree.Unopenable? ==> var e := ref.tree.why;
      PcOwed(Closing(ref, NO_HAUL.(tally := OpenFailTally(e))), t, fence, x) + OpenFailTally(e)[x]
        == Measure(ref.tree, fence, x)
    ensures ref.tree.Listing? ==>
      PcOwed(Reading(ref, order, ref.tree.tail, NO_HAUL), t, fence, x) == Measure(ref.tree, fence, x)
  {
    if ref.tree.Listing? { OrderFree(order, ref.tree.items, fence, x); }
  }

  lemma LedgerRead(cfg: Config, s: State, i: int, n: int, eof: bool, t: int, x: Fact, c: Coin)
    requires AtTargetIdx(s, t) && Ledger(cfg, s, t, x, c) && Flags(cfg, s, t)
    requires AtWorker(s, i) && s.workers[i].pc.Reading? && HasTarget(s, s.workers[i].pc) && Reads(cfg, s, i, n, eof)
    ensures Ledger(cfg, DoRead(cfg, s, i, n, eof), t, x, c)
  {
    hide InFlight, Balanced, Measure, CoinOf, MeasureItem, EntryTally, PcOwed;
    var s' := DoRead(cfg, s, i, n, eof);
    var was, pc := s.workers[i].pc, s'.workers[i].pc;
    if was.ref.target != t {
      Elsewhere(cfg, s, i, pc, s', t, x, c);
    } else if Stopping(cfg, s, s.targets[t]) {
      StopsReading(cfg, s, i, s', t, x, c);
    } else if was.rest == [] {
      EndsReading(cfg, s, i, s', t, x, c);
    } else {
      ReadsOn(cfg, s, i, n, eof, t, x, c);
    }
  }

  lemma ReadsOn(cfg: Config, s: State, i: int, n: int, eof: bool, t: int, x: Fact, c: Coin)
    requires AtTargetIdx(s, t) && Ledger(cfg, s, t, x, c)
    requires AtWorker(s, i) && s.workers[i].pc.Reading? && HasTarget(s, s.workers[i].pc) && Reads(cfg, s, i, n, eof)
    requires s.workers[i].pc.ref.target == t && s.workers[i].pc.rest != [] && !Stopping(cfg, s, s.targets[t])
    ensures Ledger(cfg, DoRead(cfg, s, i, n, eof), t, x, c)
  {
    hide InFlight, Balanced, Measure, CoinOf, MeasureItems;
    var s' := DoRead(cfg, s, i, n, eof);
    var was, fence := s.workers[i].pc, s.targets[t].fence;
    assert was.rest == was.rest[..n] + was.rest[n..];
    ItemsAppend(was.rest[..n], was.rest[n..], fence, x);
    Here(cfg, s, i, s'.workers[i].pc, s', t, x, c, 0, 0, 0, 0);
  }

  lemma StopsReading(cfg: Config, s: State, i: int, s': State, t: int, x: Fact, c: Coin)
    requires AtTargetIdx(s, t) && Ledger(cfg, s, t, x, c) && Flags(cfg, s, t)
    requires AtWorker(s, i) && s.workers[i].pc.Reading? && s.workers[i].pc.ref.target == t
    requires var pc := s.workers[i].pc;
      s' == SetTarget(SetPc(s, i, Closing(pc.ref, pc.got)), t, s.targets[t].(cut := true))
    ensures Ledger(cfg, s', t, x, c)
  {
    hide InFlight, PostAll, Measure, CoinOf, MeasureItems, KidsOwed;
    var was, fence := s.workers[i].pc, s.targets[t].fence;
    Holds(cfg, s, i, t, x, c);
    var left: int := MeasureItems(was.rest, fence, x) + TailTally(was.tail)[x];
    Here(cfg, s, i, Closing(was.ref, was.got), s', t, x, c, 0, 0, -left, 0);
  }

  lemma EndsReading(cfg: Config, s: State, i: int, s': State, t: int, x: Fact, c: Coin)
    requires AtTargetIdx(s, t) && Ledger(cfg, s, t, x, c)
    requires AtWorker(s, i) && s.workers[i].pc.Reading? && s.workers[i].pc.ref.target == t && s.workers[i].pc.rest == []
    requires var pc := s.workers[i].pc;
      s' == SetPc(s, i, Closing(pc.ref, pc.got.(tally := pc.got.tally + TailTally(pc.tail))))
    ensures Ledger(cfg, s', t, x, c)
  {
    hide InFlight, PostAll, Measure, CoinOf, KidsOwed;
    var was := s.workers[i].pc;
    var n: int := TailTally(was.tail)[x];
    Here(cfg, s, i, s'.workers[i].pc, s', t, x, c, 0, n, -n, 0);
  }

  lemma LedgerPay(cfg: Config, s: State, i: int, granted: bool, t: int, x: Fact, c: Coin)
    requires AtTargetIdx(s, t) && Ledger(cfg, s, t, x, c) && Flags(cfg, s, t)
    requires AtWorker(s, i) && s.workers[i].pc.Metered? && HasTarget(s, s.workers[i].pc)
    ensures Ledger(cfg, DoPay(s, i, granted), t, x, c)
  {
    hide InFlight, Balanced, Measure, CoinOf;
    var s' := DoPay(s, i, granted);
    var was, pc := s.workers[i].pc, s'.workers[i].pc;
    if was.ref.target != t {
      Elsewhere(cfg, s, i, pc, s', t, x, c);
    } else if granted {
      Here(cfg, s, i, pc, s', t, x, c, 0, 0, 0, 0);
    } else {
      Starves(cfg, s, i, s', t, x, c);
    }
  }

  lemma Starves(cfg: Config, s: State, i: int, s': State, t: int, x: Fact, c: Coin)
    requires AtTargetIdx(s, t) && Ledger(cfg, s, t, x, c) && Flags(cfg, s, t)
    requires AtWorker(s, i) && s.workers[i].pc.Metered? && s.workers[i].pc.ref.target == t
    requires var pc := s.workers[i].pc;
      s' == SetTarget(SetPc(s, i, Closing(pc.ref, pc.got)), t, s.targets[t].(cut := true))
    ensures Ledger(cfg, s', t, x, c)
  {
    hide InFlight, PostAll, Measure, CoinOf, MeasureItems, KidsOwed;
    var was, fence := s.workers[i].pc, s.targets[t].fence;
    Holds(cfg, s, i, t, x, c);
    var left: int := MeasureItems(was.todo, fence, x) + MeasureItems(was.rest, fence, x) + TailTally(was.tail)[x];
    Here(cfg, s, i, Closing(was.ref, was.got), s', t, x, c, 0, 0, -left, 0);
  }

  lemma LedgerSift(cfg: Config, s: State, i: int, t: int, x: Fact, c: Coin)
    requires AtTargetIdx(s, t) && Ledger(cfg, s, t, x, c)
    requires AtWorker(s, i) && s.workers[i].pc.Sifting? && HasTarget(s, s.workers[i].pc) && s.workers[i].pc.todo != []
    ensures Ledger(cfg, DoSift(cfg, s, i), t, x, c)
  {
    hide InFlight, PostAll, Measure, CoinOf;
    var s' := DoSift(cfg, s, i);
    var was, pc, g := s.workers[i].pc, s'.workers[i].pc, s.targets[t];
    if was.ref.target != t {
      Elsewhere(cfg, s, i, pc, s', t, x, c);
    } else {
      SiftHere(cfg, s, i, t, x, c);
    }
  }

  lemma SiftHere(cfg: Config, s: State, i: int, t: int, x: Fact, c: Coin)
    requires AtTargetIdx(s, t) && Ledger(cfg, s, t, x, c)
    requires AtWorker(s, i) && s.workers[i].pc.Sifting? && s.workers[i].pc.ref.target == t && s.workers[i].pc.todo != []
    ensures Ledger(cfg, DoSift(cfg, s, i), t, x, c)
  {
    hide InFlight, PostAll, Measure, CoinOf, Gather, KidsOwed, MeasureItem;
    var s' := DoSift(cfg, s, i);
    var was, pc, g := s.workers[i].pc, s'.workers[i].pc, s.targets[t];
    var it := was.todo[0];
    GatherOwed(was.got, it, g.fence, g.inodes, cfg.policy, x);
    GatherBytes(g, was.got, it, cfg.policy, c);
    if x.Met? { GatherMet(g, was.got, it, cfg.policy, x); }
    NoteKeeps(g, it, cfg.policy);
    var h: int := pc.got.tally[x];
    var k := h - was.got.tally[x];
    Here(cfg, s, i, pc, s', t, x, c, 0, k, -k, CoinOf(pc.got.bytes, c) - CoinOf(was.got.bytes, c));
  }

  lemma NoteKeeps(g: Target, it: Item, p: Policy)
    ensures var h := Note(g, it, p);
      h == g.(inodes := h.inodes, exhausted := h.exhausted, order := h.order)
  {
  }

  // What an entry adds to the haul is what it takes off the debt.
  lemma GatherOwed(got: Haul, it: Item, fence: Fence, inodes: set<Key>, p: Policy, x: Fact)
    ensures var more := Gather(got, it, fence, inodes, p);
      more.tally[x] + KidsOwed(more.kids, fence, x) == got.tally[x] + KidsOwed(got.kids, fence, x) + MeasureItem(it, fence, x)
  {
    if Descends(it, fence) { DirsAppend(got.kids, it.stat.sub, fence, x); }
  }

  // The haul's dedup counters and the target's inode table move exactly as one more posting.
  lemma GatherBytes(g: Target, got: Haul, it: Item, p: Policy, c: Coin)
    requires g.inodes == PostAll(g.order, p).inodes && g.exhausted == PostAll(g.order, p).exhausted
    ensures var more, h := Gather(got, it, g.fence, g.inodes, p), Note(g, it, p);
      && CoinOf(more.bytes, c) - CoinOf(got.bytes, c)
           == CoinOf(PostAll(h.order, p).bytes, c) - CoinOf(PostAll(g.order, p).bytes, c)
      && h.inodes == PostAll(h.order, p).inodes && h.exhausted == PostAll(h.order, p).exhausted
  {
    if !it.typedLink && it.stat.StatFile? {
      var f := it.stat.file;
      PostOneMore(g.order, f, p);
      ChargeAdds(got.bytes, PostAll(g.order, p).bytes, Judge(g.inodes, f, p), f, c);
    }
  }

  lemma ChargeAdds(a: Bytes, b: Bytes, v: Verdict, f: File, c: Coin)
    ensures CoinOf(Charge(a, v, f), c) - CoinOf(a, c) == CoinOf(Charge(b, v, f), c) - CoinOf(b, c)
  {
    match v { case Plain => case Tracked => case Duplicate => case Overflow => }
  }

  lemma GatherMet(g: Target, got: Haul, it: Item, p: Policy, x: Fact)
    requires x.Met?
    ensures var more, h := Gather(got, it, g.fence, g.inodes, p), Note(g, it, p);
      multiset(h.order)[x.f] - multiset(g.order)[x.f] == more.tally[x] - got.tally[x]
  {
    MetHere(it, g.fence, x.f);
  }

  lemma LedgerBatchEnd(cfg: Config, s: State, i: int, t: int, x: Fact, c: Coin)
    requires AtTargetIdx(s, t) && Ledger(cfg, s, t, x, c)
    requires AtWorker(s, i) && s.workers[i].pc.Sifting? && s.workers[i].pc.todo == [] && WorkerOk(s, s.workers[i])
    ensures Ledger(cfg, DoBatchEnd(s, i), t, x, c)
  {
    hide InFlight, PostAll, Measure, CoinOf;
    var s' := DoBatchEnd(s, i);
    var was, pc := s.workers[i].pc, s'.workers[i].pc;
    if was.ref.target != t {
      Elsewhere(cfg, s, i, pc, s', t, x, c);
    } else {
      Here(cfg, s, i, pc, s', t, x, c, 0, 0, 0, 0);
    }
  }

  // A worker with a directory of t in hand keeps t's latch from having fired.
  lemma Holds(cfg: Config, s: State, i: int, t: int, x: Fact, c: Coin)
    requires AtTargetIdx(s, t) && Ledger(cfg, s, t, x, c) && Flags(cfg, s, t)
    requires AtWorker(s, i) && PcOutstanding(s.workers[i].pc, t) >= 1
    ensures s.targets[t].launched && s.targets[t].pending >= PcOutstanding(s.workers[i].pc, t) && s.targets[t].zeros == 0
  {
    SumAtLeast(s.workers, i, Outstanding(t));
    QueuedNonNegative(s, Outstanding(t));
  }

  lemma LedgerFlush(cfg: Config, s: State, i: int, t: int, x: Fact, c: Coin)
    requires AtTargetIdx(s, t) && Ledger(cfg, s, t, x, c) && Flags(cfg, s, t)
    requires AtWorker(s, i) && s.workers[i].pc.Closing? && HasTarget(s, s.workers[i].pc)
    ensures Ledger(cfg, DoFlush(s, i), t, x, c)
  {
    hide InFlight, PostAll, Measure, CoinOf;
    var s' := DoFlush(s, i);
    var was, pc := s.workers[i].pc, s'.workers[i].pc;
    if was.ref.target != t {
      Elsewhere(cfg, s, i, pc, s', t, x, c);
    } else {
      Holds(cfg, s, i, t, x, c);
      assert Repeat(Directory, |was.got.kids|)[x] == if x.Directory? then |was.got.kids| else 0;
      var n: int := One(x.DirRead?) + if x.Directory? then |was.got.kids| else 0;
      assert s'.targets[t].flushed[x] == s.targets[t].flushed[x] + was.got.tally[x] + n;
      var h: int := was.got.tally[x];
      CoinAdds(s.targets[t].bytes, was.got.bytes, c);
      Here(cfg, s, i, pc, s', t, x, c, 0, -h, -n, -CoinOf(was.got.bytes, c));
    }
  }

  lemma CoinAdds(a: Bytes, b: Bytes, c: Coin)
    ensures CoinOf(PlusB(a, b), c) == CoinOf(a, c) + CoinOf(b, c)
    ensures CoinOf(NO_BYTES, c) == 0
  {
  }

  lemma LedgerReserve(cfg: Config, s: State, i: int, t: int, x: Fact, c: Coin)
    requires AtTargetIdx(s, t) && Ledger(cfg, s, t, x, c) && Flags(cfg, s, t)
    requires AtWorker(s, i) && s.workers[i].pc.Flushed? && HasTarget(s, s.workers[i].pc)
    ensures Ledger(cfg, DoReserve(s, i), t, x, c)
  {
    hide InFlight, PostAll, Measure, CoinOf;
    var s' := DoReserve(s, i);
    var was, pc := s.workers[i].pc, s'.workers[i].pc;
    if was.ref.target != t {
      Elsewhere(cfg, s, i, pc, s', t, x, c);
    } else if was.kids == [] {
      hide Balanced;
      Here(cfg, s, i, pc, s', t, x, c, 0, 0, 0, 0);
    } else {
      ReservedHere(cfg, s, i, x, c);
    }
  }

  lemma ReservedHere(cfg: Config, s: State, i: int, x: Fact, c: Coin)
    requires AtWorker(s, i) && s.workers[i].pc.Flushed? && HasTarget(s, s.workers[i].pc) && s.workers[i].pc.kids != []
    requires var t := s.workers[i].pc.ref.target; Ledger(cfg, s, t, x, c) && Flags(cfg, s, t)
    ensures Ledger(cfg, DoReserve(s, i), s.workers[i].pc.ref.target, x, c)
  {
    hide InFlight, PostAll, Measure, CoinOf;
    var pc := s.workers[i].pc;
    Holds(cfg, s, i, pc.ref.target, x, c);
    Here(cfg, s, i, Reserved(pc.ref, pc.kids), DoReserve(s, i), pc.ref.target, x, c, |pc.kids|, 0, 0, 0);
  }

  // Publishing children moves them to the local stack and the deque, and loses none.
  lemma PushMoves(cfg: Config, s: State, i: int, l: Lens)
    requires AtWorker(s, i) && s.workers[i].pc.Reserved? && Kept(l)
    ensures InFlight(DoPush(cfg, s, i), l) == InFlight(s, l)
  {
    var w := s.workers[i];
    var kids := Refs(w.pc.ref.target, w.pc.kids);
    var local := w.local + kids;
    var n := Donated(cfg.limit, cfg.shareOver, s.deque, local);
    var w' := Worker(local[n..], Finishing(w.pc.ref));
    var ws := s.workers[i := w'];
    SumUpdate(s.workers, i, w', l);
    SumWake(ws, l);
    RefsAppend(s.deque, local[..n], l);
    Published(w, w', n, l);
  }

  lemma Published(w: Worker, w': Worker, n: nat, l: Lens)
    requires w.pc.Reserved? && Kept(l)
    requires var local := w.local + Refs(w.pc.ref.target, w.pc.kids);
      n <= |local| && w' == Worker(local[n..], Finishing(w.pc.ref))
    ensures var local := w.local + Refs(w.pc.ref.target, w.pc.kids);
      OfWorker(w', l) + OfRefs(local[..n], l) == OfWorker(w, l)
  {
    var kids := Refs(w.pc.ref.target, w.pc.kids);
    RefsAppend(w.local, kids, l);
    RefsOfKids(w.pc.ref.target, w.pc.kids, l);
    RefsSplit(w.local + kids, n, l);
  }

  lemma LedgerPush(cfg: Config, s: State, i: int, t: int, x: Fact, c: Coin)
    requires AtTargetIdx(s, t) && Ledger(cfg, s, t, x, c)
    requires AtWorker(s, i) && s.workers[i].pc.Reserved?
    ensures Ledger(cfg, DoPush(cfg, s, i), t, x, c)
  {
    PushMoves(cfg, s, i, Outstanding(t)); PushMoves(cfg, s, i, Owed(t, s.targets[t].fence, x));
    PushMoves(cfg, s, i, Held(t, x)); PushMoves(cfg, s, i, Purse(t, c));
  }

  lemma LedgerFinish(cfg: Config, s: State, i: int, t: int, x: Fact, c: Coin)
    requires AtTargetIdx(s, t) && Ledger(cfg, s, t, x, c) && Flags(cfg, s, t)
    requires AtWorker(s, i) && s.workers[i].pc.Finishing? && HasTarget(s, s.workers[i].pc)
    ensures Ledger(cfg, DoFinish(s, i), t, x, c)
  {
    hide InFlight, PostAll, Measure, CoinOf;
    var s' := DoFinish(s, i);
    if s.workers[i].pc.ref.target != t {
      Elsewhere(cfg, s, i, Checking, s', t, x, c);
    } else {
      Holds(cfg, s, i, t, x, c);
      Completes(cfg.policy, s.targets[t], x, c, InFlight(s, Outstanding(t)), InFlight(s, Held(t, x)),
                InFlight(s, Owed(t, s.targets[t].fence, x)), InFlight(s, Purse(t, c)), 0);
      Here(cfg, s, i, Checking, s', t, x, c, -1, 0, 0, 0);
    }
  }

  lemma LedgerCheck(cfg: Config, s: State, i: int, t: int, x: Fact, c: Coin)
    requires AtTargetIdx(s, t) && Ledger(cfg, s, t, x, c)
    requires AtWorker(s, i) && s.workers[i].pc.Checking?
    ensures Ledger(cfg, DoCheck(s, i), t, x, c)
  {
    hide InFlight, PostAll, Measure, CoinOf;
    var s' := DoCheck(s, i);
    Elsewhere(cfg, s, i, s'.workers[i].pc, s', t, x, c);
  }

  lemma LedgerHang(cfg: Config, s: State, i: int, t: int, x: Fact, c: Coin)
    requires AtTargetIdx(s, t) && Ledger(cfg, s, t, x, c)
    requires AtWorker(s, i) && InCall(s.workers[i].pc)
    ensures Ledger(cfg, SetPc(s, i, Hung(s.workers[i].pc)), t, x, c)
  {
    hide InFlight, PostAll, Measure, CoinOf;
    var pc := Hung(s.workers[i].pc);
    Here(cfg, s, i, pc, SetPc(s, i, pc), t, x, c, 0, 0, 0, 0);
  }
}
