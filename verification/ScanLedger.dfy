// Counting over a scan state. A lens says what to count; InFlight adds it up over every worker, the shared
// deque, the main goroutine's hand and what closing the pool dropped. The invariants of ScanInvariant are
// equations between InFlight and the fields of a target.

module ScanLedger {
  import opened Options
  import opened FsErrors
  import opened FileTree
  import opened HardLinks
  import opened ScanProtocol

  datatype Coin = InSize | InAlloc | InFiles | InLinks | InSaved

  datatype Lens =
    | Outstanding(t: int)                     // directories queued, reserved or in flight for target t
    | Owed(t: int, fence: Fence, x: Fact)     // increments of counter x still to come
    | Held(t: int, x: Fact)                   // increments of x done, not yet flushed
    | Purse(t: int, c: Coin)                  // the same for the dedup counters
    | Live | Handles                          // workers not exited; directory handles open
    | Work | Awake                            // termination: steps left, then wake-ups to consume

  function CoinOf(b: Bytes, c: Coin): int {
    match c
    case InSize => b.size
    case InAlloc => b.alloc
    case InFiles => b.files
    case InLinks => b.hardlinked
    case InSaved => b.saved
  }

  // More steps than the workers can ever take on a tree.
  function Effort(t: Tree): int { 20 * Measure(t, None, DirRead) + 5 * Measure(t, None, Entry) }

  function EffortIn(items: seq<Item>): int {
    20 * MeasureItems(items, None, DirRead) + 5 * MeasureItems(items, None, Entry)
  }

  function EffortOf(kids: seq<Tree>): int {
    20 * MeasureDirs(kids, None, DirRead) + 5 * MeasureDirs(kids, None, Entry)
  }

  function OfRef(r: Ref, l: Lens): int {
    match l
    case Outstanding(t) => One(r.target == t)
    case Owed(t, fence, x) => if r.target == t then Measure(r.tree, fence, x) else 0
    case Work => Effort(r.tree)
    case _ => 0
  }

  // Directories discovered and not yet counted as such.
  function KidsOwed(kids: seq<Tree>, fence: Fence, x: Fact): int {
    MeasureDirs(kids, fence, x) + if x.Directory? then |kids| else 0
  }

  function PcOutstanding(pc: Pc, t: int): int {
    match pc
    case Holding(r) => One(r.target == t)
    case Opening(r) => One(r.target == t)
    case Reading(r, _, _, _) => One(r.target == t)
    case Metered(r, _, _, _, _, _) => One(r.target == t)
    case Sifting(r, _, _, _, _, _) => One(r.target == t)
    case Closing(r, _) => One(r.target == t)
    case Flushed(r, _) => One(r.target == t)
    case Reserved(r, kids) => if r.target == t then 1 + |kids| else 0
    case Finishing(r) => One(r.target == t)
    case Hung(inside) => PcOutstanding(inside, t)
    case _ => 0
  }

  function PcOwed(pc: Pc, t: int, fence: Fence, x: Fact): int {
    match pc
    case Holding(r) => if r.target == t then Measure(r.tree, fence, x) else 0
    case Opening(r) => if r.target == t then Measure(r.tree, fence, x) else 0
    case Reading(r, rest, tail, got) => if r.target != t then 0 else
      One(x.DirRead?) + MeasureItems(rest, fence, x) + TailTally(tail)[x] + KidsOwed(got.kids, fence, x)
    case Metered(r, todo, rest, tail, _, got) => if r.target != t then 0 else
      One(x.DirRead?) + MeasureItems(todo, fence, x) + MeasureItems(rest, fence, x) + TailTally(tail)[x]
        + KidsOwed(got.kids, fence, x)
    case Sifting(r, todo, rest, tail, _, got) => if r.target != t then 0 else
      One(x.DirRead?) + MeasureItems(todo, fence, x) + MeasureItems(rest, fence, x) + TailTally(tail)[x]
        + KidsOwed(got.kids, fence, x)
    case Closing(r, got) => if r.target == t then One(x.DirRead?) + KidsOwed(got.kids, fence, x) else 0
    case Flushed(r, kids) => if r.target == t then MeasureDirs(kids, fence, x) else 0
    case Reserved(r, kids) => if r.target == t then MeasureDirs(kids, fence, x) else 0
    case Hung(inside) => PcOwed(inside, t, fence, x)
    case _ => 0
  }

  // The haul a worker carries for target t.
  function HaulFor(pc: Pc, t: int): Haul {
    match pc
    case Reading(r, _, _, got) => if r.target == t then got else NO_HAUL
    case Metered(r, _, _, _, _, got) => if r.target == t then got else NO_HAUL
    case Sifting(r, _, _, _, _, got) => if r.target == t then got else NO_HAUL
    case Closing(r, got) => if r.target == t then got else NO_HAUL
    case Hung(inside) => HaulFor(inside, t)
    case _ => NO_HAUL
  }

  function PcHandles(pc: Pc): int {
    match pc
    case Reading(_, _, _, _) => 1
    case Metered(_, _, _, _, _, _) => 1
    case Sifting(_, _, _, _, _, _) => 1
    case Closing(r, _) => One(r.tree.Listing?)
    case Hung(inside) => PcHandles(inside)
    case _ => 0
  }

  function PcWork(pc: Pc): int {
    match pc
    case Ready => 1
    case Checking => 2
    case Finishing(_) => 3
    case Reserved(_, kids) => 4 + EffortOf(kids)
    case Flushed(_, kids) => 5 + EffortOf(kids)
    case Closing(_, got) => 6 + EffortOf(got.kids)
    case Reading(_, rest, _, got) => 7 + EffortOf(got.kids) + EffortIn(rest)
    case Sifting(_, todo, rest, _, _, got) => 8 + EffortOf(got.kids) + EffortIn(todo) - 3 * |todo| + EffortIn(rest)
    case Metered(_, todo, rest, _, _, got) => 9 + EffortOf(got.kids) + EffortIn(todo) - 3 * |todo| + EffortIn(rest)
    case Opening(r) => Effort(r.tree) - 2
    case Holding(r) => Effort(r.tree) - 1
    case _ => 0
  }

  function OfPc(pc: Pc, l: Lens): int {
    match l
    case Outstanding(t) => PcOutstanding(pc, t)
    case Owed(t, fence, x) => PcOwed(pc, t, fence, x)
    case Held(t, x) => HaulFor(pc, t).tally[x]
    case Purse(t, c) => CoinOf(HaulFor(pc, t).bytes, c)
    case Live => One(!pc.Exited?)
    case Handles => PcHandles(pc)
    case Work => PcWork(pc)
    case Awake => One(pc.Looking?)
  }

  function OfRefs(refs: seq<Ref>, l: Lens): int {
    if refs == [] then 0 else OfRef(refs[0], l) + OfRefs(refs[1..], l)
  }

  function OfWorker(w: Worker, l: Lens): int { OfRefs(w.local, l) + OfPc(w.pc, l) }

  function Sum(ws: seq<Worker>, l: Lens): int {
    if ws == [] then 0 else OfWorker(ws[0], l) + Sum(ws[1..], l)
  }

  function Queued(s: State, l: Lens): int { OfRefs(s.deque, l) + OfRefs(s.hand, l) + OfRefs(s.lost, l) }

  function InFlight(s: State, l: Lens): int { Sum(s.workers, l) + Queued(s, l) }

  // --- how sums move ----------------------------------------------------------------------------

  lemma {:induction false} SumUpdate(ws: seq<Worker>, i: nat, w: Worker, l: Lens)
    requires i < |ws|
    ensures Sum(ws[i := w], l) == Sum(ws, l) - OfWorker(ws[i], l) + OfWorker(w, l)
  {
    if i == 0 {
      assert ws[i := w][1..] == ws[1..];
    } else {
      assert ws[i := w][1..] == ws[1..][i - 1 := w];
      SumUpdate(ws[1..], i - 1, w, l);
    }
  }

  lemma {:induction false} RefsAppend(a: seq<Ref>, b: seq<Ref>, l: Lens)
    ensures OfRefs(a + b, l) == OfRefs(a, l) + OfRefs(b, l)
  {
    if a == [] {
      assert a + b == b;
    } else {
      assert (a + b)[1..] == a[1..] + b;
      RefsAppend(a[1..], b, l);
    }
  }

  lemma RefsSplit(refs: seq<Ref>, n: nat, l: Lens)
    requires n <= |refs|
    ensures OfRefs(refs, l) == OfRefs(refs[..n], l) + OfRefs(refs[n..], l)
  {
    assert refs == refs[..n] + refs[n..];
    RefsAppend(refs[..n], refs[n..], l);
  }

  lemma RefsLast(refs: seq<Ref>, l: Lens)
    requires refs != []
    ensures var n := |refs| - 1; OfRefs(refs, l) == OfRefs(refs[..n], l) + OfRef(refs[n], l)
  {
    var n := |refs| - 1;
    RefsSplit(refs, n, l);
    assert refs[n..] == [refs[n]] && [refs[n]][1..] == [];
  }

  lemma {:induction false} RefsOfKids(u: int, kids: seq<Tree>, l: Lens)
    ensures OfRefs(Refs(u, kids), l) == match l
      case Outstanding(t) => if u == t then |kids| else 0
      case Owed(t, fence, x) => if u == t then MeasureDirs(kids, fence, x) else 0
      case Work => EffortOf(kids)
      case _ => 0
  {
    if kids == [] {
    } else {
      assert Refs(u, kids)[1..] == Refs(u, kids[1..]);
      RefsOfKids(u, kids[1..], l);
    }
  }

  // Waking the parked workers moves nothing but the wake-up count.
  lemma {:induction false} SumWake(ws: seq<Worker>, l: Lens)
    requires !l.Awake?
    ensures Sum(Wake(ws), l) == Sum(ws, l)
  {
    if ws == [] {
    } else {
      assert Wake(ws)[1..] == Wake(ws[1..]);
      SumWake(ws[1..], l);
    }
  }

  // The lenses of the conservation laws never go negative, and are zero where nothing is outstanding.
  predicate Counts(l: Lens) { l.Outstanding? || l.Owed? || l.Held? || l.Live? || l.Handles? || l.Awake? }

  lemma {:induction false} RefsNonNegative(refs: seq<Ref>, l: Lens)
    requires Counts(l)
    ensures OfRefs(refs, l) >= 0
  {
    if refs == [] {
    } else {
      RefsNonNegative(refs[1..], l);
    }
  }

  lemma {:induction false} PcNonNegative(pc: Pc, l: Lens)
    requires Counts(l)
    ensures OfPc(pc, l) >= 0
  {
    if pc.Hung? && !l.Live? && !l.Awake? { PcNonNegative(pc.inside, l); }
  }

  lemma {:induction false} SumNonNegative(ws: seq<Worker>, l: Lens)
    requires Counts(l)
    ensures Sum(ws, l) >= 0
  {
    if ws == [] {
    } else {
      RefsNonNegative(ws[0].local, l);
      PcNonNegative(ws[0].pc, l);
      SumNonNegative(ws[1..], l);
    }
  }

  lemma {:induction false} SumAtLeast(ws: seq<Worker>, i: nat, l: Lens)
    requires i < |ws| && Counts(l)
    ensures Sum(ws, l) >= OfWorker(ws[i], l) >= OfPc(ws[i].pc, l)
  {
    RefsNonNegative(ws[i].local, l);
    if i == 0 {
      SumNonNegative(ws[1..], l);
    } else {
      RefsNonNegative(ws[0].local, l);
      PcNonNegative(ws[0].pc, l);
      SumAtLeast(ws[1..], i - 1, l);
    }
  }

  lemma QueuedNonNegative(s: State, l: Lens)
    requires Counts(l)
    ensures Queued(s, l) >= 0
  {
    RefsNonNegative(s.deque, l);
    RefsNonNegative(s.hand, l);
    RefsNonNegative(s.lost, l);
  }

  // l counts work of target t, so a place with nothing outstanding for t counts nothing.
  predicate About(l: Lens, t: int) { (l.Owed? || l.Held? || l.Purse?) && l.t == t }

  lemma {:induction false} RefsEmptyHanded(refs: seq<Ref>, l: Lens, t: int)
    requires About(l, t) && OfRefs(refs, Outstanding(t)) == 0
    ensures OfRefs(refs, l) == 0
  {
    if refs == [] {
    } else {
      RefsNonNegative(refs[1..], Outstanding(t));
      RefsEmptyHanded(refs[1..], l, t);
    }
  }

  lemma {:induction false} PcEmptyHanded(pc: Pc, l: Lens, t: int)
    requires About(l, t) && PcOutstanding(pc, t) == 0
    ensures OfPc(pc, l) == 0
  {
    if !pc.Hung? {
    } else {
      PcEmptyHanded(pc.inside, l, t);
    }
  }

  lemma {:induction false} SumEmptyHanded(ws: seq<Worker>, l: Lens, t: int)
    requires About(l, t) && Sum(ws, Outstanding(t)) == 0
    ensures Sum(ws, l) == 0
  {
    if ws == [] {
    } else {
      RefsNonNegative(ws[0].local, Outstanding(t));
      PcNonNegative(ws[0].pc, Outstanding(t));
      SumNonNegative(ws[1..], Outstanding(t));
      RefsEmptyHanded(ws[0].local, l, t);
      PcEmptyHanded(ws[0].pc, l, t);
      SumEmptyHanded(ws[1..], l, t);
    }
  }

  // Nothing outstanding means nothing owed and nothing held back.
  lemma NothingOutstanding(s: State, l: Lens, t: int)
    requires About(l, t) && InFlight(s, Outstanding(t)) == 0
    ensures InFlight(s, l) == 0
  {
    SumNonNegative(s.workers, Outstanding(t));
    RefsNonNegative(s.deque, Outstanding(t));
    RefsNonNegative(s.hand, Outstanding(t));
    RefsNonNegative(s.lost, Outstanding(t));
    SumEmptyHanded(s.workers, l, t);
    RefsEmptyHanded(s.deque, l, t);
    RefsEmptyHanded(s.hand, l, t);
    RefsEmptyHanded(s.lost, l, t);
  }
}
