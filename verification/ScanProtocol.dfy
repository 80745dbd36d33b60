// One ScanAll cycle (internal/scan/engine.go) as a transition system: N workers with private stacks, one
// shared deque, a main goroutine that starts the targets and closes the pool, a supervisor per target,
// and the environment (cancellation, timers, calls that never return). An action is one step that no
// other goroutine can split: one locked section, one atomic operation, or one thread-local computation.

module ScanProtocol {
  import opened Options
  import opened FsErrors
  import opened FileTree
  import opened HardLinks
  import opened Outcomes

  datatype Config = Config(
    limit: int, shareOver: int,    // shared queue limit, local depth past which work is donated
    batch: int,                    // entries per directory read
    limiter: bool,                 // a rate limiter is configured
    scanTimeout: bool,             // ScanTimeout > 0: every target has its own derived context
    hard: bool,                    // HardTimeout > 0: the hard timer exists
    oneFs: bool, capInode: bool,
    policy: Policy)

  // What withDefaults guarantees (engine.go:74-101).
  predicate ValidConfig(cfg: Config) {
    cfg.limit > 0 && cfg.shareOver > 0 && cfg.batch > 0 && cfg.policy.maxTracked > 0
  }

  // A queued directory: the index of its target and what the walk will find there.
  datatype Ref = Ref(target: int, tree: Tree)

  // What one directory read has gathered so far and not yet flushed.
  datatype Haul = Haul(kids: seq<Tree>, tally: Tally, bytes: Bytes)

  const NO_HAUL := Haul([], multiset{}, NO_BYTES)

  // Where a worker stands in engine.go:388-410 and walk.go:30-85.
  datatype Pc =
    | Ready                                  // about to call next
    | Parked                                 // waiting on the condition variable
    | Looking                                // about to take the pool lock and look at the deque
    | Holding(ref: Ref)                      // next returned; stopping not yet consulted
    | Opening(ref: Ref)
    | Reading(ref: Ref, rest: seq<Item>, tail: Tail, got: Haul)     // about to read a batch
    | Metered(ref: Ref, todo: seq<Item>, rest: seq<Item>, tail: Tail, eof: bool, got: Haul)  // batch read, no tokens yet
    | Sifting(ref: Ref, todo: seq<Item>, rest: seq<Item>, tail: Tail, eof: bool, got: Haul)  // inside the batch
    | Closing(ref: Ref, got: Haul)           // read loop left, totals not flushed
    | Flushed(ref: Ref, kids: seq<Tree>)     // flushed and closed, children not reserved
    | Reserved(ref: Ref, kids: seq<Tree>)    // addPending done, children not pushed
    | Finishing(ref: Ref)                    // children published, completeDir outstanding
    | Checking                               // about to test the process context
    | Exited
    | Hung(inside: Pc)                       // in a system call that never returns

  datatype Worker = Worker(local: seq<Ref>, pc: Pc)

  // What Lstat says about a configured root.
  datatype Probe = ProbeFails(why: FsError) | ProbeLink | ProbeOther | ProbeDir(dev: int)

  datatype Supervisor =
    | Unborn
    | Waiting                    // first select
    | Draining                   // scan context done, second select
    | Settled                    // selects left, outcome not yet decided
    | CtxLive                    // the process context was seen live
    | ScanLive                   // so was the scan context, and the target was not abandoned
    | Decided(outcome: Outcome)
    | Reported

  datatype Report = Report(outcome: Outcome, tally: Tally, bytes: Bytes, exhausted: bool)

  datatype Target = Target(
    probe: Probe, tree: Tree,    // the file system's answers, fixed for the cycle
    fence: Fence,
    launched: bool,              // the root was reserved
    pending: int, done: bool, abandoned: bool, scanDone: bool,
    flushed: Tally, bytes: Bytes, inodes: set<Key>, exhausted: bool,
    sup: Supervisor,
    // history: results delivered, start marks, times pending reached zero, whether some work was
    // skipped, and the files in the order they reached shouldCount
    report: Option<Report>, began: int, landed: int, zeros: int, cut: bool, order: seq<File>)

  datatype Main = AtTarget(k: int) | RootReserved(k: int) | DrainingPool | Returned

  datatype State = State(
    main: Main, hand: seq<Ref>,            // hand: the root ref reserved and not yet pushed
    deque: seq<Ref>, closed: bool, lost: seq<Ref>,   // lost: what close dropped
    workers: seq<Worker>, targets: seq<Target>,
    ctxDone: bool,
    open: int,                             // directory handles open
    live: int, leaked: int, gauge: int,    // engine-wide live workers, earlier cycles' share of them, published gauge
    rootPushes: int)

  datatype Action =
    | Take(i: int) | Begin(i: int) | Open(i: int, order: seq<Item>) | Read(i: int, n: int, eof: bool)
    | Pay(i: int, granted: bool) | Sift(i: int) | BatchEnd(i: int) | Flush(i: int)
    | Reserve(i: int) | Push(i: int) | Finish(i: int) | Check(i: int) | Hang(i: int)
    | Start | PushRoot | ClosePool | Drained
    | LatchSeen(t: int) | ScanCtxSeen(t: int) | TimerFires(t: int)
    | ReadCtx(t: int) | ReadScanCtx(t: int) | ReadErrors(t: int) | Deliver(t: int)
    | CancelProcess | ScanCtxFires(t: int) | LeakedExits

  function Root(probe: Probe, tree: Tree): Target {
    Target(probe, tree, None, false, 0, false, false, false, multiset{}, NO_BYTES, {}, false, Unborn,
           None, 0, 0, 0, false, [])
  }

  predicate Fresh(s: State) {
    && s.main == AtTarget(0) && s.hand == s.deque == s.lost == [] && !s.closed
    && (forall i | 0 <= i < |s.workers| :: s.workers[i] == Worker([], Ready))
    && (forall t | 0 <= t < |s.targets| :: s.targets[t] == Root(s.targets[t].probe, s.targets[t].tree))
    && s.open == 0 && s.leaked >= 0 && s.live == s.leaked + |s.workers| && s.rootPushes == 0
  }

  // --- shared pieces ----------------------------------------------------------------------------

  // The scan context of a target; without a scan timeout it is the process context itself.
  predicate ScanErr(cfg: Config, s: State, x: Target) {
    if cfg.scanTimeout then x.scanDone else s.ctxDone
  }

  predicate Stopping(cfg: Config, s: State, x: Target) {
    x.abandoned || ScanErr(cfg, s, x)
  }

  // pool.push on a worker's stack: what stays local and what the shared deque becomes.
  function Donated(limit: int, shareOver: int, deque: seq<Ref>, local: seq<Ref>): (n: nat)
    ensures n <= |local|
    ensures n > 0 ==> |deque| + n <= limit
  {
    if |local| <= shareOver then 0
    else if limit - |deque| <= 0 then 0
    else if |local| / 2 > limit - |deque| then limit - |deque|
    else |local| / 2
  }

  function Refs(t: int, kids: seq<Tree>): seq<Ref> {
    seq(|kids|, j requires 0 <= j < |kids| => Ref(t, kids[j]))
  }

  function Wake(ws: seq<Worker>): (r: seq<Worker>)
    ensures |r| == |ws|
  {
    seq(|ws|, j requires 0 <= j < |ws| => if ws[j].pc.Parked? then ws[j].(pc := Looking) else ws[j])
  }

  function SetPc(s: State, i: int, pc: Pc): State
    requires 0 <= i < |s.workers|
  {
    s.(workers := s.workers[i := s.workers[i].(pc := pc)])
  }

  function SetTarget(s: State, t: int, x: Target): State
    requires 0 <= t < |s.targets|
  {
    s.(targets := s.targets[t := x])
  }

  predicate InCall(pc: Pc) { pc.Opening? || pc.Reading? || pc.Sifting? }

  predicate RootReady(p: Probe) { p.ProbeDir? }

  function FenceOf(cfg: Config, p: Probe): Fence
    requires RootReady(p)
  {
    if cfg.oneFs && cfg.capInode then Some(p.dev) else None
  }

  function RootOutcome(p: Probe): Outcome {
    match p
    case ProbeFails(e) => if IsVanished(e) then Missing else RootError
    case ProbeLink => RootError
    case ProbeOther => Missing
    case ProbeDir(_) => Complete
  }

  function RootFaults(p: Probe): Tally {
    match p
    case ProbeFails(e) => multiset{Fault(Classify(e))}
    case ProbeLink => multiset{Fault(Other)}
    case _ => multiset{}
  }

  // --- guards -----------------------------------------------------------------------------------

  predicate AtWorker(s: State, i: int) { 0 <= i < |s.workers| }

  predicate HasTarget(s: State, pc: Pc)
    requires pc.Holding? || pc.Opening? || pc.Reading? || pc.Metered? || pc.Sifting? || pc.Closing? || pc.Flushed?
          || pc.Reserved? || pc.Finishing?
  {
    0 <= pc.ref.target < |s.targets|
  }

  predicate AtTargetIdx(s: State, t: int) { 0 <= t < |s.targets| }

  predicate AllReported(s: State) { forall t | 0 <= t < |s.targets| :: s.targets[t].sup.Reported? }

  // The entries may come in any order.
  predicate Opens(tree: Tree, order: seq<Item>) {
    match tree
    case Unopenable(_) => order == []
    case Listing(items, _) => multiset(order) == multiset(items)
  }

  // A read returns between one and `batch` entries, and may announce the end together with the last ones.
  predicate Reads(cfg: Config, s: State, i: int, n: int, eof: bool)
    requires AtWorker(s, i) && s.workers[i].pc.Reading? && HasTarget(s, s.workers[i].pc)
  {
    var pc := s.workers[i].pc;
    !Stopping(cfg, s, s.targets[pc.ref.target]) && pc.rest != [] ==>
      1 <= n <= cfg.batch && n <= |pc.rest| && (eof ==> n == |pc.rest| && pc.tail.Eof?)
  }

  predicate Can(cfg: Config, s: State, a: Action) {
    match a
    case Take(i) => AtWorker(s, i) && (s.workers[i].pc.Ready? || s.workers[i].pc.Looking?)
    case Begin(i) => AtWorker(s, i) && s.workers[i].pc.Holding? && HasTarget(s, s.workers[i].pc)
    case Open(i, order) => AtWorker(s, i) && s.workers[i].pc.Opening?
      && Opens(s.workers[i].pc.ref.tree, order)
    case Read(i, n, eof) => AtWorker(s, i) && s.workers[i].pc.Reading? && HasTarget(s, s.workers[i].pc)
      && Reads(cfg, s, i, n, eof)
    // WaitN is asked for at most the burst (engine.go:415-417), so it fails only once the context is done
    case Pay(i, granted) => AtWorker(s, i) && s.workers[i].pc.Metered? && HasTarget(s, s.workers[i].pc)
      && (!granted ==> cfg.limiter && s.ctxDone)
    case Sift(i) => AtWorker(s, i) && s.workers[i].pc.Sifting? && HasTarget(s, s.workers[i].pc) && s.workers[i].pc.todo != []
    case BatchEnd(i) => AtWorker(s, i) && s.workers[i].pc.Sifting? && s.workers[i].pc.todo == []
    case Flush(i) => AtWorker(s, i) && s.workers[i].pc.Closing? && HasTarget(s, s.workers[i].pc)
    case Reserve(i) => AtWorker(s, i) && s.workers[i].pc.Flushed? && HasTarget(s, s.workers[i].pc)
    case Push(i) => AtWorker(s, i) && s.workers[i].pc.Reserved?
    case Finish(i) => AtWorker(s, i) && s.workers[i].pc.Finishing? && HasTarget(s, s.workers[i].pc)
    case Check(i) => AtWorker(s, i) && s.workers[i].pc.Checking?
    case Hang(i) => AtWorker(s, i) && InCall(s.workers[i].pc)
    case Start => s.main.AtTarget? && 0 <= s.main.k < |s.targets|
    case PushRoot => s.main.RootReserved? && 0 <= s.main.k < |s.targets|
    case ClosePool => s.main.AtTarget? && s.main.k == |s.targets| && AllReported(s)
    case Drained => s.main.DrainingPool?
    case LatchSeen(t) => AtTargetIdx(s, t) && (s.targets[t].sup.Waiting? || s.targets[t].sup.Draining?) && s.targets[t].done
    case ScanCtxSeen(t) => AtTargetIdx(s, t) && s.targets[t].sup.Waiting? && ScanErr(cfg, s, s.targets[t])
    // the hard timer while waiting; the drain timer, which always exists, while draining
    case TimerFires(t) => AtTargetIdx(s, t) && (s.targets[t].sup.Draining? || (s.targets[t].sup.Waiting? && cfg.hard))
    case ReadCtx(t) => AtTargetIdx(s, t) && s.targets[t].sup.Settled?
    case ReadScanCtx(t) => AtTargetIdx(s, t) && s.targets[t].sup.CtxLive?
    case ReadErrors(t) => AtTargetIdx(s, t) && s.targets[t].sup.ScanLive?
    case Deliver(t) => AtTargetIdx(s, t) && s.targets[t].sup.Decided?
    case CancelProcess => !s.ctxDone
    case ScanCtxFires(t) => AtTargetIdx(s, t) && cfg.scanTimeout && !s.targets[t].scanDone
    case LeakedExits => s.leaked > 0
  }

  // --- effects ----------------------------------------------------------------------------------

  // pool.next: the lock-free part, then the deque under the lock; the deque is looked at before `closed`.
  function DoTake(s: State, i: int): (r: State)
    requires AtWorker(s, i)
    ensures |r.targets| == |s.targets| && |r.workers| == |s.workers|
  {
    var w := s.workers[i];
    if w.pc.Ready? then
      if s.closed then SetPc(s, i, Exited).(live := s.live - 1)
      else if w.local != [] then
        var n := |w.local| - 1;
        s.(workers := s.workers[i := Worker(w.local[..n], Holding(w.local[n]))])
      else SetPc(s, i, Looking)
    else if s.deque != [] then
      var n := |s.deque| - 1;
      SetPc(s, i, Holding(s.deque[n])).(deque := s.deque[..n])
    else if s.closed then SetPc(s, i, Exited).(live := s.live - 1)
    else SetPc(s, i, Parked)
  }

  function DoComplete(x: Target): Target {
    if x.pending == 1 then x.(pending := 0, zeros := x.zeros + 1, done := true) else x.(pending := x.pending - 1)
  }

  function DoBegin(cfg: Config, s: State, i: int): (r: State)
    requires AtWorker(s, i) && s.workers[i].pc.Holding? && HasTarget(s, s.workers[i].pc)
    ensures |r.targets| == |s.targets| && |r.workers| == |s.workers|
  {
    var ref := s.workers[i].pc.ref;
    var x := s.targets[ref.target];
    if Stopping(cfg, s, x) then SetTarget(SetPc(s, i, Ready), ref.target, DoComplete(x).(cut := true))
    else SetPc(s, i, Opening(ref))
  }

  function DoOpen(s: State, i: int, order: seq<Item>): (r: State)
    requires AtWorker(s, i) && s.workers[i].pc.Opening?
    ensures |r.targets| == |s.targets| && |r.workers| == |s.workers|
  {
    var ref := s.workers[i].pc.ref;
    match ref.tree
    case Unopenable(e) => SetPc(s, i, Closing(ref, NO_HAUL.(tally := OpenFailTally(e))))
    case Listing(_, tail) => SetPc(s, i, Reading(ref, order, tail, NO_HAUL)).(open := s.open + 1)
  }

  function DoRead(cfg: Config, s: State, i: int, n: int, eof: bool): (r: State)
    requires AtWorker(s, i) && s.workers[i].pc.Reading? && HasTarget(s, s.workers[i].pc) && Reads(cfg, s, i, n, eof)
    ensures |r.targets| == |s.targets| && |r.workers| == |s.workers|
  {
    var pc := s.workers[i].pc;
    var x := s.targets[pc.ref.target];
    if Stopping(cfg, s, x) then SetTarget(SetPc(s, i, Closing(pc.ref, pc.got)), pc.ref.target, x.(cut := true))
    else if pc.rest == [] then
      SetPc(s, i, Closing(pc.ref, pc.got.(tally := pc.got.tally + TailTally(pc.tail))))
    else SetPc(s, i, Metered(pc.ref, pc.rest[..n], pc.rest[n..], pc.tail, eof, pc.got))
  }

  function DoPay(s: State, i: int, granted: bool): (r: State)
    requires AtWorker(s, i) && s.workers[i].pc.Metered? && HasTarget(s, s.workers[i].pc)
    ensures |r.targets| == |s.targets| && |r.workers| == |s.workers|
  {
    var pc := s.workers[i].pc;
    var x := s.targets[pc.ref.target];
    if granted then SetPc(s, i, Sifting(pc.ref, pc.todo, pc.rest, pc.tail, pc.eof, pc.got))
    else SetTarget(SetPc(s, i, Closing(pc.ref, pc.got)), pc.ref.target, x.(cut := true))
  }

  // processEntry: tally the entry, queue it, or put the file through shouldCount.
  function Gather(got: Haul, it: Item, fence: Fence, inodes: set<Key>, p: Policy): Haul {
    var tallied := got.(tally := got.tally + EntryTally(it, fence));
    if Descends(it, fence) then tallied.(kids := got.kids + [it.stat.sub])
    else if !it.typedLink && it.stat.StatFile? then
      tallied.(bytes := Charge(got.bytes, Judge(inodes, it.stat.file, p), it.stat.file))
    else tallied
  }

  function Note(x: Target, it: Item, p: Policy): Target {
    if !it.typedLink && it.stat.StatFile? then
      var v := Judge(x.inodes, it.stat.file, p);
      x.(inodes := Remember(x.inodes, v, it.stat.file), exhausted := x.exhausted || v.Overflow?,
         order := x.order + [it.stat.file])
    else x
  }

  function DoSift(cfg: Config, s: State, i: int): (r: State)
    requires AtWorker(s, i) && s.workers[i].pc.Sifting? && HasTarget(s, s.workers[i].pc) && s.workers[i].pc.todo != []
    ensures |r.targets| == |s.targets| && |r.workers| == |s.workers|
  {
    var pc := s.workers[i].pc;
    var x, it := s.targets[pc.ref.target], pc.todo[0];
    var got := Gather(pc.got, it, x.fence, x.inodes, cfg.policy);
    SetTarget(SetPc(s, i, Sifting(pc.ref, pc.todo[1..], pc.rest, pc.tail, pc.eof, got)),
              pc.ref.target, Note(x, it, cfg.policy))
  }

  function DoBatchEnd(s: State, i: int): (r: State)
    requires AtWorker(s, i) && s.workers[i].pc.Sifting?
    ensures |r.targets| == |s.targets| && |r.workers| == |s.workers|
  {
    var pc := s.workers[i].pc;
    SetPc(s, i, if pc.eof then Closing(pc.ref, pc.got) else Reading(pc.ref, pc.rest, pc.tail, pc.got))
  }

  function Repeat(x: Fact, n: nat): Tally { multiset{}[x := n] }

  // flush, and the deferred Close; a directory that failed to open has no handle to close
  function DoFlush(s: State, i: int): (r: State)
    requires AtWorker(s, i) && s.workers[i].pc.Closing? && HasTarget(s, s.workers[i].pc)
    ensures |r.targets| == |s.targets| && |r.workers| == |s.workers|
  {
    var pc := s.workers[i].pc;
    var x := s.targets[pc.ref.target];
    SetTarget(SetPc(s, i, Flushed(pc.ref, pc.got.kids)), pc.ref.target,
              x.(flushed := x.flushed + pc.got.tally + Repeat(Directory, |pc.got.kids|) + multiset{DirRead},
                 bytes := PlusB(x.bytes, pc.got.bytes)))
    .(open := s.open - One(pc.ref.tree.Listing?))
  }

  function DoReserve(s: State, i: int): (r: State)
    requires AtWorker(s, i) && s.workers[i].pc.Flushed? && HasTarget(s, s.workers[i].pc)
    ensures |r.targets| == |s.targets| && |r.workers| == |s.workers|
  {
    var pc := s.workers[i].pc;
    var x := s.targets[pc.ref.target];
    if pc.kids == [] then SetPc(s, i, Finishing(pc.ref))
    else SetTarget(SetPc(s, i, Reserved(pc.ref, pc.kids)), pc.ref.target, x.(pending := x.pending + |pc.kids|))
  }

  function DoPush(cfg: Config, s: State, i: int): (r: State)
    requires AtWorker(s, i) && s.workers[i].pc.Reserved?
    ensures |r.targets| == |s.targets| && |r.workers| == |s.workers|
  {
    var w := s.workers[i];
    var local := w.local + Refs(w.pc.ref.target, w.pc.kids);
    var n := Donated(cfg.limit, cfg.shareOver, s.deque, local);
    var ws := s.workers[i := Worker(local[n..], Finishing(w.pc.ref))];
    s.(deque := s.deque + local[..n], workers := if n > 0 then Wake(ws) else ws)
  }

  function DoFinish(s: State, i: int): (r: State)
    requires AtWorker(s, i) && s.workers[i].pc.Finishing? && HasTarget(s, s.workers[i].pc)
    ensures |r.targets| == |s.targets| && |r.workers| == |s.workers|
  {
    var u := s.workers[i].pc.ref.target;
    SetTarget(SetPc(s, i, Checking), u, DoComplete(s.targets[u]))
  }

  function DoCheck(s: State, i: int): (r: State)
    requires AtWorker(s, i)
    ensures |r.targets| == |s.targets| && |r.workers| == |s.workers|
  {
    if s.ctxDone then SetPc(s, i, Exited).(live := s.live - 1) else SetPc(s, i, Ready)
  }

  // What starting does to the target itself: its root is reserved, or its failure reported at once.
  function Launch(cfg: Config, was: Target): Target {
    var x := was.(began := was.began + 1);
    if RootReady(x.probe) then
      x.(fence := FenceOf(cfg, x.probe), launched := true, pending := x.pending + 1)
    else
      var flushed := x.flushed + RootFaults(x.probe);
      x.(flushed := flushed, sup := Reported, landed := x.landed + 1,
         report := Some(Report(RootOutcome(x.probe), flushed, x.bytes, x.exhausted)))
  }

  function DoStart(cfg: Config, s: State): State
    requires s.main.AtTarget? && 0 <= s.main.k < |s.targets|
  {
    var k := s.main.k;
    var x := s.targets[k];
    if RootReady(x.probe) then
      SetTarget(s, k, Launch(cfg, x)).(main := RootReserved(k), hand := [Ref(k, x.tree)])
    else
      SetTarget(s, k, Launch(cfg, x)).(main := AtTarget(k + 1))
  }

  function DoPushRoot(s: State): State
    requires s.main.RootReserved? && 0 <= s.main.k < |s.targets|
  {
    var k := s.main.k;
    SetTarget(s, k, s.targets[k].(sup := Waiting))
    .(deque := s.deque + s.hand, hand := [], workers := Wake(s.workers), main := AtTarget(k + 1),
      rootPushes := s.rootPushes + 1)
  }

  function DoReport(cfg: Config, x: Target): Target
    requires x.sup.Decided?
  {
    x.(sup := Reported, landed := x.landed + 1, scanDone := x.scanDone || cfg.scanTimeout,
       report := Some(Report(x.sup.outcome, x.flushed, x.bytes, x.exhausted)))
  }

  function Do(cfg: Config, s: State, a: Action): State
    requires Can(cfg, s, a)
  {
    match a
    case Take(i) => DoTake(s, i)
    case Begin(i) => DoBegin(cfg, s, i)
    case Open(i, order) => DoOpen(s, i, order)
    case Read(i, n, eof) => DoRead(cfg, s, i, n, eof)
    case Pay(i, granted) => DoPay(s, i, granted)
    case Sift(i) => DoSift(cfg, s, i)
    case BatchEnd(i) => DoBatchEnd(s, i)
    case Flush(i) => DoFlush(s, i)
    case Reserve(i) => DoReserve(s, i)
    case Push(i) => DoPush(cfg, s, i)
    case Finish(i) => DoFinish(s, i)
    case Check(i) => DoCheck(s, i)
    case Hang(i) => SetPc(s, i, Hung(s.workers[i].pc))
    case Start => DoStart(cfg, s)
    case PushRoot => DoPushRoot(s)
    case ClosePool => s.(closed := true, lost := s.lost + s.deque, deque := [], workers := Wake(s.workers), main := DrainingPool)
    case Drained => s.(main := Returned, gauge := s.live)
    case LatchSeen(t) => SetTarget(s, t, s.targets[t].(sup := Settled))
    case ScanCtxSeen(t) => SetTarget(s, t, s.targets[t].(sup := Draining))
    case TimerFires(t) => SetTarget(s, t, s.targets[t].(abandoned := true, done := true, sup := Settled))
    case ReadCtx(t) => SetTarget(s, t, s.targets[t].(sup := if s.ctxDone then Decided(Cancelled) else CtxLive))
    case ReadScanCtx(t) =>
      var x := s.targets[t];
      SetTarget(s, t, x.(sup := if ScanErr(cfg, s, x) || x.abandoned then Decided(Timeout) else ScanLive))
    case ReadErrors(t) =>
      var x := s.targets[t];
      SetTarget(s, t, x.(sup := Decided(if !NoFaults(x.flushed) || x.exhausted then Partial else Complete)))
    case Deliver(t) => SetTarget(s, t, DoReport(cfg, s.targets[t]))
    case CancelProcess => s.(ctxDone := true)
    case ScanCtxFires(t) => SetTarget(s, t, s.targets[t].(scanDone := true))
    case LeakedExits => s.(leaked := s.leaked - 1, live := s.live - 1)
  }

  // A run: the states a sequence of actions leads through.
  ghost predicate Reaches(cfg: Config, from: State, acts: seq<Action>, to: State)
    decreases |acts|
  {
    if acts == [] then from == to
    else Can(cfg, from, acts[0]) && Reaches(cfg, Do(cfg, from, acts[0]), acts[1..], to)
  }

  ghost predicate Reachable(cfg: Config, s: State) {
    ValidConfig(cfg) && exists init: State, acts: seq<Action> :: Fresh(init) && Reaches(cfg, init, acts, s)
  }
}
