// What a worker does with one directory it has taken (internal/scan/engine.go:393-406): the walk, the pool and
// the latch together, in the order the code has them.

module WorkerLoop {
  import opened FileTree
  import opened HardLinks
  import opened ScanProtocol
  import opened ScanWalk
  import opened FakeFs
  import opened WorkPool

  // Everything queued where other workers or this one can find it.
  function Queued(pool: Pool, local: LocalStack): int
    reads pool`deque, local`len
  {
    |pool.deque| + local.len
  }

  // The directory is discarded if its target is stopping, else read, its children reserved and published, and
  // completed. Either way the latch moves by exactly what is queued more, less this directory; and it closes
  // only when nothing is left outstanding. What an undisturbed read books, with the measure of the children
  // queued for later, is the measure of the directory.
  method HandleRef(stopping: bool, index: int, fs: FakeFS, tree: Tree, names: seq<Item>, batch: int,
                   stopAt: int, starveAt: int, target: TargetScan, totals: DirTotals, pool: Pool, local: LocalStack)
    returns (kids: seq<Tree>, reach: Reach)
    requires target.Valid() && totals.errors != target.errors && batch > 0 && fs.openDirs <= fs.maxOpenDirs
    requires tree.Listing? ==> multiset(names) == multiset(tree.items)
    requires local.Valid() && pool.shareOver > 0
    modifies fs, totals, totals.errors, target, target.errors, pool, local, local.buf
    ensures target.Valid() && local.Valid() && fs.openDirs == old(fs.openDirs)
    ensures stopping ==> kids == [] && target.tally == old(target.tally) && target.Money() == old(target.Money())
    ensures !stopping && tree.Unopenable? ==> reach.Whole?
    ensures !stopping && tree.Listing? ==> (reach.Whole? <==> Finishes(|names|, batch, stopAt, starveAt))
    ensures !stopping && reach.Whole? ==> forall x: Fact ::
      target.tally[x] + MeasureDirs(kids, target.fence, x) == old(target.tally)[x] + Measure(tree, target.fence, x)
    ensures !stopping && tree.Listing? ==>
      var sifted := names[..HowFar(|names|, batch, stopAt, starveAt)];
      var d := SiftAll(Desk(NO_HAUL, old(target.inodes), old(target.inodesExhausted)), sifted, target.fence, target.policy);
      && kids == d.got.kids && target.Money() == PlusB(old(target.Money()), d.got.bytes)
      && target.inodes == d.inodes && target.inodesExhausted == d.exhausted
    ensures var all := old(local.Contents()) + Refs(index, kids);
      var n := if kids == [] then 0 else Donated(pool.limit, pool.shareOver, old(pool.deque), all);
      pool.deque == old(pool.deque) + all[..n] && local.Contents() == all[n..]
    ensures target.pending - old(target.pending) == Queued(pool, local) - old(Queued(pool, local)) - 1
    ensures target.done == (old(target.done) || target.pending == 0)
  {
    hide SiftAll, SiftOne, PlusB, Tallied, TargetScan.Valid, DirTotals.Valid, LocalStack.Valid, Donated, TailTally,
         OpenFailTally, Repeat, Measure, MeasureDirs, LocalStack.Contents, TargetScan.Money, Fresh, ValidConfig;
    kids, reach := [], Whole;
    if !stopping {
      kids, reach := ReadRef(fs, tree, names, batch, stopAt, starveAt, target, totals);
      Publish(index, kids, target, pool, local);
    }
    assert old(local.Contents()) + Refs(index, []) == old(local.Contents());
    ghost var x := Root(ProbeOther, tree).(pending := target.pending, done := target.done);
    target.CompleteDir(x);
  }

  // The children found, if any: reserved on the latch, then pushed.
  method Publish(index: int, kids: seq<Tree>, target: TargetScan, pool: Pool, local: LocalStack)
    requires local.Valid() && pool.shareOver > 0
    modifies target`pending, pool, local, local.buf
    ensures local.Valid()
    ensures var all := old(local.Contents()) + Refs(index, kids);
      var n := if kids == [] then 0 else Donated(pool.limit, pool.shareOver, old(pool.deque), all);
      pool.deque == old(pool.deque) + all[..n] && local.Contents() == all[n..]
    ensures target.pending - old(target.pending) == Queued(pool, local) - old(Queued(pool, local))
  {
    hide LocalStack.Valid, LocalStack.Contents, Donated;
    if |kids| > 0 {
      target.AddPending(|kids|);
      pool.PushLocal(Refs(index, kids), local);
    } else {
      assert old(local.Contents()) + Refs(index, kids) == old(local.Contents());
    }
  }

  // The walk of one directory, and the account of it.
  method ReadRef(fs: FakeFS, tree: Tree, names: seq<Item>, batch: int, stopAt: int, starveAt: int,
                 target: TargetScan, totals: DirTotals)
    returns (kids: seq<Tree>, reach: Reach)
    requires target.Valid() && totals.errors != target.errors && batch > 0 && fs.openDirs <= fs.maxOpenDirs
    requires tree.Listing? ==> multiset(names) == multiset(tree.items)
    modifies fs, totals, totals.errors, target, target.errors
    ensures target.Valid() && fs.openDirs == old(fs.openDirs)
    ensures target.pending == old(target.pending) && target.done == old(target.done)
    ensures tree.Listing? ==> (reach.Whole? <==> Finishes(|names|, batch, stopAt, starveAt))
    ensures tree.Unopenable? ==> reach.Whole?
    ensures reach.Whole? ==> forall x: Fact ::
      target.tally[x] + MeasureDirs(kids, target.fence, x) == old(target.tally)[x] + Measure(tree, target.fence, x)
    ensures tree.Listing? ==>
      var sifted := names[..HowFar(|names|, batch, stopAt, starveAt)];
      var d := SiftAll(Desk(NO_HAUL, old(target.inodes), old(target.inodesExhausted)), sifted, target.fence, target.policy);
      && kids == d.got.kids && target.Money() == PlusB(old(target.Money()), d.got.bytes)
      && target.inodes == d.inodes && target.inodesExhausted == d.exhausted
  {
    hide SiftAll, SiftOne, PlusB, Tallied, TargetScan.Valid, DirTotals.Valid, TailTally, OpenFailTally, Repeat, Measure,
         MeasureDirs, TargetScan.Money;
    ghost var sifted;
    kids, reach, sifted := ProcessDir(fs, tree, names, batch, stopAt, starveAt, target, totals);
    if reach.Whole? {
      WholeTurn(tree, names, old(target.tally), target.tally, Desk(NO_HAUL, old(target.inodes), old(target.inodesExhausted)),
                kids, target.fence, target.policy);
    }
  }

  lemma WholeTurn(tree: Tree, names: seq<Item>, was: Tally, now: Tally, d: Desk, kids: seq<Tree>, fence: Fence, p: Policy)
    requires tree.Unopenable? ==> kids == [] && now == was + OpenFailTally(tree.why) + multiset{DirRead}
    requires tree.Listing? ==> multiset(names) == multiset(tree.items) && d.got == NO_HAUL
    requires tree.Listing? ==>
      var e := SiftAll(d, names, fence, p);
      kids == e.got.kids
      && now == was + (e.got.tally + TailTally(tree.tail) + Repeat(Directory, |e.got.kids|)) + multiset{DirRead}
    ensures forall x: Fact :: now[x] + MeasureDirs(kids, fence, x) == was[x] + Measure(tree, fence, x)
  {
    hide SiftAll, TailTally, Repeat;
    forall x: Fact ensures now[x] + MeasureDirs(kids, fence, x) == was[x] + Measure(tree, fence, x) {
      if tree.Listing? {
        hide Measure, MeasureDirs;
        WholeReadMeasures(tree, names, d, fence, p, x);
      }
    }
  }
}
