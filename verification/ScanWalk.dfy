// One directory read (internal/scan/walk.go) and the counters it feeds (internal/scan/target.go), as the
// code runs them: batched reads into reused totals, one flush per directory, hard-link dedup on the way.

module ScanWalk {
  import opened Options
  import opened FsErrors
  import opened FileTree
  import opened HardLinks
  import opened ScanProtocol
  import opened ScanInvariant
  import opened FakeFs

  // --- the specification of a batch ----------------------------------------------------------------

  // The haul of a directory so far, and the target's inode table.
  datatype Desk = Desk(got: Haul, inodes: set<Key>, exhausted: bool)

  function SiftOne(d: Desk, it: Item, fence: Fence, p: Policy): Desk {
    var counted := !it.typedLink && it.stat.StatFile?;
    var v := if counted then Judge(d.inodes, it.stat.file, p) else Plain;
    Desk(Gather(d.got, it, fence, d.inodes, p),
         if counted then Remember(d.inodes, v, it.stat.file) else d.inodes, d.exhausted || v.Overflow?)
  }

  function SiftAll(d: Desk, items: seq<Item>, fence: Fence, p: Policy): Desk {
    if items == [] then d
    else SiftOne(SiftAll(d, items[..|items| - 1], fence, p), items[|items| - 1], fence, p)
  }

  // The protocol's Sift action is SiftOne on the worker's haul and the target's table.
  lemma SiftIsSiftOne(cfg: Config, s: State, i: int)
    requires AtWorker(s, i) && s.workers[i].pc.Sifting? && HasTarget(s, s.workers[i].pc) && s.workers[i].pc.todo != []
    ensures var pc, t := s.workers[i].pc, s.workers[i].pc.ref.target;
      var s', x := DoSift(cfg, s, i), s.targets[t];
      Desk(s'.workers[i].pc.got, s'.targets[t].inodes, s'.targets[t].exhausted)
        == SiftOne(Desk(pc.got, x.inodes, x.exhausted), pc.todo[0], x.fence, cfg.policy)
  {
    hide Gather, Judge, Remember;
  }

  lemma SiftNothing(d: Desk, fence: Fence, p: Policy)
    ensures SiftAll(d, [], fence, p) == d
  {
  }

  lemma SiftMore(d: Desk, items: seq<Item>, it: Item, fence: Fence, p: Policy)
    ensures SiftAll(d, items + [it], fence, p) == SiftOne(SiftAll(d, items, fence, p), it, fence, p)
  {
    assert (items + [it])[..|items|] == items;
  }

  // Sifting takes off the debt what it adds to the haul, entry by entry.
  lemma {:induction false} SiftAllMeasures(d: Desk, items: seq<Item>, fence: Fence, p: Policy, x: Fact)
    ensures var e := SiftAll(d, items, fence, p);
      e.got.tally[x] + Unread(e.got.kids, fence, x) == d.got.tally[x] + Unread(d.got.kids, fence, x) + MeasureItems(items, fence, x)
  {
    hide Gather, Judge, Remember, Measure, MeasureItem, MeasureDirs, EntryTally;
    if items == [] {
    } else {
      var most, it := items[..|items| - 1], items[|items| - 1];
      var e := SiftAll(d, most, fence, p);
      SiftAllMeasures(d, most, fence, p, x);
      GatherOwed(e.got, it, fence, e.inodes, p, x);
      assert items == most + [it] && [it][1..] == [];
      ItemsAppend(most, [it], fence, x);
    }
  }

  // Children queued: each one more directory, and all it contains.
  function Unread(kids: seq<Tree>, fence: Fence, x: Fact): int {
    MeasureDirs(kids, fence, x) + if x.Directory? then |kids| else 0
  }

  // --- the counters --------------------------------------------------------------------------------

  // dirTotals: one directory's contribution in plain fields, reused by a worker for every directory.
  // Six counters and the errors seen, against the facts they count.
  predicate Tallied(tally: Tally, entries: int, statCalls: int, dirs: int, vanished: int, skippedXdev: int, dirsRead: int,
                    seen: multiset<Class>) {
    && entries == tally[Entry] && statCalls == tally[Statted] && dirs == tally[Directory]
    && vanished == tally[Vanished] && skippedXdev == tally[OtherDevice] && dirsRead == tally[DirRead]
    && forall c :: seen[c] == tally[Fault(c)]
  }

  class DirTotals {
    var size: int
    var alloc: int
    var files: int
    var dirs: int
    var entries: int
    var statCalls: int
    var vanished: int
    var skippedXdev: int
    var hardlinked: int
    var dedupSaved: int
    const errors: ErrorTally

    ghost var tally: Tally

    ghost predicate Valid()
      reads this, errors
    {
      errors.Valid() && Tallied(tally, entries, statCalls, dirs, vanished, skippedXdev, 0, errors.seen)
    }

    function Money(): Bytes
      reads this
    {
      Bytes(size, alloc, files, hardlinked, dedupSaved)
    }

    constructor ()
      ensures Valid() && fresh(errors) && tally == multiset{} && Money() == NO_BYTES
    {
      size, alloc, files, dirs, entries, statCalls := 0, 0, 0, 0, 0, 0;
      vanished, skippedXdev, hardlinked, dedupSaved, tally := 0, 0, 0, 0, multiset{};
      errors := new ErrorTally();
    }

    method Reset()
      modifies this, errors
      ensures Valid() && tally == multiset{} && Money() == NO_BYTES
    {
      hide CountsOf, ErrorTally.Valid;
      size, alloc, files, dirs, entries, statCalls := 0, 0, 0, 0, 0, 0;
      vanished, skippedXdev, hardlinked, dedupSaved, tally := 0, 0, 0, 0, multiset{};
      errors.Reset();
    }

    method AddFault(e: FsError)
      requires Valid()
      modifies this`tally, errors
      ensures Valid() && tally == old(tally) + multiset{Fault(Classify(e))}
    {
      hide CountsOf, Tallied, ErrorTally.Valid;
      TallyFault(tally, entries, statCalls, dirs, vanished, skippedXdev, errors.seen, Classify(e));
      errors.Add(Some(e));
      tally := tally + multiset{Fault(Classify(e))};
    }

    static lemma TallyFault(t: Tally, entries: int, statCalls: int, dirs: int, vanished: int, skippedXdev: int,
                            seen: multiset<Class>, c: Class)
      requires Tallied(t, entries, statCalls, dirs, vanished, skippedXdev, 0, seen)
      ensures Tallied(t + multiset{Fault(c)}, entries, statCalls, dirs, vanished, skippedXdev, 0, seen + multiset{c})
    {
    }

    // A regular file met changes no counter by itself.
    method AddMet(f: File)
      requires Valid()
      modifies this`tally
      ensures Valid() && tally == old(tally) + multiset{Met(f)}
    {
      hide CountsOf, ErrorTally.Valid;
      tally := tally + multiset{Met(f)};
    }

    method AddEntry()
      requires Valid()
      modifies this`entries, this`tally
      ensures Valid() && tally == old(tally) + multiset{Entry}
    {
      hide CountsOf;
      entries := entries + 1;
      tally := tally + multiset{Entry};
    }

    method AddStat()
      requires Valid()
      modifies this`statCalls, this`tally
      ensures Valid() && tally == old(tally) + multiset{Statted}
    {
      hide CountsOf;
      statCalls := statCalls + 1;
      tally := tally + multiset{Statted};
    }

    method AddXdev()
      requires Valid()
      modifies this`skippedXdev, this`tally
      ensures Valid() && tally == old(tally) + multiset{OtherDevice}
    {
      hide CountsOf;
      skippedXdev := skippedXdev + 1;
      tally := tally + multiset{OtherDevice};
    }

    method AddDirs(n: nat)
      requires Valid()
      modifies this`dirs, this`tally
      ensures Valid() && tally == old(tally) + Repeat(Directory, n)
    {
      hide CountsOf;
      dirs := dirs + n;
      tally := tally + Repeat(Directory, n);
    }

    // An error that may only mean the entry is gone.
    method AddMishap(e: FsError)
      requires Valid()
      modifies this`vanished, this`tally, errors
      ensures Valid() && tally == old(tally) + multiset{FaultFact(e)}
    {
      if IsVanished(e) {
        vanished := vanished + 1;
        tally := tally + multiset{Vanished};
      } else {
        AddFault(e);
      }
    }
  }

  // targetScan: what the workers of a target share.
  class TargetScan {
    const fence: Fence
    const policy: Policy
    var size: int
    var alloc: int
    var files: int
    var dirs: int
    var entries: int
    var statCalls: int
    var dirsRead: int
    var vanished: int
    var skippedXdev: int
    var hardlinked: int
    var dedupSaved: int
    const errors: ErrorTally
    var inodes: set<Key>
    var inodesExhausted: bool
    var pending: int
    var done: bool

    ghost var tally: Tally

    ghost predicate Valid()
      reads `entries, `statCalls, `dirs, `vanished, `skippedXdev, `dirsRead, `tally, errors
    {
      errors.Valid() && Tallied(tally, entries, statCalls, dirs, vanished, skippedXdev, dirsRead, errors.seen)
    }

    function Money(): Bytes
      reads `size, `alloc, `files, `hardlinked, `dedupSaved
    {
      Bytes(size, alloc, files, hardlinked, dedupSaved)
    }

    constructor (fence: Fence, policy: Policy)
      ensures Valid() && fresh(errors) && tally == multiset{} && Money() == NO_BYTES
      ensures inodes == {} && !inodesExhausted && pending == 0 && !done && this.fence == fence && this.policy == policy
    {
      this.fence, this.policy := fence, policy;
      size, alloc, files, dirs, entries, statCalls, dirsRead := 0, 0, 0, 0, 0, 0, 0;
      vanished, skippedXdev, hardlinked, dedupSaved, tally := 0, 0, 0, 0, multiset{};
      inodes, inodesExhausted, pending, done := {}, false, 0, false;
      errors := new ErrorTally();
    }

    method AddPending(n: int)
      modifies this`pending
      ensures pending == old(pending) + n
    {
      pending := pending + n;
    }

    // The pair (pending, done) moves as DoComplete says.
    method CompleteDir(ghost x: Target)
      requires x.pending == pending && x.done == done
      modifies this`pending, this`done
      ensures pending == DoComplete(x).pending && done == DoComplete(x).done
    {
      pending := pending - 1;
      if pending == 0 {
        done := true;
      }
    }

    method Finish()
      modifies this`done
      ensures done
    {
      done := true;
    }

    // Folds one directory's totals into the target, skipping the additions that would change nothing.
    method Flush(t: DirTotals)
      requires Valid() && t.Valid() && t.errors != errors
      modifies this, errors
      ensures Valid() && tally == old(tally) + t.tally + multiset{DirRead} && Money() == PlusB(old(Money()), t.Money())
      ensures pending == old(pending) && done == old(done)
      ensures inodes == old(inodes) && inodesExhausted == old(inodesExhausted)
    {
      hide Tallied, ErrorTally.Valid, PlusB;
      FlushMoney(t);
      FlushTallies(t);
    }

    method FlushTallies(t: DirTotals)
      requires Valid() && t.Valid() && t.errors != errors
      modifies this`dirs, this`entries, this`statCalls, this`vanished, this`skippedXdev, this`dirsRead, this`tally, errors
      ensures Valid() && tally == old(tally) + t.tally + multiset{DirRead}
    {
      hide Tallied, ErrorTally.Valid;
      TalliesAdd(tally, entries, statCalls, dirs, vanished, skippedXdev, dirsRead, errors.seen,
                 t.tally, t.entries, t.statCalls, t.dirs, t.vanished, t.skippedXdev, t.errors.seen);
      FlushCounts(t);
      FlushErrors(t);
      dirsRead := dirsRead + 1;
      tally := tally + t.tally + multiset{DirRead};
    }

    static lemma TalliesAdd(a: Tally, entries: int, statCalls: int, dirs: int, vanished: int, skippedXdev: int, dirsRead: int,
                            seen: multiset<Class>,
                            b: Tally, entries': int, statCalls': int, dirs': int, vanished': int, skippedXdev': int,
                            seen': multiset<Class>)
      requires Tallied(a, entries, statCalls, dirs, vanished, skippedXdev, dirsRead, seen)
      requires Tallied(b, entries', statCalls', dirs', vanished', skippedXdev', 0, seen')
      ensures Tallied(a + b + multiset{DirRead}, entries + entries', statCalls + statCalls', dirs + dirs', vanished + vanished',
                      skippedXdev + skippedXdev', dirsRead + 1, seen + seen')
    {
    }

    method FlushErrors(t: DirTotals)
      requires errors.Valid() && t.errors.Valid() && t.errors != errors
      modifies errors
      ensures errors.Valid() && errors.seen == old(errors.seen) + t.errors.seen
    {
      if t.errors.total != 0 {
        errors.Merge(t.errors);
      } else {
        assert t.errors.seen == multiset{};
      }
    }

    method FlushMoney(t: DirTotals)
      modifies this`size, this`alloc, this`files, this`hardlinked, this`dedupSaved
      ensures Money() == PlusB(old(Money()), t.Money())
    {
      if t.size != 0 { size := size + t.size; }
      if t.alloc != 0 { alloc := alloc + t.alloc; }
      if t.files != 0 { files := files + t.files; }
      if t.hardlinked != 0 { hardlinked := hardlinked + t.hardlinked; }
      if t.dedupSaved != 0 { dedupSaved := dedupSaved + t.dedupSaved; }
    }

    method FlushCounts(t: DirTotals)
      modifies this`dirs, this`entries, this`statCalls, this`vanished, this`skippedXdev
      ensures dirs == old(dirs) + t.dirs && entries == old(entries) + t.entries && statCalls == old(statCalls) + t.statCalls
      ensures vanished == old(vanished) + t.vanished && skippedXdev == old(skippedXdev) + t.skippedXdev
    {
      if t.dirs != 0 { dirs := dirs + t.dirs; }
      if t.entries != 0 { entries := entries + t.entries; }
      if t.statCalls != 0 { statCalls := statCalls + t.statCalls; }
      if t.vanished != 0 { vanished := vanished + t.vanished; }
      if t.skippedXdev != 0 { skippedXdev := skippedXdev + t.skippedXdev; }
    }

    // Whether a file's bytes count, under the inode lock.
    method ShouldCount(f: File, t: DirTotals) returns (count: bool)
      modifies this`inodes, this`inodesExhausted, t`hardlinked, t`dedupSaved
      ensures var v := Judge(old(inodes), f, policy);
        && count == !v.Duplicate?
        && inodes == Remember(old(inodes), v, f)
        && inodesExhausted == (old(inodesExhausted) || v.Overflow?)
        && t.hardlinked == old(t.hardlinked) + (if v.Plain? then 0 else 1)
        && t.dedupSaved == old(t.dedupSaved) + (if v.Duplicate? then f.size else 0)
      // Only a further link to a tracked inode, by device and number, does not count.
      ensures count <==> !(policy.dedup && f.nlink > 1 && Key(f.dev, f.ino) in old(inodes))
    {
      if !policy.dedup || f.nlink <= 1 {
        return true;
      }
      t.hardlinked := t.hardlinked + 1;
      var key := Key(f.dev, f.ino);
      if key in inodes {
        t.dedupSaved := t.dedupSaved + f.size;
        return false;
      }
      if policy.maxTracked > 0 && |inodes| >= policy.maxTracked {
        inodesExhausted := true;
        return true;
      }
      inodes := inodes + {key};
      return true;
    }

    // What processEntry sees and leaves behind, as a Desk.
    ghost function OnDesk(t: DirTotals, kids: seq<Tree>): Desk
      reads this, t
    {
      Desk(Haul(kids, t.tally, t.Money()), inodes, inodesExhausted)
    }
  }

  // A regular file: through shouldCount, then into the totals.
  method CountFile(f: File, target: TargetScan, totals: DirTotals)
    requires totals.Valid()
    modifies totals`size, totals`alloc, totals`files, totals`hardlinked, totals`dedupSaved, target`inodes, target`inodesExhausted
    ensures var v := Judge(old(target.inodes), f, target.policy);
      && totals.Valid() && totals.tally == old(totals.tally)
      && totals.Money() == Charge(old(totals.Money()), v, f)
      && target.inodes == Remember(old(target.inodes), v, f)
      && target.inodesExhausted == (old(target.inodesExhausted) || v.Overflow?)
  {
    var count := target.ShouldCount(f, totals);
    if !count {
      return;
    }
    totals.size := totals.size + f.size;
    totals.alloc := totals.alloc + f.alloc;
    totals.files := totals.files + 1;
  }

  // An entry that is no regular file changes the tally, and perhaps the children, alone.
  lemma SiftPlain(d: Desk, it: Item, fence: Fence, p: Policy)
    requires it.typedLink || !it.stat.StatFile?
    ensures var kids := if Descends(it, fence) then d.got.kids + [it.stat.sub] else d.got.kids;
      SiftOne(d, it, fence, p) == d.(got := Haul(kids, d.got.tally + EntryTally(it, fence), d.got.bytes))
  {
  }

  lemma SiftFile(d: Desk, it: Item, fence: Fence, p: Policy)
    requires !it.typedLink && it.stat.StatFile?
    ensures var v := Judge(d.inodes, it.stat.file, p);
      SiftOne(d, it, fence, p) == Desk(
        Haul(d.got.kids, d.got.tally + multiset{Entry} + multiset{Statted} + multiset{Met(it.stat.file)},
             Charge(d.got.bytes, v, it.stat.file)),
        Remember(d.inodes, v, it.stat.file), d.exhausted || v.Overflow?)
  {
    hide Judge, Charge, Remember;
    assert d.got.tally + EntryTally(it, fence) == d.got.tally + multiset{Entry} + multiset{Statted} + multiset{Met(it.stat.file)};
  }

  method ProcessEntry(it: Item, target: TargetScan, totals: DirTotals, ghost kids: seq<Tree>) returns (child: Option<Tree>)
    requires totals.Valid() && totals.errors != target.errors
    modifies totals, totals.errors, target`inodes, target`inodesExhausted
    ensures totals.Valid()
    ensures child == if Descends(it, target.fence) then Some(it.stat.sub) else None
    ensures target.OnDesk(totals, if child.Some? then kids + [child.value] else kids)
         == SiftOne(old(target.OnDesk(totals, kids)), it, target.fence, target.policy)
  {
    hide Judge, Remember, Charge, EntryTally, SiftOne, DirTotals.Valid;
    if it.typedLink || !it.stat.StatFile? {
      SiftPlain(target.OnDesk(totals, kids), it, target.fence, target.policy);
      child := TallyEntry(it, target, totals);
    } else {
      child := None;
      totals.AddEntry();
      totals.AddStat();
      totals.AddMet(it.stat.file);
      CountFile(it.stat.file, target, totals);
      SiftFile(old(target.OnDesk(totals, kids)), it, target.fence, target.policy);
    }
  }

  // The branches of processEntry that count no bytes.
  method TallyEntry(it: Item, target: TargetScan, totals: DirTotals) returns (child: Option<Tree>)
    requires totals.Valid() && totals.errors != target.errors && (it.typedLink || !it.stat.StatFile?)
    modifies totals, totals.errors
    ensures totals.Valid() && totals.Money() == old(totals.Money())
    ensures totals.tally == old(totals.tally) + EntryTally(it, target.fence)
    ensures child == if Descends(it, target.fence) then Some(it.stat.sub) else None
  {
    hide CountsOf;
    child := None;
    totals.AddEntry();
    if it.typedLink {
      return;
    }
    totals.AddStat();
    child := TallyStat(it.stat, target, totals);
    Grouping(old(totals.tally), it, target.fence);
  }

  lemma Grouping(was: Tally, it: Item, fence: Fence)
    requires !it.typedLink && !it.stat.StatFile?
    ensures was + multiset{Entry} + multiset{Statted} + StatTally(it.stat, fence) == was + EntryTally(it, fence)
  {
  }

  function StatTally(st: Stat, fence: Fence): Tally {
    match st
    case StatFails(e) => multiset{FaultFact(e)}
    case StatDir(dev, _) => if fence.Some? && dev != fence.value then multiset{OtherDevice} else multiset{}
    case _ => multiset{}
  }

  method TallyStat(st: Stat, target: TargetScan, totals: DirTotals) returns (child: Option<Tree>)
    requires totals.Valid() && totals.errors != target.errors && !st.StatFile?
    modifies totals, totals.errors
    ensures totals.Valid() && totals.Money() == old(totals.Money())
    ensures totals.tally == old(totals.tally) + StatTally(st, target.fence)
    ensures child == if Descends(Item(false, st), target.fence) then Some(st.sub) else None
  {
    hide CountsOf;
    child := None;
    match st
    case StatFails(e) => totals.AddMishap(e);
    case StatLink =>
    case StatOther =>
    case StatDir(dev, sub) =>
      if target.fence.Some? && dev != target.fence.value {
        totals.AddXdev();
      } else {
        child := Some(sub);
      }
  }

  // How far a read of one directory got: everything, or cut short after a batch by cancellation or by the
  // rate limiter refusing tokens.
  datatype Reach = Whole | CutShort

  // How many of n entries these many batches hold.
  function Upto(n: nat, batch: nat, batches: nat): (k: nat)
    ensures k <= n
  {
    if batches * batch < n then batches * batch else n
  }

  function AtLeastZero(k: int): nat { if k < 0 then 0 else k }

  // How many entries are sifted before the walk is told to stop or refused tokens, and whether the read gets to
  // see the end: the poll after the last batch must still let it, and every batch be paid for.
  function HowFar(n: nat, batch: nat, stopAt: int, starveAt: int): (k: nat)
    ensures k <= n
  {
    Upto(n, batch, if AtLeastZero(stopAt) < AtLeastZero(starveAt) then AtLeastZero(stopAt) else AtLeastZero(starveAt))
  }

  predicate Finishes(n: nat, batch: nat, stopAt: int, starveAt: int) {
    stopAt > 0 && Upto(n, batch, stopAt - 1) == n && Upto(n, batch, AtLeastZero(starveAt)) == n
  }

  lemma UptoGrows(n: nat, batch: nat, j: nat, k: nat)
    requires j <= k
    ensures Upto(n, batch, j) <= Upto(n, batch, k)
  {
    assert j * batch <= k * batch;
  }

  lemma UptoNext(n: nat, batch: nat, k: nat)
    ensures Upto(n, batch, k + 1) == if Upto(n, batch, k) + batch < n then Upto(n, batch, k) + batch else n
    ensures Upto(n, batch, 0) == 0
  {
    assert (k + 1) * batch == k * batch + batch;
  }

  // processDir: open, read in batches, sift each batch, flush once, close. The k-th poll of stopping()
  // answers k >= stopAt, the k-th request for tokens fails when k >= starveAt.
  method ProcessDir(fs: FakeFS, tree: Tree, names: seq<Item>, batch: int, stopAt: int, starveAt: int,
                    target: TargetScan, totals: DirTotals)
    returns (kids: seq<Tree>, reach: Reach, ghost sifted: seq<Item>)
    requires target.Valid() && totals.errors != target.errors && batch > 0 && fs.openDirs <= fs.maxOpenDirs
    requires tree.Listing? ==> multiset(names) == multiset(tree.items)
    modifies fs, totals, totals.errors, target, target.errors
    ensures target.Valid() && fs.openDirs == old(fs.openDirs)
    ensures target.pending == old(target.pending) && target.done == old(target.done)
    ensures tree.Unopenable? ==> kids == [] && reach == Whole && target.Money() == old(target.Money())
    ensures tree.Unopenable? ==> target.tally == old(target.tally) + OpenFailTally(tree.why) + multiset{DirRead}
    ensures tree.Unopenable? ==> target.inodes == old(target.inodes) && target.inodesExhausted == old(target.inodesExhausted)
    ensures tree.Listing? ==> sifted == names[..HowFar(|names|, batch, stopAt, starveAt)] && (reach.Whole? ==> sifted == names)
    ensures tree.Listing? ==> (reach.Whole? <==> Finishes(|names|, batch, stopAt, starveAt))
    ensures tree.Listing? ==>
      var d := Desk(NO_HAUL, old(target.inodes), old(target.inodesExhausted));
      var e := SiftAll(d, sifted, target.fence, target.policy);
      && kids == e.got.kids && target.inodes == e.inodes && target.inodesExhausted == e.exhausted
      && target.Money() == PlusB(old(target.Money()), e.got.bytes)
      && target.tally == old(target.tally) + (e.got.tally + (if reach.Whole? then TailTally(tree.tail) else multiset{})
           + Repeat(Directory, |kids|)) + multiset{DirRead}
  {
    hide *;
    totals.Reset();
    var dir, err := fs.OpenDir(tree, names);
    if err.Some? {
      FlushUnopened(err.value, target, totals);
      return [], Whole, [];
    }
    kids, reach, sifted := ReadAndFlush(dir, batch, stopAt, starveAt, target, totals);
    dir.Close();
  }

  method FlushUnopened(e: FsError, target: TargetScan, totals: DirTotals)
    requires target.Valid() && totals.Valid() && totals.errors != target.errors
    requires totals.tally == multiset{} && totals.Money() == NO_BYTES
    modifies totals, totals.errors, target, target.errors
    ensures target.Valid() && target.pending == old(target.pending) && target.done == old(target.done)
    ensures target.tally == old(target.tally) + OpenFailTally(e) + multiset{DirRead}
    ensures target.Money() == old(target.Money())
    ensures target.inodes == old(target.inodes) && target.inodesExhausted == old(target.inodesExhausted)
  {
    hide CountsOf, PlusB;
    totals.AddMishap(e);
    NothingMore(target.Money());
    target.Flush(totals);
  }

  // Everything between opening a directory and closing it.
  method ReadAndFlush(dir: FakeDir, batch: int, stopAt: int, starveAt: int, target: TargetScan, totals: DirTotals)
    returns (kids: seq<Tree>, reach: Reach, ghost sifted: seq<Item>)
    requires dir.Valid() && !dir.closed && dir.cursor == 0 && batch > 0 && target.Valid()
    requires totals.Valid() && totals.errors != target.errors && totals.tally == multiset{} && totals.Money() == NO_BYTES
    modifies dir`cursor, dir.fs`readCalls, totals, totals.errors, target, target.errors
    ensures target.Valid() && target.pending == old(target.pending) && target.done == old(target.done)
    ensures sifted == dir.names[..HowFar(|dir.names|, batch, stopAt, starveAt)] && (reach.Whole? ==> sifted == dir.names)
    ensures reach.Whole? <==> Finishes(|dir.names|, batch, stopAt, starveAt)
    ensures var e := SiftAll(Desk(NO_HAUL, old(target.inodes), old(target.inodesExhausted)), sifted, target.fence, target.policy);
      && kids == e.got.kids && target.inodes == e.inodes && target.inodesExhausted == e.exhausted
      && target.Money() == PlusB(old(target.Money()), e.got.bytes)
      && target.tally == old(target.tally) + (e.got.tally + (if reach.Whole? then TailTally(dir.tail) else multiset{})
           + Repeat(Directory, |kids|)) + multiset{DirRead}
  {
    hide *;
    kids, reach, sifted := ReadAll(dir, batch, stopAt, starveAt, target, totals);
    FlushRead(|kids|, target, totals);
  }

  method FlushRead(dirs: nat, target: TargetScan, totals: DirTotals)
    requires target.Valid() && totals.Valid() && totals.errors != target.errors
    modifies totals`dirs, totals`tally, target, target.errors
    ensures target.Valid() && target.pending == old(target.pending) && target.done == old(target.done)
    ensures target.inodes == old(target.inodes) && target.inodesExhausted == old(target.inodesExhausted)
    ensures target.Money() == PlusB(old(target.Money()), old(totals.Money()))
    ensures target.tally == old(target.tally) + (old(totals.tally) + Repeat(Directory, dirs)) + multiset{DirRead}
  {
    hide CountsOf, PlusB, Repeat;
    totals.AddDirs(dirs);
    target.Flush(totals);
  }

  method ReadAll(dir: FakeDir, batch: int, stopAt: int, starveAt: int, target: TargetScan, totals: DirTotals)
    returns (kids: seq<Tree>, reach: Reach, ghost sifted: seq<Item>)
    requires dir.Valid() && !dir.closed && dir.cursor == 0 && batch > 0
    requires totals.Valid() && totals.errors != target.errors && totals.tally == multiset{} && totals.Money() == NO_BYTES
    modifies dir`cursor, dir.fs`readCalls, totals, totals.errors, target`inodes, target`inodesExhausted
    ensures totals.Valid() && sifted == dir.names[..HowFar(|dir.names|, batch, stopAt, starveAt)]
    ensures reach.Whole? <==> Finishes(|dir.names|, batch, stopAt, starveAt)
    ensures reach.Whole? ==> sifted == dir.names
    ensures var e := SiftAll(Desk(NO_HAUL, old(target.inodes), old(target.inodesExhausted)), sifted, target.fence, target.policy);
      && kids == e.got.kids && totals.Money() == e.got.bytes
      && target.inodes == e.inodes && target.inodesExhausted == e.exhausted
      && totals.tally == e.got.tally + (if reach.Whole? then TailTally(dir.tail) else multiset{})
  {
    hide SiftAll, SiftOne, CountsOf, TailTally, Upto, HowFar, Finishes;
    var failed;
    kids, reach, failed, sifted := ReadPages(dir, batch, stopAt, starveAt, target, totals);
    if failed.Some? {
      totals.AddFault(failed.value);
      TailIs(dir.tail, failed.value);
    } else {
      TailIs(dir.tail, CLOSED_HANDLE);
    }
  }

  // The read loop of processDir. A failed read ends it; its error is recorded once the loop is left.
  method ReadPages(dir: FakeDir, batch: int, stopAt: int, starveAt: int, target: TargetScan, totals: DirTotals)
    returns (kids: seq<Tree>, reach: Reach, failed: Option<FsError>, ghost sifted: seq<Item>)
    requires dir.Valid() && !dir.closed && dir.cursor == 0 && batch > 0
    requires totals.Valid() && totals.errors != target.errors
    modifies dir`cursor, dir.fs`readCalls, totals, totals.errors, target`inodes, target`inodesExhausted
    ensures totals.Valid() && sifted == dir.names[..HowFar(|dir.names|, batch, stopAt, starveAt)]
    ensures reach.Whole? <==> Finishes(|dir.names|, batch, stopAt, starveAt)
    ensures reach.Whole? ==> sifted == dir.names
    ensures failed == if reach.Whole? && dir.tail.ReadFails? then Some(dir.tail.why) else None
    ensures target.OnDesk(totals, kids) == SiftAll(old(target.OnDesk(totals, [])), sifted, target.fence, target.policy)
  {
    hide SiftAll, SiftOne, CountsOf, DirTotals.Valid, Upto;
    ghost var d := target.OnDesk(totals, []);
    SiftNothing(d, target.fence, target.policy);
    kids, reach, failed, sifted := [], Whole, None, [];
    var polls, grants := 0, 0;
    ghost var n := |dir.names|;
    UptoNext(n, batch, 0);
    while true
      invariant dir.Valid() && !dir.closed && totals.Valid()
      invariant sifted == dir.names[..dir.cursor] && dir.cursor == Upto(n, batch, grants)
      invariant 0 <= polls == grants && grants <= AtLeastZero(stopAt) && grants <= AtLeastZero(starveAt)
      invariant grants > 0 ==> Upto(n, batch, grants - 1) < n
      invariant target.OnDesk(totals, kids) == SiftAll(d, sifted, target.fence, target.policy)
      decreases |dir.names| - dir.cursor
    {
      if polls >= stopAt {
        return kids, CutShort, None, sifted;
      }
      PagesLeft(n, batch, stopAt, starveAt, grants);
      polls := polls + 1;
      var page, end := dir.ReadSome(batch);
      if end.Failed? {
        return kids, Whole, Some(end.why), sifted;
      }
      if |page| == 0 {
        return kids, Whole, None, sifted;
      }
      if grants >= starveAt {
        return kids, CutShort, None, sifted;
      }
      UptoNext(n, batch, grants);
      grants := grants + 1;
      kids := SiftPage(page, d, sifted, kids, target, totals);
      sifted := sifted + page;
    }
  }

  // Once every entry is sifted, later limits make no difference.
  lemma PagesLeft(n: nat, batch: nat, stopAt: int, starveAt: int, k: nat)
    requires k < stopAt && k <= AtLeastZero(starveAt)
    ensures Upto(n, batch, k) == n ==> Finishes(n, batch, stopAt, starveAt) && HowFar(n, batch, stopAt, starveAt) == n
  {
    hide Upto;
    UptoGrows(n, batch, k, stopAt - 1);
    UptoGrows(n, batch, k, stopAt);
    UptoGrows(n, batch, k, AtLeastZero(starveAt));
  }

  lemma TailIs(tail: Tail, e: FsError)
    ensures tail == ReadFails(e) ==> TailTally(tail) == multiset{Fault(Classify(e))}
    ensures tail.Eof? ==> TailTally(tail) == multiset{}
  {
  }

  // One batch.
  method SiftPage(page: seq<Item>, ghost d: Desk, ghost before: seq<Item>, kids0: seq<Tree>, target: TargetScan, totals: DirTotals)
    returns (kids: seq<Tree>)
    requires totals.Valid() && totals.errors != target.errors
    requires target.OnDesk(totals, kids0) == SiftAll(d, before, target.fence, target.policy)
    modifies totals, totals.errors, target`inodes, target`inodesExhausted
    ensures totals.Valid()
    ensures target.OnDesk(totals, kids) == SiftAll(d, before + page, target.fence, target.policy)
  {
    hide SiftAll, SiftOne, CountsOf, Judge, Remember, Descends;
    kids := kids0;
    var i := 0;
    assert before + page[..0] == before;
    while i < |page|
      invariant 0 <= i <= |page| && totals.Valid()
      invariant target.OnDesk(totals, kids) == SiftAll(d, before + page[..i], target.fence, target.policy)
    {
      SiftMore(d, before + page[..i], page[i], target.fence, target.policy);
      assert before + page[..i] + [page[i]] == before + page[..i + 1];
      var child := ProcessEntry(page[i], target, totals, kids);
      if child.Some? {
        kids := kids + [child.value];
      }
      i := i + 1;
    }
    assert page[..i] == page;
  }

  // What an undisturbed read of a directory puts into the target, together with the measure of the
  // children it returns, is the measure of the directory.
  lemma WholeReadMeasures(tree: Tree, names: seq<Item>, d: Desk, fence: Fence, p: Policy, x: Fact)
    requires tree.Listing? && multiset(names) == multiset(tree.items) && d.got == NO_HAUL
    ensures var e := SiftAll(d, names, fence, p);
      (e.got.tally + TailTally(tree.tail) + Repeat(Directory, |e.got.kids|) + multiset{DirRead})[x]
        + MeasureDirs(e.got.kids, fence, x) == Measure(tree, fence, x)
  {
    var e := SiftAll(d, names, fence, p);
    SiftAllMeasures(d, names, fence, p, x);
    OrderFree(names, tree.items, fence, x);
    assert Repeat(Directory, |e.got.kids|)[x] == if x.Directory? then |e.got.kids| else 0;
    assert multiset{DirRead}[x] == One(x.DirRead?);
    hide SiftAll, MeasureItems;
  }
}
