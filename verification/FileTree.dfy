// What the file system answers during one walk, and the measure a complete walk must report.

module FileTree {
  import opened Options
  import opened FsErrors

  datatype File = File(size: int, alloc: int, dev: int, ino: int, nlink: int)

  // A directory as the walk finds it when it opens it. `tail` says how the listing ends: entries the
  // system returns together with an error are not part of `items`, because processDir drops them.
  datatype Tree = Unopenable(why: FsError) | Listing(items: seq<Item>, tail: Tail)

  datatype Tail = Eof | ReadFails(why: FsError)

  // One directory entry: whether the listing already types it as a symbolic link, and what a stat of it says.
  datatype Item = Item(typedLink: bool, stat: Stat)

  datatype Stat =
    | StatFails(why: FsError)
    | StatLink
    | StatOther
    | StatFile(file: File)
    | StatDir(dev: int, sub: Tree)

  // The one-filesystem rule in force for a target: directories on any other device are cut off.
  type Fence = Option<int>

  // One increment of one scan counter. Fault(c) is an error of class c; Met(f) is a regular file met,
  // before hard-link dedup decides whether its bytes count.
  datatype Fact = Entry | Statted | Directory | Vanished | OtherDevice | DirRead | Fault(c: Class) | Met(f: File)

  // How often each counter was incremented.
  type Tally = multiset<Fact>

  predicate NoFaults(t: Tally) { forall c: Class :: t[Fault(c)] == 0 }

  function FaultFact(e: FsError): Fact {
    if IsVanished(e) then Vanished else Fault(Classify(e))
  }

  predicate Descends(it: Item, fence: Fence) {
    !it.typedLink && it.stat.StatDir? && !(fence.Some? && it.stat.dev != fence.value)
  }

  // What one entry adds by itself, without the directories below it.
  function EntryTally(it: Item, fence: Fence): Tally {
    if it.typedLink then multiset{Entry} else
    match it.stat
    case StatFails(e) => multiset{Entry, Statted, FaultFact(e)}
    case StatLink => multiset{Entry, Statted}
    case StatOther => multiset{Entry, Statted}
    case StatFile(f) => multiset{Entry, Statted, Met(f)}
    case StatDir(_, _) =>
      if Descends(it, fence) then multiset{Entry, Statted} else multiset{Entry, Statted, OtherDevice}
  }

  // Read errors are never excused as vanished entries (walk.go:53-57).
  function TailTally(tail: Tail): Tally {
    match tail
    case Eof => multiset{}
    case ReadFails(e) => multiset{Fault(Classify(e))}
  }

  function OpenFailTally(e: FsError): Tally { multiset{FaultFact(e)} }

  function One(b: bool): nat { if b then 1 else 0 }

  // The recursive measure of a directory, counter by counter: how often a walk that leaves nothing out
  // increments counter x. It is the reference every complete scan is compared with.
  function Measure(t: Tree, fence: Fence, x: Fact): nat
    decreases t
  {
    One(x.DirRead?) +
    match t
    case Unopenable(e) => OpenFailTally(e)[x]
    case Listing(items, tail) => MeasureItems(items, fence, x) + TailTally(tail)[x]
  }

  function MeasureItems(items: seq<Item>, fence: Fence, x: Fact): nat
    decreases items
  {
    if items == [] then 0 else MeasureItem(items[0], fence, x) + MeasureItems(items[1..], fence, x)
  }

  // A discovered directory is one more directory, and everything in it.
  function MeasureItem(it: Item, fence: Fence, x: Fact): nat
    decreases it
  {
    EntryTally(it, fence)[x] +
    if Descends(it, fence) then One(x.Directory?) + Measure(it.stat.sub, fence, x) else 0
  }

  function MeasureDirs(kids: seq<Tree>, fence: Fence, x: Fact): nat {
    if kids == [] then 0 else Measure(kids[0], fence, x) + MeasureDirs(kids[1..], fence, x)
  }

  lemma {:induction false} DirsAppend(kids: seq<Tree>, kid: Tree, fence: Fence, x: Fact)
    ensures MeasureDirs(kids + [kid], fence, x) == MeasureDirs(kids, fence, x) + Measure(kid, fence, x)
  {
    if kids == [] {
      assert [kid][1..] == [] && kids + [kid] == [kid];
    } else {
      DirsAppend(kids[1..], kid, fence, x);
      assert (kids + [kid])[1..] == kids[1..] + [kid];
    }
  }

  lemma {:induction false} ItemsAppend(a: seq<Item>, b: seq<Item>, fence: Fence, x: Fact)
    ensures MeasureItems(a + b, fence, x) == MeasureItems(a, fence, x) + MeasureItems(b, fence, x)
  {
    hide MeasureItem, EntryTally, TailTally, OpenFailTally, Measure;
    if a == [] {
      assert a + b == b;
    } else {
      ItemsAppend(a[1..], b, fence, x);
      assert (a + b)[1..] == a[1..] + b;
    }
  }

  // A directory measures the same in whatever order its entries are returned.
  lemma {:induction false} OrderFree(a: seq<Item>, b: seq<Item>, fence: Fence, x: Fact)
    requires multiset(a) == multiset(b)
    ensures MeasureItems(a, fence, x) == MeasureItems(b, fence, x)
  {
    if a == [] {
      assert |multiset(b)| == 0;
    } else {
      var k := Locate(a, b);
      OrderFree(a[1..], b[..k] + b[k + 1..], fence, x);
      MeasureRemove(b, k, fence, x);
    }
  }

  lemma MeasureRemove(b: seq<Item>, k: nat, fence: Fence, x: Fact)
    requires k < |b|
    ensures MeasureItems(b, fence, x) == MeasureItem(b[k], fence, x) + MeasureItems(b[..k] + b[k + 1..], fence, x)
  {
    assert b == b[..k] + b[k..] && b[k..][1..] == b[k + 1..];
    ItemsAppend(b[..k], b[k..], fence, x);
    ItemsAppend(b[..k], b[k + 1..], fence, x);
  }

  // Where the first element of `a` sits in its rearrangement `b`, and what is left without it.
  lemma Locate(a: seq<Item>, b: seq<Item>) returns (k: nat)
    requires multiset(a) == multiset(b) && a != []
    ensures k < |b| && b[k] == a[0]
    ensures multiset(a[1..]) == multiset(b[..k] + b[k + 1..])
  {
    k := Position(a[0], a, b);
    TakenOut(b, k);
    FirstOut(a);
  }

  lemma Position(it: Item, a: seq<Item>, b: seq<Item>) returns (k: nat)
    requires multiset(a) == multiset(b) && it in a
    ensures k < |b| && b[k] == it
  {
    assert it in multiset(b);
    k :| 0 <= k < |b| && b[k] == it;
  }

  lemma FirstOut(a: seq<Item>)
    requires a != []
    ensures multiset(a[1..]) == multiset(a) - multiset{a[0]}
  {
    assert a == [a[0]] + a[1..];
  }

  lemma TakenOut(a: seq<Item>, k: nat)
    requires k < |a|
    ensures multiset(a[..k] + a[k + 1..]) == multiset(a) - multiset{a[k]}
  {
    assert a == a[..k] + [a[k]] + a[k + 1..];
  }

  // A directory that opened meets an entry, or has nothing in it that could be gone.
  lemma EnteredOrEmpty(t: Tree, fence: Fence)
    requires t.Listing?
    ensures Measure(t, fence, Entry) > 0 || Measure(t, fence, Vanished) == 0
  {
    hide EntryTally, TailTally, MeasureItem;
    if t.items != [] { EntryIsEntered(t.items[0], fence); } else { TailIsNoVanish(t.tail); }
  }

  lemma EntryIsEntered(it: Item, fence: Fence)
    ensures MeasureItem(it, fence, Entry) >= 1
  {
  }

  lemma TailIsNoVanish(tail: Tail)
    ensures TailTally(tail)[Vanished] == 0
  {
  }

  // Every directory below the root is discovered exactly once and read exactly once.
  lemma {:induction false} DirReadsAreDirsPlusOne(t: Tree, fence: Fence)
    ensures Measure(t, fence, DirRead) == Measure(t, fence, Directory) + 1
    decreases t
  {
    if t.Listing? { ItemsDirReads(t.items, fence); }
  }

  lemma {:induction false} ItemsDirReads(items: seq<Item>, fence: Fence)
    ensures MeasureItems(items, fence, DirRead) == MeasureItems(items, fence, Directory)
    decreases items
  {
    if items == [] {
    } else {
      ItemDirReads(items[0], fence);
      ItemsDirReads(items[1..], fence);
    }
  }

  lemma {:induction false} ItemDirReads(it: Item, fence: Fence)
    ensures MeasureItem(it, fence, DirRead) == MeasureItem(it, fence, Directory)
    decreases it
  {
    if Descends(it, fence) { DirReadsAreDirsPlusOne(it.stat.sub, fence); }
  }

  // The regular files of a tree, in one fixed order.
  function Files(t: Tree, fence: Fence): seq<File>
    decreases t
  {
    match t
    case Unopenable(_) => []
    case Listing(items, _) => FilesIn(items, fence)
  }

  function FilesIn(items: seq<Item>, fence: Fence): seq<File>
    decreases items
  {
    if items == [] then [] else FilesAt(items[0], fence) + FilesIn(items[1..], fence)
  }

  function FilesAt(it: Item, fence: Fence): seq<File>
    decreases it
  {
    if Descends(it, fence) then Files(it.stat.sub, fence)
    else if !it.typedLink && it.stat.StatFile? then [it.stat.file]
    else []
  }

  // The files of a tree are exactly what its measure says is met.
  lemma {:induction false} FilesMeasured(t: Tree, fence: Fence, f: File)
    ensures multiset(Files(t, fence))[f] == Measure(t, fence, Met(f))
    decreases t
  {
    if t.Listing? { FilesInMeasured(t.items, fence, f); }
  }

  lemma {:induction false} FilesInMeasured(items: seq<Item>, fence: Fence, f: File)
    ensures multiset(FilesIn(items, fence))[f] == MeasureItems(items, fence, Met(f))
    decreases items
  {
    if items == [] {
    } else {
      FilesAtMeasured(items[0], fence, f);
      FilesInMeasured(items[1..], fence, f);
    }
  }

  lemma {:induction false} FilesAtMeasured(it: Item, fence: Fence, f: File)
    ensures multiset(FilesAt(it, fence))[f] == MeasureItem(it, fence, Met(f))
    decreases it
  {
    MetHere(it, fence, f);
    if Descends(it, fence) { FilesMeasured(it.stat.sub, fence, f); }
  }

  lemma MetHere(it: Item, fence: Fence, f: File)
    ensures EntryTally(it, fence)[Met(f)] == One(!it.typedLink && it.stat == StatFile(f))
  {
    if !it.typedLink {
      match it.stat
      case StatFails(_) =>
      case StatLink =>
      case StatOther =>
      case StatFile(_) =>
      case StatDir(_, _) =>
    }
  }
}
