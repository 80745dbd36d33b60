// What there is to count in a tree, said twice over: by listing every directory the walk must open and every
// entry in them, and looking at each (internal/scan/walk.go:30-137, internal/scan/errclass.go:39-79). The
// recursive measure the scan is proved against is shown to be this count.

module Reference {
  import opened Options
  import opened FsErrors
  import opened FileTree

  // --- errors, by their own fields ------------------------------------------------------------------

  // The entry that was listed is no longer there: not-exist, or a stale handle.
  predicate Gone(e: FsError) { e.notExist || e.errno == Some(ESTALE) }

  // Permission and not-exist are looked at first, whatever the number.
  predicate OfClass(e: FsError, c: Class) {
    match c
    case Permission => e.permission
    case NotFound => e.notExist && !e.permission
    case Loop => !e.permission && !e.notExist && e.errno == Some(ELOOP)
    case NameTooLong => !e.permission && !e.notExist && e.errno == Some(ENAMETOOLONG)
    case TooManyFiles => !e.permission && !e.notExist && e.errno in {Some(EMFILE), Some(ENFILE)}
    case IO => !e.permission && !e.notExist
      && e.errno in {Some(EIO), Some(ENXIO), Some(ENODEV), Some(ENOTDIR), Some(ESTALE)}
    case Other => !e.permission && !e.notExist && (e.errno.None? || e.errno.value.Unlisted?)
  }

  lemma ErrorsAreSorted(e: FsError, c: Class)
    ensures Classify(e) == c <==> OfClass(e, c)
    ensures IsVanished(e) <==> Gone(e)
  {
  }

  // --- directories and entries ----------------------------------------------------------------------

  // Every directory the walk must open, the root first: no link is followed, and with a fence none on another
  // device is entered.
  function Dirs(t: Tree, fence: Fence): (dirs: seq<Tree>)
    ensures |dirs| > 0
    decreases t, 1
  {
    if t.Unopenable? then [t] else [t] + DirsIn(t.items, fence)
  }

  function DirsIn(items: seq<Item>, fence: Fence): seq<Tree>
    decreases items
  {
    if items == [] then [] else DirsAt(items[0], fence) + DirsIn(items[1..], fence)
  }

  function DirsAt(it: Item, fence: Fence): seq<Tree>
    decreases it
  {
    if it.typedLink then [] else
    match it.stat
    case StatDir(dev, sub) => if fence.None? || fence.value == dev then Dirs(sub, fence) else []
    case _ => []
  }

  function ItemsOf(d: Tree): seq<Item> { if d.Unopenable? then [] else d.items }

  // Every entry listed in these directories.
  function Listed(dirs: seq<Tree>): seq<Item> {
    if dirs == [] then [] else ItemsOf(dirs[0]) + Listed(dirs[1..])
  }

  predicate FailsStat(it: Item) { !it.typedLink && it.stat.StatFails? }

  // Whether looking at one entry, or one directory, is an occurrence of this fact.
  predicate EntryCounts(it: Item, fence: Fence, x: Fact) {
    match x
    case Entry => true
    case Statted => !it.typedLink
    case OtherDevice => !it.typedLink && it.stat.StatDir? && fence.Some? && fence.value != it.stat.dev
    case Vanished => FailsStat(it) && Gone(it.stat.why)
    case Fault(c) => FailsStat(it) && !Gone(it.stat.why) && OfClass(it.stat.why, c)
    case Met(f) => !it.typedLink && it.stat == StatFile(f)
    case Directory => false
    case DirRead => false
  }

  // A failing read is a fault even when its error says not-exist.
  predicate DirCounts(d: Tree, x: Fact) {
    match x
    case Directory => true
    case DirRead => true
    case Vanished => d.Unopenable? && Gone(d.why)
    case Fault(c) =>
      || (d.Unopenable? && !Gone(d.why) && OfClass(d.why, c))
      || (d.Listing? && d.tail.ReadFails? && OfClass(d.tail.why, c))
    case _ => false
  }

  function CountEntries(items: seq<Item>, fence: Fence, x: Fact): nat {
    if items == [] then 0 else One(EntryCounts(items[0], fence, x)) + CountEntries(items[1..], fence, x)
  }

  function CountDirs(dirs: seq<Tree>, x: Fact): nat {
    if dirs == [] then 0 else One(DirCounts(dirs[0], x)) + CountDirs(dirs[1..], x)
  }

  // How often a complete look at the tree meets this fact; the root is not one of its own directories.
  function Expected(t: Tree, fence: Fence, x: Fact): int {
    CountDirs(Dirs(t, fence), x) + CountEntries(Listed(Dirs(t, fence)), fence, x) - One(x.Directory?)
  }

  // --- the measure is the count ---------------------------------------------------------------------

  lemma {:induction false} EntriesAppend(a: seq<Item>, b: seq<Item>, fence: Fence, x: Fact)
    ensures CountEntries(a + b, fence, x) == CountEntries(a, fence, x) + CountEntries(b, fence, x)
  {
    if a == [] {
      assert a + b == b;
    } else {
      assert (a + b)[1..] == a[1..] + b;
      EntriesAppend(a[1..], b, fence, x);
    }
  }

  lemma {:induction false} DirsAppend(a: seq<Tree>, b: seq<Tree>, x: Fact)
    ensures CountDirs(a + b, x) == CountDirs(a, x) + CountDirs(b, x)
  {
    if a == [] {
      assert a + b == b;
    } else {
      assert (a + b)[1..] == a[1..] + b;
      DirsAppend(a[1..], b, x);
    }
  }

  lemma {:induction false} ListedAppend(a: seq<Tree>, b: seq<Tree>)
    ensures Listed(a + b) == Listed(a) + Listed(b)
  {
    if a == [] {
      assert a + b == b;
    } else {
      assert (a + b)[1..] == a[1..] + b;
      ListedAppend(a[1..], b);
    }
  }

  // All that is met in these directories.
  function Looked(dirs: seq<Tree>, fence: Fence, x: Fact): nat {
    CountDirs(dirs, x) + CountEntries(Listed(dirs), fence, x)
  }

  lemma LookedAppend(a: seq<Tree>, b: seq<Tree>, fence: Fence, x: Fact)
    ensures Looked(a + b, fence, x) == Looked(a, fence, x) + Looked(b, fence, x)
  {
    hide CountDirs, CountEntries, Listed;
    DirsAppend(a, b, x);
    ListedAppend(a, b);
    EntriesAppend(Listed(a), Listed(b), fence, x);
  }

  lemma LookedOne(t: Tree, fence: Fence, x: Fact)
    ensures Looked([t], fence, x) == One(DirCounts(t, x)) + CountEntries(ItemsOf(t), fence, x)
  {
    hide DirCounts;
    assert [t][1..] == [];
    assert Listed([t][1..]) == [];
    assert CountDirs([t][1..], x) == 0;
    assert Listed([t]) == ItemsOf(t);
  }

  lemma LookedNone(fence: Fence, x: Fact)
    ensures Looked([], fence, x) == 0
  {
  }

  lemma NoEntries(fence: Fence, x: Fact)
    ensures CountEntries([], fence, x) == 0
  {
  }

  // What an entry adds by itself.
  lemma EntryIsCounted(it: Item, fence: Fence, x: Fact)
    ensures EntryTally(it, fence)[x] == One(EntryCounts(it, fence, x))
  {
    if it.stat.StatFails? {
      var e := it.stat.why;
      ErrorsAreSorted(e, Classify(e));
      if x.Fault? { ErrorsAreSorted(e, x.c); }
    }
    hide Classify, Gone, OfClass, IsVanished;
  }

  lemma DirIsCounted(t: Tree, x: Fact)
    ensures One(DirCounts(t, x)) - One(x.Directory?)
         == One(x.DirRead?) + if t.Unopenable? then OpenFailTally(t.why)[x] else TailTally(t.tail)[x]
  {
    var e := if t.Unopenable? then t.why else if t.tail.ReadFails? then t.tail.why else FsError(false, false, None);
    ErrorsAreSorted(e, Classify(e));
    if x.Fault? { ErrorsAreSorted(e, x.c); }
    hide Classify, Gone, OfClass, IsVanished;
  }

  lemma {:induction false} MeasureIsCount(t: Tree, fence: Fence, x: Fact)
    ensures Measure(t, fence, x) == Expected(t, fence, x)
    decreases t
  {
    hide Looked, CountDirs, CountEntries, EntryCounts, DirCounts, TailTally, OpenFailTally, MeasureItem;
    MeasureIsLooked(t, fence, x);
    assert Looked(Dirs(t, fence), fence, x) == CountDirs(Dirs(t, fence), x) + CountEntries(Listed(Dirs(t, fence)), fence, x)
      by { LookedIs(Dirs(t, fence), fence, x); }
  }

  lemma LookedIs(dirs: seq<Tree>, fence: Fence, x: Fact)
    ensures Looked(dirs, fence, x) == CountDirs(dirs, x) + CountEntries(Listed(dirs), fence, x)
  {
  }

  lemma {:induction false} MeasureIsLooked(t: Tree, fence: Fence, x: Fact)
    ensures Measure(t, fence, x) + One(x.Directory?) == Looked(Dirs(t, fence), fence, x)
    decreases t
  {
    hide Looked, CountDirs, CountEntries, EntryCounts, DirCounts, TailTally, OpenFailTally, MeasureItem, DirsAt;
    LookedOne(t, fence, x);
    DirIsCounted(t, x);
    match t
    case Unopenable(_) => NoEntries(fence, x);
    case Listing(items, _) =>
      ItemsAreLooked(items, fence, x);
      LookedAppend([t], DirsIn(items, fence), fence, x);
  }

  // The entries of one directory, and all that is met below them.
  lemma {:induction false} ItemsAreLooked(items: seq<Item>, fence: Fence, x: Fact)
    ensures MeasureItems(items, fence, x) == CountEntries(items, fence, x) + Looked(DirsIn(items, fence), fence, x)
    decreases items
  {
    hide Looked, EntryCounts, DirCounts, MeasureItem, DirsAt;
    if items == [] {
      LookedNone(fence, x);
    } else {
      ItemIsLooked(items[0], fence, x);
      ItemsAreLooked(items[1..], fence, x);
      LookedAppend(DirsAt(items[0], fence), DirsIn(items[1..], fence), fence, x);
    }
  }

  lemma {:induction false} ItemIsLooked(it: Item, fence: Fence, x: Fact)
    ensures MeasureItem(it, fence, x) == One(EntryCounts(it, fence, x)) + Looked(DirsAt(it, fence), fence, x)
    decreases it
  {
    hide Looked, EntryCounts, EntryTally, Measure, Dirs;
    EntryIsCounted(it, fence, x);
    LookedNone(fence, x);
    if Descends(it, fence) { MeasureIsLooked(it.stat.sub, fence, x); }
  }

  // --- faults ---------------------------------------------------------------------------------------

  // Nothing in the way of a complete look: no read fails, and an open or a stat only because the entry is gone.
  predicate Readable(t: Tree, fence: Fence) {
    && (forall d :: d in Dirs(t, fence) ==> if d.Unopenable? then Gone(d.why) else d.tail.Eof?)
    && (forall it :: it in Listed(Dirs(t, fence)) && FailsStat(it) ==> Gone(it.stat.why))
  }

  ghost predicate NoFaultIn(t: Tree, fence: Fence) { forall c: Class :: Measure(t, fence, Fault(c)) == 0 }

  lemma {:induction false} SomeDirCounts(dirs: seq<Tree>, x: Fact)
    ensures CountDirs(dirs, x) > 0 <==> exists d :: d in dirs && DirCounts(d, x)
  {
    hide DirCounts;
    if dirs == [] {
    } else {
      SomeDirCounts(dirs[1..], x);
      assert dirs == [dirs[0]] + dirs[1..];
    }
  }

  lemma {:induction false} SomeEntryCounts(items: seq<Item>, fence: Fence, x: Fact)
    ensures CountEntries(items, fence, x) > 0 <==> exists it :: it in items && EntryCounts(it, fence, x)
  {
    hide EntryCounts;
    if items == [] {
    } else {
      SomeEntryCounts(items[1..], fence, x);
      assert items == [items[0]] + items[1..];
    }
  }

  lemma {:induction false} ReadableIffNoFault(t: Tree, fence: Fence)
    ensures Readable(t, fence) <==> NoFaultIn(t, fence)
  {
    hide Measure, CountDirs, CountEntries, Dirs, Listed, OfClass, Gone;
    var dirs := Dirs(t, fence);
    forall c: Class ensures Measure(t, fence, Fault(c)) == CountDirs(dirs, Fault(c)) + CountEntries(Listed(dirs), fence, Fault(c)) {
      MeasureIsCount(t, fence, Fault(c));
    }
    forall c: Class
      ensures CountDirs(dirs, Fault(c)) > 0 <==> exists d :: d in dirs && DirCounts(d, Fault(c))
      ensures CountEntries(Listed(dirs), fence, Fault(c)) > 0
        <==> exists it :: it in Listed(dirs) && EntryCounts(it, fence, Fault(c))
    {
      SomeDirCounts(dirs, Fault(c));
      SomeEntryCounts(Listed(dirs), fence, Fault(c));
    }
    if Readable(t, fence) {
      assert NoFaultIn(t, fence);
    } else if d: Tree :| d in dirs && !(if d.Unopenable? then Gone(d.why) else d.tail.Eof?) {
      var e := if d.Unopenable? then d.why else d.tail.why;
      ErrorsAreSorted(e, Classify(e));
      assert DirCounts(d, Fault(Classify(e)));
    } else {
      var it :| it in Listed(dirs) && FailsStat(it) && !Gone(it.stat.why);
      ErrorsAreSorted(it.stat.why, Classify(it.stat.why));
      assert EntryCounts(it, fence, Fault(Classify(it.stat.why)));
    }
  }

  // --- files ----------------------------------------------------------------------------------------

  // The regular files among these entries, in order.
  function FilesOf(items: seq<Item>): seq<File> {
    if items == [] then [] else FileOf(items[0]) + FilesOf(items[1..])
  }

  function FileOf(it: Item): seq<File> { if !it.typedLink && it.stat.StatFile? then [it.stat.file] else [] }

  function FilesMet(t: Tree, fence: Fence): seq<File> { FilesOf(Listed(Dirs(t, fence))) }

  lemma {:induction false} FilesAreCounted(items: seq<Item>, fence: Fence, f: File)
    ensures multiset(FilesOf(items))[f] == CountEntries(items, fence, Met(f))
  {
    if items == [] {
    } else {
      FilesAreCounted(items[1..], fence, f);
      FileIsCounted(items[0], fence, f);
      hide FileOf, EntryCounts;
      BagOfBoth(FileOf(items[0]), FilesOf(items[1..]));
    }
  }

  lemma BagOfBoth(a: seq<File>, b: seq<File>)
    ensures multiset(a + b) == multiset(a) + multiset(b)
  {
  }

  lemma FileIsCounted(it: Item, fence: Fence, f: File)
    ensures multiset(FileOf(it))[f] == One(EntryCounts(it, fence, Met(f)))
  {
  }

  lemma {:induction false} NoFileInDirs(dirs: seq<Tree>, f: File)
    ensures CountDirs(dirs, Met(f)) == 0
  {
    if dirs == [] {
    } else {
      NoFileInDirs(dirs[1..], f);
    }
  }

  // The files the recursive reference lists are those met.
  lemma FilesAreThose(t: Tree, fence: Fence)
    ensures multiset(Files(t, fence)) == multiset(FilesMet(t, fence))
  {
    hide Files, Measure, FilesOf, CountEntries, CountDirs, Dirs, Listed;
    forall f: File ensures multiset(Files(t, fence))[f] == multiset(FilesMet(t, fence))[f] {
      FilesMeasured(t, fence, f);
      MeasureIsCount(t, fence, Met(f));
      NoFileInDirs(Dirs(t, fence), f);
      FilesAreCounted(Listed(Dirs(t, fence)), fence, f);
    }
  }
}
