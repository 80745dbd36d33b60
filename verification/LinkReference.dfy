// What hard-link dedup must count, said by the files' own fields (internal/scan/target.go:12-17, 167-194): a file
// counts unless it is a further link to something counted already, and only the pair of device and inode number
// says what that is.

module LinkReference {
  import opened FileTree
  import opened HardLinks

  predicate OneInode(e: File, f: File) { e.dev == f.dev && e.ino == f.ino }

  // Among these files there is another link to this one's inode.
  predicate Repeats(fs: seq<File>, f: File) { exists e :: e in fs && e.nlink > 1 && OneInode(e, f) }

  predicate Again(fs: seq<File>, f: File, dedup: bool) { dedup && f.nlink > 1 && Repeats(fs, f) }

  // Each amount once: of a file with one link, and of the first link met to each inode.
  function OnceSize(fs: seq<File>, dedup: bool): int {
    if fs == [] then 0 else
    var most, f := fs[..|fs| - 1], fs[|fs| - 1];
    OnceSize(most, dedup) + if Again(most, f, dedup) then 0 else f.size
  }

  function OnceAlloc(fs: seq<File>, dedup: bool): int {
    if fs == [] then 0 else
    var most, f := fs[..|fs| - 1], fs[|fs| - 1];
    OnceAlloc(most, dedup) + if Again(most, f, dedup) then 0 else f.alloc
  }

  function OnceCount(fs: seq<File>, dedup: bool): nat {
    if fs == [] then 0 else
    var most, f := fs[..|fs| - 1], fs[|fs| - 1];
    OnceCount(most, dedup) + if Again(most, f, dedup) then 0 else 1
  }

  function Once(fs: seq<File>, dedup: bool, g: Figure): int {
    match g
    case Size => OnceSize(fs, dedup)
    case Alloc => OnceAlloc(fs, dedup)
    case Count => OnceCount(fs, dedup)
  }

  // Links to one inode agree on size and allocation.
  predicate LinksAgree(fs: seq<File>, dedup: bool) {
    forall e, f :: e in fs && f in fs && dedup && e.nlink > 1 && f.nlink > 1 && OneInode(e, f)
      ==> e.size == f.size && e.alloc == f.alloc
  }

  // The distinct inodes of linked files.
  function Pairs(fs: seq<File>, dedup: bool): set<(int, int)> {
    set f | f in fs && dedup && f.nlink > 1 :: (f.dev, f.ino)
  }

  function LinkCount(fs: seq<File>, dedup: bool): nat {
    if fs == [] then 0 else
    LinkCount(fs[..|fs| - 1], dedup) + if dedup && fs[|fs| - 1].nlink > 1 then 1 else 0
  }

  function AllSizes(fs: seq<File>): int {
    if fs == [] then 0 else AllSizes(fs[..|fs| - 1]) + fs[|fs| - 1].size
  }

  // --- the reference of the scan is this one --------------------------------------------------------

  lemma KeysSayWhich(fs: seq<File>, f: File, p: Policy)
    ensures Linked(f, p) && KeyOf(f) in Keys(fs, p) <==> Again(fs, f, p.dedup)
  {
    if Again(fs, f, p.dedup) {
      var e :| e in fs && e.nlink > 1 && OneInode(e, f);
      assert Linked(e, p) && KeyOf(e) == KeyOf(f);
    }
  }

  lemma AgreeMeansConsistent(fs: seq<File>, p: Policy)
    ensures LinksAgree(fs, p.dedup) <==> Consistent(fs, p)
  {
  }

  lemma {:induction false} ReferenceIsOnce(fs: seq<File>, p: Policy, g: Figure, table: InodeTable)
    requires Agrees(fs, p, g, table)
    ensures Reference(fs, p, g, table) == Once(fs, p.dedup, g)
  {
    hide Reference, Keys, Again;
    if fs == [] {
      ReferenceOfNothing(fs, p, g, table);
    } else {
      var most, f := fs[..|fs| - 1], fs[|fs| - 1];
      assert fs == most + [f];
      ReferenceIsOnce(most, p, g, table);
      ReferenceOneMore(most, f, p, g, table);
      KeysSayWhich(most, f, p);
    }
  }

  // The exact figure counts each inode once, told apart by device and number, and every other file once.
  lemma ExactIsOnce(fs: seq<File>, p: Policy, g: Figure)
    requires LinksAgree(fs, p.dedup)
    ensures Consistent(fs, p) && Exact(fs, p, g) == Once(fs, p.dedup, g)
  {
    AgreeMeansConsistent(fs, p);
    hide Reference, Keys, Once, LinksAgree;
    ReferenceIsOnce(fs, p, g, TableOf(fs, p, g));
  }

  // As many files count as are not links, and inodes that are.
  lemma {:induction false} CountedOnceEach(fs: seq<File>, dedup: bool)
    ensures OnceCount(fs, dedup) + LinkCount(fs, dedup) == |fs| + |Pairs(fs, dedup)|
  {
    if fs == [] {
      assert Pairs(fs, dedup) == {};
    } else {
      var most, f := fs[..|fs| - 1], fs[|fs| - 1];
      assert fs == most + [f];
      CountedOnceEach(most, dedup);
      PairsOneMore(most, f, dedup);
      hide Pairs, Again;
    }
  }

  lemma PairsOneMore(fs: seq<File>, f: File, dedup: bool)
    ensures Pairs(fs + [f], dedup) == if dedup && f.nlink > 1 then Pairs(fs, dedup) + {(f.dev, f.ino)} else Pairs(fs, dedup)
    ensures |Pairs(fs + [f], dedup)| == |Pairs(fs, dedup)| + if dedup && f.nlink > 1 && !Again(fs, f, dedup) then 1 else 0
  {
    forall q ensures q in Pairs(fs + [f], dedup) <==> q in Pairs(fs, dedup) || (dedup && f.nlink > 1 && q == (f.dev, f.ino)) {
      if q in Pairs(fs, dedup) {
        var e :| e in fs && dedup && e.nlink > 1 && (e.dev, e.ino) == q;
        assert e in fs + [f];
      }
      if dedup && f.nlink > 1 && q == (f.dev, f.ino) { assert f in fs + [f]; }
    }
    if dedup && f.nlink > 1 {
      PairIsKnown(fs, f);
      hide Pairs, Again;
      if Again(fs, f, dedup) { assert Pairs(fs, dedup) + {(f.dev, f.ino)} == Pairs(fs, dedup); }
    }
  }

  lemma PairIsKnown(fs: seq<File>, f: File)
    requires f.nlink > 1
    ensures (f.dev, f.ino) in Pairs(fs, true) <==> Again(fs, f, true)
  {
    if (f.dev, f.ino) in Pairs(fs, true) {
      var e :| e in fs && e.nlink > 1 && (e.dev, e.ino) == (f.dev, f.ino);
      assert OneInode(e, f);
    }
  }

  // The inode set has as much to hold as there are such pairs.
  lemma {:induction false} PairsAreKeys(fs: seq<File>, p: Policy)
    ensures |Pairs(fs, p.dedup)| == |Keys(fs, p)|
  {
    if fs == [] {
      assert Pairs(fs, p.dedup) == {} && Keys(fs, p) == {};
    } else {
      var most, f := fs[..|fs| - 1], fs[|fs| - 1];
      assert fs == most + [f];
      PairsAreKeys(most, p);
      PairsOneMore(most, f, p.dedup);
      KeysOneMore(most, f, p);
      KeysSayWhich(most, f, p);
      hide Pairs, Keys, Again;
      if KeyOf(f) in Keys(most, p) { assert Keys(most, p) + {KeyOf(f)} == Keys(most, p); }
    }
  }

  // Two links, with room for both, are charged as one exactly if device and number both agree.
  lemma TwoLinks(e: File, f: File, p: Policy)
    requires p.dedup && e.nlink > 1 && f.nlink > 1 && p.maxTracked != 1
    ensures var b := PostAll([e, f], p).bytes;
      && (OneInode(e, f) <==> b.files == 1)
      && (if OneInode(e, f) then b == Bytes(e.size, e.alloc, 1, 2, f.size)
          else b == Bytes(e.size + f.size, e.alloc + f.alloc, 2, 2, 0))
  {
    PostOneMore([e], f, p);
    PostOneMore([], e, p);
    assert [e] + [f] == [e, f] && [] + [e] == [e];
  }

  // Every link met is noted as one, and what is not counted of the sizes is noted as saved.
  lemma {:induction false} LinksAreNoted(fs: seq<File>, p: Policy)
    ensures PostAll(fs, p).bytes.hardlinked == LinkCount(fs, p.dedup)
    ensures PostAll(fs, p).bytes.size + PostAll(fs, p).bytes.saved == AllSizes(fs)
  {
    if fs == [] {
    } else {
      LinksAreNoted(fs[..|fs| - 1], p);
      var b, f := PostAll(fs[..|fs| - 1], p), fs[|fs| - 1];
      assert Linked(f, p) <==> Judge(b.inodes, f, p) != Plain;
    }
  }

  // --- figures add up -------------------------------------------------------------------------------

  predicate NoneShared(a: seq<File>, b: seq<File>) { forall e, f :: e in a && f in b ==> !OneInode(e, f) }

  // What two parts of a tree with no inode in common count, they count together; links may be within each.
  lemma {:induction false} OnceAddsUp(a: seq<File>, b: seq<File>, dedup: bool, g: Figure)
    requires NoneShared(a, b)
    ensures Once(a + b, dedup, g) == Once(a, dedup, g) + Once(b, dedup, g)
  {
    if b == [] {
      assert a + b == a;
    } else {
      var most, f := b[..|b| - 1], b[|b| - 1];
      assert b == most + [f] && (a + b)[..|a + b| - 1] == a + most;
      assert f in b;
      OnceAddsUp(a, most, dedup, g);
      assert Again(a + most, f, dedup) <==> Again(most, f, dedup);
      hide Again;
    }
  }

  lemma ExactAddsUp(a: seq<File>, b: seq<File>, p: Policy, g: Figure)
    requires NoneShared(a, b) && LinksAgree(a + b, p.dedup)
    ensures Consistent(a, p) && Consistent(b, p) && Consistent(a + b, p)
    ensures Exact(a + b, p, g) == Exact(a, p, g) + Exact(b, p, g)
  {
    assert forall f :: f in a || f in b ==> f in a + b;
    hide Exact, Consistent, Once;
    ExactIsOnce(a, p, g);
    ExactIsOnce(b, p, g);
    ExactIsOnce(a + b, p, g);
    OnceAddsUp(a, b, p.dedup, g);
  }

  // --- order ----------------------------------------------------------------------------------------

  lemma {:induction false} SameLinkCount(a: seq<File>, b: seq<File>, p: Policy)
    requires multiset(a) == multiset(b)
    ensures LinkCount(a, p.dedup) == LinkCount(b, p.dedup) && AllSizes(a) == AllSizes(b)
  {
    CountIsSingles(a, p.dedup);
    CountIsSingles(b, p.dedup);
    SinglesOrderFree(a, b, Policy(p.dedup, 0), Count);
    SinglesOrderFree(a, b, Policy(false, 0), Size);
    assert |a| == |multiset(a)| == |multiset(b)| == |b|;
  }

  lemma {:induction false} CountIsSingles(fs: seq<File>, dedup: bool)
    ensures LinkCount(fs, dedup) + Singles(fs, Policy(dedup, 0), Count) == |fs|
    ensures AllSizes(fs) == Singles(fs, Policy(false, 0), Size)
  {
    if fs == [] {
    } else {
      CountIsSingles(fs[..|fs| - 1], dedup);
    }
  }
}
