// Hard-link dedup (internal/scan/target.go, shouldCount) as a fold over the files in the order the
// workers reach the inode lock, and why that order cannot be seen in the result.

module HardLinks {
  import opened FileTree

  datatype Key = Key(dev: int, ino: int)

  datatype Policy = Policy(dedup: bool, maxTracked: int)

  // The counters shouldCount decides on: what is counted, how many links were met, what dedup saved.
  datatype Bytes = Bytes(size: int, alloc: int, files: int, hardlinked: int, saved: int)

  datatype Books = Books(bytes: Bytes, inodes: set<Key>, exhausted: bool)

  const NO_BYTES := Bytes(0, 0, 0, 0, 0)
  const NEW_BOOKS := Books(NO_BYTES, {}, false)

  function PlusB(a: Bytes, b: Bytes): Bytes {
    Bytes(a.size + b.size, a.alloc + b.alloc, a.files + b.files, a.hardlinked + b.hardlinked, a.saved + b.saved)
  }

  lemma NothingMore(b: Bytes)
    ensures PlusB(b, NO_BYTES) == b
  {
  }

  function KeyOf(f: File): Key { Key(f.dev, f.ino) }

  predicate Linked(f: File, p: Policy) { p.dedup && f.nlink > 1 }

  datatype Verdict = Plain | Tracked | Duplicate | Overflow

  // What shouldCount decides under the inode lock.
  function Judge(inodes: set<Key>, f: File, p: Policy): Verdict {
    if !Linked(f, p) then Plain
    else if KeyOf(f) in inodes then Duplicate
    else if p.maxTracked > 0 && |inodes| >= p.maxTracked then Overflow
    else Tracked
  }

  // What one file adds to the counters under a verdict.
  function Charge(b: Bytes, v: Verdict, f: File): Bytes {
    match v
    case Duplicate => b.(hardlinked := b.hardlinked + 1, saved := b.saved + f.size)
    case _ => Bytes(b.size + f.size, b.alloc + f.alloc, b.files + 1,
                    if v.Plain? then b.hardlinked else b.hardlinked + 1, b.saved)
  }

  function Remember(inodes: set<Key>, v: Verdict, f: File): set<Key> {
    if v.Tracked? then inodes + {KeyOf(f)} else inodes
  }

  function Post(b: Books, f: File, p: Policy): Books {
    var v := Judge(b.inodes, f, p);
    Books(Charge(b.bytes, v, f), Remember(b.inodes, v, f), b.exhausted || v.Overflow?)
  }

  function PostAll(fs: seq<File>, p: Policy): Books {
    if fs == [] then NEW_BOOKS else Post(PostAll(fs[..|fs| - 1], p), fs[|fs| - 1], p)
  }

  lemma PostOneMore(fs: seq<File>, f: File, p: Policy)
    ensures PostAll(fs + [f], p) == Post(PostAll(fs, p), f, p)
  {
    assert (fs + [f])[..|fs|] == fs;
  }

  // --- the reference: each singly-linked file once, and each distinct inode once --------------

  // The three published figures: logical bytes, allocated bytes, number of files.
  datatype Figure = Size | Alloc | Count

  function Weigh(f: File, g: Figure): int {
    match g
    case Size => f.size
    case Alloc => f.alloc
    case Count => 1
  }

  function Counted(b: Bytes, g: Figure): int {
    match g
    case Size => b.size
    case Alloc => b.alloc
    case Count => b.files
  }

  function Keys(fs: seq<File>, p: Policy): set<Key> {
    set f | f in fs && Linked(f, p) :: KeyOf(f)
  }

  function Singles(fs: seq<File>, p: Policy, g: Figure): int {
    if fs == [] then 0 else
    var f := fs[|fs| - 1];
    Singles(fs[..|fs| - 1], p, g) + if Linked(f, p) then 0 else Weigh(f, g)
  }

  // All files together, duplicates included.
  function Raw(fs: seq<File>, g: Figure): int { Singles(fs, Policy(false, 0), g) }

  // One amount per inode.
  type InodeTable = map<Key, int>

  ghost function SumInodes(keys: set<Key>, table: InodeTable): int {
    if keys == {} then 0 else
    var k := Pick(keys);
    Lookup(table, k) + SumInodes(keys - {k}, table)
  }

  ghost function Pick(keys: set<Key>): (k: Key)
    requires keys != {}
    ensures k in keys
  {
    var k :| k in keys;
    k
  }

  ghost function Lookup(table: InodeTable, k: Key): int {
    if k in table then table[k] else 0
  }

  ghost predicate Agrees(fs: seq<File>, p: Policy, g: Figure, table: InodeTable) {
    forall f :: f in fs && Linked(f, p) ==> KeyOf(f) in table && table[KeyOf(f)] == Weigh(f, g)
  }

  // Links to one inode agree on size and allocation.
  ghost predicate Consistent(fs: seq<File>, p: Policy) {
    forall e, f :: e in fs && f in fs && Linked(e, p) && Linked(f, p) && KeyOf(e) == KeyOf(f)
      ==> e.size == f.size && e.alloc == f.alloc
  }

  ghost function TableOf(fs: seq<File>, p: Policy, g: Figure): (table: InodeTable)
    requires Consistent(fs, p)
    ensures Agrees(fs, p, g, table)
  {
    map k | k in Keys(fs, p) :: var f :| f in fs && Linked(f, p) && KeyOf(f) == k; Weigh(f, g)
  }

  ghost function Reference(fs: seq<File>, p: Policy, g: Figure, table: InodeTable): int {
    Singles(fs, p, g) + SumInodes(Keys(fs, p), table)
  }

  // What a complete scan of these files must report.
  ghost function Exact(fs: seq<File>, p: Policy, g: Figure): int
    requires Consistent(fs, p)
  {
    Reference(fs, p, g, TableOf(fs, p, g))
  }

  // --- the fold against the reference -----------------------------------------------------------

  lemma {:induction false} SumOneMore(keys: set<Key>, k: Key, table: InodeTable)
    requires k !in keys
    ensures SumInodes(keys + {k}, table) == SumInodes(keys, table) + Lookup(table, k)
    decreases keys
  {
    var all := keys + {k};
    var c := Pick(all);
    if c == k {
      assert all - {k} == keys;
    } else {
      assert all - {c} == (keys - {c}) + {k};
      SumOneMore(keys - {c}, k, table);
      SumOneMore(keys - {c}, c, table);
      assert (keys - {c}) + {c} == keys;
    }
  }

  lemma KeysOneMore(fs: seq<File>, f: File, p: Policy)
    ensures Keys(fs + [f], p) == if Linked(f, p) then Keys(fs, p) + {KeyOf(f)} else Keys(fs, p)
  {
    forall k ensures k in Keys(fs + [f], p) <==> k in Keys(fs, p) || (Linked(f, p) && k == KeyOf(f)) {
      if k in Keys(fs, p) {
        var g :| g in fs && Linked(g, p) && KeyOf(g) == k;
        assert g in fs + [f];
      }
      if Linked(f, p) && k == KeyOf(f) { assert f in fs + [f]; }
    }
  }

  lemma ReferenceOneMore(fs: seq<File>, f: File, p: Policy, g: Figure, table: InodeTable)
    requires Linked(f, p) ==> Lookup(table, KeyOf(f)) == Weigh(f, g)
    ensures Reference(fs + [f], p, g, table) == Reference(fs, p, g, table)
      + if Linked(f, p) && KeyOf(f) in Keys(fs, p) then 0 else Weigh(f, g)
  {
    KeysOneMore(fs, f, p);
    assert (fs + [f])[..|fs|] == fs;
    if Linked(f, p) && KeyOf(f) in Keys(fs, p) {
      assert Keys(fs, p) + {KeyOf(f)} == Keys(fs, p);
    } else if Linked(f, p) {
      SumOneMore(Keys(fs, p), KeyOf(f), table);
    }
  }

  lemma ReferenceOfNothing(fs: seq<File>, p: Policy, g: Figure, table: InodeTable)
    requires fs == []
    ensures Reference(fs, p, g, table) == 0
  {
    assert Keys(fs, p) == {};
  }

  lemma {:induction false} InodesAreKeys(fs: seq<File>, p: Policy)
    ensures PostAll(fs, p).inodes <= Keys(fs, p)
    ensures !PostAll(fs, p).exhausted ==> PostAll(fs, p).inodes == Keys(fs, p)
  {
    if fs == [] {
    } else {
      var was, f := fs[..|fs| - 1], fs[|fs| - 1];
      InodesAreKeys(was, p);
      KeysOneMore(was, f, p);
      assert fs == was + [f];
    }
  }

  // As long as no inode overflowed, the books are the reference at every moment.
  lemma {:induction false} FoldIsReference(fs: seq<File>, p: Policy, g: Figure, table: InodeTable)
    requires Agrees(fs, p, g, table) && !PostAll(fs, p).exhausted
    ensures Counted(PostAll(fs, p).bytes, g) == Reference(fs, p, g, table)
  {
    hide Keys, SumInodes, Singles, Reference;
    if fs == [] {
      ReferenceOfNothing(fs, p, g, table);
    } else {
      var was, f := fs[..|fs| - 1], fs[|fs| - 1];
      assert fs == was + [f];
      FoldIsReference(was, p, g, table);
      FoldStep(was, f, p, g, table);
    }
  }

  // Until an inode overflows, the books and the reference grow by the same amount.
  lemma FoldStep(was: seq<File>, f: File, p: Policy, g: Figure, table: InodeTable)
    requires Linked(f, p) ==> Lookup(table, KeyOf(f)) == Weigh(f, g)
    requires !PostAll(was, p).exhausted && !Judge(PostAll(was, p).inodes, f, p).Overflow?
    ensures Counted(Post(PostAll(was, p), f, p).bytes, g) - Counted(PostAll(was, p).bytes, g)
         == Reference(was + [f], p, g, table) - Reference(was, p, g, table)
  {
    hide Keys, SumInodes, Singles, Reference, PostAll;
    InodesAreKeys(was, p);
    ReferenceOneMore(was, f, p, g, table);
  }

  // A stat never reports a negative length or allocation.
  ghost predicate NonNegative(fs: seq<File>) { forall f :: f in fs ==> f.size >= 0 && f.alloc >= 0 }

  // Overflow or not, they stay between the reference and the raw sum.
  lemma {:induction false} FoldBrackets(fs: seq<File>, p: Policy, g: Figure, table: InodeTable)
    requires Agrees(fs, p, g, table) && NonNegative(fs)
    ensures Reference(fs, p, g, table) <= Counted(PostAll(fs, p).bytes, g) <= Raw(fs, g)
  {
    hide Keys, SumInodes, Reference;
    if fs == [] {
      ReferenceOfNothing(fs, p, g, table);
    } else {
      var was, f := fs[..|fs| - 1], fs[|fs| - 1];
      assert fs == was + [f];
      FoldBrackets(was, p, g, table);
      InodesAreKeys(was, p);
      ReferenceOneMore(was, f, p, g, table);
    }
  }

  // Every byte met is either counted or booked as saved by dedup.
  lemma {:induction false} CountedPlusSaved(fs: seq<File>, p: Policy)
    ensures PostAll(fs, p).bytes.size + PostAll(fs, p).bytes.saved == Raw(fs, Size)
  {
    if fs == [] {
    } else {
      CountedPlusSaved(fs[..|fs| - 1], p);
    }
  }

  lemma {:induction false} TrackingIsCapped(fs: seq<File>, p: Policy)
    requires p.maxTracked > 0
    ensures |PostAll(fs, p).inodes| <= p.maxTracked
  {
    if fs == [] {
    } else {
      TrackingIsCapped(fs[..|fs| - 1], p);
    }
  }

  // --- order ------------------------------------------------------------------------------------

  lemma {:induction false} SinglesOrderFree(a: seq<File>, b: seq<File>, p: Policy, g: Figure)
    requires multiset(a) == multiset(b)
    ensures Singles(a, p, g) == Singles(b, p, g)
  {
    if a == [] {
      assert |multiset(b)| == 0;
    } else {
      var k := LocateLast(a, b);
      SinglesOrderFree(a[..|a| - 1], b[..k] + b[k + 1..], p, g);
      SinglesRemove(b, k, p, g);
    }
  }

  lemma {:induction false} SinglesRemove(b: seq<File>, k: nat, p: Policy, g: Figure)
    requires k < |b|
    ensures Singles(b, p, g) == Singles(b[..k] + b[k + 1..], p, g) + if Linked(b[k], p) then 0 else Weigh(b[k], g)
  {
    var n := |b| - 1;
    if k == n {
      assert b[..k] + b[k + 1..] == b[..n];
    } else {
      SinglesRemove(b[..n], k, p, g);
      assert (b[..k] + b[k + 1..])[..n - 1] == b[..n][..k] + b[..n][k + 1..];
    }
  }

  // Where the last element of `a` sits in its rearrangement `b`, and what is left without it.
  lemma LocateLast(a: seq<File>, b: seq<File>) returns (k: nat)
    requires multiset(a) == multiset(b) && a != []
    ensures k < |b| && b[k] == a[|a| - 1]
    ensures multiset(a[..|a| - 1]) == multiset(b[..k] + b[k + 1..])
  {
    var n := |a| - 1;
    assert a == a[..n] + [a[n]];
    assert a[n] in multiset(b);
    k :| 0 <= k < |b| && b[k] == a[n];
    var rest := b[..k] + b[k + 1..];
    assert b == b[..k] + ([b[k]] + b[k + 1..]);
    assert multiset(rest) == multiset(b) - multiset{b[k]};
    assert multiset(a[..n]) == multiset(a) - multiset{a[n]};
  }

  lemma SameElements(a: seq<File>, b: seq<File>)
    requires multiset(a) == multiset(b)
    ensures forall f :: f in a <==> f in b
  {
    forall f ensures f in a <==> f in b {
      assert f in a <==> f in multiset(a);
      assert f in b <==> f in multiset(b);
    }
  }

  // Whatever order the workers reach the files in, the result is the reference figure of the same
  // files listed in any other order; under overflow it stays between that and the raw sum.
  lemma DedupIsOrderFree(order: seq<File>, files: seq<File>, p: Policy, g: Figure)
    requires multiset(order) == multiset(files) && Consistent(files, p)
    ensures PostAll(order, p).exhausted <==> 0 < p.maxTracked < |Keys(files, p)|
    ensures !PostAll(order, p).exhausted ==> Counted(PostAll(order, p).bytes, g) == Exact(files, p, g)
    ensures NonNegative(files) ==> Exact(files, p, g) <= Counted(PostAll(order, p).bytes, g) <= Raw(files, g)
  {
    OverflowIff(order, p);
    SameElements(order, files);
    var table := TableOf(files, p, g);
    assert Agrees(order, p, g, table);
    if !PostAll(order, p).exhausted { FoldIsReference(order, p, g, table); }
    if NonNegative(files) { FoldBrackets(order, p, g, table); }
    assert Keys(order, p) == Keys(files, p) by {
      forall k ensures k in Keys(order, p) <==> k in Keys(files, p) {}
    }
    SinglesOrderFree(order, files, p, g);
    SinglesOrderFree(order, files, Policy(false, 0), g);
  }

  // --- overflow -----------------------------------------------------------------------------------

  // An overflow is noticed exactly when there are more linked inodes than may be tracked: no order of the
  // files avoids it, and none causes it.
  lemma {:induction false} OverflowIff(fs: seq<File>, p: Policy)
    ensures PostAll(fs, p).exhausted <==> 0 < p.maxTracked < |Keys(fs, p)|
    ensures PostAll(fs, p).exhausted ==> |PostAll(fs, p).inodes| == p.maxTracked
  {
    hide Charge;
    if fs == [] {
    } else {
      var was, f := fs[..|fs| - 1], fs[|fs| - 1];
      OverflowIff(was, p);
      InodesAreKeys(was, p);
      KeysOneMore(was, f, p);
      assert fs == was + [f];
      var b := PostAll(was, p);
      assert KeyOf(f) in b.inodes ==> Keys(was, p) + {KeyOf(f)} == Keys(was, p);
      MoreKeys(b.inodes, Keys(was, p), KeyOf(f));
      if p.maxTracked > 0 { TrackingIsCapped(was, p); }
    }
  }

  lemma MoreKeys(inodes: set<Key>, keys: set<Key>, k: Key)
    requires inodes <= keys
    ensures |inodes| <= |keys| <= |keys + {k}|
    ensures k !in inodes ==> |keys + {k}| > |inodes|
    ensures k !in keys ==> |keys + {k}| == |keys| + 1
  {
    Smaller(inodes, keys);
    Smaller(keys, keys + {k});
    if k !in inodes { Smaller(inodes + {k}, keys + {k}); }
  }

  lemma {:induction false} Smaller<T>(a: set<T>, b: set<T>)
    requires a <= b
    ensures |a| <= |b|
  {
    if a != {} {
      var x :| x in a;
      Smaller(a - {x}, b - {x});
    }
  }

  // All links to one inode together.
  function LinkedTo(fs: seq<File>, p: Policy, g: Figure, k: Key): int {
    if fs == [] then 0 else
    var f := fs[|fs| - 1];
    LinkedTo(fs[..|fs| - 1], p, g, k) + if Linked(f, p) && KeyOf(f) == k then Weigh(f, g) else 0
  }

  // What counting an inode once saves: all its links but one. Per inode, in a table.
  ghost function ExcessOf(fs: seq<File>, p: Policy, g: Figure, table: InodeTable): InodeTable {
    map k | k in Keys(fs, p) :: LinkedTo(fs, p, g, k) - Lookup(table, k)
  }

  ghost function Excess(fs: seq<File>, p: Policy, g: Figure, k: Key): int
    requires Consistent(fs, p)
  {
    LinkedTo(fs, p, g, k) - Lookup(TableOf(fs, p, g), k)
  }

  lemma {:induction false} SumSame(keys: set<Key>, t: InodeTable, u: InodeTable)
    requires forall k :: k in keys ==> Lookup(t, k) == Lookup(u, k)
    ensures SumInodes(keys, t) == SumInodes(keys, u)
    decreases keys
  {
    if keys == {} {
    } else {
      SumSame(keys - {Pick(keys)}, t, u);
    }
  }

  lemma SumMoved(keys: set<Key>, k: Key, t: InodeTable, u: InodeTable)
    requires k in keys && forall j :: j in keys && j != k ==> Lookup(t, j) == Lookup(u, j)
    ensures SumInodes(keys, u) == SumInodes(keys, t) + Lookup(u, k) - Lookup(t, k)
  {
    assert keys == (keys - {k}) + {k};
    SumOneMore(keys - {k}, k, t);
    SumOneMore(keys - {k}, k, u);
    SumSame(keys - {k}, t, u);
  }

  lemma {:induction false} SumConstant(keys: set<Key>, t: InodeTable, e: int)
    requires forall k :: k in keys ==> Lookup(t, k) == e
    ensures SumInodes(keys, t) == |keys| * e
    decreases keys
  {
    if keys == {} {
    } else {
      var k := Pick(keys);
      SumConstant(keys - {k}, t, e);
      assert |keys| == |keys - {k}| + 1;
      assert |keys| * e == |keys - {k}| * e + e;
    }
  }

  lemma {:induction false} NoLinks(fs: seq<File>, p: Policy, g: Figure, k: Key)
    requires k !in Keys(fs, p)
    ensures LinkedTo(fs, p, g, k) == 0
  {
    if fs == [] {
    } else {
      var was, f := fs[..|fs| - 1], fs[|fs| - 1];
      assert fs == was + [f];
      KeysOneMore(was, f, p);
      NoLinks(was, p, g, k);
    }
  }

  lemma ExcessOneMore(fs: seq<File>, f: File, p: Policy, g: Figure, table: InodeTable, k: Key)
    requires k in Keys(fs, p)
    ensures Lookup(ExcessOf(fs + [f], p, g, table), k)
         == Lookup(ExcessOf(fs, p, g, table), k) + if Linked(f, p) && KeyOf(f) == k then Weigh(f, g) else 0
  {
    KeysOneMore(fs, f, p);
    assert (fs + [f])[..|fs|] == fs;
  }

  // A first link has no excess yet.
  lemma ExcessOfNew(fs: seq<File>, f: File, p: Policy, g: Figure, table: InodeTable)
    requires Linked(f, p) && KeyOf(f) !in Keys(fs, p) && Lookup(table, KeyOf(f)) == Weigh(f, g)
    ensures Lookup(ExcessOf(fs + [f], p, g, table), KeyOf(f)) == 0
  {
    KeysOneMore(fs, f, p);
    NoLinks(fs, p, g, KeyOf(f));
    assert (fs + [f])[..|fs|] == fs;
  }

  // Overflowed or not, the books are the raw sum less what the tracked inodes save.
  lemma {:induction false} FoldIsRawLessExcess(fs: seq<File>, p: Policy, g: Figure, table: InodeTable)
    requires Agrees(fs, p, g, table)
    ensures Counted(PostAll(fs, p).bytes, g) == Raw(fs, g) - SumInodes(PostAll(fs, p).inodes, ExcessOf(fs, p, g, table))
  {
    if fs == [] {
    } else {
      var was, f := fs[..|fs| - 1], fs[|fs| - 1];
      assert fs == was + [f];
      FoldIsRawLessExcess(was, p, g, table);
      ExcessMoves(was, f, p, g, table);
    }
  }

  // What one more file adds to the tracked excess: its weight if it is a duplicate, else nothing.
  lemma ExcessMoves(was: seq<File>, f: File, p: Policy, g: Figure, table: InodeTable)
    requires Linked(f, p) ==> Lookup(table, KeyOf(f)) == Weigh(f, g)
    ensures var b := PostAll(was, p); var v := Judge(b.inodes, f, p);
      SumInodes(Remember(b.inodes, v, f), ExcessOf(was + [f], p, g, table))
        == SumInodes(b.inodes, ExcessOf(was, p, g, table)) + if v.Duplicate? then Weigh(f, g) else 0
  {
    hide ExcessOf, PostAll, SumInodes, Keys;
    var b, x, y := PostAll(was, p), ExcessOf(was, p, g, table), ExcessOf(was + [f], p, g, table);
    var k, v := KeyOf(f), Judge(b.inodes, f, p);
    InodesAreKeys(was, p);
    forall j | j in b.inodes { ExcessOneMore(was, f, p, g, table, j); }
    if v.Duplicate? {
      SumMoved(b.inodes, k, x, y);
    } else {
      SumSame(b.inodes, x, y);
      if v.Tracked? {
        OverflowIff(was, p);
        ExcessOfNew(was, f, p, g, table);
        SumOneMore(b.inodes, k, y);
      }
    }
  }

  lemma {:induction false} LinkedToOrderFree(a: seq<File>, b: seq<File>, p: Policy, g: Figure, k: Key)
    requires multiset(a) == multiset(b)
    ensures LinkedTo(a, p, g, k) == LinkedTo(b, p, g, k)
  {
    if a == [] {
      assert |multiset(b)| == 0;
    } else {
      var j := LocateLast(a, b);
      LinkedToOrderFree(a[..|a| - 1], b[..j] + b[j + 1..], p, g, k);
      LinkedToRemove(b, j, p, g, k);
    }
  }

  lemma {:induction false} LinkedToRemove(b: seq<File>, j: nat, p: Policy, g: Figure, k: Key)
    requires j < |b|
    ensures LinkedTo(b, p, g, k)
         == LinkedTo(b[..j] + b[j + 1..], p, g, k) + if Linked(b[j], p) && KeyOf(b[j]) == k then Weigh(b[j], g) else 0
  {
    var n := |b| - 1;
    if j == n {
      assert b[..j] + b[j + 1..] == b[..n];
    } else {
      LinkedToRemove(b[..n], j, p, g, k);
      assert (b[..j] + b[j + 1..])[..n - 1] == b[..n][..j] + b[..n][j + 1..];
    }
  }

  lemma KeysOrderFree(a: seq<File>, b: seq<File>, p: Policy)
    requires multiset(a) == multiset(b)
    ensures Keys(a, p) == Keys(b, p)
  {
    SameElements(a, b);
    forall k ensures k in Keys(a, p) <==> k in Keys(b, p) {}
  }

  // The figure of any order, in terms of the files: the raw sum less the excess of whatever inodes that order
  // tracked.
  lemma FigureOfOrder(order: seq<File>, files: seq<File>, p: Policy, g: Figure)
    requires multiset(order) == multiset(files) && Consistent(files, p)
    ensures var x := ExcessOf(files, p, g, TableOf(files, p, g)); var b := PostAll(order, p);
      Counted(b.bytes, g) == Raw(files, g) - SumInodes(b.inodes, x) && b.inodes <= Keys(files, p)
  {
    hide PostAll, SumInodes, ExcessOf, Keys, TableOf;
    var table := TableOf(files, p, g);
    SameElements(order, files);
    FoldIsRawLessExcess(order, p, g, table);
    SinglesOrderFree(order, files, Policy(false, 0), g);
    KeysOrderFree(order, files, p);
    InodesAreKeys(order, p);
    ExcessOrderFree(order, files, p, g, table);
  }

  lemma ExcessOrderFree(a: seq<File>, b: seq<File>, p: Policy, g: Figure, table: InodeTable)
    requires multiset(a) == multiset(b)
    ensures ExcessOf(a, p, g, table) == ExcessOf(b, p, g, table)
  {
    hide Keys, LinkedTo;
    KeysOrderFree(a, b, p);
    forall k { LinkedToOrderFree(a, b, p, g, k); }
  }

  // Every order of these files gives the same figure.
  ghost predicate SameInAnyOrder(files: seq<File>, p: Policy, g: Figure) {
    forall a: seq<File>, b: seq<File> :: multiset(a) == multiset(files) && multiset(b) == multiset(files) ==>
      Counted(PostAll(a, p).bytes, g) == Counted(PostAll(b, p).bytes, g)
  }

  ghost predicate EqualExcess(files: seq<File>, p: Policy, g: Figure)
    requires Consistent(files, p)
  {
    forall j, k :: j in Keys(files, p) && k in Keys(files, p) ==> Excess(files, p, g, j) == Excess(files, p, g, k)
  }

  // The figure is independent of the order exactly when all linked inodes can be tracked, or none of them
  // would save more than another.
  lemma OrderIsFreeIff(files: seq<File>, p: Policy, g: Figure)
    requires Consistent(files, p)
    ensures SameInAnyOrder(files, p, g) <==> !(0 < p.maxTracked < |Keys(files, p)|) || EqualExcess(files, p, g)
  {
    hide Counted, PostAll, Keys;
    if !(0 < p.maxTracked < |Keys(files, p)|) || EqualExcess(files, p, g) {
      forall a: seq<File>, b: seq<File> | multiset(a) == multiset(files) && multiset(b) == multiset(files)
        ensures Counted(PostAll(a, p).bytes, g) == Counted(PostAll(b, p).bytes, g)
      {
        SameFigure(a, b, files, p, g);
      }
    } else {
      var u, v :| u in Keys(files, p) && v in Keys(files, p) && Excess(files, p, g, u) != Excess(files, p, g, v);
      var a, b := OrderMatters(files, p, g, u, v);
    }
  }

  lemma SameFigure(a: seq<File>, b: seq<File>, files: seq<File>, p: Policy, g: Figure)
    requires multiset(a) == multiset(files) && multiset(b) == multiset(files) && Consistent(files, p)
    requires !(0 < p.maxTracked < |Keys(files, p)|) || EqualExcess(files, p, g)
    ensures Counted(PostAll(a, p).bytes, g) == Counted(PostAll(b, p).bytes, g)
  {
    hide PostAll, Keys, SumInodes, LinkedTo, TableOf;
    FigureOfOrder(a, files, p, g);
    FigureOfOrder(b, files, p, g);
    KeysOrderFree(a, files, p);
    KeysOrderFree(b, files, p);
    OverflowIff(a, p);
    OverflowIff(b, p);
    InodesAreKeys(a, p);
    InodesAreKeys(b, p);
    if 0 < p.maxTracked < |Keys(files, p)| {
      var x := ExcessOf(files, p, g, TableOf(files, p, g));
      var k := Pick(Keys(files, p));
      var e := Excess(files, p, g, k);
      forall j | j in Keys(files, p) ensures Lookup(x, j) == e {
        assert Excess(files, p, g, j) == e;
      }
      SumConstant(PostAll(a, p).inodes, x, e);
      SumConstant(PostAll(b, p).inodes, x, e);
    }
  }

  // The files whose inode is chosen come first, then all the others.
  predicate Chosen(f: File, p: Policy, keys: set<Key>) { Linked(f, p) && KeyOf(f) in keys }

  function Those(fs: seq<File>, p: Policy, keys: set<Key>, in_: bool): seq<File> {
    if fs == [] then [] else
    var some, f := Those(fs[..|fs| - 1], p, keys, in_), fs[|fs| - 1];
    if Chosen(f, p, keys) == in_ then some + [f] else some
  }

  lemma ThoseOneMore(fs: seq<File>, f: File, p: Policy, keys: set<Key>, in_: bool)
    ensures Those(fs + [f], p, keys, in_)
         == if Chosen(f, p, keys) == in_ then Those(fs, p, keys, in_) + [f] else Those(fs, p, keys, in_)
  {
    assert (fs + [f])[..|fs|] == fs;
  }

  lemma CountOneMore(fs: seq<File>, f: File, x: File)
    ensures multiset(fs + [f])[x] == multiset(fs)[x] + if f == x then 1 else 0
  {
  }

  lemma {:induction false} ThoseCount(fs: seq<File>, p: Policy, keys: set<Key>, x: File)
    ensures multiset(Those(fs, p, keys, true))[x] + multiset(Those(fs, p, keys, false))[x] == multiset(fs)[x]
  {
    if fs == [] {
    } else {
      var most, f := fs[..|fs| - 1], fs[|fs| - 1];
      ThoseCount(most, p, keys, x);
      assert fs == most + [f];
      ThoseStep(most, f, p, keys, x);
    }
  }

  lemma ThoseStep(most: seq<File>, f: File, p: Policy, keys: set<Key>, x: File)
    requires multiset(Those(most, p, keys, true))[x] + multiset(Those(most, p, keys, false))[x] == multiset(most)[x]
    ensures multiset(Those(most + [f], p, keys, true))[x] + multiset(Those(most + [f], p, keys, false))[x]
         == multiset(most + [f])[x]
  {
    hide Those, Chosen;
    ThoseOneMore(most, f, p, keys, true);
    ThoseOneMore(most, f, p, keys, false);
    CountOneMore(most, f, x);
    CountOneMore(Those(most, p, keys, true), f, x);
    CountOneMore(Those(most, p, keys, false), f, x);
  }

  lemma {:induction false} ThoseAre(fs: seq<File>, p: Policy, keys: set<Key>, in_: bool, x: File)
    ensures x in Those(fs, p, keys, in_) <==> x in fs && Chosen(x, p, keys) == in_
  {
    if fs == [] {
    } else {
      var most, f := fs[..|fs| - 1], fs[|fs| - 1];
      ThoseAre(most, p, keys, in_, x);
      assert fs == most + [f];
    }
  }

  lemma ThoseSplit(fs: seq<File>, p: Policy, keys: set<Key>)
    ensures multiset(Those(fs, p, keys, true) + Those(fs, p, keys, false)) == multiset(fs)
  {
    hide Those, Chosen;
    forall x: File { ThoseCount(fs, p, keys, x); }
  }

  // A full inode set never changes again.
  lemma {:induction false} FullStays(front: seq<File>, rest: seq<File>, p: Policy)
    requires 0 < p.maxTracked <= |PostAll(front, p).inodes|
    ensures PostAll(front + rest, p).inodes == PostAll(front, p).inodes
  {
    if rest == [] {
      assert front + rest == front;
    } else {
      var most, f := rest[..|rest| - 1], rest[|rest| - 1];
      FullStays(front, most, p);
      assert front + rest == (front + most) + [f];
      PostOneMore(front + most, f, p);
      hide PostAll;
    }
  }

  // An order that tracks exactly the chosen inodes.
  lemma Tracking(files: seq<File>, p: Policy, keys: set<Key>) returns (order: seq<File>)
    requires keys <= Keys(files, p) && |keys| == p.maxTracked > 0
    ensures multiset(order) == multiset(files) && PostAll(order, p).inodes == keys
  {
    hide PostAll, Those;
    var front, rest := Those(files, p, keys, true), Those(files, p, keys, false);
    order := front + rest;
    ThoseSplit(files, p, keys);
    forall f { ThoseAre(files, p, keys, true, f); }
    forall k ensures k in Keys(front, p) <==> k in keys {
      if k in keys {
        var f :| f in files && Linked(f, p) && KeyOf(f) == k;
        assert f in front;
      }
    }
    assert Keys(front, p) == keys;
    OverflowIff(front, p);
    InodesAreKeys(front, p);
    FullStays(front, rest, p);
  }

  lemma {:induction false} Subset(keys: set<Key>, u: Key, n: nat) returns (some: set<Key>)
    requires u in keys && 1 <= n <= |keys|
    ensures some <= keys && u in some && |some| == n
    decreases keys
  {
    if |keys| == n {
      some := keys;
    } else {
      assert |keys - {u}| == |keys| - 1;
      var x :| x in keys - {u};
      some := Subset(keys - {x}, u, n);
    }
  }

  // Beyond the cap, two inodes that would save different amounts always give two orders with different figures.
  lemma OrderMatters(files: seq<File>, p: Policy, g: Figure, u: Key, v: Key) returns (a: seq<File>, b: seq<File>)
    requires Consistent(files, p) && 0 < p.maxTracked < |Keys(files, p)|
    requires u in Keys(files, p) && v in Keys(files, p) && Excess(files, p, g, u) != Excess(files, p, g, v)
    ensures multiset(a) == multiset(files) && multiset(b) == multiset(files)
    ensures Counted(PostAll(a, p).bytes, g) != Counted(PostAll(b, p).bytes, g)
  {
    hide PostAll, SumInodes, Keys, LinkedTo, TableOf;
    var keys := Keys(files, p);
    assert |keys - {v}| == |keys| - 1;
    var with := Subset(keys - {v}, u, p.maxTracked);
    var base := with - {u};
    var other := base + {v};
    assert with == base + {u} && |with| == |base| + 1;
    a := Tracking(files, p, with);
    b := Tracking(files, p, other);
    FigureOfOrder(a, files, p, g);
    FigureOfOrder(b, files, p, g);
    var x := ExcessOf(files, p, g, TableOf(files, p, g));
    SumOneMore(base, u, x);
    SumOneMore(base, v, x);
    assert Lookup(x, u) == Excess(files, p, g, u) && Lookup(x, v) == Excess(files, p, g, v);
  }

  // The overstated figure does depend on the order once the cap is hit: two links to inode 1, one to
  // inode 2, room for one inode.
  lemma OverflowDependsOnOrder() returns (a: seq<File>, b: seq<File>, p: Policy)
    ensures multiset(a) == multiset(b) && Consistent(a, p)
    ensures PostAll(a, p).bytes.size != PostAll(b, p).bytes.size
  {
    var u, v := File(10, 10, 0, 1, 2), File(7, 7, 0, 2, 2);
    a, b, p := [u, u, v], [v, u, u], Policy(true, 1);
    PostThree(u, u, v, p);
    PostThree(v, u, u, p);
    UUV(u, v, p);
    VUU(u, v, p);
    assert multiset(a) == multiset{u, u, v} == multiset(b);
  }

  lemma UUV(u: File, v: File, p: Policy)
    requires p == Policy(true, 1) && u == File(10, 10, 0, 1, 2) && v == File(7, 7, 0, 2, 2)
    ensures Post(Post(Post(NEW_BOOKS, u, p), u, p), v, p).bytes.size == 17
  {
    var b := Post(NEW_BOOKS, u, p);
    assert Judge({}, u, p) == Tracked && b.inodes == {KeyOf(u)};
    assert Judge(b.inodes, u, p) == Duplicate;
    assert |{KeyOf(u)}| == 1;
    assert Judge(b.inodes, v, p) == Overflow;
  }

  lemma VUU(u: File, v: File, p: Policy)
    requires p == Policy(true, 1) && u == File(10, 10, 0, 1, 2) && v == File(7, 7, 0, 2, 2)
    ensures Post(Post(Post(NEW_BOOKS, v, p), u, p), u, p).bytes.size == 27
  {
    var b := Post(NEW_BOOKS, v, p);
    assert Judge({}, v, p) == Tracked && b.inodes == {KeyOf(v)};
    assert |{KeyOf(v)}| == 1;
    assert Judge(b.inodes, u, p) == Overflow;
  }

  lemma PostThree(x: File, y: File, z: File, p: Policy)
    ensures PostAll([x, y, z], p) == Post(Post(Post(NEW_BOOKS, x, p), y, p), z, p)
  {
    assert [x, y, z][..2] == [x, y] && [x, y][..1] == [x] && [x][..0] == [];
    assert PostAll([x], p) == Post(NEW_BOOKS, x, p);
    assert PostAll([x, y], p) == Post(PostAll([x], p), y, p);
  }
}
