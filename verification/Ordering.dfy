// Path order (sort.Strings) and containment of paths (isUnder in internal/targets/resolver.go).

module Ordering {
  // Byte order, which on UTF-8 is the order of the characters.
  predicate Less(a: string, b: string) {
    if a == [] || b == [] then a == [] && b != []
    else a[0] < b[0] || (a[0] == b[0] && Less(a[1..], b[1..]))
  }

  lemma {:induction false} Trichotomy(a: string, b: string)
    ensures Less(a, b) || a == b || Less(b, a)
    ensures !(Less(a, b) && Less(b, a)) && !(a == b && Less(a, b))
  {
    if a == [] || b == [] {
    } else {
      Trichotomy(a[1..], b[1..]);
      assert a == [a[0]] + a[1..] && b == [b[0]] + b[1..];
    }
  }

  lemma {:induction false} Transitive(a: string, b: string, c: string)
    requires Less(a, b) && Less(b, c)
    ensures Less(a, c)
  {
    if a != [] && a[0] == b[0] && b[0] == c[0] { Transitive(a[1..], b[1..], c[1..]); }
  }

  // It is decided at the first character that differs, or by which ends first.
  lemma {:induction false} LessIsFirstDifference(a: string, b: string)
    ensures Less(a, b) <==> a < b || exists k :: DiffersAt(a, b, k) && a[k] < b[k]
  {
    if a == [] || b == [] {
      assert forall k :: !DiffersAt(a, b, k);
    } else if a[0] != b[0] {
      assert DiffersAt(a, b, 0);
      forall k | k > 0 ensures !DiffersAt(a, b, k) { if k <= |a| && k <= |b| { assert a[..k][0] == a[0] && b[..k][0] == b[0]; } }
    } else {
      var c, d := a[1..], b[1..];
      LessIsFirstDifference(c, d);
      assert a == [a[0]] + c && b == [b[0]] + d;
      assert a < b <==> c < d by { PrefixUnder([a[0]], c, d); }
      hide Less, DiffersAt;
      if k :| DiffersAt(a, b, k) && a[k] < b[k] { DifferLater(a, b, k); }
      if k :| DiffersAt(c, d, k) && c[k] < d[k] { DifferLater(a, b, k + 1); }
    }
  }

  // With one character in common, they differ one further on.
  lemma DifferLater(a: string, b: string, k: int)
    requires a != [] && b != [] && a[0] == b[0]
    ensures DiffersAt(a, b, k) <==> DiffersAt(a[1..], b[1..], k - 1)
    ensures DiffersAt(a, b, k) ==> 0 < k < |a| && k < |b| && a[1..][k - 1] == a[k] && b[1..][k - 1] == b[k]
  {
    if 0 < k < |a| && k < |b| {
      assert a[..k] == [a[0]] + a[1..][..k - 1] && b[..k] == [b[0]] + b[1..][..k - 1];
      assert a[..k][1..] == a[1..][..k - 1] && b[..k][1..] == b[1..][..k - 1];
    }
  }

  predicate DiffersAt(a: string, b: string, k: int) { 0 <= k < |a| && k < |b| && a[..k] == b[..k] && a[k] != b[k] }

  predicate Ascending(s: seq<string>) { forall i, j :: 0 <= i < j < |s| ==> Less(s[i], s[j]) }

  function Elements(s: seq<string>): set<string> { set t | t in s }

  lemma AscendingHasNoDuplicates(s: seq<string>)
    requires Ascending(s)
    ensures forall i, j :: 0 <= i < j < |s| ==> s[i] != s[j]
    ensures |Elements(s)| == |s|
  {
    forall i, j | 0 <= i < j < |s| ensures s[i] != s[j] { Trichotomy(s[i], s[j]); }
    CountElements(s);
  }

  lemma {:induction false} CountElements(s: seq<string>)
    requires forall i, j :: 0 <= i < j < |s| ==> s[i] != s[j]
    ensures |Elements(s)| == |s|
  {
    if s == [] {
    } else {
      var most, t := s[..|s| - 1], s[|s| - 1];
      CountElements(most);
      assert s == most + [t];
      assert Elements(s) == Elements(most) + {t};
    }
  }

  // There is only one ascending list of a set.
  lemma {:induction false} OneListing(s: seq<string>, t: seq<string>)
    requires Ascending(s) && Ascending(t) && Elements(s) == Elements(t)
    ensures s == t
  {
    assert s != [] ==> s[0] in Elements(s);
    assert t != [] ==> t[0] in Elements(t);
    if s == [] || t == [] {
    } else {
      SameHead(s, t);
      TailElements(s);
      TailElements(t);
      OneListing(s[1..], t[1..]);
      assert s == [s[0]] + s[1..] && t == [t[0]] + t[1..];
    }
  }

  lemma SameHead(s: seq<string>, t: seq<string>)
    requires s != [] && t != [] && Ascending(s) && Ascending(t) && Elements(s) == Elements(t)
    ensures s[0] == t[0]
  {
    assert s[0] in Elements(t) && t[0] in Elements(s);
    Trichotomy(s[0], t[0]);
    hide Less;
  }

  lemma TailElements(s: seq<string>)
    requires s != [] && Ascending(s)
    ensures Elements(s[1..]) == Elements(s) - {s[0]}
  {
    AscendingHasNoDuplicates(s);
    assert s == [s[0]] + s[1..];
  }

  function Insert(s: seq<string>, t: string): (r: seq<string>)
    requires Ascending(s) && t !in s
    ensures Ascending(r) && Elements(r) == Elements(s) + {t}
  {
    if s == [] || Less(s[|s| - 1], t) then
      assert forall i :: 0 <= i < |s| ==> Less(s[i], t) by { BelowLast(s, t); }
      s + [t]
    else
      var most, last := s[..|s| - 1], s[|s| - 1];
      assert s == most + [last];
      assert Less(t, last) by { Trichotomy(t, last); }
      var r := Insert(most, t);
      assert forall i :: 0 <= i < |r| ==> r[i] in Elements(r);
      r + [last]
  }

  lemma BelowLast(s: seq<string>, t: string)
    requires Ascending(s) && (s == [] || Less(s[|s| - 1], t))
    ensures forall i :: 0 <= i < |s| ==> Less(s[i], t)
  {
    forall i | 0 <= i < |s| - 1 ensures Less(s[i], t) { Transitive(s[i], s[|s| - 1], t); }
  }

  lemma {:induction false} Listable(strings: set<string>)
    ensures exists s :: Ascending(s) && Elements(s) == strings
  {
    if strings == {} {
      assert Ascending([]) && Elements([]) == strings;
    } else {
      var t :| t in strings;
      Listable(strings - {t});
      var s :| Ascending(s) && Elements(s) == strings - {t};
      assert t !in Elements(s);
      assert Ascending(Insert(s, t)) && Elements(Insert(s, t)) == strings;
    }
  }

  // The strings of a set, sorted.
  ghost function Sorted(strings: set<string>): (s: seq<string>)
    ensures Ascending(s) && Elements(s) == strings
  {
    Listable(strings);
    var s :| Ascending(s) && Elements(s) == strings;
    s
  }

  method Sort(strings: set<string>) returns (s: seq<string>)
    ensures s == Sorted(strings)
  {
    s := [];
    var rest := strings;
    while rest != {}
      invariant Ascending(s) && rest <= strings && Elements(s) == strings - rest
      decreases |rest|
    {
      var t :| t in rest;
      assert t !in Elements(s);
      s := Insert(s, t);
      rest := rest - {t};
    }
    OneListing(s, Sorted(strings));
  }

  // --- containment --------------------------------------------------------------------------------

  const SEPARATOR := '/'

  predicate IsUnder(child: string, parent: string) {
    child != parent && (if parent != [] && parent[|parent| - 1] == SEPARATOR then parent else parent + [SEPARATOR]) <= child
  }

  // So a path comes before everything it contains.
  lemma ContainerIsFirst(child: string, parent: string)
    requires IsUnder(child, parent)
    ensures Less(parent, child)
  {
    LessIsFirstDifference(parent, child);
    hide Less;
  }

  // A cleaned absolute path, from its components: each after a separator, the root alone for none.
  predicate IsComponent(c: string) { c != [] && SEPARATOR !in c }

  predicate AreComponents(cs: seq<string>) { forall c :: c in cs ==> IsComponent(c) }

  function Spell(cs: seq<string>): string {
    if cs == [] then [] else [SEPARATOR] + cs[0] + Spell(cs[1..])
  }

  function PathOf(cs: seq<string>): string { if cs == [] then [SEPARATOR] else Spell(cs) }

  // Containment is decided by whole components: /var/logger is not under /var/log.
  lemma UnderIsComponentwise(child: seq<string>, parent: seq<string>)
    requires AreComponents(child) && AreComponents(parent)
    ensures IsUnder(PathOf(child), PathOf(parent)) <==> parent < child
  {
    if parent == [] {
      if child != [] { assert child[0] in child && |child[0]| > 0; }
    } else {
      LastIsNoSeparator(parent);
      SpellingExtends(child, parent);
    }
  }

  lemma {:induction false} LastIsNoSeparator(cs: seq<string>)
    requires cs != [] && AreComponents(cs)
    ensures Spell(cs) != [] && Spell(cs)[|Spell(cs)| - 1] != SEPARATOR
  {
    if |cs| > 1 {
      LastIsNoSeparator(cs[1..]);
    } else {
      assert cs[0] in cs && Spell(cs) == [SEPARATOR] + cs[0];
    }
  }

  lemma {:induction false} SpellingExtends(child: seq<string>, parent: seq<string>)
    requires AreComponents(child) && AreComponents(parent)
    ensures Spell(parent) + [SEPARATOR] <= Spell(child) <==> parent < child
  {
    if parent == [] || child == [] {
    } else if child[0] == parent[0] {
      var a, b, c := Spell(child[1..]), Spell(parent[1..]), [SEPARATOR] + child[0];
      assert Spell(child) == c + a && Spell(parent) == c + b;
      PrefixUnder(c, b + [SEPARATOR], a);
      assert c + b + [SEPARATOR] == c + (b + [SEPARATOR]);
      SpellingExtends(child[1..], parent[1..]);
      assert child == [child[0]] + child[1..] && parent == [parent[0]] + parent[1..];
      PrefixUnder([child[0]], parent[1..], child[1..]);
    } else if Spell(parent) + [SEPARATOR] <= Spell(child) {
      assert parent[0] in parent && child[0] in child;
      FirstComponent(child[0], Spell(child[1..]), parent[0], Spell(parent[1..]) + [SEPARATOR]);
    }
  }

  lemma PrefixUnder<T>(c: seq<T>, x: seq<T>, y: seq<T>)
    ensures c + x <= c + y <==> x <= y
  {
    if c + x <= c + y {
      assert forall i :: 0 <= i < |x| ==> x[i] == (c + x)[|c| + i] == (c + y)[|c| + i] == y[i];
    }
  }

  // Text up to the first separator is the same in both, so it is the same component.
  lemma FirstComponent(c: string, rest: string, p: string, more: string)
    requires IsComponent(c) && IsComponent(p)
    requires rest == [] || rest[0] == SEPARATOR
    requires more != [] && more[0] == SEPARATOR
    requires [SEPARATOR] + p + more <= [SEPARATOR] + c + rest
    ensures p == c
  {
    var big, small := [SEPARATOR] + c + rest, [SEPARATOR] + p + more;
    assert small[1 + |p|] == SEPARATOR == big[1 + |p|];
    assert forall i :: 0 <= i < |p| ==> p[i] == small[1 + i] == big[1 + i];
    assert forall i :: 0 <= i < |c| ==> c[i] == big[1 + i];
    assert |p| >= |c|;
    assert rest != [] ==> rest[0] == big[1 + |c|];
    assert |p| == |c|;
  }
}
