// How the scanner sorts file-system errors (internal/scan/errclass.go).

module Options {
  datatype Option<+T> = None | Some(value: T)
}

module FsErrors {
  import opened Options

  datatype Class = Permission | NotFound | IO | Loop | NameTooLong | TooManyFiles | Other

  const ALL_CLASSES := [Permission, NotFound, IO, Loop, NameTooLong, TooManyFiles, Other]

  lemma EveryClass(c: Class)
    ensures c in ALL_CLASSES
  {
    var k := match c case Permission => 0 case NotFound => 1 case IO => 2 case Loop => 3 case NameTooLong => 4
                     case TooManyFiles => 5 case Other => 6;
    assert ALL_CLASSES[k] == c;
  }

  datatype Errno =
    ELOOP | ENAMETOOLONG | EMFILE | ENFILE | EIO | ENXIO | ENODEV | ENOTDIR | ESTALE | Unlisted(code: int)

  // All that errors.Is and errors.As can see of a non-nil error.
  datatype FsError = FsError(permission: bool, notExist: bool, errno: Option<Errno>)

  function Classify(e: FsError): Class {
    if e.permission then Permission
    else if e.notExist then NotFound
    else match e.errno
      case Some(ELOOP) => Loop
      case Some(ENAMETOOLONG) => NameTooLong
      case Some(EMFILE) => TooManyFiles
      case Some(ENFILE) => TooManyFiles
      case Some(EIO) => IO
      case Some(ENXIO) => IO
      case Some(ENODEV) => IO
      case Some(ENOTDIR) => IO
      case Some(ESTALE) => IO
      case _ => Other
  }

  predicate IsVanished(e: FsError) {
    e.notExist || e.errno == Some(ESTALE)
  }

  // Per-class counts as the published maps hold them: a class that never occurred has no key.
  function CountsOf(errors: multiset<Class>): (counts: map<Class, int>)
    ensures forall c :: c in counts <==> c in errors
    ensures forall c :: c in counts ==> counts[c] == errors[c] && counts[c] > 0
  {
    map c | c in errors :: errors[c]
  }

  lemma CountsAre(counts: map<Class, int>, errors: multiset<Class>)
    requires forall c :: c in counts <==> c in errors
    requires forall c :: c in counts ==> counts[c] == errors[c]
    ensures counts == CountsOf(errors)
  {
  }

  // errorTally: counts by class plus a running total, both updated in place.
  class ErrorTally {
    var counts: map<Class, int>
    var total: int

    // The errors recorded so far; Valid ties both fields to it.
    ghost var seen: multiset<Class>

    ghost predicate Valid()
      reads this
    {
      total == |seen| && counts == CountsOf(seen)
    }

    constructor ()
      ensures Valid() && seen == multiset{}
    {
      counts, total, seen := map[], 0, multiset{};
    }

    method Reset()
      modifies this
      ensures Valid() && seen == multiset{}
    {
      counts, total, seen := map[], 0, multiset{};
    }

    method Add(err: Option<FsError>)
      requires Valid()
      modifies this
      ensures Valid()
      ensures seen == match err case None => old(seen) case Some(e) => old(seen) + multiset{Classify(e)}
    {
      if err.None? {
        return;
      }
      var class_ := Classify(err.value);
      seen := seen + multiset{class_};
      counts := counts[class_ := (if class_ in counts then counts[class_] else 0) + 1];
      total := total + 1;
    }

    // `other` is never nil at the one call site (target.go:155), and never this object.
    method Merge(other: ErrorTally)
      requires Valid() && other.Valid() && other != this
      modifies this
      ensures Valid() && seen == old(seen) + other.seen
    {
      hide CountsOf;
      if other.total == 0 {
        assert other.seen == multiset{};
        return;
      }
      var todo := other.counts.Keys;
      while todo != {}
        invariant todo <= other.counts.Keys
        invariant other.counts == old(other.counts) && unchanged(other)
        invariant total == old(total) && seen == old(seen)
        invariant forall c :: c in counts <==> c in seen || c in other.counts.Keys - todo
        invariant forall c :: c in counts ==>
          counts[c] == seen[c] + if c in other.counts.Keys - todo then other.seen[c] else 0
      {
        var c :| c in todo;
        counts := counts[c := (if c in counts then counts[c] else 0) + other.counts[c]];
        todo := todo - {c};
      }
      total := total + other.total;
      seen := seen + other.seen;
      CountsAre(counts, seen);
    }

    method Snapshot() returns (out: map<Class, int>)
      requires Valid()
      ensures out == CountsOf(seen)
    {
      return counts;
    }
  }

  function CountOf(counts: map<Class, int>, c: Class): int {
    if c in counts then counts[c] else 0
  }

  // The total an outcome is decided on is the sum of the per-class counts that get published.
  lemma TotalIsSumOfClasses(errors: multiset<Class>)
    ensures var counts := CountsOf(errors);
      |errors| == CountOf(counts, Permission) + CountOf(counts, NotFound) + CountOf(counts, IO) + CountOf(counts, Loop)
        + CountOf(counts, NameTooLong) + CountOf(counts, TooManyFiles) + CountOf(counts, Other)
  {
    SplitByClass(errors);
    forall c: Class ensures CountOf(CountsOf(errors), c) == errors[c] {}
  }

  lemma {:induction false} SplitByClass(errors: multiset<Class>)
    ensures |errors| == errors[Permission] + errors[NotFound] + errors[IO] + errors[Loop]
      + errors[NameTooLong] + errors[TooManyFiles] + errors[Other]
    decreases |errors|
  {
    if errors == multiset{} {
    } else {
      var c :| c in errors;
      var rest := errors - multiset{c};
      SplitByClass(rest);
      assert errors == rest + multiset{c};
      match c { case Permission => case NotFound => case IO => case Loop =>
        case NameTooLong => case TooManyFiles => case Other => }
    }
  }
}
