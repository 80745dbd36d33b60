// The work pool (internal/scan/engine.go:432-519): a shared deque and, per worker, a private stack whose
// backing array is shifted in place when its oldest half is donated.

module WorkPool {
  import opened Options
  import opened FileTree
  import opened ScanProtocol

  // *[]*dirRef: a slice over a backing array; slots past the length are nil.
  class LocalStack {
    var buf: array<Option<Ref>>
    var len: int

    ghost predicate Valid()
      reads this, buf
    {
      && 0 <= len <= buf.Length
      && (forall j | 0 <= j < len :: buf[j].Some?)
      && (forall j | len <= j < buf.Length :: buf[j].None?)
    }

    ghost function Contents(): (refs: seq<Ref>)
      requires Valid()
      reads this, buf
      ensures |refs| == len
    {
      seq(len, j requires 0 <= j < len && Valid() reads this, buf => buf[j].value)
    }

    constructor ()
      ensures Valid() && fresh(buf) && Contents() == []
    {
      buf := new Option<Ref>[0];
      len := 0;
    }

    // append: grows into a new backing array when the old one is full.
    method Append(refs: seq<Ref>)
      requires Valid()
      modifies this, buf
      ensures Valid() && (buf == old(buf) || fresh(buf))
      ensures Contents() == old(Contents()) + refs
    {
      if len + |refs| > buf.Length {
        var bigger := new Option<Ref>[2 * (len + |refs|)](_ => None);
        forall j | 0 <= j < len { bigger[j] := buf[j]; }
        buf := bigger;
      }
      forall j | 0 <= j < |refs| { buf[len + j] := Some(refs[j]); }
      len := len + |refs|;
    }

    method PopNewest() returns (ref: Ref)
      requires Valid() && len > 0
      modifies this`len, buf
      ensures Valid() && buf == old(buf)
      ensures var was := old(Contents()); ref == was[|was| - 1] && Contents() == was[..|was| - 1]
    {
      ref := buf[len - 1].value;
      buf[len - 1] := None;
      len := len - 1;
    }

    // (*local)[:share]
    function Oldest(share: int): (refs: seq<Ref>)
      requires Valid() && 0 <= share <= len
      reads this, buf
      ensures refs == Contents()[..share]
    {
      seq(share, j requires 0 <= j < share && Valid() && share <= len reads this, buf => buf[j].value)
    }

    // Drops the oldest `share` entries: shift the rest down, clear the vacated tail.
    method DropOldest(share: int)
      requires Valid() && 0 <= share <= len
      modifies this`len, buf
      ensures Valid() && buf == old(buf)
      ensures Contents() == old(Contents())[share..]
    {
      var kept := len - share;
      ghost var was := buf[..];
      ShiftDown(share, kept);
      Shifted(buf[..], was, share, kept);
      ClearTail(kept);
      len := kept;
    }

    // What a shift by whole slices means slot by slot.
    static lemma Shifted(now: seq<Option<Ref>>, was: seq<Option<Ref>>, share: int, kept: int)
      requires 0 <= share && 0 <= kept && share + kept <= |was| == |now|
      requires now[..kept] == was[share..share + kept] && now[kept..] == was[kept..]
      ensures forall m | 0 <= m < kept :: now[m] == was[share + m]
      ensures forall m | kept <= m < |now| :: now[m] == was[m]
    {
      assert forall m | 0 <= m < kept :: now[m] == now[..kept][m];
      assert forall m | kept <= m < |now| :: now[m] == now[kept..][m - kept];
    }

    // copy(*local, (*local)[share:])
    method ShiftDown(share: int, kept: int)
      requires 0 <= share && 0 <= kept && share + kept <= buf.Length
      modifies buf
      ensures buf[..kept] == old(buf[share..share + kept])
      ensures buf[kept..] == old(buf[kept..])
    {
      ghost var was := buf[..];
      var j := 0;
      while j < kept
        invariant 0 <= j <= kept
        invariant buf[..j] == was[share..share + j] && buf[j..] == was[j..]
      {
        assert buf[share + j] == buf[j..][share] == was[share + j];
        ghost var rest := buf[j + 1..];
        buf[j] := buf[share + j];
        assert buf[j + 1..] == rest;
        assert buf[..j + 1] == buf[..j] + [buf[j]];
        assert was[share..share + j + 1] == was[share..share + j] + [was[share + j]];
        j := j + 1;
      }
    }

    method ClearTail(kept: int)
      requires 0 <= kept <= len <= buf.Length
      modifies buf
      ensures forall m | kept <= m < len :: buf[m].None?
      ensures forall m | 0 <= m < kept || len <= m < buf.Length :: buf[m] == old(buf[m])
    {
      var j := kept;
      while j < len
        invariant kept <= j <= len
        invariant forall m | kept <= m < j :: buf[m].None?
        invariant forall m | 0 <= m < kept || j <= m < buf.Length :: buf[m] == old(buf[m])
      {
        buf[j] := None;
        j := j + 1;
      }
    }
  }

  datatype NextResult = Got(ref: Ref) | Closed | MustWait

  class Pool {
    var deque: seq<Ref>
    var closed: bool
    var broadcasts: int        // cond.Broadcast calls so far
    const limit: int
    const shareOver: int

    constructor (limit: int, shareOver: int)
      ensures deque == [] && !closed && broadcasts == 0 && this.limit == limit && this.shareOver == shareOver
    {
      deque, closed, broadcasts := [], false, 0;
      this.limit, this.shareOver := limit, shareOver;
    }

    // Adding a root: straight to the shared deque.
    method PushShared(refs: seq<Ref>)
      modifies this
      ensures deque == old(deque) + refs && broadcasts == old(broadcasts) + 1 && closed == old(closed)
    {
      deque := deque + refs;
      broadcasts := broadcasts + 1;
    }

    // Adding children: all to the local stack, then the oldest half to the shared deque as far as it has room.
    method PushLocal(refs: seq<Ref>, local: LocalStack)
      requires local.Valid() && shareOver > 0
      modifies this, local, local.buf
      ensures local.Valid() && (local.buf == old(local.buf) || fresh(local.buf)) && closed == old(closed)
      ensures var all := old(local.Contents()) + refs;
        var n := Donated(limit, shareOver, old(deque), all);
        && deque == old(deque) + all[..n]
        && local.Contents() == all[n..]
        && broadcasts == old(broadcasts) + One(n > 0)
    {
      local.Append(refs);
      if local.len <= shareOver {
        return;
      }
      var share := local.len / 2;
      var free := limit - |deque|;
      if free > 0 {
        if share > free {
          share := free;
        }
        var oldest := local.Oldest(share);
        deque := deque + oldest;
        local.DropOldest(share);
        broadcasts := broadcasts + 1;
      }
    }

    // next, up to the point where the caller would block on the condition variable.
    method Next(local: LocalStack) returns (r: NextResult)
      requires local.Valid()
      modifies this`deque, local`len, local.buf
      ensures local.Valid() && local.buf == old(local.buf)
      ensures var was, q := old(local.Contents()), old(deque);
        if closed then r == Closed && local.Contents() == was && deque == q
        else if was != [] then r == Got(was[|was| - 1]) && local.Contents() == was[..|was| - 1] && deque == q
        else if q != [] then r == Got(q[|q| - 1]) && deque == q[..|q| - 1] && local.Contents() == was
        else r == MustWait && deque == q && local.Contents() == was
    {
      if closed {
        return Closed;
      }
      if local.len > 0 {
        var ref := local.PopNewest();
        return Got(ref);
      }
      if |deque| > 0 {
        var ref := deque[|deque| - 1];
        deque := deque[..|deque| - 1];
        return Got(ref);
      }
      return MustWait;
    }

    method Close()
      modifies this
      ensures closed && deque == [] && broadcasts == old(broadcasts) + 1
    {
      closed := true;
      deque := [];
      broadcasts := broadcasts + 1;
    }
  }
}

// What a donation may and may not do to the work in the pool, and how a worker comes by its next directory.
module Donation {
  import opened ScanProtocol

  lemma DonationConserves(limit: int, shareOver: int, deque: seq<Ref>, local: seq<Ref>)
    requires shareOver > 0
    ensures var n := Donated(limit, shareOver, deque, local);
      && multiset(deque + local[..n]) + multiset(local[n..]) == multiset(deque) + multiset(local)
      && 2 * n <= |local|
      && (n > 0 ==> |deque + local[..n]| <= limit)
      && (n == 0 <==> |local| <= shareOver || |deque| >= limit)
  {
    var n := Donated(limit, shareOver, deque, local);
    assert local == local[..n] + local[n..];
  }

  // Past the threshold a worker gives away as much as it may: no number that leaves it the larger half and the
  // queue within its limit is larger.
  lemma DonationIsMost(limit: int, shareOver: int, deque: seq<Ref>, local: seq<Ref>, k: nat)
    requires |local| > shareOver && 2 * k <= |local| && |deque| + k <= limit
    ensures k <= Donated(limit, shareOver, deque, local)
  {
  }

  // Undisturbed, the protocol's worker takes what Pool.Next returns and leaves the rest in place.
  lemma TakeIsNext(s: State, i: int)
    requires AtWorker(s, i) && s.workers[i].pc.Ready?
    ensures var was, q := s.workers[i].local, s.deque;
      var once := DoTake(s, i);
      var s' := if once.workers[i].pc.Looking? then DoTake(once, i) else once;
      var pc, local := s'.workers[i].pc, s'.workers[i].local;
      if s.closed then pc == Exited && local == was && s'.deque == q
      else if was != [] then pc == Holding(was[|was| - 1]) && local == was[..|was| - 1] && s'.deque == q
      else if q != [] then pc == Holding(q[|q| - 1]) && s'.deque == q[..|q| - 1] && local == was
      else pc == Parked && s'.deque == q && local == was
  {
  }
}
