// How the series of a target come and go over a run of the store (internal/collector/collector.go).

module CollectorLaws {
  import opened Options
  import opened Outcomes
  import opened Retention
  import opened RetentionLaws
  import opened StoreTrace
  import opened Collector

  // What a scrape at `now`, after these operations, renders for a tracked target.
  function View(ops: seq<Op>, t: string, pp: bool, now: int, staleAfter: int): Snapshot {
    SnapshotOf(t, Retained(RunOps(ops, pp).cells, t), now, staleAfter)
  }

  predicate StaysTracked(more: seq<Op>, t: string) { forall op :: op in more && op.SetTo? ==> t in op.targets }

  // Results arrive a second or more after the epoch, where time.Time.Unix is positive.
  predicate AfterEpoch(ops: seq<Op>) { forall op :: op in ops && op.Put? ==> op.at >= SECOND }

  predicate NoComplete(more: seq<Op>, t: string) {
    forall op :: op in more && op.Put? && op.r.target == t ==> !op.r.outcome.Complete?
  }

  // No two snapshots of a scrape are of one target, whatever the store has been through.
  lemma ScrapedDiffer(ops: seq<Op>, pp: bool, now: int, staleAfter: int)
    ensures DifferentTargets(Scrape(RunOps(ops, pp), now, staleAfter))
  {
    hide SnapshotOf, RunOps;
    var shelf := RunOps(ops, pp);
    forall i: nat | i < |shelf.order| ensures Scrape(shelf, now, staleAfter)[i].status.target == shelf.order[i] {
      assert shelf.order[i] in Elements(shelf.order);
      NamesItsTarget(shelf.order[i], shelf.cells[shelf.order[i]], now, staleAfter);
    }
  }

  lemma NamesItsTarget(t: string, c: Cell, now: int, staleAfter: int)
    ensures SnapshotOf(t, c, now, staleAfter).status.target == t
  {
  }

  // While a target stays tracked its history only grows, by what the store is told about it.
  lemma {:induction false} HistoryGrows(ops: seq<Op>, more: seq<Op>, t: string) returns (tail: seq<Event>)
    requires Since(ops, t).Some? && StaysTracked(more, t)
    ensures Since(ops + more, t) == Some(Since(ops, t).value + tail)
    ensures forall e :: e in tail && e.Finished? ==> Put(e.r, e.at) in more && e.r.target == t
  {
    if more == [] {
      tail := [];
      assert ops + more == ops && Since(ops, t).value + tail == Since(ops, t).value;
    } else {
      var most, op := more[..|more| - 1], more[|more| - 1];
      tail := HistoryGrows(ops, most, t);
      assert (ops + more)[..|ops + more| - 1] == ops + most;
      match op {
        case Mark(m, at) => if m == t { tail := Append(Since(ops, t).value, tail, Began(at)); }
        case Put(r, at) => if r.target == t { tail := Append(Since(ops, t).value, tail, Finished(r, at)); }
        case SetTo(_) => assert op in more;
      }
    }
  }

  lemma Append(h: seq<Event>, tail: seq<Event>, e: Event) returns (longer: seq<Event>)
    ensures longer == tail + [e] && h + longer == (h + tail) + [e]
  {
    longer := tail + [e];
  }

  // Only what the later history completed can replace the last completed scan.
  lemma {:induction false} LastGoodOf(h: seq<Event>, tail: seq<Event>)
    ensures LastGood(h + tail) == if LastGood(tail).Some? then LastGood(tail) else LastGood(h)
  {
    if tail == [] {
      assert h + tail == h;
    } else {
      var most, e := tail[..|tail| - 1], tail[|tail| - 1];
      LastGoodOf(h, most);
      assert h + tail == (h + most) + [e] && tail == most + [e];
      LastGoodStep(h + most, e);
      LastGoodStep(most, e);
      hide LastGood;
    }
  }

  lemma LastGoodInTail(tail: seq<Event>)
    ensures LastGood(tail).Some? ==> exists e :: e in tail && IsComplete(e) && e.at == LastGood(tail).value.at
  {
    if LastGood(tail).Some? {
      var e := Last(Only(tail, Completes)).value;
      assert e in tail && IsComplete(e);
    }
  }

  // The size is shown iff something publishable happened and the last completed scan is not stale; the delta
  // iff two scans completed, the last is not stale and growth is on.
  lemma SeriesDue(ops: seq<Op>, t: string, pp: bool, now: int, staleAfter: int, g: Gates)
    requires Since(ops, t).Some?
    ensures var s, h := View(ops, t, pp, now, staleAfter), Since(ops, t).value;
      var stale := LastGood(h).Some? && Stale(LastGood(h).value, now, staleAfter);
      && (Due(g, s, Size) <==> LastShown(h, pp).Some? && !stale)
      && (Due(g, s, DeltaBytes) <==> g.growth && GoodBefore(h).Some? && !stale)
      && (Due(g, s, BytesAdded) <==> g.growth && LastGood(h).Some? && Unix(LastGood(h).value.at) > 0)
      && (Due(g, s, BytesRemoved) <==> Due(g, s, BytesAdded))
  {
    var h := Since(ops, t).value;
    StoreRefinesHistory(ops, pp);
    hide RunOps, Since;
    assert View(ops, t, pp, now, staleAfter) == SnapshotOf(t, Play(h, pp), now, staleAfter);
    DueOf(t, h, pp, now, staleAfter, g);
    hide Play, Due, SnapshotOf, LastGood, LastShown, GoodBefore;
  }

  lemma DueOf(t: string, h: seq<Event>, pp: bool, now: int, staleAfter: int, g: Gates)
    ensures var s := SnapshotOf(t, Play(h, pp), now, staleAfter);
      var stale := LastGood(h).Some? && Stale(LastGood(h).value, now, staleAfter);
      && (Due(g, s, Size) <==> LastShown(h, pp).Some? && !stale)
      && (Due(g, s, DeltaBytes) <==> g.growth && GoodBefore(h).Some? && !stale)
      && (Due(g, s, BytesAdded) <==> g.growth && LastGood(h).Some? && Unix(LastGood(h).value.at) > 0)
      && (Due(g, s, BytesRemoved) <==> Due(g, s, BytesAdded))
  {
    MeasurementShown(t, h, pp, now, staleAfter);
    DeltaShown(t, h, pp, now, staleAfter);
    CompletesAreShown(h, pp);
    TwoMeansOne(h);
    assert Play(h, pp).good == LastGood(h) by { StateIsSummary(h, pp); hide Play, LastGood, LastShown, GoodBefore; }
    GrowthView(t, Play(h, pp), now, staleAfter);
    hide Play, LastGood, LastShown, GoodBefore, Stale, Unix, SnapshotOf, Delta;
  }

  lemma TwoMeansOne(h: seq<Event>)
    ensures GoodBefore(h).Some? ==> LastGood(h).Some?
  {
    hide Only;
  }

  // Once shown, the growth counters are shown at every later scrape until the target is removed, whatever
  // happens to its scans and however stale its measurement.
  lemma GrowthSeriesStay(ops: seq<Op>, more: seq<Op>, t: string, pp: bool, now: int, later: int, staleAfter: int, g: Gates)
    requires Since(ops, t).Some? && StaysTracked(more, t) && AfterEpoch(more)
    requires Due(g, View(ops, t, pp, now, staleAfter), BytesAdded)
    ensures Due(g, View(ops + more, t, pp, later, staleAfter), BytesAdded)
    ensures Due(g, View(ops + more, t, pp, later, staleAfter), BytesRemoved)
  {
    hide View, Due, Since, LastGood;
    SeriesDue(ops, t, pp, now, staleAfter, g);
    var tail := HistoryGrows(ops, more, t);
    LastGoodOf(Since(ops, t).value, tail);
    LastGoodInTail(tail);
    SeriesDue(ops + more, t, pp, later, staleAfter, g);
  }

  // Once the last completed scan is stale, the size and the delta stay away until another scan completes:
  // no failed, partial or cancelled one brings them back.
  lemma SizeStaysAway(ops: seq<Op>, more: seq<Op>, t: string, pp: bool, now: int, later: int, staleAfter: int, g: Gates)
    requires Since(ops, t).Some? && StaysTracked(more, t) && NoComplete(more, t) && now <= later
    requires LastGood(Since(ops, t).value).Some? && Stale(LastGood(Since(ops, t).value).value, now, staleAfter)
    ensures !Due(g, View(ops + more, t, pp, later, staleAfter), Size)
    ensures !Due(g, View(ops + more, t, pp, later, staleAfter), DeltaBytes)
  {
    hide View, Due, Since, LastGood;
    var tail := HistoryGrows(ops, more, t);
    LastGoodOf(Since(ops, t).value, tail);
    LastGoodInTail(tail);
    SeriesDue(ops + more, t, pp, later, staleAfter, g);
  }

  // A completed scan brings the size back, until it is stale itself.
  lemma CompleteBringsSizeBack(ops: seq<Op>, r: Result, at: int, pp: bool, now: int, staleAfter: int, g: Gates)
    requires Since(ops, r.target).Some? && r.outcome.Complete?
    ensures Due(g, View(ops + [Put(r, at)], r.target, pp, now, staleAfter), Size) <==> !(staleAfter > 0 && now - at > staleAfter)
  {
    var h, all := Since(ops, r.target).value, ops + [Put(r, at)];
    assert all[..|all| - 1] == ops;
    assert Since(all, r.target) == Some(h + [Finished(r, at)]);
    OnlyOneMore(h, Finished(r, at), Completes);
    OnlyOneMore(h, Finished(r, at), Shown(pp));
    SeriesDue(all, r.target, pp, now, staleAfter, g);
    hide View, Due, Since, Only;
  }
}
