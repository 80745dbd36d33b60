// What every sample of a scrape means, said by the history of its target alone (internal/state/store.go:274-427,
// internal/collector/collector.go:114-191).

module ScrapeLaws {
  import opened Options
  import opened FsErrors
  import opened Outcomes
  import opened Retention
  import opened RetentionLaws
  import opened StoreTrace
  import opened Collector
  import opened CollectorLaws
  import Int64

  // --- what happened --------------------------------------------------------------------------------

  // The last result that was not a cancelled one.
  function LastTry(h: seq<Event>): (e: Option<Event>)
    ensures e.Some? ==> e.value.Finished?
  {
    if h == [] then None else
    var e := h[|h| - 1];
    if e.Finished? && e.r.outcome != Cancelled then Some(e) else LastTry(h[..|h| - 1])
  }

  // The completed scans, and the results that may be shown, in order.
  function Done(h: seq<Event>): (done: seq<Event>)
    ensures forall e :: e in done ==> e.Finished?
  {
    if h == [] then [] else
    var e := h[|h| - 1];
    Done(h[..|h| - 1]) + if e.Finished? && e.r.outcome == Complete then [e] else []
  }

  function LastToShow(h: seq<Event>, publishPartial: bool): (e: Option<Event>)
    ensures e.Some? ==> e.value.Finished?
  {
    if h == [] then None else
    var e := h[|h| - 1];
    if e.Finished? && (e.r.outcome == Complete || (publishPartial && e.r.outcome == Outcome.Partial)) then Some(e)
    else LastToShow(h[..|h| - 1], publishPartial)
  }

  // How long ago the last completed scan was, against the limit.
  predicate TooOld(h: seq<Event>, now: int, staleAfter: int) {
    var done := Done(h);
    done != [] && staleAfter > 0 && now - done[|done| - 1].at > staleAfter
  }

  // --- what a scrape must show of it ----------------------------------------------------------------

  function YesNo(b: bool): real { if b then 1.0 else 0.0 }

  function InSeconds(ns: int): real { ns as real / 1_000_000_000.0 }

  // Whether the series is there.
  predicate Shows(h: seq<Event>, publishPartial: bool, now: int, staleAfter: int, g: Gates, f: Family) {
    var done := Done(h);
    var size := LastToShow(h, publishPartial).Some? && !TooOld(h, now, staleAfter);
    var dated := done != [] && done[|done| - 1].at >= 1_000_000_000;
    match f
    case SkippedXdev => g.oneFilesystem
    case LastAttempt => LastTry(h).Some?
    case LastDuration => LastTry(h).Some?
    case LastGoodTime => dated
    case ScanAge => dated
    case BytesAdded => g.growth && dated
    case BytesRemoved => g.growth && dated
    case Size => size
    case DiskUsage => size && g.diskUsage
    case FileCount => size && g.fileCounts
    case DirCount => size && g.fileCounts
    case HardlinkedFiles => size && g.dedupHardlinks
    case DedupSaved => size && g.dedupHardlinks
    case DedupBroke => size && g.dedupHardlinks
    case DeltaBytes => g.growth && |done| > 1 && !TooOld(h, now, staleAfter)
    case DeltaInterval => g.growth && |done| > 1 && !TooOld(h, now, staleAfter)
    case _ => true
  }

  predicate Tried(h: seq<Event>, outcomes: set<Outcome>) { LastTry(h).Some? && LastTry(h).value.r.outcome in outcomes }

  predicate Running(h: seq<Event>) { h != [] && h[|h| - 1].Began? }

  // What it says, where it is there.
  ghost predicate Says(h: seq<Event>, publishPartial: bool, now: int, f: Family, value: real) {
    var tried, done, shown := Only(h, Attempts), Done(h), LastToShow(h, publishPartial);
    match f
    case Success => value == YesNo(Tried(h, {Complete}))
    case Partial => value == YesNo(Tried(h, {Outcome.Partial, Timeout, RootError}))
    case Present => value == YesNo(LastTry(h).Some? && LastTry(h).value.r.outcome != Missing)
    case InProgress => value == YesNo(Running(h))
    case CurrentScan => value == if Running(h) then InSeconds(now - h[|h| - 1].at) else 0.0
    case ScansTotal(o) => value == (Ended(h, o) % Int64.TWO64) as real
    case LastErrors(c) => value == if LastTry(h).Some? then CountAt(LastTry(h).value.r.errors, c) as real else 0.0
    case ErrorsTotal(c) => value == (Total(tried, Errors(c)) % Int64.TWO64) as real
    case VanishedTotal => value == (Total(tried, Gone) % Int64.TWO64) as real
    case EntriesTotal => value == (Total(tried, Entries) % Int64.TWO64) as real
    case StatCallsTotal => value == (Total(tried, StatCalls) % Int64.TWO64) as real
    case DirsReadTotal => value == (Total(tried, DirsRead) % Int64.TWO64) as real
    case SkippedXdev => value == (Total(tried, Cost.OtherDevice) % Int64.TWO64) as real
    case LastAttempt => LastTry(h).Some? ==> value == (LastTry(h).value.at / 1_000_000_000) as real
    case LastDuration => LastTry(h).Some? ==> value == LastTry(h).value.r.duration
    case LastGoodTime => done != [] ==> value == (done[|done| - 1].at / 1_000_000_000) as real
    case ScanAge => done != [] ==> value == InSeconds(now - done[|done| - 1].at)
    case BytesAdded => value == (Growth(done) % Int64.TWO64) as real
    case BytesRemoved => value == (Shrink(done) % Int64.TWO64) as real
    case Size => shown.Some? ==> value == shown.value.r.m.size as real
    case DiskUsage => shown.Some? ==> value == shown.value.r.m.alloc as real
    case FileCount => shown.Some? ==> value == shown.value.r.m.files as real
    case DirCount => shown.Some? ==> value == shown.value.r.m.directories as real
    case HardlinkedFiles => shown.Some? ==> value == shown.value.r.m.hardlinked as real
    case DedupSaved => shown.Some? ==> value == shown.value.r.m.saved as real
    case DedupBroke => shown.Some? ==> value == YesNo(shown.value.r.m.exhausted)
    case DeltaBytes => |done| > 1 ==>
      value == Int64.Wrap(done[|done| - 1].r.m.size - done[|done| - 2].r.m.size) as real
    case DeltaInterval => |done| > 1 ==> value == InSeconds(done[|done| - 1].at - done[|done| - 2].at)
  }

  // --- the history of the store's own terms ---------------------------------------------------------

  lemma {:induction false} TryIsLast(h: seq<Event>)
    ensures LastTry(h) == Last(Only(h, Attempts))
  {
    if h == [] {
    } else {
      TryIsLast(h[..|h| - 1]);
    }
  }

  lemma {:induction false} DoneIsCompletes(h: seq<Event>)
    ensures Done(h) == Only(h, Completes)
  {
    if h == [] {
    } else {
      DoneIsCompletes(h[..|h| - 1]);
    }
  }

  lemma {:induction false} ToShowIsLast(h: seq<Event>, pp: bool)
    ensures LastToShow(h, pp) == Last(Only(h, Shown(pp)))
  {
    if h == [] {
    } else {
      ToShowIsLast(h[..|h| - 1], pp);
    }
  }

  // The state a history leads to, in these terms.
  lemma StateOf(h: seq<Event>, pp: bool)
    ensures var c, done, last := Play(h, pp), Done(h), LastTry(h);
      && c.attempt.Some? == last.Some? && c.lastErrors == (if last.Some? then last.value.r.errors else map[])
      && (last.Some? ==> c.attempt.value.at == last.value.at && c.attempt.value.duration == last.value.r.duration)
      && c.scanning == (if Running(h) then Some(h[|h| - 1].at) else None)
      && c.good == (if done == [] then None else Some(Good(done[|done| - 1].r.m, done[|done| - 1].at)))
      && c.previous == (if |done| < 2 then None else Some(Baseline(done[|done| - 2].r.m.size, done[|done| - 2].at)))
      && c.published == (if LastToShow(h, pp).Some? then Some(LastToShow(h, pp).value.r.m) else None)
  {
    StateIsSummary(h, pp);
    TryIsLast(h);
    DoneIsCompletes(h);
    ToShowIsLast(h, pp);
    hide Play, Only, Done, LastTry, LastToShow, ShowsGrowth, ShowsCosts, ShowsCounts;
  }

  // Success, partial and present tell the outcomes apart as they should.
  lemma AttemptTells(h: seq<Event>, pp: bool)
    ensures Play(h, pp).attempt.Some? == LastTry(h).Some?
    ensures var a := Play(h, pp).attempt; a.Some? ==>
      && (a.value.success <==> Tried(h, {Complete})) && (a.value.partial <==> Tried(h, {Outcome.Partial, Timeout, RootError}))
      && (a.value.present <==> LastTry(h).value.r.outcome != Missing)
  {
    StateIsSummary(h, pp);
    TryIsLast(h);
    hide Play, Only, LastTry, ShowsLast, ShowsGrowth, ShowsCosts, ShowsCounts;
  }

  lemma TotalsOf(h: seq<Event>, pp: bool)
    ensures var c, tried, done := Play(h, pp), Only(h, Attempts), Done(h);
      && c.bytesAdded == Growth(done) % Int64.TWO64 && c.bytesRemoved == Shrink(done) % Int64.TWO64
      && c.vanishedTotal == Total(tried, Gone) % Int64.TWO64 && c.entriesTotal == Total(tried, Entries) % Int64.TWO64
      && c.statCallsTotal == Total(tried, StatCalls) % Int64.TWO64 && c.dirsReadTotal == Total(tried, DirsRead) % Int64.TWO64
      && c.skippedXdevTotal == Total(tried, Cost.OtherDevice) % Int64.TWO64
      && (forall k :: CountAt(c.errorsTotal, k) == Total(tried, Errors(k)) % Int64.TWO64)
      && (forall o :: CountAt(c.scansTotal, o) == Ended(h, o) % Int64.TWO64)
  {
    StateIsSummary(h, pp);
    DoneIsCompletes(h);
    hide Play, Only, Done, ShowsLast, ShowsAttempt, Total, Growth, Shrink, Ended, CountAt;
  }

  // --- a scrape tells the history -------------------------------------------------------------------

  lemma DueIsPresent(t: string, h: seq<Event>, pp: bool, now: int, staleAfter: int, g: Gates, f: Family)
    ensures Due(g, SnapshotOf(t, Play(h, pp), now, staleAfter), f) <==> Shows(h, pp, now, staleAfter, g, f)
  {
    StateOf(h, pp);
    hide Play, Done, LastTry, LastToShow, Delta, Running;
    ShownWithDone(h, pp);
  }

  lemma {:induction false} ShownWithDone(h: seq<Event>, pp: bool)
    ensures Done(h) != [] ==> LastToShow(h, pp).Some?
  {
    if h == [] {
    } else {
      ShownWithDone(h[..|h| - 1], pp);
    }
  }

  lemma StatusSays(t: string, h: seq<Event>, pp: bool, now: int, staleAfter: int, f: Family)
    requires PartOf(f) < 5
    ensures Says(h, pp, now, f, ValueOf(SnapshotOf(t, Play(h, pp), now, staleAfter), f))
  {
    StateOf(h, pp);
    AttemptTells(h, pp);
    TotalsOf(h, pp);
    hide Play, Done, LastTry, LastToShow, Delta, Running, Only, Total, Growth, Shrink, Ended;
  }

  lemma MeasurementSays(t: string, h: seq<Event>, pp: bool, now: int, staleAfter: int, g: Gates, f: Family)
    requires PartOf(f) >= 5 && Due(g, SnapshotOf(t, Play(h, pp), now, staleAfter), f)
    ensures Says(h, pp, now, f, ValueOf(SnapshotOf(t, Play(h, pp), now, staleAfter), f))
  {
    StateOf(h, pp);
    TotalsOf(h, pp);
    hide Play, Done, LastTry, LastToShow, Running, Tried, Only, Total, Growth, Shrink, Ended;
  }

  // Whatever the store has been through, a rendered scrape has a sample of a target and family exactly when its
  // history since it was added calls for one, and that sample says what the history says.
  lemma ScrapeTells(out: seq<Sample>, g: Gates, ops: seq<Op>, pp: bool, now: int, staleAfter: int)
    requires RendersAll(out, g, Scrape(RunOps(ops, pp), now, staleAfter))
    ensures forall k :: 0 <= k < |out| ==> Tells(out[k], g, ops, pp, now, staleAfter)
    ensures forall t, f :: Since(ops, t).Some? && Shows(Since(ops, t).value, pp, now, staleAfter, g, f) ==>
      exists k :: 0 <= k < |out| && out[k].target == t && out[k].family == f
  {
    hide SnapshotOf, RunOps, Since, Shows, Tells, Due;
    var shelf := RunOps(ops, pp);
    var snapshots := Scrape(shelf, now, staleAfter);
    StoreRefinesHistory(ops, pp);
    forall k | 0 <= k < |out| ensures Tells(out[k], g, ops, pp, now, staleAfter) {
      assert FromSome(out[k], g, snapshots);
      var i :| 0 <= i < |snapshots| && Sampled(out[k], g, snapshots[i]);
      assert shelf.order[i] in Elements(shelf.order);
      SampleTells(out[k], shelf.order[i], g, ops, pp, now, staleAfter);
    }
    forall t, f | Since(ops, t).Some? && Shows(Since(ops, t).value, pp, now, staleAfter, g, f)
      ensures exists k :: 0 <= k < |out| && out[k].target == t && out[k].family == f
    {
      assert t in shelf.cells && t in Elements(shelf.order);
      var i :| 0 <= i < |shelf.order| && shelf.order[i] == t;
      DueIsPresent(t, Since(ops, t).value, pp, now, staleAfter, g, f);
      NamesItsTarget(t, shelf.cells[t], now, staleAfter);
      assert SampleOf(snapshots[i], f) in out;
    }
  }

  ghost predicate Tells(x: Sample, g: Gates, ops: seq<Op>, pp: bool, now: int, staleAfter: int) {
    && Since(ops, x.target).Some?
    && var h := Since(ops, x.target).value;
       Shows(h, pp, now, staleAfter, g, x.family) && Says(h, pp, now, x.family, x.value)
  }

  lemma SampleTells(x: Sample, t: string, g: Gates, ops: seq<Op>, pp: bool, now: int, staleAfter: int)
    requires Since(ops, t).Some?
    requires var s := SnapshotOf(t, Play(Since(ops, t).value, pp), now, staleAfter); Sampled(x, g, s)
    ensures Tells(x, g, ops, pp, now, staleAfter)
  {
    hide SnapshotOf, Since, Shows, Says, Due, Play, ValueOf;
    var h := Since(ops, t).value;
    NamesItsTarget(t, Play(h, pp), now, staleAfter);
    DueIsPresent(t, h, pp, now, staleAfter, g, x.family);
    if PartOf(x.family) < 5 {
      StatusSays(t, h, pp, now, staleAfter, x.family);
    } else {
      MeasurementSays(t, h, pp, now, staleAfter, g, x.family);
    }
  }
}
