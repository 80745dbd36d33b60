// What a scrape sees of a history, which results cannot be seen in it, and how the growth counters add up.

module RetentionLaws {
  import opened Options
  import opened FsErrors
  import opened Outcomes
  import opened Retention
  import Int64

  const SECOND := 1_000_000_000
  const NO_MEASUREMENT := Measurement(0, 0, 0, 0, 0, 0, false)

  // Times are nanoseconds since the Unix epoch; ages and intervals are nanoseconds.
  datatype Status = Status(
    target: string, hasAttempt: bool, success: bool, partial: bool, present: bool,
    bytesAdded: int, bytesRemoved: int,
    lastAttemptTimestamp: int, lastDuration: real, lastErrors: map<Class, int>, errorsTotal: map<Class, int>,
    vanishedTotal: int, scansTotal: map<Outcome, int>,
    entriesTotal: int, statCallsTotal: int, dirsReadTotal: int, skippedXdevTotal: int,
    inProgress: bool, currentScan: int)

  // What is always reported, and what only a current measurement may fill in.
  datatype Snapshot = Snapshot(
    status: Status, hasGood: bool, m: Measurement, lastGoodTimestamp: int, scanAge: int,
    hasDelta: bool, deltaBytes: int, deltaInterval: int)

  // time.Time.Unix
  function Unix(at: int): int { at / SECOND }

  function StatusOf(target: string, c: Cell, now: int): Status {
    var a := if c.attempt.Some? then c.attempt.value else Attempt(0, 0.0, false, false, false);
    Status(target, c.attempt.Some?, a.success, a.partial, a.present, c.bytesAdded, c.bytesRemoved,
           if c.attempt.Some? then Unix(a.at) else 0, a.duration, c.lastErrors, c.errorsTotal,
           c.vanishedTotal, c.scansTotal, c.entriesTotal, c.statCallsTotal, c.dirsReadTotal, c.skippedXdevTotal,
           c.scanning.Some?, if c.scanning.Some? then now - c.scanning.value else 0)
  }

  function Bare(status: Status): Snapshot { Snapshot(status, false, NO_MEASUREMENT, 0, 0, false, 0, 0) }

  predicate Stale(good: Good, now: int, staleAfter: int) { staleAfter > 0 && now - good.at > staleAfter }

  // snapshotLocked
  function SnapshotOf(target: string, c: Cell, now: int, staleAfter: int): Snapshot {
    Shot(StatusOf(target, c, now), c.published, c.good, c.previous, now, staleAfter)
  }

  function Shot(status: Status, published: Option<Measurement>, lastGood: Option<Good>, previous: Option<Baseline>,
                now: int, staleAfter: int): Snapshot
  {
    if lastGood.None? then
      if published.Some? then Bare(status).(hasGood := true, m := published.value) else Bare(status)
    else
      var good := lastGood.value;
      var dated := Bare(status).(lastGoodTimestamp := Unix(good.at), scanAge := now - good.at);
      if Stale(good, now, staleAfter) then dated else
      var shown := if published.Some? then dated.(hasGood := true, m := published.value) else dated;
      if previous.None? then shown else
      shown.(hasDelta := true, deltaBytes := Delta(previous.value.size, good.m.size),
             deltaInterval := good.at - previous.value.at)
  }

  // --- what a scrape shows of a history -----------------------------------------------------------

  // A measurement is shown iff something publishable happened and the last completed scan, if there was
  // one, is not stale. It is that of the last publishable result. So the age of the last completed scan
  // also withdraws a newer partial one, and a partial one before any completed scan never goes stale.
  lemma MeasurementShown(target: string, h: seq<Event>, pp: bool, now: int, staleAfter: int)
    ensures var s := SnapshotOf(target, Play(h, pp), now, staleAfter);
      && (s.hasGood <==> LastShown(h, pp).Some? && !(LastGood(h).Some? && Stale(LastGood(h).value, now, staleAfter)))
      && s.m == if s.hasGood then LastShown(h, pp).value else NO_MEASUREMENT
  {
    StateIsSummary(h, pp);
    CompletesAreShown(h, pp);
    hide Play, Only, LastShown, LastGood, GoodBefore, ShowsAttempt, ShowsGrowth, ShowsCosts, ShowsCounts;
  }

  lemma {:induction false} CompletesAreShown(h: seq<Event>, pp: bool)
    ensures LastShown(h, pp).None? ==> LastGood(h).None?
  {
    if h == [] {
    } else {
      CompletesAreShown(h[..|h| - 1], pp);
    }
  }

  // With partial results withheld, what is shown is the last completed scan itself.
  lemma {:induction false} WithheldShowsComplete(h: seq<Event>)
    ensures Only(h, Kind.Shown(false)) == Only(h, Completes)
  {
    if h == [] {
    } else {
      WithheldShowsComplete(h[..|h| - 1]);
    }
  }

  // The delta spans the last two completed scans, however many attempts failed between them.
  lemma DeltaShown(target: string, h: seq<Event>, pp: bool, now: int, staleAfter: int)
    ensures var s, last, before := SnapshotOf(target, Play(h, pp), now, staleAfter), LastGood(h), GoodBefore(h);
      && (s.hasDelta <==> last.Some? && before.Some? && !Stale(last.value, now, staleAfter))
      && (s.hasDelta ==> s.deltaBytes == Delta(before.value.m.size, last.value.m.size))
      && (s.hasDelta ==> s.deltaInterval == last.value.at - before.value.at)
  {
    StateIsSummary(h, pp);
    hide Play, Only, LastShown, LastGood, GoodBefore, Delta, ShowsAttempt, ShowsGrowth, ShowsCosts, ShowsCounts;
  }

  // --- erasure ------------------------------------------------------------------------------------

  predicate Within(inner: Kind, outer: Kind) {
    (outer.Completes? && (inner.Attempts? || inner.Shown? || inner.NotCancelled? || inner.Completes?))
    || (outer.Attempts? && (inner.NotCancelled? || inner.Attempts?)) || (outer.Shown? && inner.NotCancelled?)
  }

  lemma KindsNest(e: Event, inner: Kind, outer: Kind)
    requires Within(inner, outer)
    ensures IsA(e, outer) ==> IsA(e, inner)
  {
  }

  // Dropping events that are not of the inner kind drops none of the outer kind within it.
  lemma {:induction false} Erases(h: seq<Event>, inner: Kind, outer: Kind)
    requires Within(inner, outer)
    ensures Only(Only(h, inner), outer) == Only(h, outer)
  {
    if h == [] {
    } else {
      var was, e := h[..|h| - 1], h[|h| - 1];
      Erases(was, inner, outer);
      assert h == was + [e];
      KindsNest(e, inner, outer);
      hide IsA, Only;
      OnlyOneMore(was, e, inner);
      OnlyOneMore(was, e, outer);
      OnlyOneMore(Only(was, inner), e, outer);
    }
  }

  // Only completed scans feed the delta, the growth counters and the freshness of what is shown.
  lemma OnlyCompletesFeedGrowth(target: string, h: seq<Event>, pp: bool, now: int, staleAfter: int)
    ensures var s := SnapshotOf(target, Play(h, pp), now, staleAfter);
      var s' := SnapshotOf(target, Play(Only(h, Completes), pp), now, staleAfter);
      && s'.hasDelta == s.hasDelta && s'.deltaBytes == s.deltaBytes && s'.deltaInterval == s.deltaInterval
      && s'.status.bytesAdded == s.status.bytesAdded && s'.status.bytesRemoved == s.status.bytesRemoved
      && s'.lastGoodTimestamp == s.lastGoodTimestamp && s'.scanAge == s.scanAge
      && (!pp ==> s'.hasGood == s.hasGood && s'.m == s.m)
  {
    var h' := Only(h, Completes);
    StateIsSummary(h, pp);
    StateIsSummary(h', pp);
    Erases(h, Completes, Completes);
    WithheldShowsComplete(h);
    WithheldShowsComplete(h');
    assert SameGrowth(Play(h, pp), Play(h', pp), pp) by { hide Play, Only; }
    SameGrowthShows(target, Play(h, pp), Play(h', pp), pp, now, staleAfter);
  }

  predicate SameGrowth(c: Cell, d: Cell, pp: bool) {
    && d.good == c.good && d.previous == c.previous && d.bytesAdded == c.bytesAdded && d.bytesRemoved == c.bytesRemoved
    && (!pp ==> d.published == c.published)
  }

  lemma SameGrowthShows(target: string, c: Cell, d: Cell, pp: bool, now: int, staleAfter: int)
    requires SameGrowth(c, d, pp)
    ensures var s, s' := SnapshotOf(target, c, now, staleAfter), SnapshotOf(target, d, now, staleAfter);
      && s'.hasDelta == s.hasDelta && s'.deltaBytes == s.deltaBytes && s'.deltaInterval == s.deltaInterval
      && s'.status.bytesAdded == s.status.bytesAdded && s'.status.bytesRemoved == s.status.bytesRemoved
      && s'.lastGoodTimestamp == s.lastGoodTimestamp && s'.scanAge == s.scanAge
      && (!pp ==> s'.hasGood == s.hasGood && s'.m == s.m)
  {
    hide Delta, Unix, Stale, SnapshotOf;
    GrowthView(target, c, now, staleAfter);
    GrowthView(target, d, now, staleAfter);
  }

  // Each part of a snapshot that growth and freshness feed, on its own.
  lemma GrowthView(target: string, c: Cell, now: int, staleAfter: int)
    ensures var s := SnapshotOf(target, c, now, staleAfter);
      var current := c.good.Some? && !Stale(c.good.value, now, staleAfter);
      && s.status.bytesAdded == c.bytesAdded && s.status.bytesRemoved == c.bytesRemoved
      && s.lastGoodTimestamp == (if c.good.None? then 0 else Unix(c.good.value.at))
      && s.scanAge == (if c.good.None? then 0 else now - c.good.value.at)
      && s.hasGood == ((c.good.None? || current) && c.published.Some?)
      && s.m == (if s.hasGood then c.published.value else NO_MEASUREMENT)
      && s.hasDelta == (current && c.previous.Some?)
      && s.deltaBytes == (if s.hasDelta then Delta(c.previous.value.size, c.good.value.m.size) else 0)
      && s.deltaInterval == (if s.hasDelta then c.good.value.at - c.previous.value.at else 0)
  {
    hide Delta, Unix, Stale;
  }

  // A cancelled scan is no evidence: without it everything is the same but its own counter and the
  // in-progress mark.
  lemma CancelledLeavesNoTrace(h: seq<Event>, pp: bool)
    ensures var c, d := Play(h, pp), Play(Only(h, NotCancelled), pp);
      && d.published == c.published && d.good == c.good && d.previous == c.previous && d.attempt == c.attempt
      && d.lastErrors == c.lastErrors && d.bytesAdded == c.bytesAdded && d.bytesRemoved == c.bytesRemoved
      && d.vanishedTotal == c.vanishedTotal && d.entriesTotal == c.entriesTotal && d.statCallsTotal == c.statCallsTotal
      && d.dirsReadTotal == c.dirsReadTotal && d.skippedXdevTotal == c.skippedXdevTotal
      && (forall k :: CountAt(d.errorsTotal, k) == CountAt(c.errorsTotal, k))
      && (forall o :: o != Cancelled ==> CountAt(d.scansTotal, o) == CountAt(c.scansTotal, o))
  {
    var h' := Only(h, NotCancelled);
    StateIsSummary(h, pp);
    StateIsSummary(h', pp);
    Erases(h, NotCancelled, Completes);
    Erases(h, NotCancelled, Attempts);
    Erases(h, NotCancelled, Kind.Shown(pp));
    forall o | o != Cancelled ensures Ended(h', o) == Ended(h, o) { EndedWithout(h, o); }
    hide Play, Only, Ended, U64;
  }

  lemma EndedOneMore(h: seq<Event>, e: Event, o: Outcome)
    ensures Ended(h + [e], o) == Ended(h, o) + if e.Finished? && e.r.outcome == o then 1 else 0
  {
    assert (h + [e])[..|h|] == h;
  }

  lemma {:induction false} EndedWithout(h: seq<Event>, o: Outcome)
    requires o != Cancelled
    ensures Ended(Only(h, NotCancelled), o) == Ended(h, o)
  {
    if h == [] {
    } else {
      var was, e := h[..|h| - 1], h[|h| - 1];
      EndedWithout(was, o);
      assert h == was + [e];
      OnlyOneMore(was, e, NotCancelled);
      EndedOneMore(was, e, o);
      EndedOneMore(Only(was, NotCancelled), e, o);
      hide Only, Ended;
    }
  }

  // --- growth -------------------------------------------------------------------------------------

  ghost predicate Sizes(done: seq<Event>) {
    forall e :: e in done ==> e.Finished? && 0 <= e.r.m.size <= Int64.MAX
  }

  function Abs(x: int): int { if x < 0 then -x else x }

  // Total variation of the completed sizes.
  function Variation(done: seq<Event>): int
    requires forall e :: e in done ==> e.Finished?
  {
    if |done| < 2 then 0 else Variation(done[..|done| - 1]) + Abs(done[|done| - 1].r.m.size - done[|done| - 2].r.m.size)
  }

  // Modulo 2^64 the counters differ by last size minus first size, whatever the sizes are.
  lemma {:induction false} GrowthTelescopes(done: seq<Event>)
    requires done != [] && forall e :: e in done ==> e.Finished?
    ensures U64(Growth(done) - Shrink(done)) == U64(done[|done| - 1].r.m.size - done[0].r.m.size)
  {
    if |done| == 1 {
    } else {
      var most := done[..|done| - 1];
      GrowthTelescopes(most);
      var a, b := done[|done| - 2].r.m.size, done[|done| - 1].r.m.size;
      UpDown(a, b);
      ModChain(Growth(most) - Shrink(most), Up(Delta(a, b)) - Down(Delta(a, b)), a - done[0].r.m.size, b - a);
    }
  }

  // So do the published counters, after any history.
  lemma CountersTelescope(h: seq<Event>, pp: bool)
    requires Only(h, Completes) != []
    ensures var c, done := Play(h, pp), Only(h, Completes);
      done[0] in done && done[|done| - 1] in done &&
      U64(c.bytesAdded - c.bytesRemoved) == U64(done[|done| - 1].r.m.size - done[0].r.m.size)
  {
    hide Play, Only, LastGood, ShowsLast, ShowsAttempt, ShowsCosts, ShowsCounts, Growth, Shrink;
    StateIsSummary(h, pp);
    var done := Only(h, Completes);
    GrowthTelescopes(done);
    ModDifference(Growth(done), Shrink(done));
  }

  lemma ModDifference(a: int, b: int)
    ensures U64(U64(a) - U64(b)) == U64(a - b)
  {
  }

  lemma ModChain(x: int, y: int, u: int, v: int)
    requires U64(x) == U64(u) && U64(y) == U64(v)
    ensures U64(x + y) == U64(u + v)
  {
    ModAdd(x, y);
    ModAdd(u, v);
    ModAdd(y, U64(x));
    ModAdd(v, U64(u));
  }

  lemma UpDown(a: int, b: int)
    ensures var d := Delta(a, b); U64(Up(d) - Down(d)) == U64(b - a)
    ensures 0 <= a <= Int64.MAX && 0 <= b <= Int64.MAX ==>
      var d := Delta(a, b); Up(d) - Down(d) == b - a && Up(d) + Down(d) == Abs(b - a)
  {
    var d := Delta(a, b);
    assert d % Int64.TWO64 == (b - a) % Int64.TWO64;
    if d <= 0 {
      var n := Int64.Wrap(-d);
      assert n % Int64.TWO64 == (-d) % Int64.TWO64;
    }
  }

  // For real file sizes the counters are exact until the sizes have moved by 2^64 bytes in all: their
  // difference is last minus first, their sum the total variation, and neither ever falls.
  lemma {:induction false} GrowthIsExact(done: seq<Event>)
    requires Sizes(done)
    ensures Growth(done) >= 0 && Shrink(done) >= 0
    ensures Growth(done) + Shrink(done) == Variation(done)
    ensures done != [] ==> Growth(done) - Shrink(done) == done[|done| - 1].r.m.size - done[0].r.m.size
    ensures |done| > 1 ==> Growth(done) >= Growth(done[..|done| - 1]) && Shrink(done) >= Shrink(done[..|done| - 1])
  {
    if |done| <= 1 {
    } else {
      GrowthIsExact(done[..|done| - 1]);
      UpDown(done[|done| - 2].r.m.size, done[|done| - 1].r.m.size);
      hide Delta;
    }
  }

  lemma CountersAreExact(h: seq<Event>, pp: bool)
    requires Sizes(Only(h, Completes)) && Variation(Only(h, Completes)) < Int64.TWO64
    ensures var c, done := Play(h, pp), Only(h, Completes);
      && c.bytesAdded == Growth(done) && c.bytesRemoved == Shrink(done)
      && c.bytesAdded + c.bytesRemoved == Variation(done)
      && (done != [] ==> c.bytesAdded - c.bytesRemoved == done[|done| - 1].r.m.size - done[0].r.m.size)
  {
    hide Play, Only, LastGood, ShowsLast, ShowsAttempt, ShowsCosts, ShowsCounts;
    StateIsSummary(h, pp);
    hide Growth, Shrink, Variation;
    GrowthIsExact(Only(h, Completes));
  }

  // Along any mix of further events the counters never fall while they are exact.
  lemma CountersNeverFall(h: seq<Event>, e: Event, pp: bool)
    requires Sizes(Only(h + [e], Completes)) && Variation(Only(h + [e], Completes)) < Int64.TWO64
    ensures Play(h, pp).bytesAdded <= Play(h + [e], pp).bytesAdded
    ensures Play(h, pp).bytesRemoved <= Play(h + [e], pp).bytesRemoved
  {
    hide Play, Only, IsA, Growth, Shrink;
    OnlyOneMore(h, e, Completes);
    CountersAreExact(h + [e], pp);
    var done, more := Only(h, Completes), Only(h + [e], Completes);
    GrowthIsExact(more);
    if IsA(e, Completes) {
      assert more[..|more| - 1] == done;
      GrowthIsExact(done);
    }
    CountersAreExact(h, pp);
  }
}
