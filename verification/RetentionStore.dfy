// The retention store as it runs (internal/state/store.go): one mutable record per target, found through a
// map, updated in place, and copied out by a scrape. Each method is a step of StoreTrace.

module RetentionStore {
  import opened Options
  import opened FsErrors
  import opened Outcomes
  import opened Retention
  import opened RetentionLaws
  import opened StoreTrace
  import Int64

  // targetState. A field guarded by a has-flag holds its zero value until the flag is set.
  class TargetState {
    var published: Measurement
    var hasPublished: bool

    var good: Measurement
    var hasGood: bool
    var goodAt: int

    var previousGoodAt: int
    var hasPreviousGood: bool
    var previousGoodSize: int

    var hasAttempt: bool
    var attemptAt: int
    var lastDuration: real
    var success: bool
    var partial: bool
    var present: bool
    var lastErrors: map<Class, int>

    var bytesAdded: int
    var bytesRemoved: int

    var errorsTotal: map<Class, int>
    var vanishedTotal: int
    var scansTotal: map<Outcome, int>

    var entriesTotal: int
    var statCallsTotal: int
    var dirsReadTotal: int
    var skippedXdevTotal: int

    var scanStartedAt: int
    var scanning: bool

    predicate Valid()
      reads this
    {
      && (!hasPublished ==> published == NO_MEASUREMENT)
      && (!hasAttempt ==> !success && !partial && !present && lastDuration == 0.0)
    }

    function Published(): Option<Measurement>
      reads `published, `hasPublished
    {
      if hasPublished then Some(published) else None
    }

    function LastGood(): Option<Good>
      reads `good, `hasGood, `goodAt
    {
      if hasGood then Some(Good(good, goodAt)) else None
    }

    function Previous(): Option<Baseline>
      reads `previousGoodAt, `hasPreviousGood, `previousGoodSize
    {
      if hasPreviousGood then Some(Baseline(previousGoodSize, previousGoodAt)) else None
    }

    function LastAttempt(): Option<Attempt>
      reads `hasAttempt, `attemptAt, `lastDuration, `success, `partial, `present
    {
      if hasAttempt then Some(Attempt(attemptAt, lastDuration, success, partial, present)) else None
    }

    function Scanning(): Option<int>
      reads `scanStartedAt, `scanning
    {
      if scanning then Some(scanStartedAt) else None
    }

    function Value(): Cell
      reads this
    {
      Cell(Published(), LastGood(), Previous(), LastAttempt(), lastErrors, bytesAdded, bytesRemoved,
           errorsTotal, vanishedTotal, scansTotal, entriesTotal, statCallsTotal, dirsReadTotal, skippedXdevTotal, Scanning())
    }

    constructor ()
      ensures Valid() && Value() == NEW_CELL
    {
      published, hasPublished := NO_MEASUREMENT, false;
      good, hasGood, goodAt := NO_MEASUREMENT, false, 0;
      previousGoodAt, hasPreviousGood, previousGoodSize := 0, false, 0;
      hasAttempt, attemptAt, lastDuration, success, partial, present := false, 0, 0.0, false, false, false;
      lastErrors, errorsTotal, scansTotal := map[], map[], map[];
      bytesAdded, bytesRemoved, vanishedTotal := 0, 0, 0;
      entriesTotal, statCallsTotal, dirsReadTotal, skippedXdevTotal := 0, 0, 0, 0;
      scanStartedAt, scanning := 0, false;
    }

    // The error loop of Apply: each class is copied, and added to its running total.
    method RecordErrors(errors: map<Class, int>)
      modifies `lastErrors, `errorsTotal
      ensures lastErrors == errors && errorsTotal == AddErrors(old(errorsTotal), errors)
    {
      hide AddErrors, AddU64, CountAt;
      lastErrors := map[];
      AddNoErrors(errorsTotal);
      var rest := errors.Keys;
      while rest != {}
        invariant rest <= errors.Keys
        invariant lastErrors.Keys == errors.Keys - rest && forall c :: c in lastErrors ==> lastErrors[c] == errors[c]
        invariant errorsTotal == AddErrors(old(errorsTotal), lastErrors)
        decreases |rest|
      {
        var c :| c in rest;
        AddErrorsMore(old(errorsTotal), lastErrors, c, errors[c]);
        lastErrors := lastErrors[c := errors[c]];
        errorsTotal := errorsTotal[c := AddU64(CountAt(errorsTotal, c), errors[c])];
        rest := rest - {c};
      }
    }

    method RecordStatus(r: Result, now: int)
      modifies `hasAttempt, `attemptAt, `lastDuration, `success, `partial, `present
      ensures hasAttempt && LastAttempt() == Some(AttemptOf(r, now))
    {
      hasAttempt, attemptAt, lastDuration := true, now, r.duration;
      success := r.outcome == Complete;
      partial := r.outcome != Complete && r.outcome != Missing;
      present := r.outcome != Missing;
    }

    method RecordCosts(r: Result)
      modifies `vanishedTotal, `entriesTotal, `statCallsTotal, `dirsReadTotal, `skippedXdevTotal
      ensures vanishedTotal == AddU64(old(vanishedTotal), r.vanished) && entriesTotal == AddU64(old(entriesTotal), r.entries)
      ensures statCallsTotal == AddU64(old(statCallsTotal), r.statCalls) && dirsReadTotal == AddU64(old(dirsReadTotal), r.dirsRead)
      ensures skippedXdevTotal == AddU64(old(skippedXdevTotal), r.skippedXdev)
    {
      hide AddU64;
      vanishedTotal := AddU64(vanishedTotal, r.vanished);
      entriesTotal := AddU64(entriesTotal, r.entries);
      statCallsTotal := AddU64(statCallsTotal, r.statCalls);
      dirsReadTotal := AddU64(dirsReadTotal, r.dirsRead);
      skippedXdevTotal := AddU64(skippedXdevTotal, r.skippedXdev);
    }

    // What Apply does for every result that is evidence.
    method RecordAttempt(r: Result, now: int)
      requires Valid()
      modifies this
      ensures Valid() && Value() == Attempted(old(Value()), r, now)
    {
      hide AddErrors, AddU64, Published, LastGood, Previous, LastAttempt, Scanning, AttemptOf;
      RecordStatus(r, now);
      RecordErrors(r.errors);
      RecordCosts(r);
    }

    // What Apply does for a completed result alone.
    method RecordGood(m: Measurement, now: int)
      requires Valid()
      modifies this
      ensures Valid() && Value() == Completed(old(Value()), m, now)
    {
      hide AddU64, Delta, Int64.Wrap, LastAttempt, Scanning, Previous, Published, LastGood, Completed;
      CompletedIs(Value(), m, now);
      RecordChange(m.size);
      RecordBaseline(m, now);
    }

    // The growth a completed scan adds, if there is a baseline to compare it with.
    method RecordChange(size: int)
      modifies `previousGoodSize, `previousGoodAt, `hasPreviousGood, `bytesAdded, `bytesRemoved
      ensures LastGood().None? ==>
        Previous() == old(Previous()) && bytesAdded == old(bytesAdded) && bytesRemoved == old(bytesRemoved)
      ensures LastGood().Some? ==>
        var was := LastGood().value; var d := Delta(was.m.size, size);
        && Previous() == Some(Baseline(was.m.size, was.at))
        && bytesAdded == (if d > 0 then AddU64(old(bytesAdded), d) else old(bytesAdded))
        && bytesRemoved == (if d > 0 then old(bytesRemoved) else AddU64(old(bytesRemoved), Int64.Wrap(-d)))
    {
      hide AddU64, Delta, Int64.Wrap;
      if hasGood {
        RecordGrowth(Delta(good.size, size));
      }
    }

    method RecordBaseline(m: Measurement, now: int)
      modifies `good, `hasGood, `goodAt, `published, `hasPublished
      ensures LastGood() == Some(Good(m, now)) && hasPublished && Published() == Some(m)
    {
      good, hasGood, goodAt := m, true, now;
      published, hasPublished := good, true;
    }

    method RecordGrowth(delta: int)
      modifies `previousGoodSize, `previousGoodAt, `hasPreviousGood, `bytesAdded, `bytesRemoved
      ensures Previous() == Some(Baseline(good.size, goodAt))
      ensures bytesAdded == if delta > 0 then AddU64(old(bytesAdded), delta) else old(bytesAdded)
      ensures bytesRemoved == if delta > 0 then old(bytesRemoved) else AddU64(old(bytesRemoved), Int64.Wrap(-delta))
    {
      hide AddU64, Int64.Wrap;
      previousGoodSize, previousGoodAt, hasPreviousGood := good.size, goodAt, true;
      if delta > 0 {
        bytesAdded := AddU64(bytesAdded, delta);
      } else {
        bytesRemoved := AddU64(bytesRemoved, Int64.Wrap(-delta));
      }
    }

    method Begin(now: int)
      requires Valid()
      modifies `scanning, `scanStartedAt
      ensures Valid() && Value() == Marked(old(Value()), now)
    {
      hide Published, LastGood, Previous, LastAttempt;
      scanning, scanStartedAt := true, now;
    }

    method Land(outcome: Outcome)
      requires Valid()
      modifies `scanning, `scansTotal
      ensures Valid() && Value() == old(Value()).(scanning := None, scansTotal := Bump(old(Value()).scansTotal, outcome))
    {
      hide Published, LastGood, Previous, LastAttempt, Bump;
      scanning := false;
      scansTotal := Bump(scansTotal, outcome);
    }

    method Show(m: Measurement)
      requires Valid()
      modifies `published, `hasPublished
      ensures Valid() && Value() == old(Value()).(published := Some(m))
    {
      hide LastGood, Previous, LastAttempt, Scanning;
      published, hasPublished := m, true;
    }

    method Apply(r: Result, now: int, publishPartial: bool)
      requires Valid()
      modifies this
      ensures Valid() && Value() == Applied(old(Value()), r, now, publishPartial)
      ensures r.outcome != Cancelled ==>
        Value().attempt == Some(Attempt(now, r.duration, r.outcome == Complete, r.outcome in {Partial, Timeout, RootError},
                                        r.outcome != Missing))
    {
      hide Attempted, Completed, Bump, Value, Valid;
      if r.outcome != Cancelled { AppliedTells(Value(), r, now, publishPartial); }
      Land(r.outcome);
      if r.outcome == Cancelled {
        return;
      }
      RecordAttempt(r, now);
      if r.outcome != Complete {
        if publishPartial && r.outcome == Partial {
          Show(r.m);
        }
        return;
      }
      RecordGood(r.m, now);
    }

    // snapshotLocked
    method Snapshot(target: string, now: int, staleAfter: int) returns (s: RetentionLaws.Snapshot)
      requires Valid()
      ensures s == SnapshotOf(target, Value(), now, staleAfter)
    {
      hide Delta, Unix, StatusOf, LastAttempt, Scanning;
      var status := Status(target, now);
      s := Bare(status);
      if !hasGood {
        s := s.(hasGood := hasPublished);
        if s.hasGood {
          s := s.(m := published);
        }
        return;
      }
      var age := now - goodAt;
      s := s.(lastGoodTimestamp := Unix(goodAt), scanAge := age);
      if staleAfter > 0 && age > staleAfter {
        return;
      }
      s := s.(hasGood := hasPublished, m := published);
      if hasPreviousGood {
        s := s.(hasDelta := true, deltaBytes := Delta(previousGoodSize, good.size), deltaInterval := goodAt - previousGoodAt);
      }
    }

    // The part of a snapshot that is always filled in.
    method Status(target: string, now: int) returns (s: RetentionLaws.Status)
      requires Valid()
      ensures s == StatusOf(target, Value(), now)
    {
      hide Unix, Published, LastGood, Previous;
      s := RetentionLaws.Status(target, hasAttempt, success, partial, present, bytesAdded, bytesRemoved, 0, 0.0,
                                lastErrors, errorsTotal, vanishedTotal, scansTotal,
                                entriesTotal, statCallsTotal, dirsReadTotal, skippedXdevTotal, false, 0);
      if hasAttempt {
        s := s.(lastAttemptTimestamp := Unix(attemptAt), lastDuration := lastDuration);
      }
      if scanning {
        s := s.(inProgress := true, currentScan := now - scanStartedAt);
      }
    }
  }

  // Each part of a completed step on its own.
  lemma CompletedIs(c: Cell, m: Measurement, now: int)
    ensures var grown := c.good.Some?;
      var d := if grown then Delta(c.good.value.m.size, m.size) else 0;
      Completed(c, m, now) == Cell(
        Some(m), Some(Good(m, now)),
        if grown then Some(Baseline(c.good.value.m.size, c.good.value.at)) else c.previous, c.attempt, c.lastErrors,
        if grown && d > 0 then AddU64(c.bytesAdded, d) else c.bytesAdded,
        if grown && d <= 0 then AddU64(c.bytesRemoved, Int64.Wrap(-d)) else c.bytesRemoved,
        c.errorsTotal, c.vanishedTotal, c.scansTotal, c.entriesTotal, c.statCallsTotal, c.dirsReadTotal, c.skippedXdevTotal,
        c.scanning)
  {
    hide Delta, AddU64, Int64.Wrap;
  }

  lemma AddNoErrors(totals: map<Class, int>)
    ensures AddErrors(totals, map[]) == totals
  {
  }

  lemma AddErrorsMore(totals: map<Class, int>, errors: map<Class, int>, c: Class, n: int)
    requires c !in errors
    ensures AddErrors(totals, errors[c := n])
         == AddErrors(totals, errors)[c := AddU64(CountAt(AddErrors(totals, errors), c), n)]
  {
    hide AddU64;
  }

  class Store {
    const publishPartial: bool
    const staleAfter: int
    var targets: map<string, TargetState>
    var order: seq<string>

    // No two targets share a record: what is applied to one never shows under another.
    ghost predicate Valid()
      reads this, targets.Values
    {
      && (forall t :: t in targets ==> targets[t].Valid())
      && (forall t, u :: t in targets && u in targets && t != u ==> targets[t] != targets[u])
      && targets.Keys == Elements(order) && NoDuplicates(order)
    }

    ghost function Contents(): (s: Shelf)
      reads this, targets.Values
      ensures Valid() ==> Tidy(s)
    {
      Shelf(map t | t in targets :: targets[t].Value(), order)
    }

    constructor (paths: seq<string>, publishPartial: bool, staleAfter: int)
      ensures Valid() && fresh(targets.Values)
      ensures this.publishPartial == publishPartial && this.staleAfter == staleAfter
      ensures Contents() == DoOp(EMPTY, SetTo(paths), publishPartial)
    {
      this.publishPartial, this.staleAfter := publishPartial, staleAfter;
      targets, order := map[], [];
      new;
      SetTargets(paths);
    }

    method SetTargets(paths: seq<string>)
      requires Valid()
      modifies this
      ensures Valid() && fresh(targets.Values - old(targets.Values))
      ensures Contents() == DoOp(old(Contents()), SetTo(paths), publishPartial)
      // A survivor keeps its own record.
      ensures forall t :: t in targets && t in old(targets) ==> targets[t] == old(targets[t])
    {
      hide Distinct, TargetState.Value, TargetState.Valid;
      var next, listed := Carry(paths);
      targets, order := next, listed;
      assert Valid();
      assert Contents().cells == DoOp(old(Contents()), SetTo(paths), publishPartial).cells;
      hide Valid;
    }

    // The records for a new list of targets: each survivor's own, and a new one for every other.
    method Carry(paths: seq<string>) returns (next: map<string, TargetState>, listed: seq<string>)
      requires Valid()
      ensures listed == Distinct(paths) && next.Keys == Elements(listed)
      ensures forall t :: t in next && t in targets ==> next[t] == targets[t]
      ensures forall t :: t in next && t !in targets ==> fresh(next[t]) && next[t].Valid() && next[t].Value() == NEW_CELL
      ensures forall t, u :: t in next && u in next && t != u ==> next[t] != next[u]
    {
      next, listed := map[], [];
      for i := 0 to |paths|
        invariant listed == Distinct(paths[..i]) && next.Keys == Elements(listed)
        invariant forall t :: t in next && t in targets ==> next[t] == targets[t]
        invariant forall t :: t in next && t !in targets ==> fresh(next[t]) && next[t].Valid() && next[t].Value() == NEW_CELL
        invariant forall t, u :: t in next && u in next && t != u ==> next[t] != next[u]
      {
        hide TargetState.Value, TargetState.Valid;
        assert paths[..i + 1][..i] == paths[..i];
        var target := paths[i];
        if target in next {
          continue;
        }
        if target in targets {
          next := next[target := targets[target]];
        } else {
          var added := new TargetState();
          next := next[target := added];
        }
        listed := listed + [target];
      }
      assert paths[..|paths|] == paths;
    }

    method MarkScanStarted(target: string, now: int)
      requires Valid()
      modifies targets.Values
      ensures Valid() && Contents() == DoOp(old(Contents()), Mark(target, now), publishPartial)
    {
      if target in targets {
        hide Marked, TargetState.Value, TargetState.Valid;
        targets[target].Begin(now);
      }
    }

    method Apply(r: Result, now: int)
      requires Valid()
      modifies targets.Values
      ensures Valid() && Contents() == DoOp(old(Contents()), Put(r, now), publishPartial)
    {
      hide Applied, TargetState.Value, TargetState.Valid;
      if r.target !in targets {
        return;
      }
      targets[r.target].Apply(r, now, publishPartial);
    }

    method Snapshot(now: int) returns (snapshots: seq<RetentionLaws.Snapshot>)
      requires Valid()
      ensures snapshots == Scrape(Contents(), now, staleAfter)
    {
      hide SnapshotOf, TargetState.Value, TargetState.Valid;
      snapshots := [];
      for i := 0 to |order|
        invariant snapshots == Scrape(Contents(), now, staleAfter)[..i]
      {
        assert order[i] in Elements(order);
        var s := targets[order[i]].Snapshot(order[i], now, staleAfter);
        snapshots := snapshots + [s];
      }
    }

    method Targets() returns (paths: seq<string>)
      ensures paths == order
    {
      paths := order;
    }

    method SnapshotFor(target: string, now: int) returns (s: Option<RetentionLaws.Snapshot>)
      requires Valid()
      ensures s == if target !in targets then None
                   else Some(SnapshotOf(target, Contents().cells[target], now, staleAfter))
    {
      if target !in targets {
        return None;
      }
      var snap := targets[target].Snapshot(target, now, staleAfter);
      return Some(snap);
    }
  }
}
