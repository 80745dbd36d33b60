// How long one target may be supervised: the timeout rules of Validate (internal/config/resolve.go) and the
// two selects of supervise (internal/scan/engine.go:291-336). Durations are int64 nanoseconds.

module Int64 {
  const MAX := 0x7FFF_FFFF_FFFF_FFFF
  const TWO64 := 0x1_0000_0000_0000_0000

  predicate Fits(x: int) { -MAX - 1 <= x <= MAX }

  // What an int64 holds after an operation whose exact result is x.
  function Wrap(x: int): (r: int)
    ensures Fits(r)
    ensures Fits(x) ==> r == x
    ensures (r - x) % TWO64 == 0
  {
    var low := x % TWO64;
    if low <= MAX then low else low - TWO64
  }
}

module Timeouts {
  import opened Options
  import Int64

  const BACKSTOP := 24 * 3600 * 1_000_000_000

  datatype Rejection = NotPositive(name: string) | HardNotAboveScan | StaleNotAboveInterval

  datatype Check = Check(name: string, value: int, zeroOk: bool)

  predicate Passes(c: Check) { c.value > 0 || (c.value == 0 && c.zeroOk) }

  predicate IsFirstFailing(table: seq<Check>, j: int) {
    0 <= j < |table| && !Passes(table[j]) && forall i :: 0 <= i < j ==> Passes(table[i])
  }

  class Settings {
    var scanInterval: int
    var scanTimeout: int
    var scanHardTimeout: int
    var scanStaleAfter: int
    var workerDrainTimeout: int
    var hardDerived: bool

    constructor (interval: int, timeout: int, hard: int, stale: int, drain: int)
      ensures scanInterval == interval && scanTimeout == timeout && scanHardTimeout == hard
      ensures scanStaleAfter == stale && workerDrainTimeout == drain && !hardDerived
    {
      scanInterval, scanTimeout, scanHardTimeout, scanStaleAfter := interval, timeout, hard, stale;
      workerDrainTimeout, hardDerived := drain, false;
    }

    // The rows of the duration table (resolve.go:59-69) the supervision depends on.
    function Table(): seq<Check>
      reads this
    {
      [Check("scan.interval", scanInterval, false), Check("scan.timeout", scanTimeout, true),
       Check("scan.hard-timeout", scanHardTimeout, true), Check("scan.stale-after", scanStaleAfter, true),
       Check("scan.worker-drain-timeout", workerDrainTimeout, false)]
    }

    method Validate() returns (err: Option<Rejection>)
      requires Int64.Fits(scanTimeout)
      modifies this`scanHardTimeout, this`hardDerived
      ensures err.None? <==>
        && scanInterval > 0 && scanTimeout >= 0 && old(scanHardTimeout) >= 0 && scanStaleAfter >= 0 && workerDrainTimeout > 0
        && !(old(scanHardTimeout) > 0 && scanTimeout > 0 && old(scanHardTimeout) <= scanTimeout)
        && !(0 < scanStaleAfter <= scanInterval)
      // The first row that fails is reported, before any other rule.
      ensures (exists j :: 0 <= j < |old(Table())| && !Passes(old(Table())[j])) <==> err.Some? && err.value.NotPositive?
      ensures err.Some? && err.value.NotPositive? ==>
        exists j :: 0 <= j < |old(Table())| && IsFirstFailing(old(Table()), j) && err.value.name == old(Table())[j].name
      // Whether the stale-after rule then passes or not, the hard timeout has been derived.
      ensures scanHardTimeout == (if err.None? || err.value.StaleNotAboveInterval? then Derived(old(scanHardTimeout), scanTimeout)
                                  else old(scanHardTimeout))
      ensures hardDerived == (old(hardDerived) || ((err.None? || err.value.StaleNotAboveInterval?) && old(scanHardTimeout) == 0))
    {
      var table := Table();
      var i := 0;
      while i < |table|
        invariant 0 <= i <= |table| && table == Table()
        invariant forall j | 0 <= j < i :: Passes(table[j])
      {
        if table[i].value < 0 || (!table[i].zeroOk && table[i].value == 0) {
          assert IsFirstFailing(table, i);
          return Some(NotPositive(table[i].name));
        }
        i := i + 1;
      }
      assert Passes(table[0]) && Passes(table[1]) && Passes(table[2]) && Passes(table[3]) && Passes(table[4]);
      if scanHardTimeout > 0 && scanTimeout > 0 && scanHardTimeout <= scanTimeout {
        return Some(HardNotAboveScan);
      }
      if scanHardTimeout == 0 {
        if scanTimeout > 0 {
          scanHardTimeout := Int64.Wrap(2 * scanTimeout);
        } else {
          scanHardTimeout := BACKSTOP;
        }
        hardDerived := true;
      }
      if scanStaleAfter > 0 && scanStaleAfter <= scanInterval {
        return Some(StaleNotAboveInterval);
      }
      return None;
    }
  }

  // The hard timeout a configuration ends up with.
  function Derived(hard: int, scan: int): int {
    if hard != 0 then hard else if scan > 0 then Int64.Wrap(2 * scan) else BACKSTOP
  }

  // An accepted configuration has a working hard timeout exactly unless doubling the scan timeout overflows.
  lemma HardTimeoutWorks(hard: int, scan: int)
    requires hard >= 0 && scan >= 0 && Int64.Fits(hard) && Int64.Fits(scan)
    requires hard > 0 && scan > 0 ==> hard > scan
    ensures Derived(hard, scan) > 0 <==> hard > 0 || 2 * scan <= Int64.MAX
    ensures Derived(hard, scan) > 0 ==> Derived(hard, scan) > scan
    ensures Derived(hard, scan) > 0 ==>
      Derived(hard, scan) == if hard > 0 then hard else if scan > 0 then 2 * scan else 86_400_000_000_000
  {
    if hard == 0 && 2 * scan > Int64.MAX {
      assert 2 * scan % Int64.TWO64 == 2 * scan;
    }
  }
}

module Supervision {
  import opened Options
  import opened Timeouts
  import Int64

  // What happens around one supervise call, in time since it began: when the walk closes the latch by
  // itself, and when the process is cancelled.
  datatype Story = Story(doneAt: Option<int>, cancelAt: Option<int>)

  datatype Limits = Limits(scan: int, hard: int, drain: int)

  predicate Plausible(st: Story, l: Limits) {
    (st.doneAt.Some? ==> st.doneAt.value >= 0) && (st.cancelAt.Some? ==> st.cancelAt.value >= 0)
    && l.scan >= 0 && l.drain > 0
  }

  function Longest(a: int, b: int): int { if a > b then a else b }

  // The scan context is done at the scan timeout or at cancellation, whichever is first.
  function ScanCtxAt(st: Story, l: Limits): Option<int> {
    if l.scan > 0 && (st.cancelAt.None? || l.scan <= st.cancelAt.value) then Some(l.scan) else st.cancelAt
  }

  // A disabled timer never fires.
  function HardAt(l: Limits): Option<int> { if l.hard > 0 then Some(l.hard) else None }

  predicate NotBefore(a: int, other: Option<int>) { other.None? || a <= other.value }

  // A select returns at the first instant one of its channels is ready; with several, either may win.
  predicate First(at: Option<int>, other1: Option<int>, other2: Option<int>) {
    at.Some? && NotBefore(at.value, other1) && NotBefore(at.value, other2)
  }

  // supervise leaves its selects at `end`, having abandoned the target or not.
  predicate Leaves(st: Story, l: Limits, end: int, abandoned: bool) {
    var done, ctx, hard := st.doneAt, ScanCtxAt(st, l), HardAt(l);
    || (First(done, ctx, hard) && end == done.value && !abandoned)
    || (First(hard, done, ctx) && end == hard.value && abandoned)
    || (First(ctx, done, hard)
        && var deadline := ctx.value + Longest(l.hard, l.drain);
           || (done.Some? && done.value <= deadline && end == done.value && !abandoned)
           || (NotBefore(deadline, done) && end == deadline && abandoned))
  }

  // It ends unless the hard timer is disabled, the walk hangs and nobody cancels.
  lemma EndsUnless(st: Story, l: Limits)
    requires Plausible(st, l)
    ensures (exists end, abandoned :: Leaves(st, l, end, abandoned))
       <==> l.hard > 0 || l.scan > 0 || st.cancelAt.Some? || st.doneAt.Some?
  {
    var done, ctx, hard := st.doneAt, ScanCtxAt(st, l), HardAt(l);
    if First(done, ctx, hard) {
      assert Leaves(st, l, done.value, false);
    } else if First(hard, done, ctx) {
      assert Leaves(st, l, hard.value, true);
    } else if First(ctx, done, hard) {
      var deadline := ctx.value + Longest(l.hard, l.drain);
      if NotBefore(deadline, done) {
        assert Leaves(st, l, deadline, true);
      } else {
        assert Leaves(st, l, done.value, false);
      }
    }
  }

  // Within the hard timeout while the scan context is live; otherwise within a further drain period, which
  // is itself as long as the hard timeout, counted from when the context ended.
  lemma SupervisionIsBounded(st: Story, l: Limits, end: int, abandoned: bool)
    requires Plausible(st, l) && Leaves(st, l, end, abandoned)
    ensures var ctx := ScanCtxAt(st, l);
      && (l.hard > 0 && !(ctx.Some? && ctx.value <= l.hard) ==> end <= l.hard)
      && (ctx.Some? ==> end <= ctx.value + Longest(l.hard, l.drain))
  {
  }

  // What ends it, in instants: the walk's own end; the hard timeout; or a drain that lasted through both the hard
  // and the drain timeout, and no longer than one of them, from when the scan timed out or the process was
  // cancelled, whichever came first.
  lemma EndsAtOneOf(st: Story, l: Limits, end: int, abandoned: bool)
    requires Plausible(st, l) && Leaves(st, l, end, abandoned)
    ensures !abandoned ==> st.doneAt == Some(end)
    ensures abandoned ==>
      || (l.hard > 0 && end == l.hard)
      || (exists from :: IsCutOff(st, l, from) && from + l.hard <= end && from + l.drain <= end
            && (end <= from + l.hard || end <= from + l.drain))
    ensures forall from :: IsCutOff(st, l, from) ==> end <= from + l.hard || end <= from + l.drain
  {
    if ScanCtxAt(st, l).Some? { assert IsCutOff(st, l, ScanCtxAt(st, l).value); }
  }

  predicate IsCutOff(st: Story, l: Limits, from: int) {
    && ((l.scan > 0 && from == l.scan) || st.cancelAt == Some(from))
    && (l.scan > 0 ==> from <= l.scan) && (st.cancelAt.Some? ==> from <= st.cancelAt.value)
  }

  // With a validated configuration: the bound in terms of what was configured.
  lemma ValidatedBound(hard: int, scan: int, drain: int, st: Story, end: int, abandoned: bool)
    requires 0 <= hard && 0 <= scan && Int64.Fits(scan) && Int64.Fits(hard)
    requires hard > 0 && scan > 0 ==> hard > scan
    requires Plausible(st, Limits(scan, Derived(hard, scan), drain))
    requires Leaves(st, Limits(scan, Derived(hard, scan), drain), end, abandoned)
    ensures scan > 0 ==> end <= scan + Longest(Derived(hard, scan), drain)
    ensures scan == 0 && st.cancelAt.None? ==> end <= Derived(hard, scan)
  {
    HardTimeoutWorks(hard, scan);
  }

  // Its scan context over by the hard timeout, the walk is given a drain period that lasts beyond it, and does
  // not end in time.
  predicate Overruns(st: Story, l: Limits) {
    var ctx := ScanCtxAt(st, l);
    && ctx.Some? && ctx.value <= l.hard && ctx.value + Longest(l.hard, l.drain) > l.hard
    && (st.doneAt.None? || st.doneAt.value > l.hard)
  }

  // The hard timeout alone is not the bound. Supervision can end after it exactly in the stories that overrun;
  // and it must, unless the context ends at the very instant the hard timer fires, where either may win.
  lemma HardTimeoutOverrun(st: Story, l: Limits)
    requires Plausible(st, l) && l.hard > 0
    ensures (exists end, abandoned :: Leaves(st, l, end, abandoned) && end > l.hard) <==> Overruns(st, l)
    ensures Overruns(st, l) && ScanCtxAt(st, l) != Some(l.hard) ==>
      forall end, abandoned :: Leaves(st, l, end, abandoned) ==> end > l.hard
  {
    if Overruns(st, l) {
      var ctx := ScanCtxAt(st, l);
      var deadline := ctx.value + Longest(l.hard, l.drain);
      if NotBefore(deadline, st.doneAt) {
        assert Leaves(st, l, deadline, true);
      } else {
        assert Leaves(st, l, st.doneAt.value, false);
      }
    }
  }
}
