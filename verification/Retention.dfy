// What may be published (internal/state/store.go), as a function of everything that has happened to a
// target since it was last added.

module Outcomes {
  datatype Outcome = Complete | Partial | Timeout | Cancelled | Missing | RootError
}

module Retention {
  import opened Options
  import opened FsErrors
  import opened Outcomes
  import Int64

  datatype Measurement = Measurement(size: int, alloc: int, files: int, directories: int,
                                     hardlinked: int, saved: int, exhausted: bool)

  datatype Result = Result(target: string, outcome: Outcome, m: Measurement, duration: real, errors: map<Class, int>,
                           vanished: int, entries: int, statCalls: int, dirsRead: int, skippedXdev: int)

  // A completed scan, an attempt, and the baseline before the current one, each with its time.
  datatype Good = Good(m: Measurement, at: int)
  datatype Attempt = Attempt(at: int, duration: real, success: bool, partial: bool, present: bool)
  datatype Baseline = Baseline(size: int, at: int)

  // targetState, as a value.
  datatype Cell = Cell(
    published: Option<Measurement>, good: Option<Good>, previous: Option<Baseline>,
    attempt: Option<Attempt>, lastErrors: map<Class, int>,
    bytesAdded: int, bytesRemoved: int,
    errorsTotal: map<Class, int>, vanishedTotal: int, scansTotal: map<Outcome, int>,
    entriesTotal: int, statCallsTotal: int, dirsReadTotal: int, skippedXdevTotal: int,
    scanning: Option<int>)

  const NEW_CELL := Cell(None, None, None, None, map[], 0, 0, map[], 0, map[], 0, 0, 0, 0, None)

  // uint64(x), and unsigned addition.
  function U64(x: int): int { x % Int64.TWO64 }

  function AddU64(a: int, b: int): int { U64(a + U64(b)) }

  function CountAt<K>(m: map<K, int>, k: K): int { if k in m then m[k] else 0 }

  function Bump(m: map<Outcome, int>, o: Outcome): map<Outcome, int> { m[o := U64(CountAt(m, o) + 1)] }

  function AddErrors(totals: map<Class, int>, errors: map<Class, int>): map<Class, int> {
    map c | c in totals.Keys + errors.Keys ::
      if c in errors then AddU64(CountAt(totals, c), errors[c]) else totals[c]
  }

  // --- one step: what Apply and MarkScanStarted do to a target -------------------------------------

  function AttemptOf(r: Result, now: int): Attempt {
    Attempt(now, r.duration, r.outcome.Complete?, !r.outcome.Complete? && !r.outcome.Missing?, !r.outcome.Missing?)
  }

  // The part of Apply that every non-cancelled result goes through.
  function Attempted(c: Cell, r: Result, now: int): Cell {
    c.(attempt := Some(AttemptOf(r, now)), lastErrors := r.errors, errorsTotal := AddErrors(c.errorsTotal, r.errors),
       vanishedTotal := AddU64(c.vanishedTotal, r.vanished), entriesTotal := AddU64(c.entriesTotal, r.entries),
       statCallsTotal := AddU64(c.statCallsTotal, r.statCalls), dirsReadTotal := AddU64(c.dirsReadTotal, r.dirsRead),
       skippedXdevTotal := AddU64(c.skippedXdevTotal, r.skippedXdev))
  }

  // The int64 difference between two sizes, and what it adds to each counter.
  function Delta(from: int, to: int): int { Int64.Wrap(to - from) }

  function Up(d: int): int { if d > 0 then U64(d) else 0 }

  function Down(d: int): int { if d > 0 then 0 else U64(Int64.Wrap(-d)) }

  function Completed(c: Cell, m: Measurement, now: int): Cell {
    var grown := if c.good.None? then c else
      var d := Delta(c.good.value.m.size, m.size);
      c.(previous := Some(Baseline(c.good.value.m.size, c.good.value.at)),
         bytesAdded := if d > 0 then AddU64(c.bytesAdded, d) else c.bytesAdded,
         bytesRemoved := if d > 0 then c.bytesRemoved else AddU64(c.bytesRemoved, Int64.Wrap(-d)));
    grown.(good := Some(Good(m, now)), published := Some(m))
  }

  function Applied(c: Cell, r: Result, now: int, publishPartial: bool): Cell {
    var landed := c.(scanning := None, scansTotal := Bump(c.scansTotal, r.outcome));
    if r.outcome.Cancelled? then landed else
    var seen := Attempted(landed, r, now);
    if r.outcome.Complete? then Completed(seen, r.m, now)
    else if publishPartial && r.outcome.Partial? then seen.(published := Some(r.m))
    else seen
  }

  // Whatever came before, an attempt is a success, partial or present by its outcome alone.
  lemma AppliedTells(c: Cell, r: Result, now: int, publishPartial: bool)
    requires r.outcome != Cancelled
    ensures Applied(c, r, now, publishPartial).attempt == Some(Attempt(now, r.duration, r.outcome == Complete,
      r.outcome in {Partial, Timeout, RootError}, r.outcome != Missing))
  {
    hide AddErrors, AddU64, Bump, Delta;
  }

  function Marked(c: Cell, now: int): Cell { c.(scanning := Some(now)) }

  // --- histories -----------------------------------------------------------------------------------

  datatype Event = Began(at: int) | Finished(r: Result, at: int)

  function Step(c: Cell, e: Event, publishPartial: bool): Cell {
    match e
    case Began(at) => Marked(c, at)
    case Finished(r, at) => Applied(c, r, at, publishPartial)
  }

  // The state of a target after its history.
  function Play(h: seq<Event>, publishPartial: bool): Cell {
    if h == [] then NEW_CELL else Step(Play(h[..|h| - 1], publishPartial), h[|h| - 1], publishPartial)
  }

  predicate IsAttempt(e: Event) { e.Finished? && !e.r.outcome.Cancelled? }
  predicate IsComplete(e: Event) { e.Finished? && e.r.outcome.Complete? }
  predicate IsShown(e: Event, publishPartial: bool) {
    e.Finished? && (e.r.outcome.Complete? || (publishPartial && e.r.outcome.Partial?))
  }

  // The events of one kind, in order.
  datatype Kind = Attempts | Completes | Shown(publishPartial: bool) | NotCancelled

  predicate IsA(e: Event, k: Kind) {
    match k
    case Attempts => IsAttempt(e)
    case Completes => IsComplete(e)
    case Shown(pp) => IsShown(e, pp)
    case NotCancelled => !(e.Finished? && e.r.outcome.Cancelled?)
  }

  function Only(h: seq<Event>, k: Kind): (some: seq<Event>)
    ensures forall e :: e in some ==> IsA(e, k) && e in h
  {
    if h == [] then [] else
    var e := h[|h| - 1];
    Only(h[..|h| - 1], k) + if IsA(e, k) then [e] else []
  }

  function Last(h: seq<Event>): (e: Option<Event>)
    ensures e.Some? ==> e.value in h
  {
    if h == [] then None else Some(h[|h| - 1])
  }

  function SecondLast(h: seq<Event>): (e: Option<Event>)
    ensures e.Some? ==> e.value in h
  {
    if |h| < 2 then None else Some(h[|h| - 2])
  }

  // The last completed scan, the one before it, and the last result that may be shown.
  function LastGood(h: seq<Event>): Option<Good> {
    match Last(Only(h, Completes)) case None => None case Some(e) => Some(Good(e.r.m, e.at))
  }

  function GoodBefore(h: seq<Event>): Option<Good> {
    match SecondLast(Only(h, Completes)) case None => None case Some(e) => Some(Good(e.r.m, e.at))
  }

  function LastShown(h: seq<Event>, publishPartial: bool): Option<Measurement> {
    match Last(Only(h, Shown(publishPartial))) case None => None case Some(e) => Some(e.r.m)
  }

  // How much the sizes of consecutive completed scans rose, and fell.
  function Growth(h: seq<Event>): int
    requires forall e :: e in h ==> e.Finished?
  {
    if |h| < 2 then 0 else Growth(h[..|h| - 1]) + Up(Delta(h[|h| - 2].r.m.size, h[|h| - 1].r.m.size))
  }

  function Shrink(h: seq<Event>): int
    requires forall e :: e in h ==> e.Finished?
  {
    if |h| < 2 then 0 else Shrink(h[..|h| - 1]) + Down(Delta(h[|h| - 2].r.m.size, h[|h| - 1].r.m.size))
  }

  datatype Cost = Gone | Entries | StatCalls | DirsRead | OtherDevice | Errors(c: Class)

  function CostOf(r: Result, k: Cost): int {
    match k
    case Gone => r.vanished
    case Entries => r.entries
    case StatCalls => r.statCalls
    case DirsRead => r.dirsRead
    case OtherDevice => r.skippedXdev
    case Errors(c) => CountAt(r.errors, c)
  }

  function Total(h: seq<Event>, k: Cost): int
    requires forall e :: e in h ==> e.Finished?
  {
    if h == [] then 0 else Total(h[..|h| - 1], k) + CostOf(h[|h| - 1].r, k)
  }

  function Ended(h: seq<Event>, o: Outcome): nat {
    if h == [] then 0 else
    var e := h[|h| - 1];
    Ended(h[..|h| - 1], o) + if e.Finished? && e.r.outcome == o then 1 else 0
  }

  // The published state as a pure function of the history: the last result of each kind, the second-last
  // completed one, and sums over all of them.
  ghost predicate Summarises(c: Cell, h: seq<Event>, publishPartial: bool) {
    ShowsLast(c, h, publishPartial) && ShowsAttempt(c, h) && ShowsGrowth(c, h) && ShowsCosts(c, h) && ShowsCounts(c, h)
  }

  predicate ShowsLast(c: Cell, h: seq<Event>, publishPartial: bool) {
    && c.published == LastShown(h, publishPartial)
    && c.good == LastGood(h)
    && c.previous == if GoodBefore(h).None? then None else Some(Baseline(GoodBefore(h).value.m.size, GoodBefore(h).value.at))
  }

  predicate ShowsAttempt(c: Cell, h: seq<Event>) {
    var tried := Only(h, Attempts);
    && c.attempt == (match Last(tried) case None => None case Some(e) => Some(AttemptOf(e.r, e.at)))
    && c.lastErrors == (match Last(tried) case None => map[] case Some(e) => e.r.errors)
    && c.scanning == (match Last(h) case None => None case Some(e) => if e.Began? then Some(e.at) else None)
  }

  predicate ShowsGrowth(c: Cell, h: seq<Event>) {
    var done := Only(h, Completes);
    && c.good == LastGood(h)
    && c.bytesAdded == U64(Growth(done)) && c.bytesRemoved == U64(Shrink(done))
  }

  ghost predicate ShowsCosts(c: Cell, h: seq<Event>) {
    var tried := Only(h, Attempts);
    && c.vanishedTotal == U64(Total(tried, Gone)) && c.entriesTotal == U64(Total(tried, Entries))
    && c.statCallsTotal == U64(Total(tried, StatCalls)) && c.dirsReadTotal == U64(Total(tried, DirsRead))
    && c.skippedXdevTotal == U64(Total(tried, OtherDevice))
    && forall k :: CountAt(c.errorsTotal, k) == U64(Total(tried, Errors(k)))
  }

  ghost predicate ShowsCounts(c: Cell, h: seq<Event>) {
    forall o :: CountAt(c.scansTotal, o) == U64(Ended(h, o))
  }

  // --- the state is the summary ----------------------------------------------------------------------

  lemma OnlyOneMore(h: seq<Event>, e: Event, k: Kind)
    ensures Only(h + [e], k) == if IsA(e, k) then Only(h, k) + [e] else Only(h, k)
  {
    assert (h + [e])[..|h|] == h;
  }

  lemma LastGoodStep(h: seq<Event>, e: Event)
    ensures LastGood(h + [e]) == if IsComplete(e) then Some(Good(e.r.m, e.at)) else LastGood(h)
  {
    hide Only;
    OnlyOneMore(h, e, Completes);
  }

  lemma ModAdd(a: int, b: int)
    ensures AddU64(U64(a), b) == U64(a + b)
    ensures U64(U64(a) + b) == U64(a + b)
  {
  }

  lemma StepShowsLast(c: Cell, h: seq<Event>, e: Event, pp: bool)
    requires ShowsLast(c, h, pp)
    ensures ShowsLast(Step(c, e, pp), h + [e], pp)
  {
    hide Step, Only;
    OnlyOneMore(h, e, Shown(pp));
    OnlyOneMore(h, e, Completes);
    StepMovesLast(c, e, pp);
  }

  // What one event does to the three measurements kept.
  lemma StepMovesLast(c: Cell, e: Event, pp: bool)
    ensures var d := Step(c, e, pp);
      && d.published == (if IsShown(e, pp) then Some(e.r.m) else c.published)
      && d.good == (if IsComplete(e) then Some(Good(e.r.m, e.at)) else c.good)
      && d.previous == if IsComplete(e) && c.good.Some? then Some(Baseline(c.good.value.m.size, c.good.value.at)) else c.previous
  {
    hide AddErrors, AddU64, U64, Bump, Delta, AttemptOf;
  }

  lemma StepShowsAttempt(c: Cell, h: seq<Event>, e: Event, pp: bool)
    requires ShowsAttempt(c, h)
    ensures ShowsAttempt(Step(c, e, pp), h + [e])
  {
    hide AddErrors, AddU64, U64, Bump, Delta, Only;
    OnlyOneMore(h, e, Attempts);
  }

  lemma GrowthOneMore(h: seq<Event>, e: Event)
    requires h != [] && e.Finished? && forall d :: d in h ==> d.Finished?
    ensures var d := Delta(h[|h| - 1].r.m.size, e.r.m.size);
      Growth(h + [e]) == Growth(h) + Up(d) && Shrink(h + [e]) == Shrink(h) + Down(d)
  {
    assert (h + [e])[..|h|] == h;
    hide Delta, Up, Down;
  }

  lemma StepShowsGrowth(c: Cell, h: seq<Event>, e: Event, pp: bool)
    requires ShowsGrowth(c, h)
    ensures ShowsGrowth(Step(c, e, pp), h + [e])
  {
    hide Step, Only, Delta, Up, Down, U64, Growth, Shrink;
    OnlyOneMore(h, e, Completes);
    StepMovesLast(c, e, pp);
    StepMovesGrowth(c, e, pp);
    var done := Only(h, Completes);
    if IsComplete(e) {
      if done == [] {
        GrowthOfOne(e);
        assert done + [e] == [e];
      } else {
        var d := Delta(done[|done| - 1].r.m.size, e.r.m.size);
        GrowthOneMore(done, e);
        ModAdd(Growth(done), Up(d));
        ModAdd(Shrink(done), Down(d));
      }
    }
  }

  lemma GrowthOfOne(e: Event)
    requires e.Finished?
    ensures Growth([e]) == Shrink([e]) == Growth([]) == Shrink([]) == 0
  {
  }

  // What one event does to the growth counters: a completed scan after another moves one of them.
  lemma StepMovesGrowth(c: Cell, e: Event, pp: bool)
    ensures var s := Step(c, e, pp);
      if IsComplete(e) && c.good.Some? then
        var d := Delta(c.good.value.m.size, e.r.m.size);
        && (d > 0 ==> s.bytesAdded == U64(c.bytesAdded + Up(d)) && s.bytesRemoved == c.bytesRemoved)
        && (d <= 0 ==> s.bytesRemoved == U64(c.bytesRemoved + Down(d)) && s.bytesAdded == c.bytesAdded)
        && (d > 0 ==> Down(d) == 0) && (d <= 0 ==> Up(d) == 0)
      else s.bytesAdded == c.bytesAdded && s.bytesRemoved == c.bytesRemoved
  {
    hide AddErrors, Bump, Delta, AttemptOf, U64, Int64.Wrap;
    if IsComplete(e) && c.good.Some? {
      var d := Delta(c.good.value.m.size, e.r.m.size);
      if d > 0 { WrapTwice(c.bytesAdded, d); } else { WrapTwice(c.bytesRemoved, Int64.Wrap(-d)); }
    }
  }

  lemma WrapTwice(a: int, x: int)
    ensures AddU64(a, x) == U64(a + U64(x))
  {
  }

  lemma TotalOneMore(h: seq<Event>, e: Event, k: Cost)
    requires e.Finished? && forall d :: d in h ==> d.Finished?
    ensures Total(h + [e], k) == Total(h, k) + CostOf(e.r, k)
  {
    assert (h + [e])[..|h|] == h;
  }

  lemma AddErrorsAt(totals: map<Class, int>, errors: map<Class, int>, k: Class, was: int)
    requires CountAt(totals, k) == U64(was)
    ensures CountAt(AddErrors(totals, errors), k) == U64(was + CountAt(errors, k))
  {
    ModAdd(was, CountAt(errors, k));
  }

  lemma CostMoves(h: seq<Event>, e: Event, k: Cost)
    requires e.Finished? && forall d :: d in h ==> d.Finished?
    ensures AddU64(U64(Total(h, k)), CostOf(e.r, k)) == U64(Total(h + [e], k))
  {
    TotalOneMore(h, e, k);
    ModAdd(Total(h, k), CostOf(e.r, k));
  }

  lemma ErrorsMove(totals: map<Class, int>, h: seq<Event>, e: Event)
    requires e.Finished? && forall d :: d in h ==> d.Finished?
    requires forall k :: CountAt(totals, k) == U64(Total(h, Errors(k)))
    ensures forall k :: CountAt(AddErrors(totals, e.r.errors), k) == U64(Total(h + [e], Errors(k)))
  {
    forall k: Class ensures CountAt(AddErrors(totals, e.r.errors), k) == U64(Total(h + [e], Errors(k))) {
      TotalOneMore(h, e, Errors(k));
      AddErrorsAt(totals, e.r.errors, k, Total(h, Errors(k)));
    }
  }

  lemma StepShowsCosts(c: Cell, h: seq<Event>, e: Event, pp: bool)
    requires ShowsCosts(c, h)
    ensures ShowsCosts(Step(c, e, pp), h + [e])
  {
    hide Bump, Only, Delta, Completed, AddErrors, AddU64, U64, Total, Attempted, CountAt;
    OnlyOneMore(h, e, Attempts);
    if e.Finished? { CompletedKeepsCosts(c, e, pp); }
    if IsAttempt(e) {
      var tried := Only(h, Attempts);
      CostMoves(tried, e, Gone);
      CostMoves(tried, e, Entries);
      CostMoves(tried, e, StatCalls);
      CostMoves(tried, e, DirsRead);
      CostMoves(tried, e, OtherDevice);
      ErrorsMove(c.errorsTotal, tried, e);
    }
  }

  // Whether it completed or not, a result adds its costs the same way.
  lemma CompletedKeepsCosts(c: Cell, e: Event, pp: bool)
    requires e.Finished?
    ensures var d := Step(c, e, pp);
      if e.r.outcome.Cancelled? then
        d.vanishedTotal == c.vanishedTotal && d.entriesTotal == c.entriesTotal && d.statCallsTotal == c.statCallsTotal
        && d.dirsReadTotal == c.dirsReadTotal && d.skippedXdevTotal == c.skippedXdevTotal && d.errorsTotal == c.errorsTotal
      else
        d.vanishedTotal == AddU64(c.vanishedTotal, e.r.vanished) && d.entriesTotal == AddU64(c.entriesTotal, e.r.entries)
        && d.statCallsTotal == AddU64(c.statCallsTotal, e.r.statCalls) && d.dirsReadTotal == AddU64(c.dirsReadTotal, e.r.dirsRead)
        && d.skippedXdevTotal == AddU64(c.skippedXdevTotal, e.r.skippedXdev)
        && d.errorsTotal == AddErrors(c.errorsTotal, e.r.errors)
  {
    hide AddErrors, AddU64, Delta, U64;
  }

  lemma StepShowsCounts(c: Cell, h: seq<Event>, e: Event, pp: bool)
    requires ShowsCounts(c, h)
    ensures ShowsCounts(Step(c, e, pp), h + [e])
  {
    assert (h + [e])[..|h|] == h;
    forall o ensures CountAt(Step(c, e, pp).scansTotal, o) == U64(Ended(h + [e], o)) {
      CountsMove(c, e, pp, o);
      ModAdd(Ended(h, o), 1);
    }
  }

  lemma CountsMove(c: Cell, e: Event, pp: bool, o: Outcome)
    ensures CountAt(Step(c, e, pp).scansTotal, o)
         == if e.Finished? && e.r.outcome == o then U64(CountAt(c.scansTotal, o) + 1) else CountAt(c.scansTotal, o)
  {
    hide AddErrors, AddU64, Delta, U64, AttemptOf, Completed;
    if e.Finished? {
      var landed := c.(scanning := None, scansTotal := Bump(c.scansTotal, e.r.outcome));
      OutcomesKept(Attempted(landed, e.r, e.at), e.r.m, e.at);
    }
  }

  lemma OutcomesKept(c: Cell, m: Measurement, at: int)
    ensures Completed(c, m, at).scansTotal == c.scansTotal
  {
    hide AddU64, Delta, Int64.Wrap;
  }

  lemma NothingShown(h: seq<Event>, pp: bool)
    requires h == []
    ensures Summarises(NEW_CELL, h, pp)
  {
  }

  // After any history, the state is the summary of that history.
  lemma {:induction false} StateIsSummary(h: seq<Event>, pp: bool)
    ensures Summarises(Play(h, pp), h, pp)
  {
    hide ShowsLast, ShowsAttempt, ShowsGrowth, ShowsCosts, ShowsCounts, Step;
    if h == [] {
      NothingShown(h, pp);
    } else {
      var was, e := h[..|h| - 1], h[|h| - 1];
      StateIsSummary(was, pp);
      assert h == was + [e];
      StepShowsLast(Play(was, pp), was, e, pp);
      StepShowsAttempt(Play(was, pp), was, e, pp);
      StepShowsGrowth(Play(was, pp), was, e, pp);
      StepShowsCosts(Play(was, pp), was, e, pp);
      StepShowsCounts(Play(was, pp), was, e, pp);
    }
  }
}
