// The timed account of supervise and the protocol's are one: each way the two selects can end in time is a
// way the protocol's supervisor can move, with the same verdict on the target (internal/scan/engine.go:299-318).

module ScanSupervision {
  import opened Options
  import opened Supervision
  import opened ScanProtocol

  // Which channel the first select received from.
  datatype Way = Latch | HardTimer | Context

  predicate By(at: Option<int>, now: int) { at.Some? && at.value <= now }

  // What the protocol's state shows of the story at an instant.
  predicate Reflects(cfg: Config, s: State, t: int, st: Story, l: Limits, now: int) {
    AtTargetIdx(s, t) && cfg.hard == (l.hard > 0)
    && (s.targets[t].done <==> By(st.doneAt, now)) && (ScanErr(cfg, s, s.targets[t]) <==> By(ScanCtxAt(st, l), now))
  }

  // Leaves, with the way named.
  predicate LeavesBy(st: Story, l: Limits, end: int, abandoned: bool, way: Way) {
    var done, ctx, hard := st.doneAt, ScanCtxAt(st, l), HardAt(l);
    match way
    case Latch => First(done, ctx, hard) && end == done.value && !abandoned
    case HardTimer => First(hard, done, ctx) && end == hard.value && abandoned
    case Context =>
      First(ctx, done, hard) &&
      var deadline := ctx.value + Longest(l.hard, l.drain);
      (By(done, deadline) && end == done.value && !abandoned) || (NotBefore(deadline, done) && end == deadline && abandoned)
  }

  lemma WaysAreAll(st: Story, l: Limits, end: int, abandoned: bool)
    ensures Leaves(st, l, end, abandoned) <==> exists way :: LeavesBy(st, l, end, abandoned, way)
  {
    if Leaves(st, l, end, abandoned) {
      assert LeavesBy(st, l, end, abandoned, Latch) || LeavesBy(st, l, end, abandoned, HardTimer)
          || LeavesBy(st, l, end, abandoned, Context);
    }
  }

  // When the first select receives, and the action that is.
  function FirstAt(st: Story, l: Limits, end: int, way: Way): int
    requires way.Context? ==> ScanCtxAt(st, l).Some?
  {
    if way.Context? then ScanCtxAt(st, l).value else end
  }

  function FirstAction(t: int, way: Way): Action {
    match way
    case Latch => LatchSeen(t)
    case HardTimer => TimerFires(t)
    case Context => ScanCtxSeen(t)
  }

  // At that instant the protocol's waiting supervisor can take that action.
  lemma FirstSelect(cfg: Config, s: State, t: int, st: Story, l: Limits, end: int, abandoned: bool, way: Way)
    requires LeavesBy(st, l, end, abandoned, way)
    requires Reflects(cfg, s, t, st, l, FirstAt(st, l, end, way)) && s.targets[t].sup.Waiting? && !s.targets[t].abandoned
    ensures Can(cfg, s, FirstAction(t, way))
    ensures var g := Do(cfg, s, FirstAction(t, way)).targets[t];
      if way.Context? then g.sup.Draining? else g.sup.Settled? && g.abandoned == abandoned && g.done
  {
    hide Opens, Reads, AllReported;
  }

  // And the draining one, when the second select receives.
  lemma SecondSelect(cfg: Config, s: State, t: int, st: Story, l: Limits, end: int, abandoned: bool)
    requires LeavesBy(st, l, end, abandoned, Context)
    requires Reflects(cfg, s, t, st, l, end) && s.targets[t].sup.Draining? && !s.targets[t].abandoned
    ensures var a := if abandoned then TimerFires(t) else LatchSeen(t);
      && Can(cfg, s, a)
      && var g := Do(cfg, s, a).targets[t]; g.sup.Settled? && g.abandoned == abandoned && g.done
  {
    hide Opens, Reads, AllReported;
  }

  // The other way round: a waiting supervisor's actions are the selects that could receive at that instant.
  lemma OnlySelects(cfg: Config, s: State, t: int, a: Action, st: Story, l: Limits, now: int)
    requires Reflects(cfg, s, t, st, l, now) && s.targets[t].sup.Waiting? && Can(cfg, s, a)
    requires a.LatchSeen? || a.ScanCtxSeen? || a.TimerFires? || a.ReadCtx? || a.ReadScanCtx? || a.ReadErrors? || a.Deliver?
    requires a.t == t
    ensures a == LatchSeen(t) ==> By(st.doneAt, now)
    ensures a == ScanCtxSeen(t) ==> By(ScanCtxAt(st, l), now)
    ensures a == TimerFires(t) ==> HardAt(l).Some?
    ensures a in {LatchSeen(t), ScanCtxSeen(t), TimerFires(t)}
  {
    hide Opens, Reads;
  }
}
