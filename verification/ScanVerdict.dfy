// The verdict of supervise as a table over whole runs (internal/scan/engine.go:261-335), and what a report then
// says of the tree, each in the terms of what happened and of what the file system answered.

module ScanVerdict {
  import opened Options
  import opened FsErrors
  import opened FileTree
  import opened HardLinks
  import opened Outcomes
  import opened ScanProtocol
  import opened ScanLedger
  import opened ScanInvariant
  import opened ScanSteps
  import opened ScanSafety
  import opened ScanProgress
  import opened Reference
  import opened LinkReference

  // --- what a run has shown so far ------------------------------------------------------------------

  // What came before an action first happened; all there is if it has not.
  function Before(acts: seq<Action>, a: Action): (before: seq<Action>)
    ensures |before| <= |acts|
  {
    if a in acts then Before(acts[..|acts| - 1], a) else acts
  }

  predicate Shutdown(init: State, acts: seq<Action>) { init.ctxDone || CancelProcess in acts }

  // The process was told to stop before the supervisor looked at its context.
  predicate StoppedInTime(init: State, acts: seq<Action>, t: int) { Shutdown(init, Before(acts, ReadCtx(t))) }

  // Before it looked at the scan context a timer had made it give up, or that context had ended.
  predicate RanOut(cfg: Config, init: State, acts: seq<Action>, t: int) {
    var seen := Before(acts, ReadScanCtx(t));
    TimerFires(t) in seen || if cfg.scanTimeout then ScanCtxFires(t) in seen else Shutdown(init, seen)
  }

  // The same, kept up to date as the run goes on.
  datatype Log = Log(shutdown: bool, timer: bool, ctx: bool, readCtx: bool, readScan: bool, stopped: bool, late: bool)

  function LogOf(cfg: Config, init: State, acts: seq<Action>, t: int): Log {
    Log(Shutdown(init, acts), TimerFires(t) in acts, ScanCtxFires(t) in acts, ReadCtx(t) in acts, ReadScanCtx(t) in acts,
        StoppedInTime(init, acts, t), RanOut(cfg, init, acts, t))
  }

  function Late(cfg: Config, l: Log): bool { l.timer || if cfg.scanTimeout then l.ctx else l.shutdown }

  function Noted(cfg: Config, l: Log, a: Action, t: int): Log {
    var m := l.(shutdown := l.shutdown || a == CancelProcess, timer := l.timer || a == TimerFires(t),
                ctx := l.ctx || a == ScanCtxFires(t), readCtx := l.readCtx || a == ReadCtx(t),
                readScan := l.readScan || a == ReadScanCtx(t));
    m.(stopped := if m.readCtx then l.stopped else m.shutdown, late := if m.readScan then l.late else Late(cfg, m))
  }

  predicate Unread(cfg: Config, l: Log) { (!l.readCtx ==> l.stopped == l.shutdown) && (!l.readScan ==> l.late == Late(cfg, l)) }

  lemma BeforeMore(acts: seq<Action>, b: Action, a: Action)
    ensures Before(acts + [b], a) == if a in acts then Before(acts, a) else if a == b then acts else acts + [b]
  {
    assert (acts + [b])[..|acts|] == acts;
  }

  lemma LogMore(cfg: Config, init: State, acts: seq<Action>, a: Action, t: int)
    ensures LogOf(cfg, init, acts + [a], t) == Noted(cfg, LogOf(cfg, init, acts, t), a, t)
    ensures Unread(cfg, LogOf(cfg, init, acts, t))
  {
    BeforeMore(acts, a, ReadCtx(t));
    BeforeMore(acts, a, ReadScanCtx(t));
    hide Before;
    NotYet(acts, ReadCtx(t));
    NotYet(acts, ReadScanCtx(t));
  }

  lemma NotYet(acts: seq<Action>, a: Action)
    ensures a !in acts ==> Before(acts, a) == acts
  {
  }

  // --- where the supervisor must stand after it ------------------------------------------------------

  predicate FromTable(l: Log, o: Outcome) {
    && o != Missing && o != RootError
    && (o.Cancelled? <==> l.stopped) && (o.Timeout? <==> !l.stopped && l.late)
  }

  // The report on a root that could not be used: it says why, and nothing else.
  predicate ReportsRoot(probe: Probe, r: Report) {
    && r.bytes == NO_BYTES && !r.exhausted
    && match probe
       case ProbeFails(e) =>
         && (r.outcome == if e.notExist || e.errno == Some(ESTALE) then Missing else RootError)
         && exists c :: OfClass(e, c) && r.tally == multiset{Fault(c)}
       case ProbeLink => r.outcome == RootError && r.tally == multiset{Fault(Other)}
       case ProbeOther => r.outcome == Missing && r.tally == multiset{}
       case ProbeDir(_) => false
  }

  predicate Follows(cfg: Config, x: Target, l: Log) {
    && x.abandoned == l.timer
    && (x.report.None? ==> x.scanDone == l.ctx)
    && match x.sup
       case CtxLive => l.readCtx && !l.readScan && !l.stopped
       case ScanLive => l.readCtx && l.readScan && !l.stopped && !l.late
       case Decided(o) => l.readCtx && (l.readScan || l.stopped) && FromTable(l, o)
       case Reported =>
         x.report.Some? &&
         if x.probe.ProbeDir? then l.readCtx && (l.readScan || l.stopped) && FromTable(l, x.report.value.outcome)
         else ReportsRoot(x.probe, x.report.value)
       case _ => !l.readCtx && !l.readScan
  }

  predicate OnTable(cfg: Config, s: State, t: int, l: Log)
    requires AtTargetIdx(s, t)
  {
    s.ctxDone == l.shutdown && Follows(cfg, s.targets[t], l) && Unread(cfg, l)
  }

  lemma StepStaysOnTable(cfg: Config, s: State, a: Action, t: int, l: Log)
    requires Inv(cfg, s) && Can(cfg, s, a) && AtTargetIdx(s, t) && OnTable(cfg, s, t, l)
    ensures AtTargetIdx(Do(cfg, s, a), t) && OnTable(cfg, Do(cfg, s, a), t, Noted(cfg, l, a, t))
  {
    assert Flags(cfg, s, t) && Stage(s);
    hide Inv, Do, Can, Flags, Stage, OnTable, Noted;
    if ByWorker(a) {
      WorkerLeavesTarget(cfg, s, a, t);
      WorkerNotes(cfg, s, Do(cfg, s, a), a, t, l);
    } else if BySupervisor(a) {
      if a.t == t { OwnSupervisor(cfg, s, a, t, l); } else { OtherSupervisor(cfg, s, a, t, l); }
    } else if a.Start? {
      StartOnTable(cfg, s, t, l);
    } else {
      RestOnTable(cfg, s, a, t, l);
    }
  }

  lemma WorkerNotes(cfg: Config, s: State, s': State, a: Action, t: int, l: Log)
    requires ByWorker(a) && AtTargetIdx(s, t) && AtTargetIdx(s', t) && OnTable(cfg, s, t, l)
    requires SameAnswers(s, s', t) && SameVerdict(s, s', t)
    ensures OnTable(cfg, s', t, Noted(cfg, l, a, t))
  {
    hide FromTable, ReportsRoot;
    assert Noted(cfg, l, a, t) == l;
  }

  // The supervisor itself: what it reads is what the log holds.
  lemma OwnSupervisor(cfg: Config, s: State, a: Action, t: int, l: Log)
    requires AtTargetIdx(s, t) && Flags(cfg, s, t)
    requires Can(cfg, s, a) && OnTable(cfg, s, t, l) && BySupervisor(a) && a.t == t
    ensures AtTargetIdx(Do(cfg, s, a), t) && OnTable(cfg, Do(cfg, s, a), t, Noted(cfg, l, a, t))
  {
    hide Can, Do, OnTable, Noted, Flags;
    if a.Deliver? {
      DeliveryOnTable(cfg, s, a, t, l);
    } else if a.ReadCtx? || a.ReadScanCtx? || a.ReadErrors? {
      ReadingOnTable(cfg, s, a, t, l);
    } else {
      SelectOnTable(cfg, s, a, t, l);
    }
  }

  lemma SelectOnTable(cfg: Config, s: State, a: Action, t: int, l: Log)
    requires AtTargetIdx(s, t) && Flags(cfg, s, t)
    requires Can(cfg, s, a) && OnTable(cfg, s, t, l) && (a.LatchSeen? || a.ScanCtxSeen? || a.TimerFires?) && a.t == t
    ensures AtTargetIdx(Do(cfg, s, a), t) && OnTable(cfg, Do(cfg, s, a), t, Noted(cfg, l, a, t))
  {
    hide DoTake, DoBegin, DoOpen, DoRead, DoPay, DoSift, DoBatchEnd, DoFlush, DoReserve, DoPush, DoFinish, DoCheck,
         DoStart, DoPushRoot, DoReport, NoFaults, ScanErr, Reads, Opens, AllReported, Wake, FenceOf, Justified, ReportsRoot;
  }

  lemma ReadingOnTable(cfg: Config, s: State, a: Action, t: int, l: Log)
    requires AtTargetIdx(s, t) && Flags(cfg, s, t)
    requires Can(cfg, s, a) && OnTable(cfg, s, t, l) && (a.ReadCtx? || a.ReadScanCtx? || a.ReadErrors?) && a.t == t
    ensures AtTargetIdx(Do(cfg, s, a), t) && OnTable(cfg, Do(cfg, s, a), t, Noted(cfg, l, a, t))
  {
    hide DoTake, DoBegin, DoOpen, DoRead, DoPay, DoSift, DoBatchEnd, DoFlush, DoReserve, DoPush, DoFinish, DoCheck,
         DoStart, DoPushRoot, DoReport, NoFaults, Reads, Opens, AllReported, Wake, FenceOf, Justified, ReportsRoot;
  }

  lemma DeliveryOnTable(cfg: Config, s: State, a: Action, t: int, l: Log)
    requires AtTargetIdx(s, t) && Flags(cfg, s, t)
    requires Can(cfg, s, a) && OnTable(cfg, s, t, l) && a == Deliver(t)
    ensures AtTargetIdx(Do(cfg, s, a), t) && OnTable(cfg, Do(cfg, s, a), t, Noted(cfg, l, a, t))
  {
    hide DoTake, DoBegin, DoOpen, DoRead, DoPay, DoSift, DoBatchEnd, DoFlush, DoReserve, DoPush, DoFinish, DoCheck,
         DoStart, DoPushRoot, NoFaults, ScanErr, Reads, Opens, AllReported, Wake, FenceOf, Justified, ReportsRoot, FromTable;
  }

  lemma OtherSupervisor(cfg: Config, s: State, a: Action, t: int, l: Log)
    requires Can(cfg, s, a) && AtTargetIdx(s, t) && OnTable(cfg, s, t, l) && BySupervisor(a) && a.t != t
    ensures AtTargetIdx(Do(cfg, s, a), t) && OnTable(cfg, Do(cfg, s, a), t, Noted(cfg, l, a, t))
  {
    hide OnTable;
    OtherSupervisorLeaves(cfg, s, a, t);
    NotesNothing(cfg, s, Do(cfg, s, a), a, t, l);
  }

  lemma OtherSupervisorLeaves(cfg: Config, s: State, a: Action, t: int)
    requires Can(cfg, s, a) && AtTargetIdx(s, t) && BySupervisor(a) && a.t != t
    ensures AtTargetIdx(Do(cfg, s, a), t) && Do(cfg, s, a).targets[t] == s.targets[t] && Do(cfg, s, a).ctxDone == s.ctxDone
  {
    hide DoTake, DoBegin, DoOpen, DoRead, DoPay, DoSift, DoBatchEnd, DoFlush, DoReserve, DoPush, DoFinish, DoCheck,
         DoStart, DoPushRoot, DoReport, NoFaults, ScanErr, Reads, Opens, AllReported, Wake;
  }

  lemma NotesNothing(cfg: Config, s: State, s': State, a: Action, t: int, l: Log)
    requires BySupervisor(a) && a.t != t && AtTargetIdx(s, t) && AtTargetIdx(s', t) && OnTable(cfg, s, t, l)
    requires s'.targets[t] == s.targets[t] && s'.ctxDone == s.ctxDone
    ensures OnTable(cfg, s', t, Noted(cfg, l, a, t))
  {
    hide Follows;
    assert Noted(cfg, l, a, t) == l;
  }

  lemma StartOnTable(cfg: Config, s: State, t: int, l: Log)
    requires Inv(cfg, s) && Can(cfg, s, Start) && AtTargetIdx(s, t) && OnTable(cfg, s, t, l)
    ensures AtTargetIdx(Do(cfg, s, Start), t) && OnTable(cfg, Do(cfg, s, Start), t, Noted(cfg, l, Start, t))
  {
    hide Inv, OnTable, Launch;
    TableIs(cfg, s, t, l);
    if t == s.main.k {
      StartsNew(cfg, s);
      UntouchedYet(cfg, s, t);
      LaunchOnTable(cfg, s.targets[t], l);
    }
    StartTouchesOne(cfg, s, t);
    assert Noted(cfg, l, Start, t) == l;
    TableIs(cfg, Do(cfg, s, Start), t, l);
  }

  lemma TableIs(cfg: Config, s: State, t: int, l: Log)
    requires AtTargetIdx(s, t)
    ensures OnTable(cfg, s, t, l) <==> s.ctxDone == l.shutdown && Follows(cfg, s.targets[t], l) && Unread(cfg, l)
  {
    hide Follows;
  }

  lemma StartsNew(cfg: Config, s: State)
    requires Inv(cfg, s) && Can(cfg, s, Start)
    ensures s.targets[s.main.k].sup.Unborn? && !s.targets[s.main.k].launched && s.targets[s.main.k].report.None?
  {
    assert Flags(cfg, s, s.main.k) && Stage(s);
    hide Inv, Started;
  }

  lemma StartTouchesOne(cfg: Config, s: State, t: int)
    requires Can(cfg, s, Start) && AtTargetIdx(s, t)
    ensures AtTargetIdx(Do(cfg, s, Start), t) && Do(cfg, s, Start).ctxDone == s.ctxDone
    ensures Do(cfg, s, Start).targets[t] == if t == s.main.k then Launch(cfg, s.targets[t]) else s.targets[t]
  {
    hide Launch;
  }

  lemma LaunchOnTable(cfg: Config, x: Target, l: Log)
    requires Follows(cfg, x, l) && x.sup.Unborn? && x.report.None?
    requires x.flushed == multiset{} && x.bytes == NO_BYTES && !x.exhausted
    ensures Follows(cfg, Launch(cfg, x), l)
  {
    hide FenceOf, RootFaults, RootOutcome, ReportsRoot, FromTable;
    if !x.probe.ProbeDir? {
      RootIsTold(x.probe);
      assert multiset{} + RootFaults(x.probe) == RootFaults(x.probe);
    }
  }

  // A target not started has nothing in any counter.
  lemma UntouchedYet(cfg: Config, s: State, t: int)
    requires Inv(cfg, s) && AtTargetIdx(s, t) && s.targets[t].sup.Unborn? && !s.targets[t].launched
    ensures s.targets[t].flushed == multiset{} && s.targets[t].bytes == NO_BYTES && !s.targets[t].exhausted
  {
    assert Ledger(cfg, s, t, Entry, InSize);
    var g := s.targets[t];
    forall f: File ensures multiset(g.order)[f] == 0 {
      assert Ledger(cfg, s, t, Met(f), InSize);
      NothingOutstanding(s, Held(t, Met(f)), t);
      hide Inv;
    }
    assert g.order == [] by { if g.order != [] { assert multiset(g.order)[g.order[0]] > 0; } }
    forall c: Coin ensures CoinOf(g.bytes, c) == 0 {
      assert Ledger(cfg, s, t, Entry, c);
      NothingOutstanding(s, Purse(t, c), t);
      hide Inv;
    }
    assert CoinOf(g.bytes, InSize) == CoinOf(g.bytes, InAlloc) == CoinOf(g.bytes, InFiles) == 0;
    assert CoinOf(g.bytes, InLinks) == CoinOf(g.bytes, InSaved) == 0;
    hide Inv;
  }

  // What prepareRoot makes of a root it cannot use.
  lemma RootIsTold(probe: Probe)
    requires !probe.ProbeDir?
    ensures ReportsRoot(probe, Report(RootOutcome(probe), RootFaults(probe), NO_BYTES, false))
  {
    if probe.ProbeFails? { ErrorsAreSorted(probe.why, Classify(probe.why)); }
    hide Classify, OfClass, IsVanished;
  }

  lemma RestOnTable(cfg: Config, s: State, a: Action, t: int, l: Log)
    requires Stage(s) && Can(cfg, s, a) && AtTargetIdx(s, t) && OnTable(cfg, s, t, l)
    requires !ByWorker(a) && !BySupervisor(a) && !a.Start?
    ensures AtTargetIdx(Do(cfg, s, a), t) && OnTable(cfg, Do(cfg, s, a), t, Noted(cfg, l, a, t))
  {
    hide Stage, Can, Do, OnTable, Noted;
    if a.CancelProcess? || a.ScanCtxFires? {
      OutsideOnTable(cfg, s, a, t, l);
    } else {
      MainOnTable(cfg, s, a, t, l);
    }
  }

  lemma OutsideOnTable(cfg: Config, s: State, a: Action, t: int, l: Log)
    requires Can(cfg, s, a) && AtTargetIdx(s, t) && OnTable(cfg, s, t, l) && (a.CancelProcess? || a.ScanCtxFires?)
    ensures AtTargetIdx(Do(cfg, s, a), t) && OnTable(cfg, Do(cfg, s, a), t, Noted(cfg, l, a, t))
  {
    hide DoTake, DoBegin, DoOpen, DoRead, DoPay, DoSift, DoBatchEnd, DoFlush, DoReserve, DoPush, DoFinish, DoCheck,
         DoStart, DoPushRoot, DoReport, Wake, AllReported, Reads, Opens, ReportsRoot;
  }

  lemma MainOnTable(cfg: Config, s: State, a: Action, t: int, l: Log)
    requires Stage(s) && Can(cfg, s, a) && AtTargetIdx(s, t) && OnTable(cfg, s, t, l)
    requires a.PushRoot? || a.ClosePool? || a.Drained? || a.LeakedExits?
    ensures AtTargetIdx(Do(cfg, s, a), t) && OnTable(cfg, Do(cfg, s, a), t, Noted(cfg, l, a, t))
  {
    hide DoTake, DoBegin, DoOpen, DoRead, DoPay, DoSift, DoBatchEnd, DoFlush, DoReserve, DoPush, DoFinish, DoCheck,
         DoStart, DoReport, Wake, AllReported, Reads, Opens, ReportsRoot, Unstarted, Started, FromTable;
  }

  lemma {:induction false} RunStaysOnTable(cfg: Config, init: State, past: seq<Action>, s: State, acts: seq<Action>,
                                           s': State, t: int)
    requires Reaches(cfg, s, acts, s') && Inv(cfg, s) && AtTargetIdx(s, t)
    requires OnTable(cfg, s, t, LogOf(cfg, init, past, t))
    ensures AtTargetIdx(s', t) && OnTable(cfg, s', t, LogOf(cfg, init, past + acts, t))
    decreases |acts|
  {
    hide OnTable, Do, Can, Inv, LogOf, Noted;
    if acts == [] {
      assert past + acts == past;
    } else {
      var a := acts[0];
      StepKeeps(cfg, s, a);
      StepStaysOnTable(cfg, s, a, t, LogOf(cfg, init, past, t));
      LogMore(cfg, init, past, a, t);
      RunStaysOnTable(cfg, init, past + [a], Do(cfg, s, a), acts[1..], s', t);
      assert past + [a] + acts[1..] == past + acts;
    }
  }

  lemma EndsOnTable(cfg: Config, init: State, acts: seq<Action>, s: State, t: int)
    requires ValidConfig(cfg) && Fresh(init) && Reaches(cfg, init, acts, s) && AtTargetIdx(s, t)
    ensures OnTable(cfg, s, t, LogOf(cfg, init, acts, t)) && Reachable(cfg, s)
  {
    SameNumber(cfg, init, acts, s);
    assert OnTable(cfg, init, t, LogOf(cfg, init, [], t));
    FreshIsReachable(cfg, init);
    ReachableInv(cfg, init);
    ReachedFromFresh(cfg, init, acts, s);
    hide Fresh, Reaches, Inv, OnTable, Reachable, LogOf;
    RunStaysOnTable(cfg, init, [], init, acts, s, t);
    assert [] + acts == acts;
  }

  lemma {:induction false} AnswersStay(cfg: Config, s: State, acts: seq<Action>, s': State, t: int)
    requires Reaches(cfg, s, acts, s') && AtTargetIdx(s, t) && AtTargetIdx(s', t)
    ensures SameAnswers(s, s', t)
    decreases |acts|
  {
    hide Do, Can;
    if acts == [] {
    } else {
      AnswersFixed(cfg, s, acts[0], t);
      AnswersStay(cfg, Do(cfg, s, acts[0]), acts[1..], s', t);
    }
  }

  lemma ReachedFromFresh(cfg: Config, init: State, acts: seq<Action>, s: State)
    requires ValidConfig(cfg) && Fresh(init) && Reaches(cfg, init, acts, s)
    ensures Reachable(cfg, s)
  {
    hide Fresh, Reaches;
  }

  // --- what a report says of the tree ---------------------------------------------------------------

  // Which directories the walk leaves out: those on another device than the root, when told to and able to.
  function CutAt(cfg: Config, probe: Probe): Fence
    requires probe.ProbeDir?
  {
    if cfg.oneFs && cfg.capInode then Some(probe.dev) else None
  }

  // No fault anywhere, and no more linked inodes than may be tracked.
  predicate Clean(cfg: Config, tree: Tree, fence: Fence) {
    Readable(tree, fence) && |Pairs(FilesMet(tree, fence), cfg.policy.dedup)| <= cfg.policy.maxTracked
  }

  // Each counter is what there is to count, and the bytes are those of the files, each inode once.
  ghost predicate IsTrue(cfg: Config, tree: Tree, fence: Fence, r: Report) {
    var files, dedup := FilesMet(tree, fence), cfg.policy.dedup;
    && (forall x: Fact :: r.tally[x] == Expected(tree, fence, x))
    && (r.exhausted <==> |Pairs(files, dedup)| > cfg.policy.maxTracked)
    && r.bytes.hardlinked == LinkCount(files, dedup) && r.bytes.size + r.bytes.saved == AllSizes(files)
    && (LinksAgree(files, dedup) && !r.exhausted ==>
          r.bytes.size == OnceSize(files, dedup) && r.bytes.alloc == OnceAlloc(files, dedup)
          && r.bytes.files == OnceCount(files, dedup))
  }

  // A result delivered as complete or partial is true of the tree, and complete exactly when it is clean.
  lemma ReportIsTrue(cfg: Config, s: State, t: int)
    requires Reachable(cfg, s) && AtTargetIdx(s, t) && s.targets[t].report.Some?
    requires s.targets[t].report.value.outcome.Complete? || s.targets[t].report.value.outcome.Partial?
    ensures var g := s.targets[t];
      && g.probe.ProbeDir? && IsTrue(cfg, g.tree, CutAt(cfg, g.probe), g.report.value)
      && (g.report.value.outcome.Complete? <==> Clean(cfg, g.tree, CutAt(cfg, g.probe)))
  {
    hide Reachable, Measures, Faultless, IsTrue, Clean, NoFaults;
    CompleteMeansExact(cfg, s, t);
    var g := s.targets[t];
    assert cfg.policy.maxTracked > 0 by { ReachableInv(cfg, s); }
    MeasuresIsTrue(cfg, g.tree, g.fence, g.report.value);
    FaultlessIsClean(cfg, g.tree, g.fence);
  }

  lemma FaultlessIsClean(cfg: Config, tree: Tree, fence: Fence)
    ensures Faultless(tree, fence, cfg.policy) <==> Clean(cfg, tree, fence)
  {
    hide Readable, Measure, Files, FilesMet, Keys, Pairs;
    ReadableIffNoFault(tree, fence);
    FilesAreThose(tree, fence);
    KeysOrderFree(FilesMet(tree, fence), Files(tree, fence), cfg.policy);
    PairsAreKeys(FilesMet(tree, fence), cfg.policy);
  }

  lemma MeasuresIsTrue(cfg: Config, tree: Tree, fence: Fence, r: Report)
    requires Measures(r, tree, fence, cfg.policy) && cfg.policy.maxTracked > 0
    ensures IsTrue(cfg, tree, fence, r)
  {
    hide Measure, Expected, Files, FilesMet, Keys, Pairs, PostAll, Once, LinksAgree, Exact, Consistent, LinkCount, AllSizes;
    var files, p := FilesMet(tree, fence), cfg.policy;
    FilesAreThose(tree, fence);
    forall x: Fact ensures r.tally[x] == Expected(tree, fence, x) { MeasureIsCount(tree, fence, x); }
    var order: seq<File> :| multiset(order) == multiset(Files(tree, fence)) && r.bytes == PostAll(order, p).bytes
      && r.exhausted == PostAll(order, p).exhausted;
    OverflowIff(order, p);
    KeysOrderFree(order, files, p);
    PairsAreKeys(files, p);
    LinksAreNoted(order, p);
    SameLinkCount(order, files, p);
    if LinksAgree(files, p.dedup) && !r.exhausted { OrderCountsOnce(order, files, p); }
  }

  lemma OrderCountsOnce(order: seq<File>, files: seq<File>, p: Policy)
    requires multiset(order) == multiset(files) && LinksAgree(files, p.dedup) && !PostAll(order, p).exhausted
    ensures var b := PostAll(order, p).bytes;
      b.size == OnceSize(files, p.dedup) && b.alloc == OnceAlloc(files, p.dedup) && b.files == OnceCount(files, p.dedup)
  {
    hide PostAll, LinksAgree, Exact, Consistent, OnceSize, OnceAlloc, OnceCount;
    forall g: Figure ensures Counted(PostAll(order, p).bytes, g) == Once(files, p.dedup, g) {
      ExactIsOnce(files, p, g);
      DedupIsOrderFree(order, files, p, g);
    }
    assert Counted(PostAll(order, p).bytes, Size) == Once(files, p.dedup, Size);
    assert Counted(PostAll(order, p).bytes, Alloc) == Once(files, p.dedup, Alloc);
    assert Counted(PostAll(order, p).bytes, Count) == Once(files, p.dedup, Count);
  }

  // --- the table ------------------------------------------------------------------------------------

  // Whatever the interleaving, a target's result is settled by what happened before its supervisor looked:
  // cancelled if the process was told to stop, else a timeout if it ran out of time, else what its tree deserves,
  // complete or partial. A root that could not be used is reported as just that.
  lemma VerdictTable(cfg: Config, init: State, acts: seq<Action>, s: State, t: int)
    requires ValidConfig(cfg) && Fresh(init) && Reaches(cfg, init, acts, s)
    requires AtTargetIdx(init, t) && AtTargetIdx(s, t) && s.targets[t].report.Some?
    ensures var x, r := init.targets[t], s.targets[t].report.value;
      if x.probe.ProbeDir? then
        && ReadCtx(t) in acts && (StoppedInTime(init, acts, t) || ReadScanCtx(t) in acts)
        && (r.outcome.Cancelled? <==> StoppedInTime(init, acts, t))
        && (r.outcome.Timeout? <==> !StoppedInTime(init, acts, t) && RanOut(cfg, init, acts, t))
        && (!StoppedInTime(init, acts, t) && !RanOut(cfg, init, acts, t) ==>
              && r.outcome == (if Clean(cfg, x.tree, CutAt(cfg, x.probe)) then Complete else Partial)
              && IsTrue(cfg, x.tree, CutAt(cfg, x.probe), r))
      else ReportsRoot(x.probe, r)
  {
    hide Reachable, Reaches, Fresh, IsTrue, Clean, StoppedInTime, RanOut, ReportsRoot, Inv, Flags;
    EndsOnTable(cfg, init, acts, s, t);
    AnswersStay(cfg, init, acts, s, t);
    assert s.targets[t].sup.Reported? by { ReportedOnly(cfg, s, t); }
    var r := s.targets[t].report.value;
    if s.targets[t].probe.ProbeDir? && (r.outcome.Complete? || r.outcome.Partial?) { ReportIsTrue(cfg, s, t); }
  }

  lemma ReportedOnly(cfg: Config, s: State, t: int)
    requires Reachable(cfg, s) && AtTargetIdx(s, t) && s.targets[t].report.Some?
    ensures s.targets[t].sup.Reported?
  {
    ReachableInv(cfg, s);
    assert Flags(cfg, s, t);
  }

  // From when a target is given up, or its scan context has ended, no directory of it is opened and no batch of
  // it looked at; until then every one is.
  lemma GivenUpIsLeft(cfg: Config, init: State, acts: seq<Action>, s: State, t: int, a: Action)
    requires ValidConfig(cfg) && Fresh(init) && Reaches(cfg, init, acts, s)
    requires AtTargetIdx(s, t) && s.targets[t].report.None? && Can(cfg, s, a)
    requires (a.Begin? || a.Read?) && s.workers[a.i].pc.ref.target == t
    ensures var over := TimerFires(t) in acts || if cfg.scanTimeout then ScanCtxFires(t) in acts else Shutdown(init, acts);
      var pc, s' := s.workers[a.i].pc, Do(cfg, s, a);
      && s'.open == s.open
      && (a.Begin? ==> s'.workers[a.i].pc == if over then Ready else Opening(pc.ref))
      && (a.Read? && pc.rest != [] ==> (s'.workers[a.i].pc.Closing? <==> over))
  {
    assert AtWorker(s, a.i) && OnTable(cfg, s, t, LogOf(cfg, init, acts, t)) by {
      hide Fresh, Reaches, OnTable, LogOf;
      EndsOnTable(cfg, init, acts, s, t);
    }
    hide Fresh, Reaches, Reachable, DoComplete, TailTally, Opens, AllReported, Wake, DoStart, DoPushRoot, DoReport, DoPush,
         DoSift, DoFlush, DoTake, DoOpen, StoppedInTime, RanOut, ReportsRoot, FromTable;
  }

  // A worker that has completed a directory looks for shutdown first: told to stop it ends, else it goes on.
  lemma WorkerHeedsShutdown(cfg: Config, init: State, acts: seq<Action>, s: State, i: int)
    requires ValidConfig(cfg) && Fresh(init) && Reaches(cfg, init, acts, s) && Can(cfg, s, Check(i))
    ensures var s' := Do(cfg, s, Check(i));
      if Shutdown(init, acts) then s'.workers[i].pc == Exited && s'.live == s.live - 1
      else s'.workers[i].pc == Ready && s'.live == s.live
  {
    ShutdownIsDone(cfg, init, acts, s);
    hide Fresh, Reaches;
  }

  lemma {:induction false} ShutdownIsDone(cfg: Config, s: State, acts: seq<Action>, s': State)
    requires Reaches(cfg, s, acts, s')
    ensures s'.ctxDone == Shutdown(s, acts)
    decreases |acts|
  {
    hide Do, Can;
    if acts == [] {
    } else {
      ContextFollows(cfg, s, acts[0]);
      ShutdownIsDone(cfg, Do(cfg, s, acts[0]), acts[1..], s');
      assert acts == [acts[0]] + acts[1..];
    }
  }

  // What can cut a target's walk short: shutdown, its scan timeout, its hard or drain timer.
  predicate Disturbs(a: Action, t: int) { a == CancelProcess || a == ScanCtxFires(t) || a == TimerFires(t) }

  // What the result must be, when nothing disturbs it, of a target for which the file system answers so.
  ghost predicate DueResult(cfg: Config, x: Target, r: Report) {
    if x.probe.ProbeDir? then
      && r.outcome == (if Clean(cfg, x.tree, CutAt(cfg, x.probe)) then Complete else Partial)
      && IsTrue(cfg, x.tree, CutAt(cfg, x.probe), r)
    else ReportsRoot(x.probe, r)
  }

  lemma {:induction false} BeforeIsPart(acts: seq<Action>, a: Action, b: Action)
    ensures b in Before(acts, a) ==> b in acts
    decreases |acts|
  {
    if a !in acts {
    } else {
      BeforeIsPart(acts[..|acts| - 1], a, b);
    }
  }

  // So a result is the one due unless something disturbed it.
  lemma VerdictHasCause(cfg: Config, init: State, acts: seq<Action>, s: State, t: int)
    requires ValidConfig(cfg) && Fresh(init) && Reaches(cfg, init, acts, s)
    requires AtTargetIdx(init, t) && AtTargetIdx(s, t) && s.targets[t].report.Some?
    ensures init.ctxDone || (exists a :: a in acts && Disturbs(a, t)) || DueResult(cfg, init.targets[t], s.targets[t].report.value)
  {
    hide Reaches, Fresh, IsTrue, Clean, ReportsRoot, Before;
    VerdictTable(cfg, init, acts, s, t);
    BeforeIsPart(acts, ReadCtx(t), CancelProcess);
    BeforeIsPart(acts, ReadScanCtx(t), CancelProcess);
    BeforeIsPart(acts, ReadScanCtx(t), ScanCtxFires(t));
    BeforeIsPart(acts, ReadScanCtx(t), TimerFires(t));
    assert Disturbs(CancelProcess, t) && Disturbs(ScanCtxFires(t), t) && Disturbs(TimerFires(t), t);
  }

  // A whole cycle that nothing disturbs, with every call returning: once only the outside could still act, it
  // has returned, and every target has the result due.
  lemma QuietCycle(cfg: Config, init: State, acts: seq<Action>, s: State)
    requires ValidConfig(cfg) && Fresh(init) && Reaches(cfg, init, acts, s) && |s.workers| > 0
    requires !init.ctxDone && forall a, t :: a in acts ==> !Disturbs(a, t)
    requires forall i | AtWorker(s, i) :: !s.workers[i].pc.Hung?
    requires forall a | Can(cfg, s, a) :: Outside(a)
    ensures s.main.Returned?
    ensures |s.targets| == |init.targets| && forall t | AtTargetIdx(s, t) ::
      s.targets[t].report.Some? && DueResult(cfg, init.targets[t], s.targets[t].report.value)
  {
    hide DueResult, Reaches, Fresh, Can, Reachable;
    ReachedFromFresh(cfg, init, acts, s);
    SameNumber(cfg, init, acts, s);
    assert Disturbs(CancelProcess, 0);
    ShutdownIsDone(cfg, init, acts, s);
    RestMeansReturned(cfg, s);
    forall t | AtTargetIdx(s, t)
      ensures s.targets[t].report.Some? && DueResult(cfg, init.targets[t], s.targets[t].report.value)
    {
      OneResultEach(cfg, s, t);
      VerdictHasCause(cfg, init, acts, s, t);
    }
  }
}
