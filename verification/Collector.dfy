// Which series a scrape shows for each target (internal/collector/collector.go), and how that changes over time.

module Collector {
  import opened Options
  import opened FsErrors
  import opened Outcomes
  import opened Retention
  import opened RetentionLaws
  import opened StoreTrace

  // Gates for optional families; diskUsage already includes the platform's capability.
  datatype Gates = Gates(fileCounts: bool, diskUsage: bool, growth: bool, dedupHardlinks: bool, oneFilesystem: bool)

  // One series of a target, up to the target itself: a metric and its further label.
  datatype Family =
    | Success | Partial | Present | InProgress | CurrentScan
    | ScansTotal(o: Outcome) | LastErrors(c: Class) | ErrorsTotal(c: Class)
    | VanishedTotal | EntriesTotal | StatCallsTotal | DirsReadTotal | SkippedXdev
    | LastAttempt | LastDuration | LastGoodTime | ScanAge
    | BytesAdded | BytesRemoved
    | Size | DiskUsage | FileCount | DirCount | HardlinkedFiles | DedupSaved | DedupBroke
    | DeltaBytes | DeltaInterval

  datatype Sample = Sample(family: Family, target: string, value: real)

  const ALL_OUTCOMES := [Complete, Outcome.Partial, Timeout, Cancelled, Missing, RootError]

  function Bit(b: bool): real { if b then 1.0 else 0.0 }

  function Seconds(ns: int): real { ns as real / SECOND as real }

  // When a series is shown.
  predicate Due(g: Gates, s: Snapshot, f: Family) {
    match f
    case SkippedXdev => g.oneFilesystem
    case LastAttempt => s.status.hasAttempt
    case LastDuration => s.status.hasAttempt
    case LastGoodTime => s.lastGoodTimestamp > 0
    case ScanAge => s.lastGoodTimestamp > 0
    case BytesAdded => g.growth && s.lastGoodTimestamp > 0
    case BytesRemoved => g.growth && s.lastGoodTimestamp > 0
    case Size => s.hasGood
    case DiskUsage => s.hasGood && g.diskUsage
    case FileCount => s.hasGood && g.fileCounts
    case DirCount => s.hasGood && g.fileCounts
    case HardlinkedFiles => s.hasGood && g.dedupHardlinks
    case DedupSaved => s.hasGood && g.dedupHardlinks
    case DedupBroke => s.hasGood && g.dedupHardlinks
    case DeltaBytes => s.hasGood && g.growth && s.hasDelta
    case DeltaInterval => s.hasGood && g.growth && s.hasDelta
    case _ => true
  }

  function ValueOf(s: Snapshot, f: Family): real {
    match f
    case Success => Bit(s.status.success)
    case Partial => Bit(s.status.partial)
    case Present => Bit(s.status.present)
    case InProgress => Bit(s.status.inProgress)
    case CurrentScan => Seconds(s.status.currentScan)
    case ScansTotal(o) => CountAt(s.status.scansTotal, o) as real
    case LastErrors(c) => CountAt(s.status.lastErrors, c) as real
    case ErrorsTotal(c) => CountAt(s.status.errorsTotal, c) as real
    case VanishedTotal => s.status.vanishedTotal as real
    case EntriesTotal => s.status.entriesTotal as real
    case StatCallsTotal => s.status.statCallsTotal as real
    case DirsReadTotal => s.status.dirsReadTotal as real
    case SkippedXdev => s.status.skippedXdevTotal as real
    case LastAttempt => s.status.lastAttemptTimestamp as real
    case LastDuration => s.status.lastDuration
    case LastGoodTime => s.lastGoodTimestamp as real
    case ScanAge => Seconds(s.scanAge)
    case BytesAdded => s.status.bytesAdded as real
    case BytesRemoved => s.status.bytesRemoved as real
    case Size => s.m.size as real
    case DiskUsage => s.m.alloc as real
    case FileCount => s.m.files as real
    case DirCount => s.m.directories as real
    case HardlinkedFiles => s.m.hardlinked as real
    case DedupSaved => s.m.saved as real
    case DedupBroke => Bit(s.m.exhausted)
    case DeltaBytes => s.deltaBytes as real
    case DeltaInterval => Seconds(s.deltaInterval)
  }

  // The samples are exactly these families of the snapshot, each once, with its value.
  ghost predicate Carries(out: seq<Sample>, s: Snapshot, families: iset<Family>) {
    && (forall k :: 0 <= k < |out| ==> out[k].family in families && out[k] == SampleOf(s, out[k].family))
    && (forall f :: f in families ==> SampleOf(s, f) in out)
    && (forall i, j :: 0 <= i < j < |out| ==> out[i].family != out[j].family)
  }

  function SampleOf(s: Snapshot, f: Family): (x: Sample)
    ensures x.family == f && x.target == s.status.target && x.value == ValueOf(s, f)
  {
    Sample(f, s.status.target, ValueOf(s, f))
  }

  lemma CarriesMore(out: seq<Sample>, s: Snapshot, families: iset<Family>, f: Family)
    requires Carries(out, s, families) && f !in families
    ensures Carries(out + [SampleOf(s, f)], s, families + iset{f})
  {
    hide SampleOf, ValueOf;
    var more := out + [SampleOf(s, f)];
    assert forall k :: 0 <= k < |out| ==> more[k] == out[k];
    forall h | h in families + iset{f} ensures SampleOf(s, h) in more {
      if h == f { assert more[|out|] == SampleOf(s, h); }
    }
    assert forall i, j :: 0 <= i < j < |more| ==> more[i].family != more[j].family;
  }

  // Which part of collectTarget sends a family; the parts come in this order.
  function PartOf(f: Family): int {
    match f
    case Success => 0
    case Partial => 0
    case Present => 0
    case InProgress => 0
    case CurrentScan => 0
    case ScansTotal(_) => 1
    case LastErrors(_) => 2
    case ErrorsTotal(_) => 2
    case VanishedTotal => 3
    case EntriesTotal => 3
    case StatCallsTotal => 3
    case DirsReadTotal => 3
    case SkippedXdev => 3
    case LastAttempt => 4
    case LastDuration => 4
    case LastGoodTime => 5
    case ScanAge => 5
    case BytesAdded => 6
    case BytesRemoved => 6
    case Size => 7
    case DiskUsage => 7
    case FileCount => 8
    case DirCount => 8
    case HardlinkedFiles => 9
    case DedupSaved => 9
    case DedupBroke => 9
    case DeltaBytes => 10
    case DeltaInterval => 10
  }

  // What is due from the parts before this one.
  ghost function Before(g: Gates, s: Snapshot, part: int): iset<Family> {
    iset f | PartOf(f) < part && Due(g, s, f)
  }

  // The two families of each of these classes.
  ghost function ErrorsOf(classes: seq<Class>): iset<Family> {
    iset f: Family | (f.LastErrors? || f.ErrorsTotal?) && f.c in classes
  }

  lemma ErrorsOfMore(classes: seq<Class>, c: Class)
    ensures ErrorsOf(classes + [c]) == ErrorsOf(classes) + iset{LastErrors(c)} + iset{ErrorsTotal(c)}
    ensures c !in classes ==> LastErrors(c) !in ErrorsOf(classes) && ErrorsTotal(c) !in ErrorsOf(classes)
  {
  }

  lemma NoErrorsYet()
    ensures ErrorsOf([]) == iset{}
  {
  }

  lemma ErrorsComeThird(g: Gates, s: Snapshot)
    ensures Before(g, s, 3) == Before(g, s, 2) + ErrorsOf(ALL_CLASSES)
    ensures forall c :: LastErrors(c) !in Before(g, s, 2) && ErrorsTotal(c) !in Before(g, s, 2)
  {
    forall c { EveryClass(c); }
    hide ALL_CLASSES;
  }

  lemma EveryOutcome(o: Outcome)
    ensures o in ALL_OUTCOMES
  {
    var k :=
      match o case Complete => 0 case Partial => 1 case Timeout => 2 case Cancelled => 3 case Missing => 4 case RootError => 5;
    assert ALL_OUTCOMES[k] == o;
  }

  // The channel a scrape writes to, while one target is being collected.
  class Channel {
    var sent: seq<Sample>

    // What came before this target, the snapshot being rendered, and the families already sent for it.
    ghost var before: seq<Sample>
    ghost var about: Snapshot
    ghost var families: iset<Family>

    ghost predicate Valid()
      reads this
    {
      |before| <= |sent| && sent[..|before|] == before && Carries(sent[|before|..], about, families)
    }

    constructor (about: Snapshot)
      ensures Valid() && sent == [] == before && this.about == about && families == iset{}
    {
      sent, before, this.about, families := [], [], about, iset{};
    }

    method Send(family: Family, target: string, value: real)
      requires Valid() && family !in families && Sample(family, target, value) == SampleOf(about, family)
      modifies this
      ensures Valid() && before == old(before) && about == old(about)
      ensures families == old(families) + iset{family} && sent == old(sent) + [Sample(family, target, value)]
    {
      hide Carries, ValueOf, SampleOf;
      CarriesMore(sent[|before|..], about, families, family);
      sent := sent + [Sample(family, target, value)];
      families := families + iset{family};
      assert sent[|before|..] == old(sent)[|before|..] + [Sample(family, target, value)];
    }

    // Sent so far for this snapshot, after what was there before: exactly what is due from the first parts.
    ghost predicate Sent(g: Gates, s: Snapshot, b: seq<Sample>, parts: int)
      reads this
    {
      Valid() && before == b && about == s && families == Before(g, s, parts)
    }

    method SendStatus(g: Gates, s: Snapshot)
      requires Sent(g, s, before, 0)
      modifies this
      ensures Sent(g, s, old(before), 1)
    {
      hide Carries, Valid, SampleOf;
      var target := s.status.target;
      Send(Success, target, Bit(s.status.success));
      Send(Family.Partial, target, Bit(s.status.partial));
      Send(Present, target, Bit(s.status.present));
      Send(InProgress, target, Bit(s.status.inProgress));
      Send(CurrentScan, target, Seconds(s.status.currentScan));
    }

    method SendOutcomes(g: Gates, s: Snapshot)
      requires Sent(g, s, before, 1)
      modifies this
      ensures Sent(g, s, old(before), 2)
    {
      hide Carries, Valid, SampleOf, ALL_OUTCOMES;
      NoRepeats();
      for i := 0 to |ALL_OUTCOMES|
        invariant Valid() && before == old(before) && about == s
        invariant forall f :: f in families <==> f in Before(g, s, 1) || (f.ScansTotal? && f.o in ALL_OUTCOMES[..i])
      {
        var o := ALL_OUTCOMES[i];
        Send(ScansTotal(o), s.status.target, CountAt(s.status.scansTotal, o) as real);
        assert ALL_OUTCOMES[..i + 1] == ALL_OUTCOMES[..i] + [o];
      }
      assert ALL_OUTCOMES[..|ALL_OUTCOMES|] == ALL_OUTCOMES;
      forall o { EveryOutcome(o); }
    }

    method SendErrors(g: Gates, s: Snapshot)
      requires Sent(g, s, before, 2)
      modifies this
      ensures Sent(g, s, old(before), 3)
    {
      hide Carries, Valid, SampleOf, ALL_CLASSES, Before, ErrorsOf;
      NoRepeats();
      ErrorsComeThird(g, s);
      NoErrorsYet();
      assert ALL_CLASSES[..0] == [];
      for i := 0 to |ALL_CLASSES|
        invariant Valid() && before == old(before) && about == s
        invariant families == Before(g, s, 2) + ErrorsOf(ALL_CLASSES[..i])
      {
        var c := ALL_CLASSES[i];
        ErrorsOfMore(ALL_CLASSES[..i], c);
        Send(LastErrors(c), s.status.target, CountAt(s.status.lastErrors, c) as real);
        Send(ErrorsTotal(c), s.status.target, CountAt(s.status.errorsTotal, c) as real);
        assert ALL_CLASSES[..i + 1] == ALL_CLASSES[..i] + [c];
      }
      assert ALL_CLASSES[..|ALL_CLASSES|] == ALL_CLASSES;
    }

    method SendCosts(g: Gates, s: Snapshot)
      requires Sent(g, s, before, 3)
      modifies this
      ensures Sent(g, s, old(before), 4)
    {
      hide Carries, Valid, SampleOf;
      var target := s.status.target;
      Send(VanishedTotal, target, s.status.vanishedTotal as real);
      Send(EntriesTotal, target, s.status.entriesTotal as real);
      Send(StatCallsTotal, target, s.status.statCallsTotal as real);
      Send(DirsReadTotal, target, s.status.dirsReadTotal as real);
      if g.oneFilesystem {
        Send(SkippedXdev, target, s.status.skippedXdevTotal as real);
      }
    }

    method SendAttempt(g: Gates, s: Snapshot)
      requires Sent(g, s, before, 4)
      modifies this
      ensures Sent(g, s, old(before), 5)
    {
      hide Carries, Valid, SampleOf;
      if s.status.hasAttempt {
        Send(LastAttempt, s.status.target, s.status.lastAttemptTimestamp as real);
        Send(LastDuration, s.status.target, s.status.lastDuration);
      }
    }

    // Freshness and growth: reported even once the measurement is withdrawn.
    method SendFreshness(g: Gates, s: Snapshot)
      requires Sent(g, s, before, 5)
      modifies this
      ensures Sent(g, s, old(before), 6)
    {
      hide Carries, Valid, SampleOf;
      if s.lastGoodTimestamp > 0 {
        Send(LastGoodTime, s.status.target, s.lastGoodTimestamp as real);
        Send(ScanAge, s.status.target, Seconds(s.scanAge));
      }
    }

    method SendGrowth(g: Gates, s: Snapshot)
      requires Sent(g, s, before, 6)
      modifies this
      ensures Sent(g, s, old(before), 7)
    {
      hide Carries, Valid, SampleOf;
      if g.growth && s.lastGoodTimestamp > 0 {
        Send(BytesAdded, s.status.target, s.status.bytesAdded as real);
        Send(BytesRemoved, s.status.target, s.status.bytesRemoved as real);
      }
    }

    method SendSizes(g: Gates, s: Snapshot)
      requires Sent(g, s, before, 7) && s.hasGood
      modifies this
      ensures Sent(g, s, old(before), 8)
    {
      hide Carries, Valid, SampleOf;
      Send(Size, s.status.target, s.m.size as real);
      if g.diskUsage {
        Send(DiskUsage, s.status.target, s.m.alloc as real);
      }
    }

    method SendCounts(g: Gates, s: Snapshot)
      requires Sent(g, s, before, 8) && s.hasGood
      modifies this
      ensures Sent(g, s, old(before), 9)
    {
      hide Carries, Valid, SampleOf;
      if g.fileCounts {
        Send(FileCount, s.status.target, s.m.files as real);
        Send(DirCount, s.status.target, s.m.directories as real);
      }
    }

    method SendDedup(g: Gates, s: Snapshot)
      requires Sent(g, s, before, 9) && s.hasGood
      modifies this
      ensures Sent(g, s, old(before), 10)
    {
      hide Carries, Valid, SampleOf;
      if g.dedupHardlinks {
        assert ValueOf(s, HardlinkedFiles) == s.m.hardlinked as real && ValueOf(s, DedupSaved) == s.m.saved as real;
        assert ValueOf(s, DedupBroke) == Bit(s.m.exhausted);
        hide ValueOf;
        Send(HardlinkedFiles, s.status.target, s.m.hardlinked as real);
        Send(DedupSaved, s.status.target, s.m.saved as real);
        Send(DedupBroke, s.status.target, Bit(s.m.exhausted));
      }
    }

    method SendDelta(g: Gates, s: Snapshot)
      requires Sent(g, s, before, 10) && s.hasGood
      modifies this
      ensures Sent(g, s, old(before), 11)
    {
      hide Carries, Valid, SampleOf;
      if g.growth && s.hasDelta {
        Send(DeltaBytes, s.status.target, s.deltaBytes as real);
        Send(DeltaInterval, s.status.target, Seconds(s.deltaInterval));
      }
    }

    // collectTarget: every series due for the target, once, with its value, and no other.
    method CollectTarget(g: Gates, s: Snapshot)
      modifies this
      ensures old(sent) <= sent && Renders(sent[|old(sent)|..], g, s)
    {
      hide Carries, Before, Renders;
      before, about, families := sent, s, Before(g, s, 0);
      assert sent[|before|..] == [];
      CarriesNothing(g, s);
      SendStatus(g, s);
      SendOutcomes(g, s);
      SendErrors(g, s);
      SendCosts(g, s);
      SendAttempt(g, s);
      SendFreshness(g, s);
      SendGrowth(g, s);
      if s.hasGood {
        SendSizes(g, s);
        SendCounts(g, s);
        SendDedup(g, s);
        SendDelta(g, s);
      }
      AllParts(g, s);
      CarriedIsDue(sent[|before|..], g, s);
    }

    // The per-target part of Collect: one scrape of the whole store.
    method CollectTargets(g: Gates, snapshots: seq<Snapshot>)
      requires DifferentTargets(snapshots)
      modifies this
      ensures old(sent) <= sent && RendersAll(sent[|old(sent)|..], g, snapshots)
    {
      hide RendersAll, Renders;
      ghost var start := |sent|;
      RendersNothing(g, snapshots[..0]);
      assert sent[start..] == [];
      for i := 0 to |snapshots|
        invariant old(sent) <= sent && RendersAll(sent[start..], g, snapshots[..i])
      {
        ghost var out := sent[start..];
        ghost var length := |sent|;
        CollectTarget(g, snapshots[i]);
        assert snapshots[..i + 1] == snapshots[..i] + [snapshots[i]];
        assert sent[start..] == out + sent[length..];
        RendersMore(out, sent[length..], g, snapshots[..i], snapshots[i]);
      }
      assert snapshots[..|snapshots|] == snapshots;
    }
  }

  // Everything due for each of the targets, no series twice, and nothing else.
  ghost predicate RendersAll(out: seq<Sample>, g: Gates, snapshots: seq<Snapshot>) {
    && (forall i, f :: 0 <= i < |snapshots| && Due(g, snapshots[i], f) ==> SampleOf(snapshots[i], f) in out)
    && (forall k :: 0 <= k < |out| ==> FromSome(out[k], g, snapshots))
    && (forall i, j :: 0 <= i < j < |out| ==> out[i].family != out[j].family || out[i].target != out[j].target)
  }

  predicate FromSome(x: Sample, g: Gates, snapshots: seq<Snapshot>) {
    exists i :: 0 <= i < |snapshots| && Sampled(x, g, snapshots[i])
  }

  predicate Sampled(x: Sample, g: Gates, s: Snapshot) { Due(g, s, x.family) && x == SampleOf(s, x.family) }

  predicate DifferentTargets(snapshots: seq<Snapshot>) {
    forall i, j :: 0 <= i < j < |snapshots| ==> snapshots[i].status.target != snapshots[j].status.target
  }

  lemma DueInBoth(out: seq<Sample>, section: seq<Sample>, g: Gates, snapshots: seq<Snapshot>, s: Snapshot)
    requires RendersAll(out, g, snapshots) && Renders(section, g, s)
    ensures var more := snapshots + [s];
      forall i, f :: 0 <= i < |more| && Due(g, more[i], f) ==> SampleOf(more[i], f) in out + section
  {
    hide SampleOf, Due, ValueOf;
    var more := snapshots + [s];
    forall i, f | 0 <= i < |more| && Due(g, more[i], f) ensures SampleOf(more[i], f) in out + section {
      if i < |snapshots| { assert SampleOf(snapshots[i], f) in out; } else { assert SampleOf(s, f) in section; }
    }
  }

  lemma SampledFromOne(out: seq<Sample>, section: seq<Sample>, g: Gates, snapshots: seq<Snapshot>, s: Snapshot, k: int)
    requires RendersAll(out, g, snapshots) && Renders(section, g, s) && 0 <= k < |out + section|
    ensures FromSome((out + section)[k], g, snapshots + [s])
  {
    hide SampleOf, Due, ValueOf;
    var all, more := out + section, snapshots + [s];
    if k < |out| {
      assert FromSome(out[k], g, snapshots);
      var i :| 0 <= i < |snapshots| && Sampled(out[k], g, snapshots[i]);
      assert Sampled(all[k], g, more[i]);
    } else {
      assert Sampled(all[k], g, more[|snapshots|]);
    }
  }

  lemma OtherTargets(out: seq<Sample>, g: Gates, snapshots: seq<Snapshot>, s: Snapshot, k: int)
    requires RendersAll(out, g, snapshots) && DifferentTargets(snapshots + [s]) && 0 <= k < |out|
    ensures out[k].target != s.status.target
  {
    hide SampleOf, Due, ValueOf;
    assert FromSome(out[k], g, snapshots);
    var i :| 0 <= i < |snapshots| && Sampled(out[k], g, snapshots[i]);
    var more := snapshots + [s];
    assert more[i].status.target != more[|snapshots|].status.target;
  }

  lemma NoneTwice(out: seq<Sample>, section: seq<Sample>, g: Gates, snapshots: seq<Snapshot>, s: Snapshot, i: int, j: int)
    requires RendersAll(out, g, snapshots) && Renders(section, g, s) && DifferentTargets(snapshots + [s])
    requires 0 <= i < j < |out + section|
    ensures var all := out + section; all[i].family != all[j].family || all[i].target != all[j].target
  {
    hide SampleOf, Due, ValueOf;
    if j < |out| {
      assert out[i].family != out[j].family || out[i].target != out[j].target;
    } else if i < |out| {
      OtherTargets(out, g, snapshots, s, i);
      assert section[j - |out|].target == s.status.target;
    } else {
      assert section[i - |out|].family != section[j - |out|].family;
    }
  }

  lemma RendersMore(out: seq<Sample>, section: seq<Sample>, g: Gates, snapshots: seq<Snapshot>, s: Snapshot)
    requires RendersAll(out, g, snapshots) && Renders(section, g, s) && DifferentTargets(snapshots + [s])
    ensures RendersAll(out + section, g, snapshots + [s])
  {
    hide SampleOf, Due, ValueOf, Renders, FromSome, DifferentTargets;
    var all, more := out + section, snapshots + [s];
    DueInBoth(out, section, g, snapshots, s);
    forall k | 0 <= k < |all| ensures FromSome(all[k], g, more) {
      SampledFromOne(out, section, g, snapshots, s, k);
    }
    forall i, j | 0 <= i < j < |all| ensures all[i].family != all[j].family || all[i].target != all[j].target {
      NoneTwice(out, section, g, snapshots, s, i, j);
    }
    assert RendersAll(all, g, more);
  }

  // Every series due for the target with its value, none twice, and no other.
  ghost predicate Renders(out: seq<Sample>, g: Gates, s: Snapshot) {
    && (forall f :: Due(g, s, f) ==> SampleOf(s, f) in out)
    && (forall k :: 0 <= k < |out| ==> Due(g, s, out[k].family) && out[k] == SampleOf(s, out[k].family))
    && (forall i, j :: 0 <= i < j < |out| ==> out[i].family != out[j].family)
  }

  // Eleven parts are all, and without a measurement the last four have nothing to send.
  lemma AllParts(g: Gates, s: Snapshot)
    ensures forall f :: f in Before(g, s, 11) <==> Due(g, s, f)
    ensures !s.hasGood ==> Before(g, s, 7) == Before(g, s, 11)
  {
    forall f: Family ensures PartOf(f) < 11 && (PartOf(f) >= 7 && Due(g, s, f) ==> s.hasGood) {}
  }

  lemma CarriedIsDue(out: seq<Sample>, g: Gates, s: Snapshot)
    requires Carries(out, s, Before(g, s, 11))
    ensures Renders(out, g, s)
  {
    hide Before, Due, SampleOf, ValueOf;
    AllParts(g, s);
  }

  lemma RendersNothing(g: Gates, snapshots: seq<Snapshot>)
    requires snapshots == []
    ensures RendersAll([], g, snapshots)
  {
  }

  lemma CarriesNothing(g: Gates, s: Snapshot)
    ensures Carries([], s, Before(g, s, 0))
  {
    forall f: Family ensures PartOf(f) >= 0 {}
  }

  lemma NoRepeats()
    ensures forall i, j :: 0 <= i < j < |ALL_OUTCOMES| ==> ALL_OUTCOMES[i] != ALL_OUTCOMES[j]
    ensures forall i, j :: 0 <= i < j < |ALL_CLASSES| ==> ALL_CLASSES[i] != ALL_CLASSES[j]
  {
  }
}
