// How configured patterns become the set of targets (internal/targets/resolver.go): one pass as a step on what
// the resolver remembers, and what holds over any number of passes.

module Targets {
  import opened Options
  import opened Ordering

  datatype Target = Target(path: string, pattern: string, overlaps: seq<string>, present: bool)

  // What expanding one pattern gives: an invalid pattern, or its matches, each resolving to a directory or not.
  datatype Expansion = Invalid | Matches(paths: seq<Option<string>>)

  // Limits: how many targets at most (0: any), and how long a vanished one is kept (0: not at all).
  datatype Rules = Rules(max: int, retain: int)

  // What the resolver remembers between passes.
  datatype Memory = Memory(known: map<string, Target>, vanishedAt: map<string, int>)

  const NOTHING := Memory(map[], map[])

  datatype Resolution = Resolution(targets: seq<Target>, added: seq<string>, removed: seq<string>)

  datatype Reply = NoPatterns | BadPattern | TooMany | Resolved(resolution: Resolution)

  // --- one pass -----------------------------------------------------------------------------------

  // The first pattern to produce a path owns it.
  function Claim(found: map<string, Target>, pattern: string, match_: Option<string>): map<string, Target> {
    if match_.None? || match_.value in found then found
    else found[match_.value := Target(match_.value, pattern, [], true)]
  }

  function ClaimAll(found: map<string, Target>, pattern: string, paths: seq<Option<string>>): map<string, Target> {
    if paths == [] then found
    else Claim(ClaimAll(found, pattern, paths[..|paths| - 1]), pattern, paths[|paths| - 1])
  }

  // What the patterns match, in order; nothing if one of them is invalid.
  function Look(patterns: seq<string>, expansions: seq<Expansion>): Option<map<string, Target>>
    requires |patterns| == |expansions|
  {
    if patterns == [] then Some(map[]) else
    var n := |patterns| - 1;
    var before := Look(patterns[..n], expansions[..n]);
    if before.None? || expansions[n].Invalid? then None
    else Some(ClaimAll(before.value, patterns[n], expansions[n].paths))
  }

  function Missing(m: Memory, found: map<string, Target>): set<string> { m.known.Keys - found.Keys }

  function MissedSince(m: Memory, p: string, now: int): int { if p in m.vanishedAt then m.vanishedAt[p] else now }

  predicate Held(rules: Rules, since: int, now: int) { rules.retain > 0 && now - since < rules.retain }

  // When each known path stopped matching: found again, it is forgotten; missed for the first time, it is now.
  function Vanishing(m: Memory, found: map<string, Target>, now: int): map<string, int> {
    map p | p in (m.vanishedAt.Keys - (m.known.Keys * found.Keys)) + Missing(m, found) :: MissedSince(m, p, now)
  }

  // What was found, and what is carried through its grace period.
  function Carried(m: Memory, found: map<string, Target>, rules: Rules, now: int): map<string, Target> {
    found + map p | p in Missing(m, found) && Held(rules, MissedSince(m, p, now), now) :: m.known[p].(present := false)
  }

  // The other targets that contain this one, in order.
  function Containing(paths: seq<string>, child: string): seq<string> {
    if paths == [] then [] else
    var p := paths[|paths| - 1];
    Containing(paths[..|paths| - 1], child) + if IsUnder(child, p) then [p] else []
  }

  function Listing(kept: map<string, Target>, paths: seq<string>): seq<Target>
    requires Elements(paths) <= kept.Keys
  {
    seq(|paths|, i requires 0 <= i < |paths| =>
      assert paths[i] in Elements(paths);
      kept[paths[i]].(overlaps := Containing(paths, paths[i])))
  }

  datatype Pass = Pass(memory: Memory, reply: Reply)

  ghost function Settle(m: Memory, found: map<string, Target>, rules: Rules, now: int): Pass {
    var kept, vanishing := Carried(m, found, rules, now), Vanishing(m, found, now);
    if rules.max > 0 && |kept| > rules.max then Pass(Memory(m.known, vanishing), TooMany) else
    var paths, dropped := Sorted(kept.Keys), m.known.Keys - kept.Keys;
    Pass(Memory(kept, vanishing - dropped),
         Resolved(Resolution(Listing(kept, paths), Sorted(kept.Keys - m.known.Keys), Sorted(dropped))))
  }

  // One call of Resolve.
  ghost function Resolve(m: Memory, patterns: seq<string>, expansions: seq<Expansion>, rules: Rules, now: int): Pass
    requires |patterns| == |expansions|
  {
    if patterns == [] then Pass(m, NoPatterns) else
    match Look(patterns, expansions)
    case None => Pass(m, BadPattern)
    case Some(found) => Settle(m, found, rules, now)
  }

  // --- what one pass promises ---------------------------------------------------------------------

  predicate Yields(e: Expansion, p: string) { e.Matches? && Some(p) in e.paths }

  predicate Owns(patterns: seq<string>, expansions: seq<Expansion>, i: int, p: string)
    requires |patterns| == |expansions|
  {
    0 <= i < |patterns| && Yields(expansions[i], p) && forall j :: 0 <= j < i ==> !Yields(expansions[j], p)
  }

  // A path is found iff some pattern produced it, and belongs to the first that did.
  lemma {:induction false} FirstPatternOwns(patterns: seq<string>, expansions: seq<Expansion>, p: string)
    requires |patterns| == |expansions| && Look(patterns, expansions).Some?
    ensures var found := Look(patterns, expansions).value;
      && (p in found <==> exists i :: 0 <= i < |expansions| && Yields(expansions[i], p))
      && (forall i :: Owns(patterns, expansions, i, p) ==> p in found && found[p] == Target(p, patterns[i], [], true))
  {
    if patterns == [] {
    } else {
      var n := |patterns| - 1;
      FirstPatternOwns(patterns[..n], expansions[..n], p);
      var before := Look(patterns[..n], expansions[..n]).value;
      ClaimedAll(before, patterns[n], expansions[n].paths, p);
      assert p in before <==> exists i :: 0 <= i < n && Yields(expansions[..n][i], p);
      forall i | Owns(patterns, expansions, i, p) && i < n ensures Owns(patterns[..n], expansions[..n], i, p) {}
      hide Look, ClaimAll;
    }
  }

  lemma {:induction false} ClaimedAll(found: map<string, Target>, pattern: string, paths: seq<Option<string>>, p: string)
    ensures var all := ClaimAll(found, pattern, paths);
      && (p in all <==> p in found || Some(p) in paths)
      && (p in all ==> all[p] == if p in found then found[p] else Target(p, pattern, [], true))
  {
    if paths == [] {
    } else {
      ClaimedAll(found, pattern, paths[..|paths| - 1], p);
      assert paths == paths[..|paths| - 1] + [paths[|paths| - 1]];
    }
  }

  lemma {:induction false} ContainingIsExact(paths: seq<string>, child: string)
    ensures forall p :: p in Containing(paths, child) <==> p in paths && IsUnder(child, p)
    ensures Ascending(paths) ==> Ascending(Containing(paths, child))
  {
    if paths == [] {
    } else {
      var most, p := paths[..|paths| - 1], paths[|paths| - 1];
      ContainingIsExact(most, child);
      assert paths == most + [p];
      var c := Containing(most, child);
      if Ascending(paths) {
        forall i | 0 <= i < |c| ensures Less(c[i], p) { assert c[i] in c; }
      }
      hide Less, IsUnder;
      assert Containing(paths, child) == if IsUnder(child, p) then c + [p] else c;
    }
  }

  predicate Tidy(m: Memory) {
    && m.vanishedAt.Keys <= m.known.Keys
    && (forall p :: p in m.known ==> m.known[p].path == p && m.known[p].overlaps == [])
  }

  // Whatever happens, a vanishing time is only ever kept for a known target.
  lemma PassKeepsTidy(m: Memory, patterns: seq<string>, expansions: seq<Expansion>, rules: Rules, now: int)
    requires |patterns| == |expansions| && Tidy(m)
    ensures Tidy(Resolve(m, patterns, expansions, rules, now).memory)
  {
    if patterns != [] && Look(patterns, expansions).Some? {
      LookIsPlain(patterns, expansions);
      SettleKeepsTidy(m, Look(patterns, expansions).value, rules, now);
    }
    hide Settle, Look, Tidy;
  }

  predicate Plain(found: map<string, Target>) {
    forall p :: p in found ==> found[p].present && found[p].path == p && found[p].overlaps == []
  }

  lemma {:induction false} LookIsPlain(patterns: seq<string>, expansions: seq<Expansion>)
    requires |patterns| == |expansions| && Look(patterns, expansions).Some?
    ensures Plain(Look(patterns, expansions).value)
  {
    if patterns == [] {
    } else {
      var n := |patterns| - 1;
      LookIsPlain(patterns[..n], expansions[..n]);
      var before := Look(patterns[..n], expansions[..n]).value;
      forall p { ClaimedAll(before, patterns[n], expansions[n].paths, p); }
      hide ClaimAll;
    }
  }

  lemma CarriedAt(m: Memory, found: map<string, Target>, rules: Rules, now: int, p: string)
    ensures var kept := Carried(m, found, rules, now);
      && (p in kept <==> p in found || (p in m.known && Held(rules, MissedSince(m, p, now), now)))
      && (p in kept ==> kept[p] == if p in found then found[p] else m.known[p].(present := false))
  {
    hide Held;
  }

  // Found again, a path's vanishing time is gone; missed, it has one, and the first one stays.
  lemma VanishingAt(m: Memory, found: map<string, Target>, now: int, p: string)
    requires m.vanishedAt.Keys <= m.known.Keys
    ensures var vanishing := Vanishing(m, found, now);
      && (p in vanishing <==> p in m.known && p !in found)
      && (p in vanishing ==> vanishing[p] == MissedSince(m, p, now))
  {
  }

  lemma SettleKeepsTidy(m: Memory, found: map<string, Target>, rules: Rules, now: int)
    requires Tidy(m) && Plain(found)
    ensures Tidy(Settle(m, found, rules, now).memory)
  {
    hide Sorted, Listing, Carried, Vanishing, Held, MissedSince;
    forall p { CarriedAt(m, found, rules, now, p); }
    forall p { VanishingAt(m, found, now, p); }
  }

  // The targets as reported: sorted, once each, with exactly the others that contain them.
  predicate Reports(targets: seq<Target>, known: map<string, Target>) {
    && (forall i, j :: 0 <= i < j < |targets| ==> Less(targets[i].path, targets[j].path))
    && (forall i :: 0 <= i < |targets| ==> targets[i].path in known && targets[i].(overlaps := []) == known[targets[i].path])
    && (forall p :: p in known ==> exists i :: 0 <= i < |targets| && targets[i].path == p)
    && (forall i, p :: 0 <= i < |targets| && p in targets[i].overlaps ==> p in known)
    && (forall i, p :: 0 <= i < |targets| && p in known ==> (p in targets[i].overlaps <==> IsUnder(targets[i].path, p)))
    && (forall i :: 0 <= i < |targets| ==> Ascending(targets[i].overlaps))
  }

  lemma ListingReports(known: map<string, Target>, paths: seq<string>)
    requires Ascending(paths) && Elements(paths) == known.Keys
    requires forall p :: p in known ==> known[p].path == p && known[p].overlaps == []
    ensures Reports(Listing(known, paths), known)
  {
    hide Less, IsUnder, Containing;
    var targets := Listing(known, paths);
    forall i | 0 <= i < |paths|
      ensures targets[i].path == paths[i] && paths[i] in known && targets[i].(overlaps := []) == known[paths[i]]
      ensures forall p :: p in targets[i].overlaps <==> p in paths && IsUnder(paths[i], p)
      ensures Ascending(targets[i].overlaps)
    {
      assert paths[i] in Elements(paths);
      ContainingIsExact(paths, paths[i]);
    }
    assert forall p :: p in known <==> p in paths by {
      assert forall p :: p in Elements(paths) <==> p in paths;
    }
    hide Listing, Ascending;
    forall p | p in known ensures exists i :: 0 <= i < |targets| && targets[i].path == p {
      var i :| 0 <= i < |paths| && paths[i] == p;
      assert targets[i].path == p;
    }
  }

  // A successful pass keeps exactly what it found and what is within its grace period, no more than allowed,
  // and reports that.
  lemma ResolvedIsExact(m: Memory, patterns: seq<string>, expansions: seq<Expansion>, rules: Rules, now: int)
    requires |patterns| == |expansions| && Tidy(m)
    requires Resolve(m, patterns, expansions, rules, now).reply.Resolved?
    ensures var pass, found := Resolve(m, patterns, expansions, rules, now), Look(patterns, expansions).value;
      && Reports(pass.reply.resolution.targets, pass.memory.known)
      && (rules.max > 0 ==> |pass.reply.resolution.targets| <= rules.max)
      && (forall p :: p in pass.memory.known <==> p in found || (p in m.known && Held(rules, MissedSince(m, p, now), now)))
      && (forall p :: p in pass.memory.known ==>
            pass.memory.known[p] == if p in found then found[p] else m.known[p].(present := false))
  {
    hide Sorted, Held, MissedSince, Reports, Look, Settle;
    LookIsPlain(patterns, expansions);
    SettledIsExact(m, Look(patterns, expansions).value, rules, now);
  }

  lemma SettledIsExact(m: Memory, found: map<string, Target>, rules: Rules, now: int)
    requires Tidy(m) && Plain(found) && Settle(m, found, rules, now).reply.Resolved?
    ensures var pass := Settle(m, found, rules, now);
      && Reports(pass.reply.resolution.targets, pass.memory.known)
      && (rules.max > 0 ==> |pass.reply.resolution.targets| <= rules.max)
      && (forall p :: p in pass.memory.known <==> p in found || (p in m.known && Held(rules, MissedSince(m, p, now), now)))
      && (forall p :: p in pass.memory.known ==>
            pass.memory.known[p] == if p in found then found[p] else m.known[p].(present := false))
  {
    hide Sorted, Carried, Vanishing, Held, MissedSince, Reports, Ascending;
    var kept := Carried(m, found, rules, now);
    forall p { CarriedAt(m, found, rules, now, p); }
    ListingReports(kept, Sorted(kept.Keys));
    AscendingHasNoDuplicates(Sorted(kept.Keys));
  }

  // A failing pass leaves the known targets alone.
  lemma FailureKeepsKnown(m: Memory, patterns: seq<string>, expansions: seq<Expansion>, rules: Rules, now: int)
    requires |patterns| == |expansions| && !Resolve(m, patterns, expansions, rules, now).reply.Resolved?
    ensures Resolve(m, patterns, expansions, rules, now).memory.known == m.known
  {
    hide Sorted, Carried, Vanishing, Listing;
  }

  // A pass fails for too many targets iff what it would keep exceeds a limit that is set.
  lemma TooManyIff(m: Memory, patterns: seq<string>, expansions: seq<Expansion>, rules: Rules, now: int)
    requires |patterns| == |expansions| && patterns != [] && Look(patterns, expansions).Some?
    ensures var kept := set p | p in Look(patterns, expansions).value.Keys + m.known.Keys
                          && (p in Look(patterns, expansions).value || Held(rules, MissedSince(m, p, now), now));
      Resolve(m, patterns, expansions, rules, now).reply.TooMany? <==> 0 < rules.max < |kept|
  {
    var found := Look(patterns, expansions).value;
    hide Sorted, Carried, Vanishing, Listing, Held, MissedSince, Look;
    var kept := set p | p in found.Keys + m.known.Keys && (p in found || Held(rules, MissedSince(m, p, now), now));
    assert Carried(m, found, rules, now).Keys == kept by {
      forall p ensures p in Carried(m, found, rules, now) <==> p in kept { CarriedAt(m, found, rules, now, p); }
    }
  }

  // Every path some pattern produced.
  function Produced(expansions: seq<Expansion>): set<string> {
    set i, j | 0 <= i < |expansions| && expansions[i].Matches? && 0 <= j < |expansions[i].paths| && expansions[i].paths[j].Some?
      :: expansions[i].paths[j].value
  }

  // With those known targets that have not been missing for as long as the grace period.
  function ToKeep(m: Memory, expansions: seq<Expansion>, rules: Rules, now: int): set<string> {
    Produced(expansions) + set p | p in m.known && rules.retain > 0
      && (if p in m.vanishedAt then now - m.vanishedAt[p] < rules.retain else 0 < rules.retain)
  }

  lemma {:induction false} LookSucceeds(patterns: seq<string>, expansions: seq<Expansion>)
    requires |patterns| == |expansions|
    ensures Look(patterns, expansions).Some? <==> Invalid !in expansions
  {
    if patterns == [] {
    } else {
      var n := |patterns| - 1;
      LookSucceeds(patterns[..n], expansions[..n]);
      assert expansions == expansions[..n] + [expansions[n]];
    }
  }

  lemma LookProduces(patterns: seq<string>, expansions: seq<Expansion>)
    requires |patterns| == |expansions| && Look(patterns, expansions).Some?
    ensures Look(patterns, expansions).value.Keys == Produced(expansions)
  {
    hide Look;
    forall p ensures p in Look(patterns, expansions).value <==> p in Produced(expansions) {
      FirstPatternOwns(patterns, expansions, p);
      if i :| 0 <= i < |expansions| && Yields(expansions[i], p) {
        var j :| 0 <= j < |expansions[i].paths| && expansions[i].paths[j] == Some(p);
      }
    }
  }

  // A pass fails only for want of patterns, for an invalid one, or for too many targets. A pattern that matches
  // nothing, and a match that does not resolve, are no failure.
  lemma PassSucceedsIff(m: Memory, patterns: seq<string>, expansions: seq<Expansion>, rules: Rules, now: int)
    requires |patterns| == |expansions|
    ensures var reply := Resolve(m, patterns, expansions, rules, now).reply;
      var crowded := 0 < rules.max < |ToKeep(m, expansions, rules, now)|;
      && (reply.NoPatterns? <==> patterns == [])
      && (reply.BadPattern? <==> Invalid in expansions)
      && (reply.TooMany? <==> patterns != [] && Invalid !in expansions && crowded)
      && (reply.Resolved? <==> patterns != [] && Invalid !in expansions && !crowded)
  {
    LookSucceeds(patterns, expansions);
    if patterns != [] && Invalid !in expansions {
      LookProduces(patterns, expansions);
      var found := Look(patterns, expansions).value;
      hide Look, Produced, Sorted, Listing, Vanishing, Carried;
      forall p ensures p in Carried(m, found, rules, now) <==> p in ToKeep(m, expansions, rules, now) {
        CarriedAt(m, found, rules, now, p);
      }
      assert Carried(m, found, rules, now).Keys == ToKeep(m, expansions, rules, now);
    }
    hide Settle, Look;
  }

  // --- any number of passes -----------------------------------------------------------------------

  // One call of Resolve, with the patterns configured at the time, what they expanded to, and the clock.
  datatype Call = Call(patterns: seq<string>, expansions: seq<Expansion>, now: int)

  predicate WellFormed(calls: seq<Call>) { forall c :: c in calls ==> |c.patterns| == |c.expansions| }

  ghost function Run(calls: seq<Call>, rules: Rules): (m: Memory)
    requires WellFormed(calls)
    ensures Tidy(m)
  {
    if calls == [] then NOTHING else
    var m, c := Run(calls[..|calls| - 1], rules), calls[|calls| - 1];
    PassKeepsTidy(m, c.patterns, c.expansions, rules, c.now);
    Resolve(m, c.patterns, c.expansions, rules, c.now).memory
  }

  ghost function ReplyTo(calls: seq<Call>, rules: Rules): Reply
    requires WellFormed(calls) && calls != []
  {
    var c := calls[|calls| - 1];
    Resolve(Run(calls[..|calls| - 1], rules), c.patterns, c.expansions, rules, c.now).reply
  }

  predicate Expanded(c: Call)
    requires |c.patterns| == |c.expansions|
  {
    c.patterns != [] && Look(c.patterns, c.expansions).Some?
  }

  // The first of the completed expansions, ending with the last, that all missed p; whether the pass then
  // succeeded or found too many targets does not matter.
  function FirstMiss(calls: seq<Call>, p: string): Option<int>
    requires WellFormed(calls)
  {
    if calls == [] then None else
    var before, c := FirstMiss(calls[..|calls| - 1], p), calls[|calls| - 1];
    if !Expanded(c) then before
    else if p in Look(c.patterns, c.expansions).value then None
    else if before.Some? then before else Some(c.now)
  }

  lemma {:induction false} VanishedAtFirstMiss(calls: seq<Call>, rules: Rules, p: string)
    requires WellFormed(calls)
    ensures var m := Run(calls, rules);
      p in m.known ==> FirstMiss(calls, p) == if p in m.vanishedAt then Some(m.vanishedAt[p]) else None
  {
    if calls == [] {
    } else {
      var before, c := calls[..|calls| - 1], calls[|calls| - 1];
      VanishedAtFirstMiss(before, rules, p);
      if Expanded(c) {
        var m, found := Run(before, rules), Look(c.patterns, c.expansions).value;
        CarriedAt(m, found, rules, c.now, p);
        VanishingAt(m, found, c.now, p);
        hide Carried, Vanishing, Sorted, Listing, Look, Held;
      }
    }
  }

  // At each successful pass, a known target that is missing is kept iff a grace period is set and it has not
  // yet run out since the first pass of the current streak that missed it.
  lemma GraceOverRuns(calls: seq<Call>, rules: Rules, p: string)
    requires WellFormed(calls) && calls != [] && ReplyTo(calls, rules).Resolved?
    ensures var c := calls[|calls| - 1];
      var was, is_, found := Run(calls[..|calls| - 1], rules).known, Run(calls, rules).known, Look(c.patterns, c.expansions).value;
      && (p in found ==> p in is_ && is_[p].present)
      && (p !in found && p !in was ==> p !in is_)
      && (p !in found && p in was ==>
            FirstMiss(calls, p).Some?
            && (p in is_ <==> rules.retain > 0 && c.now - FirstMiss(calls, p).value < rules.retain)
            && (p in is_ ==> is_[p] == was[p].(present := false)))
  {
    var before, c := calls[..|calls| - 1], calls[|calls| - 1];
    var m, found := Run(before, rules), Look(c.patterns, c.expansions).value;
    VanishedAtFirstMiss(before, rules, p);
    LookIsPlain(c.patterns, c.expansions);
    CarriedAt(m, found, rules, c.now, p);
    hide Carried, Vanishing, Sorted, Listing, Look;
  }

  // Replaying what each pass reported as added and removed, from nothing, gives the known targets.
  ghost function Replayed(calls: seq<Call>, rules: Rules): set<string>
    requires WellFormed(calls)
  {
    if calls == [] then {} else
    var before := Replayed(calls[..|calls| - 1], rules);
    match ReplyTo(calls, rules)
    case Resolved(r) => before - Elements(r.removed) + Elements(r.added)
    case _ => before
  }

  lemma {:induction false} DeltasReplay(calls: seq<Call>, rules: Rules)
    requires WellFormed(calls)
    ensures Replayed(calls, rules) == Run(calls, rules).known.Keys
    ensures calls != [] && ReplyTo(calls, rules).Resolved? ==>
      var r, was := ReplyTo(calls, rules).resolution, Run(calls[..|calls| - 1], rules).known.Keys;
      Elements(r.removed) <= was && Elements(r.added) !! was && Ascending(r.added) && Ascending(r.removed)
  {
    if calls == [] {
    } else {
      DeltasReplay(calls[..|calls| - 1], rules);
      hide Carried, Vanishing, Listing, Look, Ascending;
    }
  }
}
