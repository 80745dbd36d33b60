// The resolver as it runs (internal/targets/resolver.go): two maps kept between passes, updated in loops.
// Resolve is a step of Targets.

module Resolver {
  import opened Options
  import opened Ordering
  import opened Targets

  class Resolver {
    var patterns: seq<string>
    const rules: Rules
    var vanishedAt: map<string, int>
    var known: map<string, Target>

    function Remembered(): Memory
      reads this
    {
      Memory(known, vanishedAt)
    }

    constructor (patterns: seq<string>, rules: Rules)
      ensures this.patterns == patterns && this.rules == rules && Remembered() == NOTHING
    {
      this.patterns, this.rules := patterns, rules;
      vanishedAt, known := map[], map[];
    }

    method SetPatterns(patterns: seq<string>)
      modifies `patterns
      ensures this.patterns == patterns
    {
      this.patterns := patterns;
    }

    method Resolve(expansions: seq<Expansion>, now: int) returns (reply: Reply)
      requires |patterns| == |expansions|
      modifies `known, `vanishedAt
      ensures Pass(Remembered(), reply) == Targets.Resolve(old(Remembered()), patterns, expansions, rules, now)
    {
      hide Carried, Vanishing, Sorted, Listing, Look;
      if |patterns| == 0 {
        return NoPatterns;
      }
      var seen := Expand(expansions);
      if seen.None? {
        return BadPattern;
      }
      var found := CarryForward(seen.value, now);
      if rules.max > 0 && |found| > rules.max {
        return TooMany;
      }
      var paths := Sort(found.Keys);
      var targets := MarkOverlaps(found, paths);
      var added := Sort(found.Keys - known.Keys);
      var dropped := known.Keys - found.Keys;
      vanishedAt := vanishedAt - dropped;
      var removed := Sort(dropped);
      known := found;
      return Resolved(Resolution(targets, added, removed));
    }

    // The pattern loop: every match that resolves to a directory, under the first pattern that gave it.
    method Expand(expansions: seq<Expansion>) returns (seen: Option<map<string, Target>>)
      requires |patterns| == |expansions|
      ensures seen == Look(patterns, expansions)
    {
      var found: map<string, Target> := map[];
      for i := 0 to |patterns|
        invariant Look(patterns[..i], expansions[..i]) == Some(found)
      {
        assert patterns[..i + 1][..i] == patterns[..i] && expansions[..i + 1][..i] == expansions[..i];
        if expansions[i].Invalid? {
          InvalidSpoils(patterns, expansions, i);
          return None;
        }
        var paths := expansions[i].paths;
        var before := found;
        for j := 0 to |paths|
          invariant found == ClaimAll(before, patterns[i], paths[..j])
        {
          assert paths[..j + 1][..j] == paths[..j];
          if paths[j].Some? {
            var path := paths[j].value;
            if path !in found {
              found := found[path := Target(path, patterns[i], [], true)];
            }
          }
        }
        assert paths[..|paths|] == paths;
      }
      assert patterns[..|patterns|] == patterns && expansions[..|expansions|] == expansions;
      return Some(found);
    }

    // The grace-period loop, over every known path.
    method CarryForward(seen: map<string, Target>, now: int) returns (found: map<string, Target>)
      modifies `vanishedAt
      ensures found == Carried(old(Remembered()), seen, rules, now)
      ensures vanishedAt == Vanishing(old(Remembered()), seen, now)
    {
      hide PartWay, Carried, Vanishing;
      ghost var m := Remembered();
      found := seen;
      var rest := known.Keys;
      PartWayStarts(m, seen, rules, now);
      while rest != {}
        invariant rest <= known.Keys && PartWay(m, seen, rules, now, found, vanishedAt, rest)
        decreases |rest|
      {
        var path :| path in rest;
        PartWayMoves(m, seen, rules, now, found, vanishedAt, rest, path);
        rest := rest - {path};
        if path in found {
          vanishedAt := vanishedAt - {path};
          continue;
        }
        var since := now;
        if path in vanishedAt {
          since := vanishedAt[path];
          assert vanishedAt == vanishedAt[path := since];
        } else {
          vanishedAt := vanishedAt[path := since];
        }
        if rules.retain > 0 && now - since < rules.retain {
          found := found[path := known[path].(present := false)];
        }
      }
      PartWayEnds(m, seen, rules, now, found, vanishedAt);
    }

    // The reported targets, and markOverlaps: each is compared with every other.
    method MarkOverlaps(found: map<string, Target>, paths: seq<string>) returns (targets: seq<Target>)
      requires Elements(paths) == found.Keys
      ensures targets == Listing(found, paths)
    {
      targets := [];
      for i := 0 to |paths|
        invariant |targets| == i && forall k :: 0 <= k < i ==> targets[k] == Listing(found, paths)[k]
      {
        assert paths[i] in Elements(paths);
        var overlaps: seq<string> := [];
        for j := 0 to |paths|
          invariant overlaps == Containing(paths[..j], paths[i])
        {
          assert paths[..j + 1][..j] == paths[..j];
          if i != j {
            if IsUnder(paths[i], paths[j]) {
              overlaps := overlaps + [paths[j]];
            }
          }
        }
        assert paths[..|paths|] == paths;
        targets := targets + [found[paths[i]].(overlaps := overlaps)];
      }
    }
  }

  // The two maps while the known paths in rest are still to be looked at.
  ghost predicate PartWay(m: Memory, seen: map<string, Target>, rules: Rules, now: int,
                          found: map<string, Target>, vanishedAt: map<string, int>, rest: set<string>) {
    && (forall p :: p in found <==> p in seen || (p in m.known && p !in rest && Held(rules, MissedSince(m, p, now), now)))
    && (forall p :: p in found ==> found[p] == if p in seen then seen[p] else m.known[p].(present := false))
    && (forall p :: p in vanishedAt <==> if p in m.known && p !in rest then p !in seen else p in m.vanishedAt)
    && (forall p :: p in vanishedAt ==> vanishedAt[p] == MissedSince(m, p, now))
  }

  lemma PartWayStarts(m: Memory, seen: map<string, Target>, rules: Rules, now: int)
    ensures PartWay(m, seen, rules, now, seen, m.vanishedAt, m.known.Keys)
  {
    hide Held;
  }

  lemma PartWayMoves(m: Memory, seen: map<string, Target>, rules: Rules, now: int,
                     found: map<string, Target>, vanishedAt: map<string, int>, rest: set<string>, path: string)
    requires PartWay(m, seen, rules, now, found, vanishedAt, rest) && path in rest && path in m.known
    ensures path in found <==> path in seen
    ensures (if path in vanishedAt then vanishedAt[path] else now) == MissedSince(m, path, now)
    ensures var since := MissedSince(m, path, now);
      PartWay(m, seen, rules, now,
              if path !in seen && Held(rules, since, now) then found[path := m.known[path].(present := false)] else found,
              if path in seen then vanishedAt - {path} else vanishedAt[path := since],
              rest - {path})
  {
    hide Held;
  }

  lemma PartWayEnds(m: Memory, seen: map<string, Target>, rules: Rules, now: int,
                    found: map<string, Target>, vanishedAt: map<string, int>)
    requires PartWay(m, seen, rules, now, found, vanishedAt, {})
    ensures found == Carried(m, seen, rules, now) && vanishedAt == Vanishing(m, seen, now)
  {
    hide Held, MissedSince;
  }

  lemma {:induction false} InvalidSpoils(patterns: seq<string>, expansions: seq<Expansion>, i: nat)
    requires |patterns| == |expansions| && i < |patterns| && expansions[i].Invalid?
    ensures Look(patterns, expansions).None?
  {
    var n := |patterns| - 1;
    if i < n { InvalidSpoils(patterns[..n], expansions[..n], i); }
  }
}
