/**
 Properties of the retention walk: what it rejects is an ordered sublist, a
 second walk over the survivors rejects nothing, and the survivors are few.
 */
module RetentionProofs {
  import opened Wrappers
  import opened Retention

  // ---------- Survivors ----------

  /** The times that are not rejected, in their original order. */
  function Without(times: seq<int>, rejected: seq<int>): (r: seq<int>)
    ensures forall x :: x in r <==> x in times && x !in rejected
  {
    if times == [] then
      []
    else if times[0] in rejected then
      Without(times[1..], rejected)
    else
      [times[0]] + Without(times[1..], rejected)
  }

  /** The survivors of a walk, computed along it; Partition says they are what is left. */
  function Keep(now: int, rules: seq<Rule>, cursor: nat, last: int, times: seq<int>): (kept: seq<int>)
    requires cursor < |rules|
    ensures kept != []
    ensures forall x :: x in kept ==> x == last || x in times
    decreases |times| + |rules| - cursor
  {
    if times == [] then
      [last]
    else if TooOld(now, rules[cursor], last) then
      Keep(now, rules, cursor, times[0], times[1..])
    else
      match Advance(now, rules, cursor, last, times[0])
      case Moved(next, promoted) =>
        if promoted then
          [last] + Keep(now, rules, next, times[0], times[1..])
        else
          Keep(now, rules, next, last, times)
      case Settled(next) =>
        if FarEnough(rules[next], last, times[0]) then
          [last] + Keep(now, rules, next, times[0], times[1..])
        else
          Keep(now, rules, next, last, times[1..])
  }

  /** The survivors of a policy, newest first. */
  function Survivors(policy: Policy, now: int, newestFirst: seq<int>): seq<int> {
    Without(newestFirst, Reject(policy, now, newestFirst))
  }

  lemma {:induction false} DescendsBelow(last: int, times: seq<int>)
    requires Descends(last, times)
    ensures forall x :: x in times ==> x < last
    ensures times != [] ==> Descends(last, times[1..])
    decreases times
  {
    if times != [] {
      assert times == [times[0]] + times[1..];
      DescendsBelow(times[0], times[1..]);
    }
  }

  lemma {:induction false} DecreasingCons(x: int, xs: seq<int>)
    requires Decreasing(xs) && forall y :: y in xs ==> y < x
    ensures Descends(x, xs) && Decreasing([x] + xs)
  {
    assert xs != [] ==> xs[0] in xs;
    assert ([x] + xs)[1..] == xs;
  }

  // ---------- Step 3 fires only on the first round a time is the last kept one ----------

  /** No move of the cursor makes a last kept time too old that was not. */
  lemma {:induction false} AdvanceKeepsYoung(now: int, rules: seq<Rule>, cursor: nat, last: int, time: int)
    requires cursor < |rules| && !TooOld(now, rules[cursor], last)
    ensures
      var p := Advance(now, rules, cursor, last, time);
      && (p.Settled? || !p.promoted ==> !TooOld(now, rules[p.cursor], last))
      && (p.Moved? && p.promoted ==> !TooOld(now, rules[p.cursor], time))
    decreases |rules| - cursor
  {
    if cursor + 1 < |rules| {
      var next := rules[cursor + 1].duration;
      if rules[cursor].duration == next || next.Unlimited? {
        AdvanceKeepsYoung(now, rules, cursor + 1, last, time);
      }
    }
  }

  /** A walk that starts with a last kept time that is not too old never rejects it. */
  lemma {:induction false} YoungIsKept(now: int, rules: seq<Rule>, cursor: nat, last: int, times: seq<int>)
    requires cursor < |rules| && Descends(last, times)
    requires !TooOld(now, rules[cursor], last)
    ensures Keep(now, rules, cursor, last, times)[0] == last
    ensures forall x :: x in Walk(now, rules, cursor, last, times) ==> x in times
    ensures Decreasing(Walk(now, rules, cursor, last, times))
    decreases |times| + |rules| - cursor, 0
  {
    if times != [] {
      var rest := times[1..];
      DescendsBelow(last, times);
      DescendsBelow(times[0], rest);
      AdvanceKeepsYoung(now, rules, cursor, last, times[0]);
      match Advance(now, rules, cursor, last, times[0])
      case Moved(next, promoted) =>
        if promoted {
          WalkIsSublist(now, rules, next, times[0], rest);
        } else {
          YoungIsKept(now, rules, next, last, times);
        }
      case Settled(next) =>
        if FarEnough(rules[next], last, times[0]) {
          WalkIsSublist(now, rules, next, times[0], rest);
        } else {
          YoungIsKept(now, rules, next, last, rest);
          DecreasingCons(times[0], Walk(now, rules, next, last, rest));
        }
    }
  }

  /** The rejected times come newest first, without repeats, from the times walked. */
  lemma {:induction false} WalkIsSublist(now: int, rules: seq<Rule>, cursor: nat, last: int, times: seq<int>)
    requires cursor < |rules| && Descends(last, times)
    ensures forall x :: x in Walk(now, rules, cursor, last, times) ==> x == last || x in times
    ensures Decreasing(Walk(now, rules, cursor, last, times))
    decreases |times| + |rules| - cursor, 1
  {
    if times != [] {
      if TooOld(now, rules[cursor], last) {
          DescendsBelow(last, times);
        WalkIsSublist(now, rules, cursor, times[0], times[1..]);
        assert forall x :: x in times[1..] ==> x in times;
        assert times[0] in times;
        DecreasingCons(last, Walk(now, rules, cursor, times[0], times[1..]));
      } else {
        YoungIsKept(now, rules, cursor, last, times);
      }
    }
  }

  // ---------- Survivors are exactly what Keep computes ----------

  lemma {:induction false} WithoutIrrelevant(times: seq<int>, a: seq<int>, b: seq<int>)
    requires forall i :: 0 <= i < |times| ==> (times[i] in a <==> times[i] in b)
    ensures Without(times, a) == Without(times, b)
  {
    if times != [] {
      WithoutIrrelevant(times[1..], a, b);
    }
  }

  lemma {:induction false} KeepFirst(x: int, times: seq<int>, rejected: seq<int>)
    requires x !in rejected
    ensures Without([x] + times, rejected) == [x] + Without(times, rejected)
  {
    assert ([x] + times)[1..] == times;
  }

  lemma {:induction false} DropFirst(x: int, times: seq<int>, rejected: seq<int>)
    requires x !in times
    ensures Without([x] + times, [x] + rejected) == Without(times, rejected)
  {
    assert ([x] + times)[1..] == times;
    WithoutIrrelevant(times, [x] + rejected, rejected);
  }

  lemma {:induction false} Partition(now: int, rules: seq<Rule>, cursor: nat, last: int, times: seq<int>)
    requires cursor < |rules| && Descends(last, times)
    ensures Without([last] + times, Walk(now, rules, cursor, last, times)) == Keep(now, rules, cursor, last, times)
    decreases |times| + |rules| - cursor, 1
  {
    if times == [] {
      KeepFirst(last, [], []);
      return;
    }
    var t, rest := times[0], times[1..];
    DescendsBelow(last, times);
    assert times == [t] + rest;
    if TooOld(now, rules[cursor], last) {
      Partition(now, rules, cursor, t, rest);
      DropFirst(last, times, Walk(now, rules, cursor, t, rest));
      return;
    }
    YoungIsKept(now, rules, cursor, last, times);
    AdvanceKeepsYoung(now, rules, cursor, last, t);
    var p := Advance(now, rules, cursor, last, t);
    if if p.Moved? then p.promoted else FarEnough(rules[p.cursor], last, t) {
      Partition(now, rules, p.cursor, t, rest);
      KeepFirst(last, times, Walk(now, rules, p.cursor, t, rest));
    } else if p.Moved? {
      Partition(now, rules, p.cursor, last, times);
    } else {
      PartitionRejecting(now, rules, p.cursor, last, t, rest);
    }
  }

  lemma {:induction false} PartitionRejecting(now: int, rules: seq<Rule>, cursor: nat, last: int, t: int, rest: seq<int>)
    requires cursor < |rules| && Descends(last, [t] + rest) && !TooOld(now, rules[cursor], last)
    ensures
      Without([last] + ([t] + rest), [t] + Walk(now, rules, cursor, last, rest)) ==
        Keep(now, rules, cursor, last, rest)
    decreases |rest| + 1 + |rules| - cursor, 0
  {
    var w := Walk(now, rules, cursor, last, rest);
    DescendsBelow(last, [t] + rest);
    assert t in [t] + rest;
    assert ([t] + rest)[1..] == rest;
    DescendsBelow(t, rest);
    YoungIsKept(now, rules, cursor, last, rest);
    Partition(now, rules, cursor, last, rest);
    KeepFirst(last, rest, w);
    DropFirst(t, rest, w);
    KeepFirst(last, [t] + rest, [t] + w);
  }

  /** Survivors keep the newest-to-oldest order. */
  lemma {:induction false} KeepDescends(now: int, rules: seq<Rule>, cursor: nat, last: int, times: seq<int>)
    requires cursor < |rules| && Descends(last, times)
    ensures Decreasing(Keep(now, rules, cursor, last, times))
    decreases |times| + |rules| - cursor
  {
    if times != [] {
      DescendsBelow(last, times);
      DescendsBelow(times[0], times[1..]);
      KeepDescends(now, rules, cursor, times[0], times[1..]);
      if !TooOld(now, rules[cursor], last) {
        match Advance(now, rules, cursor, last, times[0])
        case Moved(next, promoted) =>
          if promoted {
            KeepDescends(now, rules, next, times[0], times[1..]);
            DecreasingCons(last, Keep(now, rules, next, times[0], times[1..]));
          } else {
            KeepDescends(now, rules, next, last, times);
          }
        case Settled(next) =>
          KeepDescends(now, rules, next, times[0], times[1..]);
          DecreasingCons(last, Keep(now, rules, next, times[0], times[1..]));
          KeepDescends(now, rules, next, last, times[1..]);
      }
    }
  }

  // ---------- Culling is idempotent ----------

  /** An older time meets the same rules: only a promotion may be lost. */
  lemma {:induction false} AdvanceOlder(now: int, rules: seq<Rule>, cursor: nat, last: int, time: int, older: int)
    requires cursor < |rules| && older <= time
    ensures
      var p := Advance(now, rules, cursor, last, time);
      p.Settled? || !p.promoted ==> Advance(now, rules, cursor, last, older) == p
    ensures
      var p := Advance(now, rules, cursor, last, time);
      p.Settled? ==> Advance(now, rules, p.cursor, last, older) == p
    decreases |rules| - cursor
  {
    if cursor + 1 < |rules| {
      AdvanceOlder(now, rules, cursor + 1, last, time, older);
    }
  }

  /** A second walk over the survivors of a walk rejects nothing. */
  lemma {:induction false} SecondWalkRejectsNothing(now: int, rules: seq<Rule>, cursor: nat, last: int, times: seq<int>)
    requires cursor < |rules| && Descends(last, times)
    ensures
      var kept := Keep(now, rules, cursor, last, times);
      Walk(now, rules, cursor, kept[0], kept[1..]) == []
    decreases |times| + |rules| - cursor
  {
    if times == [] {
      return;
    }
    var t, rest := times[0], times[1..];
    DescendsBelow(last, times);
    if TooOld(now, rules[cursor], last) {
      SecondWalkRejectsNothing(now, rules, cursor, t, rest);
      return;
    }
    AdvanceKeepsYoung(now, rules, cursor, last, t);
    YoungIsKept(now, rules, cursor, last, times);
    var kept := Keep(now, rules, cursor, last, times);
    var p := Advance(now, rules, cursor, last, t);
    if kept[1..] != [] {
      assert kept[1] in kept[1..];
      LaterSurvivorIsOlder(now, rules, cursor, last, times);
      AdvanceOlder(now, rules, cursor, last, t, kept[1]);
    }
    match p
    case Moved(next, promoted) =>
      if promoted {
        YoungIsKept(now, rules, next, t, rest);
        SecondWalkRejectsNothing(now, rules, next, t, rest);
        assert kept == [last] + Keep(now, rules, next, t, rest);
      } else {
        YoungIsKept(now, rules, next, last, times);
        SecondWalkRejectsNothing(now, rules, next, last, times);
      }
    case Settled(next) =>
      if FarEnough(rules[next], last, t) {
        SecondWalkRejectsNothing(now, rules, next, t, rest);
        assert kept == [last] + Keep(now, rules, next, t, rest);
      } else {
        YoungIsKept(now, rules, next, last, rest);
        SecondWalkRejectsNothing(now, rules, next, last, rest);
        assert kept == Keep(now, rules, next, last, rest);
      }
  }

  lemma {:induction false} LaterSurvivorIsOlder(now: int, rules: seq<Rule>, cursor: nat, last: int, times: seq<int>)
    requires cursor < |rules| && Descends(last, times) && times != []
    requires !TooOld(now, rules[cursor], last)
    ensures
      var kept := Keep(now, rules, cursor, last, times);
      |kept| > 1 ==> kept[1] in times && kept[1] <= times[0]
  {
    var kept := Keep(now, rules, cursor, last, times);
    YoungIsKept(now, rules, cursor, last, times);
    KeepDescends(now, rules, cursor, last, times);
    DescendsBelow(last, times);
    DescendsBelow(times[0], times[1..]);
    if |kept| > 1 {
      assert kept[1] in kept && kept[1..][0] == kept[1];
      assert times == [times[0]] + times[1..];
    }
  }

  // ---------- Why a time is rejected or kept ----------

  /** The time is older than the duration, which is limited. */
  predicate Outside(now: int, rule: Rule, x: int) {
    AsDelta(rule.duration).Some? && now - x > AsDelta(rule.duration).value
  }

  /** The times are closer than the keep, which is limited. */
  predicate TooClose(rule: Rule, newer: int, x: int) {
    AsDelta(rule.keep).Some? && newer - x < AsDelta(rule.keep).value
  }

  /** The rule that makes `x` go: it is older than the duration, or too close to a newer survivor. */
  ghost predicate Justifies(now: int, rule: Rule, kept: seq<int>, x: int) {
    || Outside(now, rule, x)
    || exists newer :: newer in kept && newer > x && TooClose(rule, newer, x)
  }

  lemma {:induction false} EveryRejectionIsJustified(now: int, rules: seq<Rule>, cursor: nat, last: int, times: seq<int>)
    requires cursor < |rules| && Descends(last, times)
    ensures
      var kept := Keep(now, rules, cursor, last, times);
      forall x :: x in Walk(now, rules, cursor, last, times) ==>
        exists i :: 0 <= i < |rules| && Justifies(now, rules[i], kept, x)
    decreases |times| + |rules| - cursor
  {
    if times == [] {
      return;
    }
    var t, rest := times[0], times[1..];
    var kept := Keep(now, rules, cursor, last, times);
    DescendsBelow(last, times);
    if TooOld(now, rules[cursor], last) {
      assert Justifies(now, rules[cursor], kept, last);
      EveryRejectionIsJustified(now, rules, cursor, t, rest);
      return;
    }
    AdvanceKeepsYoung(now, rules, cursor, last, t);
    var p := Advance(now, rules, cursor, last, t);
    var consumed := if p.Moved? then p.promoted else FarEnough(rules[p.cursor], last, t);
    if consumed {
      EveryRejectionIsJustified(now, rules, p.cursor, t, rest);
      var later := Keep(now, rules, p.cursor, t, rest);
      assert kept == [last] + later;
      forall x | x in Walk(now, rules, p.cursor, t, rest)
        ensures exists i :: 0 <= i < |rules| && Justifies(now, rules[i], kept, x)
      {
        var i :| 0 <= i < |rules| && Justifies(now, rules[i], later, x);
        assert Justifies(now, rules[i], kept, x);
      }
    } else if p.Moved? {
      EveryRejectionIsJustified(now, rules, p.cursor, last, times);
    } else {
      EveryRejectionIsJustified(now, rules, p.cursor, last, rest);
      YoungIsKept(now, rules, p.cursor, last, rest);
      assert kept[0] == last && last > t;
      assert TooClose(rules[p.cursor], last, t);
      assert Justifies(now, rules[p.cursor], kept, t);
    }
  }

  /** How many neighbours among the survivors are closer than `gap`. */
  function ShortGaps(kept: seq<int>, gap: int): nat {
    if |kept| < 2 then 0
    else (if kept[0] - kept[1] < gap then 1 else 0) + ShortGaps(kept[1..], gap)
  }

  /** Every rule has a limited duration of at most `longest` and keeps at gaps of at least `gap`. */
  predicate Limited(rules: seq<Rule>, longest: int, gap: int) {
    forall i :: 0 <= i < |rules| ==>
      && AsDelta(rules[i].duration).Some? && AsDelta(rules[i].duration).value <= longest
      && AsDelta(rules[i].keep).Some? && AsDelta(rules[i].keep).value >= gap
  }

  predicate DurationsWithin(rules: seq<Rule>, longest: int) {
    forall i :: 0 <= i < |rules| ==> AsDelta(rules[i].duration).Some? && AsDelta(rules[i].duration).value <= longest
  }

  /** Each rule passed costs at most one gap that is too short. */
  lemma {:induction false} FewShortGaps(now: int, rules: seq<Rule>, cursor: nat, last: int, times: seq<int>, longest: int, gap: int)
    requires cursor < |rules| && Descends(last, times) && Limited(rules, longest, gap)
    ensures ShortGaps(Keep(now, rules, cursor, last, times), gap) <= |rules| - 1 - cursor
    decreases |times| + |rules| - cursor
  {
    if times == [] {
      return;
    }
    var t, rest := times[0], times[1..];
    DescendsBelow(last, times);
    DescendsBelow(t, rest);
    if TooOld(now, rules[cursor], last) {
      FewShortGaps(now, rules, cursor, t, rest, longest, gap);
      return;
    }
    var p := Advance(now, rules, cursor, last, t);
    var later := Keep(now, rules, p.cursor, t, rest);
    assert later[0] in later;
    assert ([last] + later)[1..] == later;
    FewShortGaps(now, rules, p.cursor, t, rest, longest, gap);
    FewShortGaps(now, rules, p.cursor, last, rest, longest, gap);
    if p.Moved? {
      FewShortGaps(now, rules, p.cursor, last, times, longest, gap);
    }
  }

  /** All times but the last are within `longest` of `now`. */
  predicate AllButLastWithin(now: int, times: seq<int>, longest: int) {
    |times| >= 2 ==> now - times[0] <= longest && AllButLastWithin(now, times[1..], longest)
  }

  /** All survivors but the oldest lie within the longest duration. */
  lemma {:induction false} OnlyOldestIsOld(now: int, rules: seq<Rule>, cursor: nat, last: int, times: seq<int>, longest: int)
    requires cursor < |rules| && Descends(last, times) && DurationsWithin(rules, longest)
    ensures AllButLastWithin(now, Keep(now, rules, cursor, last, times), longest)
    decreases |times| + |rules| - cursor
  {
    if times == [] {
      return;
    }
    var t, rest := times[0], times[1..];
    DescendsBelow(last, times);
    if TooOld(now, rules[cursor], last) {
      OnlyOldestIsOld(now, rules, cursor, t, rest, longest);
      return;
    }
    var p := Advance(now, rules, cursor, last, t);
    if if p.Moved? then p.promoted else FarEnough(rules[p.cursor], last, t) {
      OnlyOldestIsOld(now, rules, p.cursor, t, rest, longest);
    } else if p.Moved? {
      OnlyOldestIsOld(now, rules, p.cursor, last, times, longest);
    } else {
      OnlyOldestIsOld(now, rules, p.cursor, last, rest, longest);
    }
  }

  lemma {:induction false} WithinAt(now: int, times: seq<int>, longest: int, i: nat)
    requires AllButLastWithin(now, times, longest) && i < |times| - 1
    ensures now - times[i] <= longest
  {
    if i > 0 {
      WithinAt(now, times[1..], longest, i - 1);
    }
  }

  /** Gaps that are long enough spread the survivors over time. */
  lemma {:induction false} GapsAddUp(kept: seq<int>, gap: int)
    requires Decreasing(kept) && |kept| >= 2 && gap > 0
    ensures kept[0] - kept[|kept| - 2] >= (|kept| - 2 - ShortGaps(kept, gap)) * gap
  {
    if |kept| == 2 {
      assert ShortGaps(kept, gap) == 0 || ShortGaps(kept, gap) == 1;
    } else {
      var rest := kept[1..];
      assert rest[|rest| - 2] == kept[|kept| - 2];
      GapsAddUp(rest, gap);
      var n := |rest| - 2 - ShortGaps(rest, gap);
      assert (n + 1) * gap == n * gap + gap;
    }
  }

  lemma {:induction false} MulMonotone(a: int, b: int, gap: int)
    requires a <= b && gap > 0
    ensures a * gap <= b * gap
  {
    assert (b - a) * gap >= 0;
  }

  lemma {:induction false} DivBound(n: int, total: int, gap: int)
    requires gap > 0 && total >= 0 && n * gap <= total
    ensures n <= total / gap
  {
    var q := total / gap;
    assert total < q * gap + gap;
    if n >= q + 1 {
      MulMonotone(q + 1, n, gap);
      assert false;
    }
  }

  /** A bound on any list of survivors from its gaps and its age. */
  lemma {:induction false} FewSurvivors(now: int, kept: seq<int>, longest: int, gap: int, short: nat)
    requires Decreasing(kept) && kept != [] && kept[0] <= now
    requires gap > 0 && longest >= 0 && ShortGaps(kept, gap) <= short
    requires AllButLastWithin(now, kept, longest)
    ensures |kept| <= longest / gap + short + 2
  {
    if |kept| >= 2 {
      GapsAddUp(kept, gap);
      var n := |kept| - 2 - ShortGaps(kept, gap);
      WithinAt(now, kept, longest, |kept| - 2);
      DivBound(n, longest, gap);
    }
  }

  // ---------- A single rule governs the walk ----------

  /** The first `promoted` times without condition, then the survivors of a walk with one rule. */
  function Governed(now: int, rule: Rule, last: int, times: seq<int>, promoted: nat): seq<int>
    requires promoted <= |times|
    decreases promoted
  {
    if promoted == 0 then
      Keep(now, [rule], 0, last, times)
    else
      [last] + Governed(now, rule, times[0], times[1..], promoted - 1)
  }

  /** How many times are promoted without condition, and the rule the cursor settles on. */
  function Governor(now: int, rules: seq<Rule>, cursor: nat, last: int, times: seq<int>): (r: (nat, nat))
    requires cursor < |rules|
    ensures cursor <= r.1 < |rules| && r.0 <= r.1 - cursor && r.0 <= |times|
    decreases |times| + |rules| - cursor
  {
    if times == [] || TooOld(now, rules[cursor], last) then
      (0, cursor)
    else
      match Advance(now, rules, cursor, last, times[0])
      case Settled(next) => (0, next)
      case Moved(next, promoted) =>
        if promoted then
          var (count, rule) := Governor(now, rules, next, times[0], times[1..]);
          (count + 1, rule)
        else
          Governor(now, rules, next, last, times)
  }

  /**
   The cursor settles once: after at most one unconditional survivor for each
   rule passed, the walk is that of the one rule it settles on.
   */
  lemma {:induction false} OneRuleGoverns(now: int, rules: seq<Rule>, cursor: nat, last: int, times: seq<int>)
    requires cursor < |rules| && Descends(last, times)
    ensures
      var (promoted, governing) := Governor(now, rules, cursor, last, times);
      Keep(now, rules, cursor, last, times) == Governed(now, rules[governing], last, times, promoted)
    decreases |times| + |rules| - cursor
  {
    if times == [] {
      return;
    }
    var t, rest := times[0], times[1..];
    DescendsBelow(last, times);
    var p := Advance(now, rules, cursor, last, t);
    if TooOld(now, rules[cursor], last) {
      StaysTooOld(now, rules, cursor, last, times);
    } else if p.Settled? {
      SettledWalk(now, rules, cursor, last, times);
    } else if p.promoted {
      OneRuleGoverns(now, rules, p.cursor, t, rest);
    } else {
      OneRuleGoverns(now, rules, p.cursor, last, times);
    }
  }

  lemma {:induction false} SettledWalk(now: int, rules: seq<Rule>, cursor: nat, last: int, times: seq<int>)
    requires cursor < |rules| && times != [] && Descends(last, times) && !TooOld(now, rules[cursor], last)
    requires Advance(now, rules, cursor, last, times[0]).Settled?
    ensures
      var settled := Advance(now, rules, cursor, last, times[0]).cursor;
      Keep(now, rules, cursor, last, times) == Keep(now, [rules[settled]], 0, last, times)
  {
    AdvanceKeepsYoung(now, rules, cursor, last, times[0]);
    AdvanceOlder(now, rules, cursor, last, times[0], times[0]);
    StaysSettled(now, rules, Advance(now, rules, cursor, last, times[0]).cursor, last, times);
  }

  lemma {:induction false} StaysTooOld(now: int, rules: seq<Rule>, cursor: nat, last: int, times: seq<int>)
    requires cursor < |rules| && Descends(last, times) && TooOld(now, rules[cursor], last)
    ensures Keep(now, rules, cursor, last, times) == Keep(now, [rules[cursor]], 0, last, times)
    decreases times
  {
    if times != [] {
      StaysTooOld(now, rules, cursor, times[0], times[1..]);
    }
  }

  lemma {:induction false} StaysSettled(now: int, rules: seq<Rule>, cursor: nat, last: int, times: seq<int>)
    requires cursor < |rules| && Descends(last, times)
    requires times != [] ==> Advance(now, rules, cursor, last, times[0]) == Settled(cursor)
    ensures Keep(now, rules, cursor, last, times) == Keep(now, [rules[cursor]], 0, last, times)
    decreases times
  {
    if times == [] {
      return;
    }
    var t, rest := times[0], times[1..];
    DescendsBelow(last, times);
    if TooOld(now, rules[cursor], last) {
      StaysTooOld(now, rules, cursor, last, times);
      return;
    }
    if rest != [] {
      assert rest[0] in rest;
      SettledForOlder(now, rules, cursor, last, t, t, rest[0]);
      SettledForOlder(now, rules, cursor, last, t, last, rest[0]);
    }
    StaysSettled(now, rules, cursor, t, rest);
    StaysSettled(now, rules, cursor, last, rest);
  }

  lemma {:induction false} SettledForOlder(now: int, rules: seq<Rule>, cursor: nat, last: int, time: int, last': int, time': int)
    requires cursor < |rules| && last' <= last && time' <= time
    requires Advance(now, rules, cursor, last, time) == Settled(cursor)
    ensures Advance(now, rules, cursor, last', time') == Settled(cursor)
  {
  }

  // ---------- The results, for a whole policy ----------

  /** The rejected times are a newest-to-oldest sublist without repeats, and at least one time is kept. */
  lemma {:induction false} RejectedIsOrderedSublist(policy: Policy, now: int, times: seq<int>)
    requires Decreasing(times)
    ensures Decreasing(Reject(policy, now, times))
    ensures forall x :: x in Reject(policy, now, times) ==> x in times
    ensures times != [] ==> Survivors(policy, now, times) != []
  {
    if policy != [] && times != [] {
      var rules := Reverse(policy);
      assert [times[0]] + times[1..] == times;
      WalkIsSublist(now, rules, 0, times[0], times[1..]);
      Partition(now, rules, 0, times[0], times[1..]);
    }
  }

  lemma {:induction false} WithoutNothing(times: seq<int>)
    ensures Without(times, []) == times
  {
    if times != [] {
      WithoutNothing(times[1..]);
    }
  }

  /** Culling what a cull left rejects nothing, for every policy, clock and set of times. */
  lemma {:induction false} CullingIsIdempotent(policy: Policy, now: int, times: seq<int>)
    requires Decreasing(times)
    ensures Reject(policy, now, Survivors(policy, now, times)) == []
  {
    if policy != [] && times != [] {
      var rules := Reverse(policy);
      assert [times[0]] + times[1..] == times;
      Partition(now, rules, 0, times[0], times[1..]);
      SecondWalkRejectsNothing(now, rules, 0, times[0], times[1..]);
    }
  }

  /**
   What one cull leaves of any times not after `now`: at most one short gap
   for each rule but one, nothing but the oldest beyond the longest duration,
   and so a bounded number of survivors.
   */
  lemma {:induction false} OneCullBound(policy: Policy, now: int, times: seq<int>, longest: int, gap: int)
    requires policy != [] && Limited(policy, longest, gap) && gap > 0
    requires Decreasing(times) && times != [] && times[0] <= now
    ensures
      var kept := Survivors(policy, now, times);
      && Decreasing(kept)
      && ShortGaps(kept, gap) <= |policy| - 1
      && AllButLastWithin(now, kept, longest)
      && |kept| <= longest / gap + |policy| + 1
  {
    var rules := Reverse(policy);
    var last, rest := times[0], times[1..];
    assert [last] + rest == times;
    Partition(now, rules, 0, last, rest);
    var kept := Keep(now, rules, 0, last, rest);
    KeepDescends(now, rules, 0, last, rest);
    FewShortGaps(now, rules, 0, last, rest, longest, gap);
    OnlyOldestIsOld(now, rules, 0, last, rest, longest);
    DescendsBelow(last, rest);
    assert kept[0] in kept;
    assert AsDelta(policy[0].duration).value <= longest;
    FewSurvivors(now, kept, longest, gap, |policy| - 1);
  }

  // ---------- What is not rejected ----------

  /** No time but the oldest is outside the duration, and no two neighbours are too close. */
  predicate Spaced(now: int, rule: Rule, times: seq<int>) {
    forall i :: 0 <= i < |times| - 1 ==> !Outside(now, rule, times[i]) && !TooClose(rule, times[i], times[i + 1])
  }

  lemma {:induction false} SpacedTail(now: int, rule: Rule, last: int, times: seq<int>)
    requires times != []
    ensures Spaced(now, rule, [last] + times) <==>
      !Outside(now, rule, last) && !TooClose(rule, last, times[0]) && Spaced(now, rule, times)
  {
    var all := [last] + times;
    if Spaced(now, rule, all) {
      assert !Outside(now, rule, all[0]) && !TooClose(rule, all[0], all[1]);
      forall i | 0 <= i < |times| - 1 ensures !Outside(now, rule, times[i]) && !TooClose(rule, times[i], times[i + 1]) {
        assert times[i] == all[i + 1] && times[i + 1] == all[i + 2];
      }
    } else {
      var i :| 0 <= i < |all| - 1 && (Outside(now, rule, all[i]) || TooClose(rule, all[i], all[i + 1]));
      if i > 0 {
        assert times[i - 1] == all[i] && times[i] == all[i + 1];
      }
    }
  }

  lemma {:induction false} SpacedWalk(now: int, rule: Rule, last: int, times: seq<int>)
    ensures Walk(now, [rule], 0, last, times) == [] <==> Spaced(now, rule, [last] + times)
    decreases times
  {
    if times != [] {
      SpacedTail(now, rule, last, times);
      assert [times[0]] + times[1..] == times;
      SpacedWalk(now, rule, times[0], times[1..]);
    }
  }

  /**
   A policy of one rule rejects nothing exactly if all times but the oldest are
   within its duration and neighbours are at least its keep apart.
   */
  lemma {:induction false} OneRuleRejectsNothing(rule: Rule, now: int, times: seq<int>)
    ensures Reject([rule], now, times) == [] <==> Spaced(now, rule, times)
  {
    if times != [] {
      assert Reverse([rule]) == [rule];
      assert [times[0]] + times[1..] == times;
      SpacedWalk(now, rule, times[0], times[1..]);
    }
  }
}
