/**
 What a policy of several rules promises and what it keeps.  One rule governs a
 cull and justifies every rejection, where the policy reads as if each rule held
 for its own duration.  This module says for which policies that is the same.
 */
module RetentionPromise {
  import opened Wrappers
  import opened Retention
  import opened RetentionProofs
  import opened RetentionOldest

  // ---------- One rule justifies every rejection ----------

  lemma {:induction false} RejectedIsNotKept(now: int, rules: seq<Rule>, cursor: nat, last: int, times: seq<int>, x: int)
    requires cursor < |rules| && Descends(last, times)
    ensures
      x in Walk(now, rules, cursor, last, times) <==>
      (x == last || x in times) && x !in Keep(now, rules, cursor, last, times)
  {
    Partition(now, rules, cursor, last, times);
    WalkIsSublist(now, rules, cursor, last, times);
    assert x in [last] + times <==> x == last || x in times;
  }

  /** Two walks that keep the same reject the same. */
  lemma {:induction false} JustifiedByOne(now: int, rules: seq<Rule>, cursor: nat, rule: Rule, last: int, times: seq<int>, x: int)
    requires cursor < |rules| && Descends(last, times)
    requires Keep(now, rules, cursor, last, times) == Keep(now, [rule], 0, last, times)
    requires x in Walk(now, rules, cursor, last, times)
    ensures Justifies(now, rule, Keep(now, rules, cursor, last, times), x)
  {
    RejectedIsNotKept(now, rules, cursor, last, times, x);
    RejectedIsNotKept(now, [rule], 0, last, times, x);
    EveryRejectionIsJustified(now, [rule], 0, last, times);
  }

  lemma {:induction false} RejectedByGovernor(now: int, rules: seq<Rule>, cursor: nat, last: int, times: seq<int>, x: int)
    requires cursor < |rules| && Descends(last, times) && x in Walk(now, rules, cursor, last, times)
    ensures
      Justifies(now, rules[Governor(now, rules, cursor, last, times).1], Keep(now, rules, cursor, last, times), x)
    decreases |times| + |rules| - cursor
  {
    hide Justifies;
    var t, rest := times[0], times[1..];
    var p := Advance(now, rules, cursor, last, t);
    DescendsBelow(last, times);
    if TooOld(now, rules[cursor], last) {
      StaysTooOld(now, rules, cursor, last, times);
      JustifiedByOne(now, rules, cursor, rules[cursor], last, times, x);
    } else if p.Settled? {
      SettledWalk(now, rules, cursor, last, times);
      JustifiedByOne(now, rules, cursor, rules[p.cursor], last, times, x);
    } else if p.promoted {
      RejectedByGovernor(now, rules, p.cursor, t, rest, x);
      var later := Keep(now, rules, p.cursor, t, rest);
      StaysJustified(now, rules[Governor(now, rules, p.cursor, t, rest).1], [last], later, x);
    } else {
      RejectedByGovernor(now, rules, p.cursor, last, times, x);
    }
  }

  lemma {:induction false} StaysJustified(now: int, rule: Rule, more: seq<int>, kept: seq<int>, x: int)
    requires Justifies(now, rule, kept, x)
    ensures Justifies(now, rule, more + kept, x)
  {
    if newer :| newer in kept && newer > x && TooClose(rule, newer, x) {
      assert newer in more + kept;
    }
  }

  /** Every time a policy rejects is too old for the governing rule or, by that rule, too close to a newer survivor. */
  lemma {:induction false} OneRuleJustifies(policy: Policy, now: int, times: seq<int>)
    requires policy != [] && times != [] && Decreasing(times)
    ensures forall x :: x in Reject(policy, now, times) ==>
      Justifies(now, GovernorOf(policy, now, times).1, Survivors(policy, now, times), x)
  {
    var rules := Reverse(policy);
    assert [times[0]] + times[1..] == times;
    Partition(now, rules, 0, times[0], times[1..]);
    forall x | x in Reject(policy, now, times)
      ensures Justifies(now, GovernorOf(policy, now, times).1, Survivors(policy, now, times), x)
    {
      RejectedByGovernor(now, rules, 0, times[0], times[1..], x);
    }
  }

  // ---------- What each rule promises ----------

  /** The time is within the duration of the rule. */
  predicate Covers(now: int, rule: Rule, x: int) {
    rule.duration.Unlimited? || now - x < AsDelta(rule.duration).value
  }

  /** A newer survivor stands for the time: it is closer than the rule's keep. */
  ghost predicate StoodFor(rule: Rule, kept: seq<int>, x: int) {
    exists newer :: newer in kept && newer > x && TooClose(rule, newer, x)
  }

  /** For its duration, each rule has a checkpoint kept at its interval: what is rejected is stood for. */
  ghost predicate HonouredAt(policy: Policy, now: int, times: seq<int>) {
    forall x, i :: x in Reject(policy, now, times) && 0 <= i < |policy| && Covers(now, policy[i], x) ==>
      StoodFor(policy[i], Survivors(policy, now, times), x)
  }

  /** At every moment, for all times not after it. */
  ghost predicate Honoured(policy: Policy) {
    forall now, times :: times != [] && Decreasing(times) && times[0] <= now ==> HonouredAt(policy, now, times)
  }

  predicate Shorter(a: Span, b: Span) {
    !a.Unlimited? && (b.Unlimited? || AsDelta(a).value < AsDelta(b).value)
  }

  /** Rules are ordered by duration, the first being the shortest, and no two have the same. */
  predicate Ordered(policy: Policy) {
    forall i, j :: 0 <= i < j < |policy| ==> Shorter(policy[i].duration, policy[j].duration)
  }

  /** Within its duration the rule wants no second checkpoint. */
  predicate WantsOne(rule: Rule) {
    !rule.duration.Unlimited? && !rule.keep.Unlimited? && AsDelta(rule.keep).value >= AsDelta(rule.duration).value
  }

  predicate OnlyFirstSpaces(policy: Policy) {
    forall i :: 0 < i < |policy| ==> WantsOne(policy[i])
  }

  // ---------- Policies that keep their promise ----------

  lemma {:induction false} NotCovered(now: int, shorter: Rule, longer: Rule, last: int, x: int)
    requires x <= last && (shorter == longer || Shorter(shorter.duration, longer.duration)) && !longer.duration.Unlimited?
    requires !Within(now, longer, last)
    ensures !Covers(now, shorter, x)
  {
  }

  predicate LongestFirst(rules: seq<Rule>) {
    forall i, j :: 0 <= i < j < |rules| ==> Shorter(rules[j].duration, rules[i].duration)
  }

  lemma {:induction false} ReverseOrdered(policy: Policy)
    requires Ordered(policy)
    ensures LongestFirst(Reverse(policy))
  {
  }

  /** A time the shortest rule covers is rejected only where that rule governs. */
  lemma {:induction false} CoveredByShortest(now: int, rules: seq<Rule>, cursor: nat, last: int, times: seq<int>, x: int)
    requires cursor < |rules| && LongestFirst(rules) && Descends(last, times)
    requires x in Walk(now, rules, cursor, last, times) && Covers(now, rules[|rules| - 1], x)
    ensures Governor(now, rules, cursor, last, times).1 == |rules| - 1
    decreases |times| + |rules| - cursor
  {
    hide Covers, Shorter, Within;
    var shortest := rules[|rules| - 1];
    var t, rest := times[0], times[1..];
    WalkIsSublist(now, rules, cursor, last, times);
    DescendsBelow(last, times);
    var p := Advance(now, rules, cursor, last, t);
    AdvanceMeans(now, rules, cursor, last, t, p);
    if TooOld(now, rules[cursor], last) {
      OldNotCovered(now, rules, cursor, last, x);
    } else if p.Settled? {
      if p.cursor < |rules| - 1 {
        LimitedAfter(rules, p.cursor + 1);
        NotCovered(now, shortest, rules[p.cursor + 1], last, x);
      }
    } else if p.promoted {
      CoveredByShortest(now, rules, p.cursor, t, rest, x);
    } else {
      CoveredByShortest(now, rules, p.cursor, last, times, x);
    }
  }

  lemma {:induction false} LimitedAfter(rules: seq<Rule>, i: nat)
    requires LongestFirst(rules) && 0 < i < |rules|
    ensures !rules[i].duration.Unlimited?
    ensures i < |rules| - 1 ==> Shorter(rules[|rules| - 1].duration, rules[i].duration)
  {
    assert Shorter(rules[i].duration, rules[0].duration);
  }

  lemma {:induction false} OldNotCovered(now: int, rules: seq<Rule>, cursor: nat, last: int, x: int)
    requires LongestFirst(rules) && cursor < |rules| && x <= last && TooOld(now, rules[cursor], last)
    ensures !Covers(now, rules[|rules| - 1], x)
  {
    assert cursor < |rules| - 1 ==> Shorter(rules[|rules| - 1].duration, rules[cursor].duration);
  }

  /** The newest time survives if any rejected time is within the duration of a rule, and it is near enough for a longer rule. */
  lemma {:induction false} NewestStandsFor(policy: Policy, now: int, times: seq<int>, x: int, i: nat)
    requires Ordered(policy) && 0 < i < |policy| && WantsOne(policy[i])
    requires times != [] && Decreasing(times) && times[0] <= now
    requires x in Reject(policy, now, times) && Covers(now, policy[i], x)
    ensures StoodFor(policy[i], Survivors(policy, now, times), x)
  {
    hide Walk, Keep, Reverse;
    var rules := Reverse(policy);
    var newest, rest := times[0], times[1..];
    assert [newest] + rest == times;
    Partition(now, rules, 0, newest, rest);
    WalkIsSublist(now, rules, 0, newest, rest);
    DescendsBelow(newest, rest);
    assert i < |policy| - 1 ==> Shorter(policy[i].duration, policy[|policy| - 1].duration);
    assert !TooOld(now, rules[0], newest);
    YoungIsKept(now, rules, 0, newest, rest);
    var kept := Keep(now, rules, 0, newest, rest);
    assert newest in kept && x in rest;
  }

  lemma {:induction false} OrderedAndSpacedHonours(policy: Policy, now: int, times: seq<int>)
    requires Ordered(policy) && OnlyFirstSpaces(policy) && times != [] && Decreasing(times) && times[0] <= now
    ensures HonouredAt(policy, now, times)
  {
    hide Covers, StoodFor, Survivors, Walk;
    forall x, i | x in Reject(policy, now, times) && 0 <= i < |policy| && Covers(now, policy[i], x)
      ensures StoodFor(policy[i], Survivors(policy, now, times), x)
    {
      if i > 0 {
        NewestStandsFor(policy, now, times, x, i);
      } else {
        ShortestStandsFor(policy, now, times, x);
      }
    }
  }

  lemma {:induction false} ShortestStandsFor(policy: Policy, now: int, times: seq<int>, x: int)
    requires Ordered(policy) && policy != [] && times != [] && Decreasing(times)
    requires x in Reject(policy, now, times) && Covers(now, policy[0], x)
    ensures StoodFor(policy[0], Survivors(policy, now, times), x)
  {
    hide Walk, Survivors;
    var rules := Reverse(policy);
    ReverseOrdered(policy);
    OneRuleJustifies(policy, now, times);
    CoveredByShortest(now, rules, 0, times[0], times[1..], x);
    assert GovernorOf(policy, now, times).1 == policy[0];
  }

  // ---------- Policies that do not ----------

  /** How many minutes a span lasts. */
  function Minutes(span: Span): nat
    requires !span.Unlimited?
  {
    match span
    case Minute(n) => n
    case Hour(n) => n * 60
    case Day(n) => n * 1440
    case Week(n) => n * 10080
    case Month(n) => n * 43200
    case Year(n) => n * 525600
  }

  lemma {:induction false} WholeMinutes(span: Span)
    requires !span.Unlimited?
    ensures AsDelta(span).value == Minutes(span) * MINUTE && 1 <= Minutes(span) <= 134_028_000
  {
  }

  lemma {:induction false} NextMinute(a: Span, b: Span)
    requires !a.Unlimited? && !b.Unlimited? && AsDelta(a).value < AsDelta(b).value
    ensures AsDelta(a).value + MINUTE <= AsDelta(b).value
  {
    hide AsDelta, Minutes;
    WholeMinutes(a);
    WholeMinutes(b);
  }

  lemma {:induction false} DurationsGrow(policy: Policy, k: nat)
    requires Ordered(policy) && k < |policy| && !policy[k].duration.Unlimited?
    ensures AsDelta(policy[k].duration).value >= (k + 1) * MINUTE
    decreases k
  {
    hide AsDelta, Minutes;
    WholeMinutes(policy[k].duration);
    if k > 0 {
      assert Shorter(policy[k - 1].duration, policy[k].duration);
      DurationsGrow(policy, k - 1);
      NextMinute(policy[k - 1].duration, policy[k].duration);
    }
  }

  /** There are not many different durations. */
  lemma {:induction false} FewRules(policy: Policy)
    requires Ordered(policy)
    ensures |policy| < MINUTE
  {
    hide AsDelta, Minutes;
    if |policy| >= 2 {
      var k := |policy| - 2;
      assert Shorter(policy[k].duration, policy[k + 1].duration);
      DurationsGrow(policy, k);
      WholeMinutes(policy[k].duration);
    }
  }

  /** The moments -c, -c-1, ..., -m. */
  function Countdown(c: int, m: int): (r: seq<int>)
    ensures forall y :: y in r ==> -m <= y <= -c
    ensures c <= m ==> r != [] && r[0] == -c
    decreases m - c
  {
    if c > m then [] else [-c] + Countdown(c + 1, m)
  }

  lemma {:induction false} CountdownDescends(c: int, m: int, x: int)
    requires c <= m + 1 && x < -m
    ensures Descends(1 - c, Countdown(c, m) + [x, x - 1])
    decreases m + 1 - c
  {
    var times := Countdown(c, m) + [x, x - 1];
    if c > m {
      assert times == [x, x - 1] && times[1..] == [x - 1] && times[1..][1..] == [];
    } else {
      assert times[0] == -c && times[1..] == Countdown(c + 1, m) + [x, x - 1];
      CountdownDescends(c + 1, m, x);
    }
  }

  predicate FitsBehind(rules: seq<Rule>, cursor: nat, x: int) {
    forall j :: cursor < j < |rules| ==> !rules[j].duration.Unlimited? && -x >= AsDelta(rules[j].duration).value
  }

  lemma {:induction false} AMinuteLasts(rule: Rule, y: int)
    requires -MINUTE < y <= 0
    ensures !TooOld(0, rule, y) && (!rule.duration.Unlimited? ==> Within(0, rule, y))
  {
  }

  /** From the shortest rules down: what no shorter rule covers goes once there is an older time. */
  lemma {:induction false} GoesDown(rules: seq<Rule>, cursor: nat, last: int, x: int)
    requires cursor < |rules| && LongestFirst(rules) && FitsBehind(rules, cursor, x)
    requires x < last <= 0 && -MINUTE < last && TooOld(0, rules[|rules| - 1], x)
    ensures x in Walk(0, rules, cursor, last, [x, x - 1])
    decreases |rules| - cursor
  {
    hide AsDelta, TooOld, Within;
    AMinuteLasts(rules[cursor], last);
    var times := [x, x - 1];
    assert times[1..] == [x - 1] && [x - 1][1..] == [];
    if cursor == |rules| - 1 {
      Advance1(rules, cursor, last, x);
      if FarEnough(rules[cursor], last, x) {
        assert Walk(0, rules, cursor, x, [x - 1]) == [x] + Walk(0, rules, cursor, x - 1, []);
      }
    } else {
      MovesOn(rules, cursor, last, x);
      GoesDown(rules, cursor + 1, last, x);
    }
  }

  lemma {:induction false} Advance1(rules: seq<Rule>, cursor: nat, last: int, x: int)
    requires cursor + 1 == |rules|
    ensures Advance(0, rules, cursor, last, x) == Settled(cursor)
  {
  }

  lemma {:induction false} MovesOn(rules: seq<Rule>, cursor: nat, last: int, time: int)
    requires cursor + 1 < |rules| && LongestFirst(rules) && -MINUTE < last <= 0
    ensures
      Advance(0, rules, cursor, last, time) == Moved(cursor + 1, -time < AsDelta(rules[cursor + 1].duration).GetOr(0))
  {
    assert Shorter(rules[cursor + 1].duration, rules[cursor].duration);
    AMinuteLasts(rules[cursor + 1], last);
  }

  /** While the cursor moves to the rule, one recent time after the other is promoted. */
  lemma {:induction false} RecentArePromoted(rules: seq<Rule>, c: int, m: int, x: int)
    requires 0 <= c <= m < |rules| && m + 1 < MINUTE && LongestFirst(rules) && FitsBehind(rules, m, x)
    requires x < -m && TooOld(0, rules[|rules| - 1], x)
    ensures x in Walk(0, rules, c, -c, Countdown(c + 1, m) + [x, x - 1])
    decreases m - c
  {
    hide AsDelta, TooOld, Within;
    var times := Countdown(c + 1, m) + [x, x - 1];
    if c == m {
      assert times == [x, x - 1];
      GoesDown(rules, c, -c, x);
    } else {
      assert times[0] == -(c + 1) && times[1..] == Countdown(c + 2, m) + [x, x - 1];
      AMinuteLasts(rules[c], -c);
      MovesOn(rules, c, -c, -(c + 1));
      LimitedAfter(rules, c + 1);
      AtLeastAMinute(rules[c + 1].duration);
      RecentArePromoted(rules, c + 1, m, x);
    }
  }

  /** How old a time has to be to be missed: as old as the rule still covers. */
  function MissedAge(policy: Policy, i: nat): int
    requires 0 < i < |policy|
  {
    var rule := policy[i];
    if rule.duration.Unlimited? then
      AsDelta(rule.keep).GetOr(0) + AsDelta(policy[i - 1].duration).GetOr(0) + 1
    else
      AsDelta(rule.duration).value - 1
  }

  lemma {:induction false} MissedIsOld(policy: Policy, i: nat, j: nat)
    requires Ordered(policy) && j < i < |policy|
    ensures !policy[j].duration.Unlimited? && MissedAge(policy, i) > AsDelta(policy[j].duration).value
  {
    hide AsDelta;
    assert Shorter(policy[j].duration, policy[i].duration);
    AtLeastAMinute(policy[j].duration);
    if policy[i].duration.Unlimited? {
      assert j < i - 1 ==> Shorter(policy[j].duration, policy[i - 1].duration);
      if !policy[i].keep.Unlimited? {
        AtLeastAMinute(policy[i].keep);
      }
      NoneIsUnlimited(policy[i].keep);
      NoneIsUnlimited(policy[i - 1].duration);
    } else {
      NextMinute(policy[j].duration, policy[i].duration);
    }
  }

  lemma {:induction false} NoneIsUnlimited(span: Span)
    ensures AsDelta(span).None? <==> span.Unlimited?
  {
  }

  lemma {:induction false} UnlimitedIsLast(policy: Policy, i: nat)
    requires Ordered(policy) && i < |policy|
    ensures policy[i].duration.Unlimited? ==> i == |policy| - 1
  {
    if i < |policy| - 1 {
      assert Shorter(policy[i].duration, policy[i + 1].duration);
    }
  }

  lemma {:induction false} MissedIsFar(policy: Policy, i: nat, newer: int)
    requires Ordered(policy) && 0 < i < |policy| && !WantsOne(policy[i]) && newer >= -(|policy| - 1 - i)
    ensures !TooClose(policy[i], newer, -MissedAge(policy, i)) && Covers(0, policy[i], -MissedAge(policy, i))
  {
    hide AsDelta;
    var rule := policy[i];
    FewRules(policy);
    NoneIsUnlimited(rule.keep);
    NoneIsUnlimited(rule.duration);
    if rule.duration.Unlimited? {
      UnlimitedIsLast(policy, i);
      assert Shorter(policy[i - 1].duration, rule.duration);
      AtLeastAMinute(policy[i - 1].duration);
    } else if !rule.keep.Unlimited? {
      NextMinute(rule.keep, rule.duration);
    }
  }

  /** Times that show that a longer rule is not honoured: a few recent ones, the missed one, and one before it. */
  function MissedTimes(policy: Policy, i: nat): seq<int>
    requires 0 < i < |policy|
  {
    var x := -MissedAge(policy, i);
    Countdown(0, |policy| - 1 - i) + [x, x - 1]
  }

  lemma {:induction false} MissedIsRejected(policy: Policy, i: nat)
    requires Ordered(policy) && 0 < i < |policy|
    ensures
      var times, x := MissedTimes(policy, i), -MissedAge(policy, i);
      times != [] && times[0] == 0 && Decreasing(times) && x in Reject(policy, 0, times)
      && forall y :: y in times && y > x ==> y >= -(|policy| - 1 - i)
  {
    hide Walk, MissedAge;
    var rules, m, x := Reverse(policy), |policy| - 1 - i, -MissedAge(policy, i);
    var times := MissedTimes(policy, i);
    FewRules(policy);
    ReverseOrdered(policy);
    forall j | m < j < |rules| ensures !rules[j].duration.Unlimited? && -x >= AsDelta(rules[j].duration).value {
      MissedIsOld(policy, i, |policy| - 1 - j);
    }
    MissedIsOld(policy, i, 0);
    assert rules[|rules| - 1] == policy[0];
    AtLeastAMinute(policy[0].duration);
    assert times[0] == 0 && times[1..] == Countdown(1, m) + [x, x - 1];
    CountdownDescends(1, m, x);
    RecentArePromoted(rules, 0, m, x);
  }

  lemma {:induction false} AtLeastAMinute(span: Span)
    ensures !span.Unlimited? ==> AsDelta(span).value >= MINUTE
  {
  }

  lemma {:induction false} MissedIsNotStoodFor(policy: Policy, i: nat)
    requires Ordered(policy) && 0 < i < |policy| && !WantsOne(policy[i])
    ensures !Honoured(policy)
  {
    hide Reject, MissedAge, MissedTimes, TooClose, Covers, WantsOne;
    var times, x := MissedTimes(policy, i), -MissedAge(policy, i);
    MissedIsRejected(policy, i);
    MissedIsFar(policy, i, 0);
    forall newer | newer in Survivors(policy, 0, times) && newer > x ensures !TooClose(policy[i], newer, x) {
      MissedIsFar(policy, i, newer);
    }
    Dishonours(policy, 0, times, x, i);
  }

  /**
   A policy ordered by duration keeps for each rule what that rule promises, at
   every moment and for all times, exactly if no rule but the first wants more
   than one checkpoint within its duration.
   */
  lemma {:induction false} HonouredExactly(policy: Policy)
    requires Ordered(policy)
    ensures Honoured(policy) <==> OnlyFirstSpaces(policy)
  {
    hide WantsOne, HonouredAt, Decreasing;
    if OnlyFirstSpaces(policy) {
      forall now, times: seq<int> | times != [] && Decreasing(times) && times[0] <= now ensures HonouredAt(policy, now, times) {
        OrderedAndSpacedHonours(policy, now, times);
      }
    } else {
      var i :| 0 < i < |policy| && !WantsOne(policy[i]);
      MissedIsNotStoodFor(policy, i);
    }
  }

  lemma {:induction false} NotStoodFor(rule: Rule, kept: seq<int>, now: int, a: int, b: int, c: int)
    requires (forall y :: y in kept ==> y in [now, a, b, c]) && now > a > b > c && !TooClose(rule, a, b)
    ensures !StoodFor(rule, kept, b)
  {
  }

  lemma {:induction false} Dishonours(policy: Policy, now: int, times: seq<int>, x: int, i: nat)
    requires x in Reject(policy, now, times) && i < |policy| && Covers(now, policy[i], x)
    requires !StoodFor(policy[i], Survivors(policy, now, times), x)
    ensures !HonouredAt(policy, now, times)
  {
  }

  /**
   With the policy 4h:1h,2D:12h a time 16 hours old is rejected although the
   second rule covers it and the nearest newer survivor is 15 hours away.
   */
  lemma {:induction false} SecondRuleIsNotHonoured(now: int)
    ensures
      var policy := [Rule(Hour(4), Hour(1)), Rule(Day(2), Hour(12))];
      var times := [now, now - HOUR, now - 16 * HOUR, now - 30 * HOUR];
      && Reject(policy, now, times) == [now - 16 * HOUR]
      && Covers(now, policy[1], now - 16 * HOUR)
      && !TooClose(policy[1], now - HOUR, now - 16 * HOUR)
      && !HonouredAt(policy, now, times)
  {
    var shorter, longer := Rule(Hour(4), Hour(1)), Rule(Day(2), Hour(12));
    var rules := [longer, shorter];
    assert [shorter, longer][1..] == [longer];
    assert Reverse([longer]) == [longer];
    assert Reverse([shorter, longer]) == rules;
    var a, b, c := now - HOUR, now - 16 * HOUR, now - 30 * HOUR;
    assert [now, a, b, c][1..] == [a, b, c] && [a, b, c][1..] == [b, c] && [b, c][1..] == [c] && [c][1..] == [];
    assert Walk(now, rules, 1, c, []) == [];
    assert Walk(now, rules, 1, b, [c]) == [b];
    assert Walk(now, rules, 1, a, [b, c]) == [b];
    assert Walk(now, rules, 0, now, [a, b, c]) == [b];
    NotStoodFor(longer, Survivors([shorter, longer], now, [now, a, b, c]), now, a, b, c);
    Dishonours([shorter, longer], now, [now, a, b, c], b, 1);
  }
}
