/**
 The oldest checkpoint.  A cull keeps it although it lies outside every
 duration, and this module says exactly when, and what else is kept.
 */
module RetentionOldest {
  import opened Wrappers
  import opened Retention
  import opened RetentionProofs

  function Oldest(last: int, times: seq<int>): int {
    if times == [] then last else times[|times| - 1]
  }

  function LastOf(times: seq<int>): int
    requires times != []
  {
    times[|times| - 1]
  }

  lemma {:induction false} OlderThan(now: int, rule: Rule, last: int, time: int)
    requires time <= last
    ensures TooOld(now, rule, last) ==> TooOld(now, rule, time)
    ensures forall newer :: FarEnough(rule, newer, last) ==> FarEnough(rule, newer, time)
  {
  }

  lemma {:induction false} OldestIsLast(last: int, times: seq<int>)
    requires Descends(last, times)
    ensures Oldest(last, times) <= last
    decreases times
  {
    if times != [] {
      OldestIsLast(times[0], times[1..]);
    }
  }

  /** Once the last kept time is too old, only the oldest time is left. */
  lemma {:induction false} OldKeepsOldest(now: int, rules: seq<Rule>, cursor: nat, last: int, times: seq<int>)
    requires cursor < |rules| && Descends(last, times) && TooOld(now, rules[cursor], last)
    ensures Keep(now, rules, cursor, last, times) == [Oldest(last, times)]
    decreases times
  {
    if times != [] {
      OldKeepsOldest(now, rules, cursor, times[0], times[1..]);
    }
  }

  // ---------- One rule ----------

  /** The times within the duration of a rule; they come first. */
  function Recent(now: int, rule: Rule, times: seq<int>): seq<int> {
    if times == [] || TooOld(now, rule, times[0]) then []
    else [times[0]] + Recent(now, rule, times[1..])
  }

  lemma {:induction false} RecentDescends(now: int, rule: Rule, last: int, times: seq<int>)
    requires Descends(last, times)
    ensures Descends(last, Recent(now, rule, times))
    ensures forall x :: x in Recent(now, rule, times) ==> x in times && !TooOld(now, rule, x)
    decreases times
  {
    if times != [] {
      RecentDescends(now, rule, times[0], times[1..]);
      assert forall x :: x in times[1..] ==> x in times;
    }
  }

  lemma {:induction false} OldTail(now: int, rule: Rule, last: int, times: seq<int>)
    requires Descends(last, times) && times != [] && TooOld(now, rule, times[0])
    ensures TooOld(now, rule, Oldest(last, times))
    ensures Keep(now, [rule], 0, last, times)
         == if TooOld(now, rule, last) then [Oldest(last, times)]
            else [last] + if FarEnough(rule, last, Oldest(last, times)) then [Oldest(last, times)] else []
    decreases times
  {
    var t, rest := times[0], times[1..];
    OldestIsLast(t, rest);
    assert Oldest(last, times) == Oldest(t, rest);
    OlderThan(now, rule, t, Oldest(t, rest));
    if TooOld(now, rule, last) {
      OldKeepsOldest(now, [rule], 0, last, times);
    } else if FarEnough(rule, last, t) {
      OldKeepsOldest(now, [rule], 0, t, rest);
    } else if rest != [] {
      DescendsBelow(last, times);
      OlderThan(now, rule, t, rest[0]);
      OldTail(now, rule, last, rest);
    }
  }

  /**
   What one rule keeps: what it keeps of the times within its duration, and the
   oldest time if that is too old but far enough from the last of these.
   */
  lemma {:induction false} OneRuleKeeps(now: int, rule: Rule, last: int, times: seq<int>)
    requires Descends(last, times) && !TooOld(now, rule, last)
    ensures
      var recent, oldest := Keep(now, [rule], 0, last, Recent(now, rule, times)), Oldest(last, times);
      Keep(now, [rule], 0, last, times)
      == recent + if TooOld(now, rule, oldest) && FarEnough(rule, LastOf(recent), oldest) then [oldest] else []
    decreases times
  {
    if times == [] {
    } else if TooOld(now, rule, times[0]) {
      OldTail(now, rule, last, times);
    } else {
      var t, rest := times[0], times[1..];
      DescendsBelow(last, times);
      var young := Recent(now, rule, rest);
      assert Recent(now, rule, times) == [t] + young && ([t] + young)[1..] == young;
      if FarEnough(rule, last, t) {
        OneRuleKeeps(now, rule, t, rest);
        var later := Keep(now, [rule], 0, t, young);
        assert LastOf([last] + later) == LastOf(later);
      } else {
        OneRuleKeeps(now, rule, last, rest);
      }
    }
  }

  /** The last survivor is too old exactly if the oldest time is and is far enough from what is kept within the duration. */
  lemma {:induction false} LastSurvivorIsTooOld(now: int, rule: Rule, last: int, times: seq<int>)
    requires Descends(last, times) && !TooOld(now, rule, last)
    ensures
      var recent, oldest := Keep(now, [rule], 0, last, Recent(now, rule, times)), Oldest(last, times);
      TooOld(now, rule, LastOf(Keep(now, [rule], 0, last, times)))
      <==> TooOld(now, rule, oldest) && FarEnough(rule, LastOf(recent), oldest)
  {
    OneRuleKeeps(now, rule, last, times);
    RecentDescends(now, rule, last, times);
    var recent := Keep(now, [rule], 0, last, Recent(now, rule, times));
    assert LastOf(recent) in recent;
  }

  // ---------- A policy ----------

  lemma {:induction false} GovernedIs(now: int, rule: Rule, last: int, times: seq<int>, promoted: nat)
    requires promoted <= |times|
    ensures
      var all := [last] + times;
      Governed(now, rule, last, times, promoted) == all[..promoted] + Keep(now, [rule], 0, all[promoted], times[promoted..])
    decreases promoted
  {
    var all := [last] + times;
    if promoted == 0 {
      assert times[0..] == times && all[..0] == [];
    } else {
      var rest := times[1..];
      GovernedIs(now, rule, times[0], rest, promoted - 1);
      assert [times[0]] + rest == times;
      assert all[..promoted] == [last] + times[..promoted - 1];
      assert rest[promoted - 1..] == times[promoted..];
    }
  }

  /** The time the governing rule starts from is within its duration if the newest is within that of the longest. */
  lemma {:induction false} GovernorStartsYoung(now: int, rules: seq<Rule>, cursor: nat, last: int, times: seq<int>)
    requires cursor < |rules| && Descends(last, times) && !TooOld(now, rules[cursor], last)
    ensures
      var (promoted, governing) := Governor(now, rules, cursor, last, times);
      !TooOld(now, rules[governing], ([last] + times)[promoted])
    decreases |times| + |rules| - cursor
  {
    if times != [] {
      var t, rest := times[0], times[1..];
      DescendsBelow(last, times);
      AdvanceKeepsYoung(now, rules, cursor, last, t);
      var p := Advance(now, rules, cursor, last, t);
      if p.Moved? {
        if p.promoted {
          GovernorStartsYoung(now, rules, p.cursor, t, rest);
          assert [t] + rest == times;
          var promoted := Governor(now, rules, p.cursor, t, rest).0;
          assert ([last] + times)[promoted + 1] == times[promoted];
        } else {
          GovernorStartsYoung(now, rules, p.cursor, last, times);
        }
      }
    }
  }

  /** The governing rule of a policy and the number of times promoted before it. */
  function GovernorOf(policy: Policy, now: int, times: seq<int>): (r: (nat, Rule))
    requires policy != [] && times != []
    ensures r.0 < |times|
  {
    var rules := Reverse(policy);
    var (promoted, governing) := Governor(now, rules, 0, times[0], times[1..]);
    (promoted, rules[governing])
  }

  /** What is kept of the promoted times and those within the duration of the governing rule. */
  function KeptRecent(policy: Policy, now: int, times: seq<int>): (kept: seq<int>)
    requires policy != [] && times != []
    ensures kept != []
  {
    var (promoted, rule) := GovernorOf(policy, now, times);
    times[..promoted] + Keep(now, [rule], 0, times[promoted], Recent(now, rule, times[promoted + 1..]))
  }

  lemma {:induction false} DescendsFrom(times: seq<int>, i: nat)
    requires Decreasing(times) && i < |times|
    ensures Descends(times[i], times[i + 1..]) && times[i] <= times[0]
    ensures forall j :: 0 <= j < i ==> times[j] > times[i]
    decreases i
  {
    if i > 0 {
      var rest := times[1..];
      assert Descends(times[0], rest);
      DescendsBelow(times[0], rest);
      DescendsFrom(rest, i - 1);
      assert rest[i - 1] == times[i] && rest[i..] == times[i + 1..];
      forall j | 0 <= j < i ensures times[j] > times[i] {
        if j > 0 {
          assert times[j] == rest[j - 1];
        } else {
          assert times[i] in rest;
        }
      }
    }
  }

  lemma {:induction false} Assemble(front: seq<int>, recent: seq<int>, tail: seq<int>)
    requires recent != []
    ensures front + (recent + tail) == (front + recent) + tail && LastOf(front + recent) == LastOf(recent)
  {
  }

  lemma {:induction false} YoungKeeps(policy: Policy, now: int, times: seq<int>)
    requires policy != [] && times != [] && Decreasing(times) && !TooOld(now, Reverse(policy)[0], times[0])
    ensures
      var rule, recent, oldest := GovernorOf(policy, now, times).1, KeptRecent(policy, now, times), LastOf(times);
      Keep(now, Reverse(policy), 0, times[0], times[1..])
      == recent + if TooOld(now, rule, oldest) && FarEnough(rule, LastOf(recent), oldest) then [oldest] else []
  {
    hide Keep, Governor, TooOld, FarEnough, Governed, Recent, Decreasing, Descends;
    var rules := Reverse(policy);
    var newest, rest := times[0], times[1..];
    assert [newest] + rest == times;
    var (promoted, rule) := GovernorOf(policy, now, times);
    DescendsFrom(times, 0);
    OneRuleGoverns(now, rules, 0, newest, rest);
    GovernedIs(now, rule, newest, rest, promoted);
    GovernorStartsYoung(now, rules, 0, newest, rest);
    DescendsFrom(times, promoted);
    var start, later := times[promoted], times[promoted + 1..];
    assert rest[promoted..] == later;
    OneRuleKeeps(now, rule, start, later);
    var recent := Keep(now, [rule], 0, start, Recent(now, rule, later));
    var oldest := LastOf(times);
    assert Oldest(start, later) == oldest;
    var tail := if TooOld(now, rule, oldest) && FarEnough(rule, LastOf(recent), oldest) then [oldest] else [];
    Assemble(times[..promoted], recent, tail);
  }

  /**
   The survivors of a policy, exactly: the oldest time alone if even the newest
   is too old for the longest rule, and otherwise what is kept within the
   duration of the governing rule and, if it is too old but far enough from
   that, the oldest time.
   */
  lemma {:induction false} SurvivorsExactly(policy: Policy, now: int, times: seq<int>)
    requires policy != [] && times != [] && Decreasing(times)
    ensures
      var rule, recent, oldest := GovernorOf(policy, now, times).1, KeptRecent(policy, now, times), LastOf(times);
      Survivors(policy, now, times) ==
        if TooOld(now, LastRule(policy), times[0]) then [oldest]
        else recent + if TooOld(now, rule, oldest) && FarEnough(rule, LastOf(recent), oldest) then [oldest] else []
  {
    var rules := Reverse(policy);
    var newest, rest := times[0], times[1..];
    assert [newest] + rest == times;
    Partition(now, rules, 0, newest, rest);
    if TooOld(now, rules[0], newest) {
      OldKeepsOldest(now, rules, 0, newest, rest);
    } else {
      hide Keep, GovernorOf, KeptRecent, TooOld, FarEnough;
      YoungKeeps(policy, now, times);
    }
  }

  function LastRule(policy: Policy): (rule: Rule)
    requires policy != []
    ensures rule == Reverse(policy)[0]
  {
    policy[|policy| - 1]
  }

  /** A duration that is at least another; an unlimited one is at least every. */
  predicate AtLeast(a: Span, b: Span) {
    a.Unlimited? || (!b.Unlimited? && AsDelta(a).value >= AsDelta(b).value)
  }

  /** No rule of the policy has a longer duration than the last. */
  predicate LongestIsLast(policy: Policy)
    requires policy != []
  {
    forall i :: 0 <= i < |policy| ==> AtLeast(LastRule(policy).duration, policy[i].duration)
  }

  lemma {:induction false} RecentIsRecent(policy: Policy, now: int, times: seq<int>)
    requires policy != [] && times != [] && Decreasing(times) && !TooOld(now, LastRule(policy), times[0])
    ensures forall x :: x in KeptRecent(policy, now, times) ==> !TooOld(now, GovernorOf(policy, now, times).1, x)
  {
    hide Keep, Governor;
    var rules := Reverse(policy);
    var newest, rest := times[0], times[1..];
    assert [newest] + rest == times;
    var (promoted, rule) := GovernorOf(policy, now, times);
    GovernorStartsYoung(now, rules, 0, newest, rest);
    DescendsFrom(times, promoted);
    RecentDescends(now, rule, times[promoted], times[promoted + 1..]);
    forall x | x in times[..promoted] ensures !TooOld(now, rule, x) {
      OlderThan(now, rule, x, times[promoted]);
    }
  }

  lemma {:induction false} LongerIsYounger(now: int, rule: Rule, longer: Rule, x: int)
    requires AtLeast(longer.duration, rule.duration) && TooOld(now, longer, x)
    ensures TooOld(now, rule, x)
  {
  }

  /**
   A cull leaves a time outside the longest duration exactly if the oldest time
   is outside and either the newest is too or the oldest is far enough, for the
   governing rule, from what is kept within its duration.
   */
  lemma {:induction false} OldestIsKeptExactly(policy: Policy, now: int, times: seq<int>)
    requires policy != [] && times != [] && Decreasing(times) && LongestIsLast(policy)
    ensures
      var longest, oldest := LastRule(policy), LastOf(times);
      (exists x :: x in Survivors(policy, now, times) && TooOld(now, longest, x))
      <==>
      TooOld(now, longest, oldest)
      && (TooOld(now, longest, times[0])
          || FarEnough(GovernorOf(policy, now, times).1, LastOf(KeptRecent(policy, now, times)), oldest))
  {
    var longest, oldest := LastRule(policy), LastOf(times);
    var rule := GovernorOf(policy, now, times).1;
    SurvivorsExactly(policy, now, times);
    GovernorIsRule(policy, now, times);
    hide TooOld, FarEnough, KeptRecent, Survivors, GovernorOf;
    var kept := Survivors(policy, now, times);
    if TooOld(now, longest, times[0]) {
      DescendsFrom(times, |times| - 1);
      OlderThan(now, longest, times[0], oldest);
      assert oldest in kept;
    } else {
      RecentIsRecent(policy, now, times);
      forall x | x in KeptRecent(policy, now, times) ensures !TooOld(now, longest, x) {
        if TooOld(now, longest, x) {
          LongerIsYounger(now, rule, longest, x);
        }
      }
      if TooOld(now, longest, oldest) {
        LongerIsYounger(now, rule, longest, oldest);
        if FarEnough(rule, LastOf(KeptRecent(policy, now, times)), oldest) {
          assert oldest in kept;
        }
      }
    }
  }

  lemma {:induction false} GovernorIsRule(policy: Policy, now: int, times: seq<int>)
    requires policy != [] && times != [] && LongestIsLast(policy)
    ensures AtLeast(LastRule(policy).duration, GovernorOf(policy, now, times).1.duration)
  {
    var g := Governor(now, Reverse(policy), 0, times[0], times[1..]).1;
    assert Reverse(policy)[g] == policy[|policy| - 1 - g];
  }

  /** With the policy 4h:1h a time five hours old is kept beside one of now. */
  lemma {:induction false} OldestIsKept(now: int)
    ensures
      var rule := Rule(Hour(4), Hour(1));
      TooOld(now, rule, now - 5 * HOUR) && Reject([rule], now, [now, now - 5 * HOUR]) == []
  {
    var rule := Rule(Hour(4), Hour(1));
    var time := now - 5 * HOUR;
    assert Reverse([rule]) == [rule];
    assert [now, time][1..] == [time] && [time][1..] == [];
    assert Walk(now, [rule], 0, time, []) == [];
  }
}
