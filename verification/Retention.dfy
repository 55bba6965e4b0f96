/**
 Checkpoint retention policies: which checkpoint times a policy rejects.

 Times and durations are integers counted in nanoseconds, the resolution of
 the clock the control plane uses.  The walk over rules and times is given
 twice: as the nested loops of the program (RejectWithTime) and as the
 recursive function Walk, which the properties in RetentionProofs are about.
 */
module Retention {
  import opened Wrappers

  // ---------- Spans, rules and policies ----------

  type NonZeroU8 = n: int | 1 <= n <= 255 witness 1

  datatype Span =
    | Unlimited
    | Minute(n: NonZeroU8)
    | Hour(n: NonZeroU8)
    | Day(n: NonZeroU8)
    | Week(n: NonZeroU8)
    | Month(n: NonZeroU8)
    | Year(n: NonZeroU8)

  const SECOND := 1_000_000_000
  const MINUTE := 60 * SECOND
  const HOUR := 60 * MINUTE
  const DAY := 24 * HOUR

  /** The length of a span; an unlimited span has none. */
  function AsDelta(span: Span): (delta: Option<int>)
    ensures delta.None? <==> span.Unlimited?
    ensures delta.Some? ==> delta.value >= MINUTE
  {
    match span
    case Unlimited => None
    case Minute(n) => Some(n * MINUTE)
    case Hour(n) => Some(n * HOUR)
    case Day(n) => Some(n * DAY)
    case Week(n) => Some(n * 7 * DAY)
    case Month(n) => Some(n * 30 * DAY)
    case Year(n) => Some(n * 365 * DAY)
  }

  /** The start of a span that ends now, in seconds. */
  function AsTimestamp(span: Span, now: int): Option<int> {
    match span
    case Unlimited => None
    case Minute(n) => Some(now - n * 60)
    case Hour(n) => Some(now - n * 3600)
    case Day(n) => Some(now - n * 3600 * 24)
    case Week(n) => Some(now - n * 3600 * 24 * 7)
    case Month(n) => Some(now - n * 3600 * 24 * 30)
    case Year(n) => Some(now - n * 3600 * 24 * 365)
  }

  /** The two lengths the program gives a span are the same. */
  lemma {:induction false} LengthsAgree(span: Span, now: int)
    ensures AsTimestamp(span, now).None? <==> AsDelta(span).None?
    ensures AsTimestamp(span, now).Some? ==> AsDelta(span).value == (now - AsTimestamp(span, now).value) * SECOND
  {
  }

  datatype Rule = Rule(duration: Span, keep: Span)

  type Policy = seq<Rule>

  /** Whether enough time has passed since the last checkpoint to create a new one. */
  predicate IsReady(policy: Policy, newTime: int, lastTime: int) {
    policy != [] &&
    match AsDelta(policy[0].keep)
    case None => true
    case Some(keep) => newTime - lastTime >= keep
  }

  // ---------- Newest-to-oldest order ----------

  predicate NonIncreasing(times: seq<int>) {
    forall i, j :: 0 <= i < j < |times| ==> times[i] >= times[j]
  }

  /** `times` are all older than `last`, newest first and without repeats. */
  predicate Descends(last: int, times: seq<int>)
    decreases times
  {
    times != [] ==> times[0] < last && Descends(times[0], times[1..])
  }

  predicate Decreasing(times: seq<int>) {
    times != [] ==> Descends(times[0], times[1..])
  }

  function Insert(time: int, sorted: seq<int>): (r: seq<int>)
    requires NonIncreasing(sorted)
    ensures NonIncreasing(r)
    ensures |r| == |sorted| + 1
    ensures r[0] == if sorted == [] || time >= sorted[0] then time else sorted[0]
  {
    if sorted == [] || time >= sorted[0] then
      [time] + sorted
    else
      [sorted[0]] + Insert(time, sorted[1..])
  }

  lemma {:induction false} InsertKeepsTimes(time: int, sorted: seq<int>)
    requires NonIncreasing(sorted)
    ensures multiset(Insert(time, sorted)) == multiset(sorted) + multiset{time}
  {
    if sorted != [] {
      assert sorted == [sorted[0]] + sorted[1..];
      if time < sorted[0] {
        InsertKeepsTimes(time, sorted[1..]);
      }
    }
  }

  /** All times, newest first: the order in which the heap hands them out once reversed. */
  function NewestFirst(times: seq<int>): (r: seq<int>)
    ensures NonIncreasing(r)
    ensures |r| == |times|
  {
    if times == [] then [] else Insert(times[0], NewestFirst(times[1..]))
  }

  lemma {:induction false} NewestFirstKeepsTimes(times: seq<int>)
    ensures multiset(NewestFirst(times)) == multiset(times)
  {
    if times != [] {
      assert times == [times[0]] + times[1..];
      NewestFirstKeepsTimes(times[1..]);
      InsertKeepsTimes(times[0], NewestFirst(times[1..]));
    }
  }

  /** The rules of a policy, last first. */
  function Reverse(policy: Policy): (r: seq<Rule>)
    ensures |r| == |policy|
    ensures forall i :: 0 <= i < |policy| ==> r[i] == policy[|policy| - 1 - i]
  {
    if policy == [] then [] else Reverse(policy[1..]) + [policy[0]]
  }

  // ---------- The walk ----------

  /** Step 3: the last kept time is outside the duration of the current rule. */
  predicate TooOld(now: int, rule: Rule, last: int) {
    var duration := AsDelta(rule.duration);
    duration.Some? && now - last > duration.value
  }

  /**
   Outcome of the inner rule-skipping loop: the cursor either settles on a
   rule, or moves to it and starts the next round of the outer loop, having
   promoted the current time to last kept time or not.
   */
  datatype Progress =
    | Settled(cursor: nat)
    | Moved(cursor: nat, promoted: bool)

  /** The next rule is passed over if it has the duration of the one before it or none. */
  predicate PassedOver(rules: seq<Rule>, i: nat)
    requires 0 < i < |rules|
  {
    rules[i - 1].duration == rules[i].duration || rules[i].duration.Unlimited?
  }

  /** A moment is within the duration of a limited rule. */
  predicate Within(now: int, rule: Rule, time: int) {
    var duration := AsDelta(rule.duration);
    duration.Some? && now - time < duration.value
  }

  /** Step 4: `rules` in the order they are walked, `cursor` at the current one. */
  function Advance(now: int, rules: seq<Rule>, cursor: nat, last: int, time: int): (p: Progress)
    requires cursor < |rules|
    ensures cursor <= p.cursor < |rules|
    ensures p.Moved? ==> cursor < p.cursor
    decreases |rules| - cursor
  {
    if cursor + 1 == |rules| then
      Settled(cursor)
    else
      var next := rules[cursor + 1].duration;
      if rules[cursor].duration == next || next.Unlimited? then
        Advance(now, rules, cursor + 1, last, time)
      else
        var duration := AsDelta(next).value;
        if now - time >= duration && now - last >= duration then
          Settled(cursor)
        else
          Moved(cursor + 1, now - time < duration)
  }

  /**
   The cursor passes rules over until one that counts: it moves there if the
   current time or the last kept one is within its duration, promoting the
   current time exactly if that is, and settles before it otherwise.
   */
  lemma {:induction false} AdvanceMeans(now: int, rules: seq<Rule>, cursor: nat, last: int, time: int, p: Progress)
    requires cursor < |rules| && p == Advance(now, rules, cursor, last, time)
    ensures forall i :: cursor < i <= p.cursor ==> PassedOver(rules, i) || (p.Moved? && i == p.cursor)
    ensures p.Moved? ==> !PassedOver(rules, p.cursor)
    ensures p.Moved? ==> (p.promoted <==> Within(now, rules[p.cursor], time))
    ensures p.Moved? ==> Within(now, rules[p.cursor], time) || Within(now, rules[p.cursor], last)
    ensures p.Settled? && p.cursor + 1 < |rules| ==> !PassedOver(rules, p.cursor + 1)
    ensures p.Settled? && p.cursor + 1 < |rules| ==>
      !Within(now, rules[p.cursor + 1], time) && !Within(now, rules[p.cursor + 1], last)
    decreases |rules| - cursor
  {
    hide AsDelta;
    if cursor + 1 < |rules| && PassedOver(rules, cursor + 1) {
      AdvanceMeans(now, rules, cursor + 1, last, time, p);
    }
  }

  /** Step 5 reversed: `time` is far enough from the last kept time, or the rule keeps everything. */
  predicate FarEnough(rule: Rule, last: int, time: int) {
    var keep := AsDelta(rule.keep);
    keep.Some? ==> last - time >= keep.value
  }

  /** The times rejected from `last` and the remaining `times`, in the order they are rejected. */
  function Walk(now: int, rules: seq<Rule>, cursor: nat, last: int, times: seq<int>): (rejected: seq<int>)
    requires cursor < |rules|
    decreases |times| + |rules| - cursor
  {
    if times == [] then
      []
    else if TooOld(now, rules[cursor], last) then
      [last] + Walk(now, rules, cursor, times[0], times[1..])
    else
      match Advance(now, rules, cursor, last, times[0])
      case Moved(next, promoted) =>
        if promoted then
          Walk(now, rules, next, times[0], times[1..])
        else
          Walk(now, rules, next, last, times)
      case Settled(next) =>
        if FarEnough(rules[next], last, times[0]) then
          Walk(now, rules, next, times[0], times[1..])
        else
          [times[0]] + Walk(now, rules, next, last, times[1..])
  }

  /** The times a policy rejects, given newest first. */
  function Reject(policy: Policy, now: int, newestFirst: seq<int>): seq<int> {
    if policy == [] || newestFirst == [] then
      []
    else
      Walk(now, Reverse(policy), 0, newestFirst[0], newestFirst[1..])
  }

  lemma {:induction false} Regroup(done: seq<int>, x: int, rest: seq<int>)
    ensures done + ([x] + rest) == (done + [x]) + rest
  {
  }

  /** The inner loop of the program, which moves the rule cursor. */
  method SkipRules(now: int, rules: seq<Rule>, cursor: nat, last: int, time: int) returns (p: Progress)
    requires cursor < |rules|
    ensures p == Advance(now, rules, cursor, last, time)
  {
    var delta := now - time;
    var lastDelta := now - last;
    var r := cursor + 1; // position of the rule iterator
    while r < |rules|
      invariant cursor < r <= |rules|
      invariant Advance(now, rules, r - 1, last, time) == Advance(now, rules, cursor, last, time)
    {
      var next := rules[r].duration;
      if rules[r - 1].duration == next || next == Unlimited {
        r := r + 1;
        continue;
      }
      var nextDuration := AsDelta(next).value;
      if delta >= nextDuration && lastDelta >= nextDuration {
        break;
      }
      return Moved(r, delta < nextDuration);
    }
    return Settled(r - 1);
  }

  /** The outer loop of the program. */
  method RejectWithTime(policy: Policy, now: int, unordered: seq<int>) returns (rejected: seq<int>)
    ensures rejected == Reject(policy, now, NewestFirst(unordered))
  {
    if policy == [] || unordered == [] {
      return [];
    }
    rejected := [];
    var rules := Reverse(policy);
    var times := NewestFirst(unordered);
    var cursor: nat, t: nat := 0, 1;
    var lastKept := times[0];
    ghost var all := Reject(policy, now, times);
    while t < |times|
      invariant cursor < |rules| && 1 <= t <= |times|
      invariant rejected + Walk(now, rules, cursor, lastKept, times[t..]) == all
      decreases |times| - t + |rules| - cursor
    {
      var time := times[t];
      ghost var rest := times[t + 1..];
      assert times[t..][0] == time && times[t..][1..] == rest;
      if TooOld(now, rules[cursor], lastKept) {
        Regroup(rejected, lastKept, Walk(now, rules, cursor, time, rest));
        rejected := rejected + [lastKept];
        lastKept := time;
        t := t + 1;
        continue;
      }
      var step := SkipRules(now, rules, cursor, lastKept, time);
      cursor := step.cursor;
      if step.Moved? {
        if step.promoted {
          lastKept := time;
          t := t + 1;
        }
        continue;
      }
      if !FarEnough(rules[cursor], lastKept, time) {
        Regroup(rejected, time, Walk(now, rules, cursor, lastKept, rest));
        rejected := rejected + [time];
        t := t + 1;
        continue;
      }
      lastKept := time;
      t := t + 1;
    }
  }
}
