/**
 The checkpoint manager: polling the ledger for a new checkpoint and culling
 the checkpoints its retention policy no longer needs.

 Reading the ledger and the success of writing a file are parameters of a
 poll.  A run of the manager is a sequence of polls on an empty manager.
 */
module Manager {
  import opened Wrappers
  import opened Retention
  import opened RetentionProofs

  datatype Header = Header(height: nat, timestamp: int)

  /** Block timestamps are seconds; times are nanoseconds. */
  function TimeOf(header: Header): int {
    header.timestamp * SECOND
  }

  type Checkpoints = map<int, Header>

  datatype Observation = Observation(header: Header, written: bool)

  datatype PollError = WriteFailed

  // ---------- The times of a manager, newest first ----------

  ghost predicate IsLatest(times: set<int>, t: int) {
    t in times && forall x :: x in times ==> x <= t
  }

  lemma {:induction false} LatestExists(times: set<int>)
    requires times != {}
    ensures exists t :: IsLatest(times, t)
  {
    var t := Member(times);
    if times != {t} {
      var others := times - {t};
      LatestExists(others);
      var u :| IsLatest(others, u);
      assert forall x :: x in times ==> x == t || x in others;
      assert IsLatest(times, if t > u then t else u);
    } else {
      assert IsLatest(times, t);
    }
  }

  ghost function Ordered(times: set<int>): (s: seq<int>)
    ensures Decreasing(s) && |s| == |times|
    ensures forall x :: x in s <==> x in times
  {
    if times == {} then
      []
    else
      LatestExists(times);
      var t :| IsLatest(times, t);
      var rest := Ordered(times - {t});
      DecreasingCons(t, rest);
      [t] + rest
  }

  lemma {:induction false} FirstMember(s: seq<int>) returns (x: int)
    requires s != []
    ensures x in s && x == s[0]
  {
    x := s[0];
  }

  /** There is only one newest-to-oldest list of a set of times. */
  lemma {:induction false} OrderedUnique(a: seq<int>, b: seq<int>)
    requires Decreasing(a) && Decreasing(b)
    requires forall x :: x in a <==> x in b
    ensures a == b
  {
    if a != [] {
      var _ := FirstMember(a);
    }
    if b != [] {
      var _ := FirstMember(b);
    }
    if a != [] && b != [] {
      DescendsBelow(a[0], a[1..]);
      DescendsBelow(b[0], b[1..]);
      assert a == [a[0]] + a[1..] && b == [b[0]] + b[1..];
      assert a[0] in b && b[0] in a;
      assert a[0] == b[0];
      forall x
        ensures x in a[1..] <==> x in b[1..]
      {
        assert x in a[1..] ==> x in b;
        assert x in b[1..] ==> x in a;
      }
      OrderedUnique(a[1..], b[1..]);
    }
  }

  predicate Distinct(s: seq<int>) {
    s != [] ==> s[0] !in s[1..] && Distinct(s[1..])
  }

  lemma {:induction false} InsertDecreasing(time: int, sorted: seq<int>)
    requires NonIncreasing(sorted) && Decreasing(sorted) && time !in sorted
    ensures Decreasing(Insert(time, sorted))
    ensures forall x :: x in Insert(time, sorted) <==> x == time || x in sorted
  {
    if sorted != [] {
      var head, tail := sorted[0], sorted[1..];
      assert sorted == [head] + tail;
      assert head in sorted;
      DescendsBelow(head, tail);
      if time > head {
        DecreasingCons(time, sorted);
      } else {
        InsertDecreasing(time, tail);
        DecreasingCons(head, Insert(time, tail));
      }
    }
  }

  lemma {:induction false} NewestFirstDecreasing(unordered: seq<int>)
    requires Distinct(unordered)
    ensures Decreasing(NewestFirst(unordered))
    ensures forall x :: x in NewestFirst(unordered) <==> x in unordered
  {
    if unordered != [] {
      assert unordered == [unordered[0]] + unordered[1..];
      NewestFirstDecreasing(unordered[1..]);
      InsertDecreasing(unordered[0], NewestFirst(unordered[1..]));
    }
  }

  /** Sorting distinct times gives the newest-to-oldest list of their set. */
  lemma {:induction false} SortedIsOrdered(unordered: seq<int>, times: set<int>)
    requires Distinct(unordered) && forall x :: x in unordered <==> x in times
    ensures NewestFirst(unordered) == Ordered(times)
  {
    NewestFirstDecreasing(unordered);
    OrderedUnique(NewestFirst(unordered), Ordered(times));
  }

  // ---------- One poll ----------

  ghost predicate ReadyFor(policy: Policy, times: set<int>, time: int) {
    times != {} ==> IsReady(policy, time, Ordered(times)[0])
  }

  ghost function Elements(s: seq<int>): set<int> {
    set x | x in s
  }

  ghost function Cull(policy: Policy, now: int, checkpoints: Checkpoints): Checkpoints {
    checkpoints - Elements(Reject(policy, now, Ordered(checkpoints.Keys)))
  }

  lemma {:induction false} RemoveNone(m: Checkpoints, s: seq<int>)
    ensures m - Elements(s[..0]) == m
  {
    assert Elements(s[..0]) == {};
  }

  lemma {:induction false} RemoveOneMore(m: Checkpoints, s: seq<int>, i: nat)
    requires i < |s|
    ensures m - Elements(s[..i]) - {s[i]} == m - Elements(s[..i + 1])
  {
    assert Elements(s[..i + 1]) == Elements(s[..i]) + {s[i]};
  }

  ghost predicate Creates(policy: Policy, checkpoints: Checkpoints, poll: Observation) {
    ReadyFor(policy, checkpoints.Keys, TimeOf(poll.header)) && poll.header.height != 0 && poll.written
  }

  ghost function AfterPoll(policy: Policy, checkpoints: Checkpoints, poll: Observation): Checkpoints {
    var time := TimeOf(poll.header);
    if Creates(policy, checkpoints, poll) then
      Cull(policy, time, checkpoints[time := poll.header])
    else
      checkpoints
  }

  class CheckpointManager {
    const policy: Policy
    var checkpoints: Checkpoints

    constructor (policy: Policy)
      ensures this.policy == policy && checkpoints == map[]
    {
      this.policy := policy;
      checkpoints := map[];
    }

    /** The keys of the checkpoint map, each once. */
    method Times() returns (times: seq<int>)
      ensures Distinct(times) && forall x :: x in times <==> x in checkpoints.Keys
      ensures NewestFirst(times) == Ordered(checkpoints.Keys)
    {
      times := [];
      var left := checkpoints.Keys;
      while left != {}
        invariant Distinct(times) && left <= checkpoints.Keys
        invariant forall x :: x in times <==> x in checkpoints.Keys - left
        decreases left
      {
        ghost var _ := Member(left);
        var t :| t in left;
        times := [t] + times;
        left := left - {t};
      }
      SortedIsOrdered(times, checkpoints.Keys);
    }

    method Ready(time: int) returns (ready: bool)
      ensures ready <==> ReadyFor(policy, checkpoints.Keys, time)
    {
      if checkpoints == map[] {
        assert checkpoints.Keys == {};
        return true;
      }
      var times := Times();
      assert |NewestFirst(times)| == |checkpoints.Keys| > 0;
      ready := IsReady(policy, time, NewestFirst(times)[0]);
    }

    /** Remove the checkpoints that are no longer needed. */
    method CullTimestamp(now: int)
      modifies this`checkpoints
      ensures checkpoints == Cull(policy, now, old(checkpoints))
    {
      var times := Times();
      var rejected := RejectWithTime(policy, now, times);
      Remove(rejected);
    }

    method Remove(rejected: seq<int>)
      modifies this`checkpoints
      ensures checkpoints == old(checkpoints) - Elements(rejected)
    {
      ghost var before := checkpoints;
      RemoveNone(before, rejected);
      for i := 0 to |rejected|
        invariant checkpoints == before - Elements(rejected[..i])
      {
        RemoveOneMore(before, rejected, i);
        checkpoints := checkpoints - {rejected[i]};
      }
      assert rejected[..|rejected|] == rejected;
    }

    method Poll(header: Header, written: bool) returns (r: Result<bool, PollError>)
      modifies this`checkpoints
      ensures checkpoints == AfterPoll(policy, old(checkpoints), Observation(header, written))
      ensures r == Ok(true) <==> Creates(policy, old(checkpoints), Observation(header, written))
      ensures r.Err? ==> !written
    {
      var time := TimeOf(header);
      var ready := Ready(time);
      if !ready || header.height == 0 {
        return Ok(false);
      }
      if !written {
        return Err(WriteFailed);
      }
      checkpoints := checkpoints[time := header];
      CullTimestamp(time);
      return Ok(true);
    }
  }

  // ---------- Whole runs ----------

  ghost function Run(policy: Policy, polls: seq<Observation>): Checkpoints {
    if polls == [] then
      map[]
    else
      AfterPoll(policy, Run(policy, polls[..|polls| - 1]), polls[|polls| - 1])
  }

  /** Any two times are at least `gap` apart. */
  ghost predicate Spaced(times: set<int>, gap: int) {
    forall a, b :: a in times && b in times && a < b ==> b - a >= gap
  }

  lemma {:induction false} SpacedHasNoShortGaps(s: seq<int>, times: set<int>, gap: int)
    requires Decreasing(s) && Spaced(times, gap) && forall x :: x in s ==> x in times
    ensures ShortGaps(s, gap) == 0
  {
    if |s| >= 2 {
      assert s[0] in times && s[1] in times;
      assert s[1..][0] == s[1];
      assert forall x :: x in s[1..] ==> x in s;
      SpacedHasNoShortGaps(s[1..], times, gap);
    }
  }

  /** A cull at the newest time keeps it and leaves few, well spaced times. */
  lemma {:induction false} CullAtNewest(policy: Policy, checkpoints: Checkpoints, now: int, longest: int, gap: int)
    requires policy != [] && DurationsWithin(policy, longest) && gap > 0
    requires IsLatest(checkpoints.Keys, now) && Spaced(checkpoints.Keys, gap)
    ensures
      var culled := Cull(policy, now, checkpoints);
      && IsLatest(culled.Keys, now) && culled[now] == checkpoints[now]
      && Spaced(culled.Keys, gap)
      && |culled| <= longest / gap + 2
  {
    var times := Ordered(checkpoints.Keys);
    var rules := Reverse(policy);
    assert checkpoints.Keys != {};
    var last, rest := times[0], times[1..];
    assert times == [last] + rest;
    DescendsBelow(last, rest);
    assert last in checkpoints.Keys && now in times && now == last;
    Partition(now, rules, 0, last, rest);
    YoungIsKept(now, rules, 0, last, rest);
    KeepDescends(now, rules, 0, last, rest);
    OnlyOldestIsOld(now, rules, 0, last, rest, longest);
    var kept := Survivors(policy, now, times);
    var culled := Cull(policy, now, checkpoints);
    assert kept[0] in kept;
    SpacedHasNoShortGaps(kept, checkpoints.Keys, gap);
    assert AsDelta(policy[0].duration).value <= longest;
    FewSurvivors(now, kept, longest, gap, 0);
    forall x
      ensures x in kept <==> x in Ordered(culled.Keys)
    {
    }
    OrderedUnique(kept, Ordered(culled.Keys));
    assert |culled| == |culled.Keys| == |kept|;
  }

  lemma {:induction false} PollKeepsBound(policy: Policy, checkpoints: Checkpoints, poll: Observation, longest: int, gap: int)
    requires policy != [] && DurationsWithin(policy, longest) && AsDelta(policy[0].keep) == Some(gap)
    requires Spaced(checkpoints.Keys, gap) && Creates(policy, checkpoints, poll)
    ensures
      var culled := AfterPoll(policy, checkpoints, poll);
      var time := TimeOf(poll.header);
      && IsLatest(culled.Keys, time) && culled[time] == poll.header
      && Spaced(culled.Keys, gap)
      && |culled| <= longest / gap + 2
  {
    var time := TimeOf(poll.header);
    if checkpoints.Keys != {} {
      var times := Ordered(checkpoints.Keys);
      assert times == [times[0]] + times[1..];
      DescendsBelow(times[0], times[1..]);
      forall x | x in checkpoints.Keys
        ensures x <= time - gap
      {
        assert x in times;
      }
    }
    var inserted := checkpoints[time := poll.header];
    assert IsLatest(inserted.Keys, time);
    CullAtNewest(policy, inserted, time, longest, gap);
  }

  /**
   In every run, whatever the ledger reports: checkpoints stay at least the
   first rule's keep apart and never outnumber the bound, and a poll that
   creates a checkpoint does not delete it again.
   */
  lemma {:induction false} WholeRunBound(policy: Policy, polls: seq<Observation>, longest: int, gap: int)
    requires policy != [] && DurationsWithin(policy, longest) && AsDelta(policy[0].keep) == Some(gap)
    ensures
      var checkpoints := Run(policy, polls);
      Spaced(checkpoints.Keys, gap) && |checkpoints| <= longest / gap + 2
    ensures
      polls != [] && Creates(policy, Run(policy, polls[..|polls| - 1]), polls[|polls| - 1]) ==>
        var header := polls[|polls| - 1].header;
        var checkpoints := Run(policy, polls);
        IsLatest(checkpoints.Keys, TimeOf(header)) && checkpoints[TimeOf(header)] == header
  {
    if polls == [] {
      assert AsDelta(policy[0].duration).value <= longest;
      DivBound(0, longest, gap);
    } else {
      var before, poll := polls[..|polls| - 1], polls[|polls| - 1];
      WholeRunBound(policy, before, longest, gap);
      if Creates(policy, Run(policy, before), poll) {
        PollKeepsBound(policy, Run(policy, before), poll, longest, gap);
      }
    }
  }

  // ---------- Nothing stays due ----------

  /** A cull at a time that is not after the newest checkpoint keeps that one. */
  lemma {:induction false} CullKeepsNewest(policy: Policy, checkpoints: Checkpoints, now: int, newest: int)
    requires IsLatest(checkpoints.Keys, newest) && now <= newest
    ensures
      var culled := Cull(policy, now, checkpoints);
      IsLatest(culled.Keys, newest) && culled[newest] == checkpoints[newest]
  {
    if policy != [] {
      var times := Ordered(checkpoints.Keys);
      assert times != [] by {
        assert newest in times;
      }
      var last, rest := times[0], times[1..];
      assert times == [last] + rest;
      DescendsBelow(last, rest);
      assert last in checkpoints.Keys && last == newest;
      YoungIsKept(now, Reverse(policy), 0, last, rest);
      assert newest !in rest;
    }
  }

  /** The newest checkpoint is younger than the first rule's keep, or there is one that is not before the poll if every one is kept. */
  ghost predicate Fresh(policy: Policy, checkpoints: Checkpoints, time: int)
    requires policy != []
  {
    exists newest :: IsLatest(checkpoints.Keys, newest) &&
      match AsDelta(policy[0].keep)
      case None => time <= newest
      case Some(keep) => time - newest < keep
  }

  lemma {:induction false} PollKeepsFresh(policy: Policy, checkpoints: Checkpoints, poll: Observation)
    requires policy != [] && poll.written && poll.header.height != 0
    ensures Fresh(policy, AfterPoll(policy, checkpoints, poll), TimeOf(poll.header))
  {
    var time := TimeOf(poll.header);
    if Creates(policy, checkpoints, poll) {
      var inserted := checkpoints[time := poll.header];
      LatestExists(inserted.Keys);
      var newest :| IsLatest(inserted.Keys, newest);
      assert time in inserted.Keys;
      CullKeepsNewest(policy, inserted, time, newest);
    } else {
      var times := Ordered(checkpoints.Keys);
      assert times == [times[0]] + times[1..];
      DescendsBelow(times[0], times[1..]);
      assert IsLatest(checkpoints.Keys, times[0]);
    }
  }

  /** In every run, once a poll has read a block and could write, no checkpoint is due at its time any more. */
  lemma {:induction false} RunStaysFresh(policy: Policy, polls: seq<Observation>)
    requires policy != [] && polls != []
    requires polls[|polls| - 1].written && polls[|polls| - 1].header.height != 0
    ensures Fresh(policy, Run(policy, polls), TimeOf(polls[|polls| - 1].header))
  {
    PollKeepsFresh(policy, Run(policy, polls[..|polls| - 1]), polls[|polls| - 1]);
  }

  lemma {:induction false} NoRulesPoll(checkpoints: Checkpoints, poll: Observation)
    ensures
      AfterPoll([], checkpoints, poll) ==
        if checkpoints == map[] && poll.written && poll.header.height != 0 then map[TimeOf(poll.header) := poll.header]
        else checkpoints
  {
    var time := TimeOf(poll.header);
    if checkpoints == map[] {
      assert checkpoints.Keys == {};
      assert Elements(Reject([], time, Ordered(checkpoints[time := poll.header].Keys))) == {};
    } else {
      assert checkpoints.Keys != {};
    }
  }

  /** Without rules the first checkpoint is the only one, whatever is polled. */
  lemma {:induction false} NoRulesOneCheckpoint(polls: seq<Observation>)
    ensures |Run([], polls)| <= 1
    ensures polls != [] && Run([], polls[..|polls| - 1]) != map[] ==> Run([], polls) == Run([], polls[..|polls| - 1])
    ensures polls != [] && polls[|polls| - 1].written && polls[|polls| - 1].header.height != 0 ==> |Run([], polls)| == 1
  {
    hide AfterPoll;
    if polls != [] {
      NoRulesOneCheckpoint(polls[..|polls| - 1]);
      NoRulesPoll(Run([], polls[..|polls| - 1]), polls[|polls| - 1]);
    }
  }
}
