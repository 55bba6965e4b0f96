/**
 The indices of transactions.  They come from a counter of which the store keeps
 the last value given out, so the first transaction after a restart can get the
 index of one that is still tracked, and no other transaction ever does.
 */
module CannonIndices {
  import opened Wrappers
  import opened Cannon
  import opened CannonProofs

  ghost predicate Distinct(tracked: map<nat, Tracker>) {
    forall a, b :: a in tracked && b in tracked && tracked[a].index == tracked[b].index ==> a == b
  }

  ghost predicate Below(s: State) {
    forall id :: id in s.tracked ==> s.tracked[id].index < s.next
  }

  /** The event brings a new transaction, which gets the next index. */
  predicate TakesIndex(s: State, e: Event) {
    (e.Authorize? || e.Broadcast?) && e.id !in s.tracked
  }

  /** A tracked transaction has the index that is given out next. */
  ghost predicate NextIsTaken(s: State) {
    exists id :: id in s.tracked && s.tracked[id].index == s.next
  }

  // ---------- One step ----------

  /** A step that brings nothing new keeps every index it does not drop. */
  ghost predicate KeepsIndices(s: State, t: State) {
    t.next == s.next && t.store.received == s.store.received
    && forall id :: id in t.tracked ==> id in s.tracked && t.tracked[id].index == s.tracked[id].index
  }

  lemma {:induction false} TakingInKeepsIndices(s: State, e: Event)
    requires TakesIn(e) && !TakesIndex(s, e)
    ensures KeepsIndices(s, Step(s, e))
  {
  }

  lemma {:induction false} GivingOutKeepsIndices(s: State, e: Event)
    requires !Reloads(e) && !TakesIn(e)
    ensures KeepsIndices(s, Step(s, e))
  {
  }

  lemma {:induction false} StepKeepsIndices(s: State, e: Event)
    requires !Reloads(e) && !TakesIndex(s, e)
    ensures KeepsIndices(s, Step(s, e))
  {
    hide Step, KeepsIndices;
    if TakesIn(e) {
      TakingInKeepsIndices(s, e);
    } else {
      GivingOutKeepsIndices(s, e);
    }
  }

  lemma {:induction false} StepGivesIndex(s: State, e: Event)
    requires TakesIndex(s, e)
    ensures
      var t := Step(s, e);
      && t.next == s.next + 1 && t.store.received == Some(s.next)
      && t.tracked.Keys == s.tracked.Keys + {e.id} && t.tracked[e.id].index == s.next
      && forall id :: id in s.tracked ==> t.tracked[id] == s.tracked[id]
  {
  }

  /** After either reload the indices are those before, and the counter is what is stored of it. */
  lemma {:induction false} ReloadKeepsIndices(s: State, e: Event)
    requires Reloads(e) && Sound(s)
    ensures
      var t := Step(s, e);
      && t.next == s.store.received.GetOr(0) && t.store.received == s.store.received && t.tracked.Keys == s.tracked.Keys
      && forall id :: id in t.tracked ==> t.tracked[id].index == s.tracked[id].index
  {
    hide Sound;
    RestartKeeps(s);
    ReapplyKeeps(s);
    ReloadIsHarmless(s, e);
  }

  /** A step keeps indices different exactly unless it gives out one that is taken. */
  lemma {:induction false} StepKeepsDistinct(s: State, e: Event)
    requires Sound(s) && Distinct(s.tracked)
    ensures Distinct(Step(s, e).tracked) <==> !(TakesIndex(s, e) && NextIsTaken(s))
  {
    hide Step, Sound;
    var t := Step(s, e);
    if Reloads(e) {
      ReloadKeepsIndices(s, e);
    } else if !TakesIndex(s, e) {
      StepKeepsIndices(s, e);
    } else {
      StepGivesIndex(s, e);
      if id :| id in s.tracked && s.tracked[id].index == s.next {
        assert t.tracked[id].index == t.tracked[e.id].index;
      }
    }
  }

  // ---------- Runs without a restart ----------

  predicate NeverReloads(events: seq<Event>) {
    forall i :: 0 <= i < |events| ==> !Reloads(events[i])
  }

  lemma {:induction false} StepKeepsBelow(s: State, e: Event)
    requires Below(s) && Distinct(s.tracked) && !Reloads(e)
    ensures Below(Step(s, e)) && Distinct(Step(s, e).tracked)
  {
    hide Step;
    if TakesIndex(s, e) {
      StepGivesIndex(s, e);
    } else {
      StepKeepsIndices(s, e);
    }
  }

  lemma {:induction false} RunKeepsBelow(s: State, events: seq<Event>)
    requires Below(s) && Distinct(s.tracked) && NeverReloads(events)
    ensures Below(Run(s, events)) && Distinct(Run(s, events).tracked)
    decreases |events|
  {
    hide Step, Below, Distinct;
    if events != [] {
      StepKeepsBelow(s, events[0]);
      assert forall i :: 0 <= i < |events[1..]| ==> events[1..][i] == events[i + 1];
      RunKeepsBelow(Step(s, events[0]), events[1..]);
    }
  }

  /** As long as a cannon is not loaded again, its transactions have different indices, all below the next. */
  lemma {:induction false} IndicesDiffer(events: seq<Event>)
    requires NeverReloads(events)
    ensures Below(Run(Empty(), events)) && Distinct(Run(Empty(), events).tracked)
  {
    RunKeepsBelow(Empty(), events);
  }

  // ---------- All runs ----------

  /** The counter is one past the stored value, or, right after a reload, equal to it. */
  ghost predicate Counting(s: State) {
    match s.store.received
    case None => s.next == 0 && s.tracked == map[]
    case Some(last) =>
      (s.next == last + 1 && Below(s)) || (s.next == last && forall id :: id in s.tracked ==> s.tracked[id].index <= last)
  }

  lemma {:induction false} StepKeepsCounting(s: State, e: Event)
    requires Sound(s) && Counting(s)
    ensures Counting(Step(s, e))
  {
    hide Step, Sound;
    if Reloads(e) {
      ReloadKeepsIndices(s, e);
    } else if TakesIndex(s, e) {
      StepGivesIndex(s, e);
    } else {
      StepKeepsIndices(s, e);
    }
  }

  /** The next index can only be taken if none has been given out since the cannon was loaded. */
  lemma {:induction false} TakenOnlyAfterReload(s: State)
    requires Counting(s) && NextIsTaken(s)
    ensures s.store.received == Some(s.next)
  {
  }

  lemma {:induction false} RunKeepsCounting(s: State, events: seq<Event>)
    requires Sound(s) && Counting(s) && AllHarmless(s, events)
    ensures Sound(Run(s, events)) && Counting(Run(s, events))
    decreases |events|
  {
    hide Step, Sound, Counting, Harmless;
    if events != [] {
      StepKeepsSound(s, events[0]);
      StepKeepsCounting(s, events[0]);
      RunKeepsCounting(Step(s, events[0]), events[1..]);
    }
  }

  /** The indices differ in every state of a run. */
  ghost predicate AlwaysDistinct(s: State, events: seq<Event>)
    decreases |events|
  {
    Distinct(s.tracked) && (events == [] || AlwaysDistinct(Step(s, events[0]), events[1..]))
  }

  /** No event of a run brings a new transaction right after a reload while the last index given out is still in use. */
  ghost predicate NeverReuses(s: State, events: seq<Event>)
    decreases |events|
  {
    events == [] || (
      !(TakesIndex(s, events[0]) && s.store.received == Some(s.next) && NextIsTaken(s))
      && NeverReuses(Step(s, events[0]), events[1..]))
  }

  lemma {:induction false} DistinctInRun(s: State, events: seq<Event>)
    requires Sound(s) && Counting(s) && Distinct(s.tracked) && AllHarmless(s, events)
    ensures AlwaysDistinct(s, events) <==> NeverReuses(s, events)
    decreases |events|
  {
    hide Step, Sound, Counting, Harmless, Distinct, NextIsTaken, TakesIndex;
    if events != [] {
      var next := Step(s, events[0]);
      StepKeepsSound(s, events[0]);
      StepKeepsCounting(s, events[0]);
      StepKeepsDistinct(s, events[0]);
      if NextIsTaken(s) {
        TakenOnlyAfterReload(s);
      }
      if Distinct(next.tracked) {
        DistinctInRun(next, events[1..]);
      } else {
        assert !AlwaysDistinct(next, events[1..]);
      }
    }
  }

  /** In every run the indices stay different exactly if no index is reused in that one way. */
  lemma {:induction false} DistinctExactlyWithoutReuse(events: seq<Event>)
    requires AllHarmless(Empty(), events)
    ensures AlwaysDistinct(Empty(), events) <==> NeverReuses(Empty(), events)
  {
    hide Step;
    NothingYet();
    DistinctInRun(Empty(), events);
  }

  // ---------- After a restart ----------

  /** A transaction that comes in after a restart clashes exactly if the one with the last index given out is still tracked. */
  lemma {:induction false} ClashAfterRestart(events: seq<Event>, id: nat, auth: nat)
    requires AllHarmless(Empty(), events) && Distinct(Run(Empty(), events).tracked) && id !in Run(Empty(), events).tracked
    ensures
      var before := Run(Empty(), events);
      var after := Step(Step(before, Restart), Authorize(id, auth));
      Distinct(after.tracked) <==>
        forall a :: a in before.tracked ==> Some(before.tracked[a].index) != before.store.received
  {
    hide Run, Step, Sound, Distinct, AllHarmless;
    var before := Run(Empty(), events);
    NothingYet();
    RunKeepsCounting(Empty(), events);
    var loaded := Step(before, Restart);
    ReloadKeepsIndices(before, Restart);
    StepKeepsSound(before, Restart);
    StepKeepsDistinct(before, Restart);
    StepKeepsDistinct(loaded, Authorize(id, auth));
  }

  /** The counter that is stored is the last index given out, so a restart gives it out again. */
  lemma {:induction false} IndexIsReused(s: State, a: nat, b: nat, auth: nat)
    requires Sound(s) && a !in s.tracked && b !in s.tracked && a != b
    ensures
      var end := Run(s, [Authorize(a, auth), Restart, Authorize(b, auth)]);
      a in end.tracked && b in end.tracked && end.tracked[a].index == end.tracked[b].index
  {
    assert Absent(s.store, b);
    var s1 := Step(s, Authorize(a, auth));
    var s2 := Step(s1, Restart);
    var s3 := Step(s2, Authorize(b, auth));
    var e1 := [Authorize(b, auth)];
    var e2 := [Restart, Authorize(b, auth)];
    assert [Authorize(a, auth), Restart, Authorize(b, auth)][1..] == e2 && e2[1..] == e1 && e1[1..] == [];
    assert Run(s3, []) == s3;
    assert Run(s2, e1) == Run(s3, []);
    assert Run(s1, e2) == Run(s2, e1);
  }
}
