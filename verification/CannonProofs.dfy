/**
 A restart loses no transaction.  What is tracked is what is stored, and every
 tracked transaction has what its status calls for, in every run that does not
 bring back a transaction while an execution or broadcast of it is under way.
 */
module CannonProofs {
  import opened Wrappers
  import opened Cannon

  /** What a status calls for: an authorization to execute, or a transaction to broadcast. */
  predicate CanProceed(t: Tracker) {
    match t.status
    case Authorized => t.auth.Some?
    case Executing(_) => t.auth.Some?
    case Unsent => t.tx.Some?
    case Broadcasted(_, _) => t.tx.Some?
  }

  predicate Holds(stored: map<nat, nat>, id: nat, value: Option<nat>) {
    if value.Some? then id in stored && stored[id] == value.value else id !in stored
  }

  /** The store has exactly what is known of a transaction. */
  predicate Mirrors(s: Store, id: nat, t: Tracker) {
    && id in s.status && s.status[id] == t.status
    && Holds(s.index, id, Some(t.index)) && Holds(s.auths, id, t.auth) && Holds(s.blobs, id, t.tx)
  }

  predicate Absent(s: Store, id: nat) {
    id !in s.status && id !in s.index && id !in s.auths && id !in s.blobs
  }

  ghost predicate Mirrored(s: State) {
    forall id :: if id in s.tracked then Mirrors(s.store, id, s.tracked[id]) else Absent(s.store, id)
  }

  /** A transaction can proceed, and still can when what is under way comes to its end. */
  predicate Sane(s: State, id: nat)
    requires id in s.tracked
  {
    && CanProceed(s.tracked[id])
    && (id in s.queued || id in s.running ==> s.tracked[id].auth.Some?)
    && (id in s.shots ==> s.tracked[id].tx.Some?)
  }

  ghost predicate Sound(s: State) {
    Mirrored(s) && forall id :: id in s.tracked ==> Sane(s, id)
  }

  /** The three things that can go wrong. */
  predicate Harmless(s: State, e: Event) {
    && (e.BroadcastKnown? ==> e.id !in s.tracked)
    && (e.Broadcast? && e.id !in s.tracked ==> e.id !in s.queued && e.id !in s.running)
    && (e.Authorize? && e.id !in s.tracked ==> e.id !in s.shots)
  }

  predicate AllHarmless(s: State, events: seq<Event>)
    decreases |events|
  {
    events == [] || (Harmless(s, events[0]) && AllHarmless(Step(s, events[0]), events[1..]))
  }

  // ---------- Steps ----------

  /** What is stored is what is tracked. */
  lemma {:induction false} RestoredIsTracked(s: State)
    requires Mirrored(s)
    ensures Restored(s.store) == s.tracked
  {
    var r := Restored(s.store);
    forall id ensures id in r <==> id in s.tracked {
      assert if id in s.tracked then Mirrors(s.store, id, s.tracked[id]) else Absent(s.store, id);
    }
    forall id | id in r ensures r[id] == s.tracked[id] {
      assert Mirrors(s.store, id, s.tracked[id]);
    }
  }

  lemma {:induction false} RestartKeeps(s: State)
    requires Sound(s)
    ensures Sound(AfterRestart(s.store))
    ensures AfterRestart(s.store).tracked == DemoteAll(s.tracked)
  {
    RestoredIsTracked(s);
    var after := AfterRestart(s.store);
    forall id ensures if id in after.tracked then Mirrors(after.store, id, after.tracked[id]) else Absent(after.store, id) {
      assert if id in s.tracked then Mirrors(s.store, id, s.tracked[id]) else Absent(s.store, id);
    }
    forall id | id in after.tracked ensures Sane(after, id) {
      assert Sane(s, id);
    }
  }

  lemma {:induction false} ReapplyKeeps(s: State)
    requires Sound(s)
    ensures Sound(AfterReapply(s.store))
    ensures AfterReapply(s.store).tracked == s.tracked
  {
    hide Restored;
    RestoredIsTracked(s);
    var after := AfterReapply(s.store);
    assert Mirrored(after);
    forall id | id in after.tracked ensures Sane(after, id) {
      assert Sane(s, id);
    }
  }

  /** One transaction's part of soundness. */
  predicate SoundAt(s: State, id: nat) {
    if id in s.tracked then Mirrors(s.store, id, s.tracked[id]) && Sane(s, id) else Absent(s.store, id)
  }

  lemma {:induction false} SoundEverywhere(s: State)
    ensures Sound(s) <==> forall id :: SoundAt(s, id)
  {
    if forall id :: SoundAt(s, id) {
      forall id ensures if id in s.tracked then Mirrors(s.store, id, s.tracked[id]) else Absent(s.store, id) {
        assert SoundAt(s, id);
      }
      forall id | id in s.tracked ensures Sane(s, id) {
        assert SoundAt(s, id);
      }
    }
  }

  predicate SameKey<T(==)>(a: map<nat, T>, b: map<nat, T>, id: nat) {
    (id in a <==> id in b) && (id in a && id in b ==> a[id] == b[id])
  }

  /** Two states that do not differ in one transaction. */
  predicate SameAt(s: State, t: State, id: nat) {
    && SameKey(s.tracked, t.tracked, id) && SameKey(s.store.index, t.store.index, id)
    && SameKey(s.store.status, t.store.status, id) && SameKey(s.store.auths, t.store.auths, id)
    && SameKey(s.store.blobs, t.store.blobs, id)
    && s.queued[id] == t.queued[id] && s.running[id] == t.running[id] && s.shots[id] == t.shots[id]
  }

  // A step concerns one transaction only; there it keeps soundness exactly if it is harmless.

  lemma {:induction false} IncomingElsewhere(s: State, e: Event, id: nat)
    requires e.Authorize? || e.Broadcast? || e.BroadcastKnown?
    requires e.id != id
    ensures SameAt(s, Step(s, e), id)
  {
  }

  lemma {:induction false} IncomingHere(s: State, e: Event)
    requires e.Authorize? || e.Broadcast? || e.BroadcastKnown?
    requires SoundAt(s, e.id)
    ensures SoundAt(Step(s, e), e.id) <==> Harmless(s, e)
  {
  }

  lemma {:induction false} QueuedElsewhere(s: State, e: Event, id: nat)
    requires e.Receive? || e.NoAgent? || e.Begin?
    requires e.id != id
    ensures SameAt(s, Step(s, e), id)
  {
  }

  lemma {:induction false} QueuedHere(s: State, e: Event)
    requires e.Receive? || e.NoAgent? || e.Begin?
    requires SoundAt(s, e.id)
    ensures SoundAt(Step(s, e), e.id) <==> Harmless(s, e)
  {
  }

  lemma {:induction false} ExecutedElsewhere(s: State, e: Event, id: nat)
    requires e.Complete? || e.Fail?
    requires e.id != id
    ensures SameAt(s, Step(s, e), id)
  {
  }

  lemma {:induction false} ExecutedHere(s: State, e: Event)
    requires e.Complete? || e.Fail?
    requires SoundAt(s, e.id)
    ensures SoundAt(Step(s, e), e.id) <==> Harmless(s, e)
  {
  }

  lemma {:induction false} FiredElsewhere(s: State, e: Event, id: nat)
    requires e.Fire? || e.NotSent? || e.Untrack?
    requires e.id != id
    ensures SameAt(s, Step(s, e), id)
  {
  }

  lemma {:induction false} SentElsewhere(s: State, e: Event, id: nat)
    requires e.Sent? && e.id != id
    ensures SameAt(s, Step(s, e), id)
  {
  }

  lemma {:induction false} FiredHere(s: State, e: Event)
    requires e.Fire? || e.Sent? || e.NotSent? || e.Untrack?
    requires SoundAt(s, e.id)
    ensures SoundAt(Step(s, e), e.id) <==> Harmless(s, e)
  {
  }

  lemma {:induction false} StepElsewhere(s: State, e: Event, id: nat)
    requires !Reloads(e) && e.id != id
    ensures SameAt(s, Step(s, e), id)
  {
    hide Step, SameAt;
    if e.Authorize? || e.Broadcast? || e.BroadcastKnown? {
      IncomingElsewhere(s, e, id);
    } else if e.Receive? || e.NoAgent? || e.Begin? {
      QueuedElsewhere(s, e, id);
    } else if e.Complete? || e.Fail? {
      ExecutedElsewhere(s, e, id);
    } else if e.Sent? {
      SentElsewhere(s, e, id);
    } else {
      FiredElsewhere(s, e, id);
    }
  }

  lemma {:induction false} SoundThere(s: State, t: State, id: nat)
    requires SameAt(s, t, id) && SoundAt(s, id)
    ensures SoundAt(t, id)
  {
  }

  lemma {:induction false} StepHere(s: State, e: Event)
    requires !Reloads(e) && SoundAt(s, e.id)
    ensures SoundAt(Step(s, e), e.id) <==> Harmless(s, e)
  {
    hide Step, SoundAt, Harmless;
    if e.Authorize? || e.Broadcast? || e.BroadcastKnown? {
      IncomingHere(s, e);
    } else if e.Receive? || e.NoAgent? || e.Begin? {
      QueuedHere(s, e);
    } else if e.Complete? || e.Fail? {
      ExecutedHere(s, e);
    } else {
      FiredHere(s, e);
    }
  }

  /** A step keeps soundness exactly if it is harmless. */
  lemma {:induction false} StepKeepsSound(s: State, e: Event)
    requires Sound(s)
    ensures Sound(Step(s, e)) <==> Harmless(s, e)
  {
    hide Step, SoundAt, Harmless, Sound;
    if Reloads(e) {
      RestartKeeps(s);
      ReapplyKeeps(s);
      ReloadIsHarmless(s, e);
    } else {
      SoundEverywhere(s);
      SoundEverywhere(Step(s, e));
      StepHere(s, e);
      forall id | id != e.id ensures SoundAt(Step(s, e), id) {
        StepElsewhere(s, e, id);
        SoundThere(s, Step(s, e), id);
      }
    }
  }

  lemma {:induction false} ReloadIsHarmless(s: State, e: Event)
    requires Reloads(e)
    ensures Harmless(s, e) && Step(s, e) == if e.Restart? then AfterRestart(s.store) else AfterReapply(s.store)
  {
  }

  lemma {:induction false} RunKeepsSound(s: State, events: seq<Event>)
    requires Sound(s) && AllHarmless(s, events)
    ensures Sound(Run(s, events))
    decreases |events|
  {
    hide Step, Harmless, Sound;
    if events != [] {
      StepKeepsSound(s, events[0]);
      RunKeepsSound(Step(s, events[0]), events[1..]);
    }
  }

  // ---------- Whole runs ----------

  /**
   Whatever has happened, a restart brings back every tracked transaction with
   all that is known of it, an interrupted execution as authorized, and each is
   ready to be executed or to be broadcast.
   */
  lemma {:induction false} RestartLosesNothing(events: seq<Event>)
    requires AllHarmless(Empty(), events)
    ensures
      var before := Run(Empty(), events);
      var after := Step(before, Restart);
      && after.tracked.Keys == before.tracked.Keys
      && (forall id :: id in before.tracked ==>
            after.tracked[id] == before.tracked[id].(status := Demoted(before.tracked[id].status))
            && (MayExecute(after.tracked[id]) || MayBroadcast(after.tracked[id])))
      && Sound(before) && Sound(after)
  {
    hide Run, AllHarmless;
    var before := Run(Empty(), events);
    RunKeepsSound(Empty(), events);
    RestartKeeps(before);
    forall id | id in before.tracked
      ensures MayExecute(AfterRestart(before.store).tracked[id]) || MayBroadcast(AfterRestart(before.store).tracked[id])
    {
      assert Sane(before, id);
    }
  }

  /** Every state of a run is sound. */
  ghost predicate AlwaysSound(s: State, events: seq<Event>)
    decreases |events|
  {
    Sound(s) && (events == [] || AlwaysSound(Step(s, events[0]), events[1..]))
  }

  /** A run stays sound in all its states exactly if all its events are harmless. */
  lemma {:induction false} SoundExactlyIfHarmless(s: State, events: seq<Event>)
    requires Sound(s)
    ensures AlwaysSound(s, events) <==> AllHarmless(s, events)
    decreases |events|
  {
    hide Step, Sound, Harmless;
    if events != [] {
      StepKeepsSound(s, events[0]);
      var next := Step(s, events[0]);
      if Sound(next) {
        SoundExactlyIfHarmless(next, events[1..]);
      } else {
        assert !AlwaysSound(next, events[1..]);
      }
    }
  }

  // ---------- What goes wrong otherwise ----------

  /** A transaction that comes in again while it is being executed can end up authorized without an authorization. */
  lemma {:induction false} RebroadcastCanStrand(s: State, id: nat, body: nat)
    requires Sound(s) && id !in s.tracked && id in s.running
    ensures
      var end := Run(s, [Broadcast(id, body), Fail(id)]);
      id in end.tracked && end.tracked[id].status == Authorized && end.tracked[id].auth == None && !CanProceed(end.tracked[id])
  {
    var s1 := Step(s, Broadcast(id, body));
    var s2 := Step(s1, Fail(id));
    assert [Broadcast(id, body), Fail(id)][1..] == [Fail(id)];
    assert Run(s2, []) == s2;
    assert Run(s1, [Fail(id)]) == Run(s2, []);
  }

  /** The same while it still waits for an agent: it is executed without an authorization. */
  lemma {:induction false} QueuedRebroadcastCanStrand(s: State, id: nat, body: nat, now: int)
    requires Sound(s) && id !in s.tracked && id in s.queued
    ensures
      var end := Run(s, [Broadcast(id, body), Begin(id, now)]);
      id in end.tracked && end.tracked[id].status == Executing(now) && end.tracked[id].auth == None && !CanProceed(end.tracked[id])
  {
    hide Save, Delete, MoreAttempts;
    var s1 := Step(s, Broadcast(id, body));
    var s2 := Step(s1, Begin(id, now));
    assert [Broadcast(id, body), Begin(id, now)][1..] == [Begin(id, now)];
    assert Run(s2, []) == s2;
    assert Run(s1, [Begin(id, now)]) == Run(s2, []);
  }

  /** A run of harmless steps, one step further. */
  lemma {:induction false} OneMoreStep(start: State, events: seq<Event>, s: State, e: Event)
    requires AllHarmless(start, events) && Run(start, events) == s && Harmless(s, e)
    ensures AllHarmless(start, events + [e]) && Run(start, events + [e]) == Step(s, e)
    decreases |events|
  {
    hide Step, Harmless;
    if events == [] {
      assert [] + [e] == [e] && [e][1..] == [];
    } else {
      assert (events + [e])[0] == events[0] && (events + [e])[1..] == events[1..] + [e];
      OneMoreStep(Step(start, events[0]), events[1..], s, e);
    }
  }

  lemma {:induction false} BeginOne(id: nat, auth: nat, now: int)
    ensures
      var s := Step(Step(Step(Empty(), Authorize(id, auth)), Receive(id)), Begin(id, now));
      id in s.running && Step(s, Untrack(id)).running == s.running && id !in Step(s, Untrack(id)).tracked
  {
    hide Save, MoreAttempts, Delete;
  }

  /** Such a state is reached: the transaction is given up while an agent works on it. */
  lemma {:induction false} ExecutionCanOutliveTracker(id: nat, auth: nat, now: int)
    ensures
      var events := [Authorize(id, auth), Receive(id), Begin(id, now), Untrack(id)];
      AllHarmless(Empty(), events) && Sound(Run(Empty(), events))
      && id !in Run(Empty(), events).tracked && id in Run(Empty(), events).running
  {
    hide Step, Sound, Run, AllHarmless;
    var s1 := Step(Empty(), Authorize(id, auth));
    var s2 := Step(s1, Receive(id));
    var s3 := Step(s2, Begin(id, now));
    NothingYet();
    OneMoreStep(Empty(), [], Empty(), Authorize(id, auth));
    assert [] + [Authorize(id, auth)] == [Authorize(id, auth)];
    OneMoreStep(Empty(), [Authorize(id, auth)], s1, Receive(id));
    assert [Authorize(id, auth)] + [Receive(id)] == [Authorize(id, auth), Receive(id)];
    OneMoreStep(Empty(), [Authorize(id, auth), Receive(id)], s2, Begin(id, now));
    assert [Authorize(id, auth), Receive(id)] + [Begin(id, now)] == [Authorize(id, auth), Receive(id), Begin(id, now)];
    OneMoreStep(Empty(), [Authorize(id, auth), Receive(id), Begin(id, now)], s3, Untrack(id));
    var events := [Authorize(id, auth), Receive(id), Begin(id, now), Untrack(id)];
    assert [Authorize(id, auth), Receive(id), Begin(id, now)] + [Untrack(id)] == events;
    BeginOne(id, auth, now);
    RunKeepsSound(Empty(), events);
  }

  lemma {:induction false} QueueOne(id: nat, auth: nat)
    ensures
      var s := Step(Step(Empty(), Authorize(id, auth)), Receive(id));
      id in s.queued && Step(s, Untrack(id)).queued == s.queued && id !in Step(s, Untrack(id)).tracked
  {
    hide Save, Delete;
  }

  /** The state before that is reached as well: the transaction is given up while it waits. */
  lemma {:induction false} QueueCanOutliveTracker(id: nat, auth: nat)
    ensures
      var events := [Authorize(id, auth), Receive(id), Untrack(id)];
      AllHarmless(Empty(), events) && Sound(Run(Empty(), events))
      && id !in Run(Empty(), events).tracked && id in Run(Empty(), events).queued
  {
    hide Step, Sound, Run, AllHarmless;
    var s1 := Step(Empty(), Authorize(id, auth));
    var s2 := Step(s1, Receive(id));
    NothingYet();
    OneMoreStep(Empty(), [], Empty(), Authorize(id, auth));
    assert [] + [Authorize(id, auth)] == [Authorize(id, auth)];
    OneMoreStep(Empty(), [Authorize(id, auth)], s1, Receive(id));
    assert [Authorize(id, auth)] + [Receive(id)] == [Authorize(id, auth), Receive(id)];
    OneMoreStep(Empty(), [Authorize(id, auth), Receive(id)], s2, Untrack(id));
    var events := [Authorize(id, auth), Receive(id), Untrack(id)];
    assert [Authorize(id, auth), Receive(id)] + [Untrack(id)] == events;
    QueueOne(id, auth);
    RunKeepsSound(Empty(), events);
  }

  lemma {:induction false} NothingYet()
    ensures AllHarmless(Empty(), []) && Run(Empty(), []) == Empty() && Sound(Empty())
  {
  }

  lemma {:induction false} FireOne(id: nat, body: nat)
    ensures
      var s := Step(Step(Empty(), Broadcast(id, body)), Fire(id, true));
      id in s.shots && Step(s, Untrack(id)).shots == s.shots && id !in Step(s, Untrack(id)).tracked
  {
    hide Save, Delete;
  }

  /** A broadcast outlives its tracker in the same way: confirmed, or given up, while it is on its way. */
  lemma {:induction false} BroadcastCanOutliveTracker(id: nat, body: nat)
    ensures
      var events := [Broadcast(id, body), Fire(id, true), Untrack(id)];
      AllHarmless(Empty(), events) && Sound(Run(Empty(), events))
      && id !in Run(Empty(), events).tracked && id in Run(Empty(), events).shots
  {
    hide Step, Sound, Run, AllHarmless;
    var s1 := Step(Empty(), Broadcast(id, body));
    var s2 := Step(s1, Fire(id, true));
    NothingYet();
    OneMoreStep(Empty(), [], Empty(), Broadcast(id, body));
    assert [] + [Broadcast(id, body)] == [Broadcast(id, body)];
    OneMoreStep(Empty(), [Broadcast(id, body)], s1, Fire(id, true));
    assert [Broadcast(id, body)] + [Fire(id, true)] == [Broadcast(id, body), Fire(id, true)];
    OneMoreStep(Empty(), [Broadcast(id, body), Fire(id, true)], s2, Untrack(id));
    var events := [Broadcast(id, body), Fire(id, true), Untrack(id)];
    assert [Broadcast(id, body), Fire(id, true)] + [Untrack(id)] == events;
    FireOne(id, body);
    RunKeepsSound(Empty(), events);
  }

  /** An authorization that comes in again while its transaction is being broadcast can end up broadcast without one. */
  lemma {:induction false} ReauthorizeCanStrand(s: State, id: nat, auth: nat, height: Option<nat>, now: int)
    requires Sound(s) && id !in s.tracked && id in s.shots
    ensures
      var end := Run(s, [Authorize(id, auth), Sent(id, height, now)]);
      id in end.tracked && end.tracked[id].status.Broadcasted? && !CanProceed(end.tracked[id])
  {
    var s1 := Step(s, Authorize(id, auth));
    var s2 := Step(s1, Sent(id, height, now));
    assert [Authorize(id, auth), Sent(id, height, now)][1..] == [Sent(id, height, now)];
    assert Run(s2, []) == s2;
    assert Run(s1, [Sent(id, height, now)]) == Run(s2, []);
  }

  /** A transaction that is tracked and found in a cached block is lost by a restart. */
  lemma {:induction false} KnownTransactionIsLost(s: State, id: nat, body: nat)
    requires Sound(s) && id in s.tracked
    ensures
      var end := Run(s, [BroadcastKnown(id, body), Restart]);
      id !in end.tracked
  {
    var s1 := Step(s, BroadcastKnown(id, body));
    var s2 := Step(s1, Restart);
    assert [BroadcastKnown(id, body), Restart][1..] == [Restart];
    assert Run(s2, []) == s2;
    assert Run(s1, [Restart]) == Run(s2, []);
  }

  // ---------- Executions that do not end ----------

  /** The events that take a transaction out of its execution. */
  predicate EndsExecution(s: State, e: Event, id: nat) {
    e.Restart? || (!e.Reapply? && e.id == id && (
      || e.Broadcast? || e.Untrack?
      || ((e.Complete? || e.Fail?) && id in s.running)
      || (e.Sent? && id in s.shots)))
  }

  predicate IsExecuting(s: State, id: nat) {
    id in s.tracked && s.tracked[id].status.Executing?
  }

  predicate TakesIn(e: Event) {
    e.Authorize? || e.Broadcast? || e.BroadcastKnown? || e.Receive? || e.NoAgent? || e.Begin?
  }

  lemma {:induction false} ExecutingTakenIn(s: State, e: Event)
    requires TakesIn(e) && IsExecuting(s, e.id)
    ensures IsExecuting(Step(s, e), e.id) <==> !EndsExecution(s, e, e.id)
    ensures Step(s, e).queued[e.id] <= s.queued[e.id]
  {
    hide Save, Delete, MoreAttempts;
  }

  lemma {:induction false} ExecutingGivenOut(s: State, e: Event)
    requires !Reloads(e) && !TakesIn(e) && IsExecuting(s, e.id)
    ensures IsExecuting(Step(s, e), e.id) <==> !EndsExecution(s, e, e.id)
    ensures Step(s, e).queued[e.id] <= s.queued[e.id]
  {
    hide Save, Delete, MoreAttempts;
  }

  /** An execution stays one exactly unless one of these events ends it, and it is never queued again. */
  lemma {:induction false} ExecutingStays(s: State, e: Event, id: nat)
    requires Sound(s) && IsExecuting(s, id)
    ensures IsExecuting(Step(s, e), id) <==> !EndsExecution(s, e, id)
    ensures Step(s, e).queued[id] <= s.queued[id]
  {
    hide Sound;
    if e.Restart? {
      hide Step;
      ReloadIsHarmless(s, e);
      RestartKeeps(s);
    } else if e.Reapply? {
      hide Step;
      ReloadIsHarmless(s, e);
      ReapplyKeeps(s);
    } else if e.id == id {
      hide Step;
      if TakesIn(e) {
        ExecutingTakenIn(s, e);
      } else {
        ExecutingGivenOut(s, e);
      }
    } else {
      hide Step;
      StepElsewhere(s, e, id);
    }
  }

  /** Nothing in a run ends an execution. */
  predicate NothingEnds(s: State, events: seq<Event>, id: nat)
    decreases |events|
  {
    events == [] || (!EndsExecution(s, events[0], id) && NothingEnds(Step(s, events[0]), events[1..], id))
  }

  /**
   An execution that takes too long is sent to be executed again, but only
   authorized transactions are: in a run in which nothing ends it, it is not
   taken up again however often it is sent.
   */
  lemma {:induction false} ExpiredExecutionIsNotRetried(s: State, events: seq<Event>, id: nat)
    requires Sound(s) && AllHarmless(s, events) && IsExecuting(s, id) && NothingEnds(s, events, id)
    ensures IsExecuting(Run(s, events), id) && Run(s, events).queued[id] <= s.queued[id]
    decreases |events|
  {
    hide Step, Harmless, Sound, EndsExecution;
    if events != [] {
      StepKeepsSound(s, events[0]);
      ExecutingStays(s, events[0], id);
      ExpiredExecutionIsNotRetried(Step(s, events[0]), events[1..], id);
    }
  }

  /** Only these events concern an execution that nobody works on any more. */
  predicate Rescues(e: Event, id: nat) {
    e.Restart? || (!e.Reapply? && e.id == id && (e.Broadcast? || e.BroadcastKnown? || e.Untrack?))
  }

  /** Executing, stored so, and nothing under way. */
  predicate Stuck(s: State, id: nat, t: Tracker) {
    && id in s.tracked && s.tracked[id] == t && t.status.Executing? && Mirrors(s.store, id, t)
    && id !in s.queued && id !in s.running && id !in s.shots
  }

  lemma {:induction false} StuckThere(s: State, next: State, id: nat, t: Tracker)
    requires SameAt(s, next, id) && Stuck(s, id, t)
    ensures Stuck(next, id, t)
  {
  }

  lemma {:induction false} StuckHere(s: State, e: Event, t: Tracker)
    requires !Reloads(e) && Stuck(s, e.id, t) && !Rescues(e, e.id)
    ensures Stuck(Step(s, e), e.id, t)
  {
  }

  lemma {:induction false} StuckReapplied(s: State, id: nat, t: Tracker)
    requires Stuck(s, id, t)
    ensures Stuck(AfterReapply(s.store), id, t)
  {
  }

  lemma {:induction false} RestartRescues(e: Event, id: nat)
    ensures e.Restart? ==> Rescues(e, id)
  {
  }

  lemma {:induction false} RunFirst(s: State, e: Event, events: seq<Event>)
    ensures Run(s, [e] + events) == Run(Step(s, e), events)
  {
    hide Step;
    assert ([e] + events)[1..] == events;
  }

  lemma {:induction false} StaysStuck(s: State, events: seq<Event>, id: nat, t: Tracker)
    requires Stuck(s, id, t) && forall i :: 0 <= i < |events| ==> !Rescues(events[i], id)
    ensures Stuck(Run(s, events), id, t)
    decreases |events|
  {
    hide Step, Stuck, Rescues, SameAt;
    if events != [] {
      var e := events[0];
      if Reloads(e) {
        RestartRescues(e, id);
        ReloadIsHarmless(s, e);
        StuckReapplied(s, id, t);
      } else if e.id == id {
        StuckHere(s, e, t);
      } else {
        StepElsewhere(s, e, id);
        StuckThere(s, Step(s, e), id, t);
      }
      assert forall i :: 0 <= i < |events[1..]| ==> events[1..][i] == events[i + 1];
      StaysStuck(Step(s, e), events[1..], id, t);
    }
  }

  /**
   Applying an environment again loads its cannons but does not demote what was
   being executed, and the work that was under way is gone: such a transaction
   keeps its status in every run until it comes in again, is given up, or the
   program is started again.
   */
  lemma {:induction false} ReappliedExecutionIsStuck(s: State, events: seq<Event>, id: nat)
    requires Sound(s) && IsExecuting(s, id) && forall i :: 0 <= i < |events| ==> !Rescues(events[i], id)
    ensures
      var end := Run(s, [Reapply] + events);
      id in end.tracked && end.tracked[id] == s.tracked[id]
  {
    hide Run;
    ReapplyKeeps(s);
    var next := Step(s, Reapply);
    assert next == AfterReapply(s.store);
    assert Mirrors(next.store, id, next.tracked[id]);
    StaysStuck(next, events, id, s.tracked[id]);
    RunFirst(s, Reapply, events);
  }
}
