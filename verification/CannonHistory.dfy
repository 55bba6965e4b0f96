/**
 The life of one transaction.  A cannon keeps the transactions of all ids in its
 maps, in memory and in the store, and a reload builds the ones from the others.
 Seen from one transaction it is a small machine that looks at nothing but the
 events about that transaction: what is known of it, how often it was tried, and
 how much of its work is under way follow from those events alone.
 */
module CannonHistory {
  import opened Wrappers
  import opened Cannon
  import opened CannonProofs

  datatype Known = Known(auth: Option<nat>, tx: Option<nat>, status: Status)

  datatype Life = Life(known: Option<Known>, attempts: nat, queued: nat, running: nat, shots: nat)

  function Unborn(): Life {
    Life(None, 0, 0, 0, 0)
  }

  function Less(n: nat): nat {
    if n == 0 then 0 else n - 1
  }

  /** What is known of a transaction, with another status. */
  function As(known: Option<Known>, status: Status): Option<Known> {
    match known
    case None => None
    case Some(k) => Some(k.(status := status))
  }

  function WithBody(known: Option<Known>, body: nat): Option<Known> {
    match known
    case None => Some(Known(None, Some(body), Unsent))
    case Some(k) => Some(Known(k.auth, Some(body), Unsent))
  }

  /** An authorization or a transaction comes in. */
  function Came(l: Life, e: Event): Life
    requires e.Authorize? || e.Broadcast? || e.BroadcastKnown?
  {
    match e
    case Authorize(_, auth) => if l.known.Some? then l else l.(known := Some(Known(Some(auth), None, Authorized)))
    case Broadcast(_, body) =>
      if l.known.Some? && !l.known.value.status.Executing? then l
      else l.(known := WithBody(l.known, body), attempts := if l.known.Some? then 0 else l.attempts)
    case BroadcastKnown(_, _) => l.(attempts := 0)
  }

  /** An execution waits, starts or ends. */
  function Worked(l: Life, e: Event): Life
    requires e.Receive? || e.NoAgent? || e.Begin? || e.Complete? || e.Fail?
  {
    match e
    case Receive(_) =>
      if l.known.Some? && l.known.value.status.Authorized? && l.known.value.auth.Some? then l.(queued := l.queued + 1) else l
    case NoAgent(_) => l.(queued := Less(l.queued))
    case Begin(_, now) =>
      if l.queued == 0 then l
      else l.(known := As(l.known, Executing(now)), attempts := l.attempts + 1, queued := l.queued - 1, running := l.running + 1)
    case Complete(_, body) =>
      if l.running == 0 then l
      else if l.known.None? then l.(running := l.running - 1)
      else l.(known := WithBody(l.known, body), attempts := 0, running := l.running - 1)
    case Fail(_) =>
      if l.running == 0 then l else l.(known := As(l.known, Authorized), running := l.running - 1)
  }

  /** A transaction is sent, or is not followed any more. */
  function Given(l: Life, e: Event): Life
    requires e.Fire? || e.Sent? || e.NotSent? || e.Untrack?
  {
    match e
    case Fire(_, target) =>
      if l.known.None? || l.known.value.tx.None? || l.known.value.status.Authorized? || l.known.value.status.Executing? then l
      else if target then l.(shots := l.shots + 1)
      else l.(known := None, attempts := 0)
    case Sent(_, height, now) =>
      if l.shots == 0 then l
      else l.(known := As(l.known, Broadcasted(height, now)), attempts := l.attempts + 1, shots := l.shots - 1)
    case NotSent(_) => l.(shots := Less(l.shots))
    case Untrack(_) => l.(known := None, attempts := 0)
  }

  /** A restart sends an execution back, and either reload drops all that is under way. */
  function Reloaded(l: Life, restart: bool): Life {
    var known := if restart && l.known.Some? && l.known.value.status.Executing? then As(l.known, Authorized) else l.known;
    Life(known, l.attempts, 0, 0, 0)
  }

  function Live(l: Life, e: Event, id: nat): Life {
    if Reloads(e) then Reloaded(l, e.Restart?)
    else if e.id != id then l
    else if e.Authorize? || e.Broadcast? || e.BroadcastKnown? then Came(l, e)
    else if e.Receive? || e.NoAgent? || e.Begin? || e.Complete? || e.Fail? then Worked(l, e)
    else Given(l, e)
  }

  function Lives(l: Life, events: seq<Event>, id: nat): Life
    decreases |events|
  {
    if events == [] then l else Lives(Live(l, events[0], id), events[1..], id)
  }

  // ---------- The cannon seen from one transaction ----------

  function KnownOf(tracked: map<nat, Tracker>, id: nat): Option<Known> {
    if id in tracked then Some(Known(tracked[id].auth, tracked[id].tx, tracked[id].status)) else None
  }

  function View(s: State, id: nat): Life {
    Life(KnownOf(s.tracked, id), AttemptsOf(s.store, id), s.queued[id], s.running[id], s.shots[id])
  }

  lemma {:induction false} CameIsStep(s: State, e: Event)
    requires e.Authorize? || e.Broadcast? || e.BroadcastKnown?
    ensures View(Step(s, e), e.id) == Came(View(s, e.id), e)
  {
  }

  lemma {:induction false} StartedIsStep(s: State, e: Event)
    requires e.Receive? || e.NoAgent? || e.Begin?
    ensures View(Step(s, e), e.id) == Worked(View(s, e.id), e)
  {
  }

  lemma {:induction false} EndedIsStep(s: State, e: Event)
    requires e.Complete? || e.Fail?
    ensures View(Step(s, e), e.id) == Worked(View(s, e.id), e)
  {
  }

  lemma {:induction false} GivenIsStep(s: State, e: Event)
    requires e.Fire? || e.Sent? || e.NotSent? || e.Untrack?
    ensures View(Step(s, e), e.id) == Given(View(s, e.id), e)
  {
  }

  lemma {:induction false} IncomingKeepsAttempts(s: State, e: Event, id: nat)
    requires (e.Authorize? || e.Broadcast? || e.BroadcastKnown?) && e.id != id
    ensures AttemptsOf(Step(s, e).store, id) == AttemptsOf(s.store, id)
  {
  }

  lemma {:induction false} WorkKeepsAttempts(s: State, e: Event, id: nat)
    requires (e.Receive? || e.NoAgent? || e.Begin? || e.Complete? || e.Fail?) && e.id != id
    ensures AttemptsOf(Step(s, e).store, id) == AttemptsOf(s.store, id)
  {
  }

  lemma {:induction false} GivingKeepsAttempts(s: State, e: Event, id: nat)
    requires (e.Fire? || e.Sent? || e.NotSent? || e.Untrack?) && e.id != id
    ensures AttemptsOf(Step(s, e).store, id) == AttemptsOf(s.store, id)
  {
  }

  lemma {:induction false} OthersStay(s: State, e: Event, id: nat)
    requires !Reloads(e) && e.id != id
    ensures View(Step(s, e), id) == View(s, id)
  {
    hide Step, AttemptsOf;
    StepElsewhere(s, e, id);
    if e.Authorize? || e.Broadcast? || e.BroadcastKnown? {
      IncomingKeepsAttempts(s, e, id);
    } else if e.Receive? || e.NoAgent? || e.Begin? || e.Complete? || e.Fail? {
      WorkKeepsAttempts(s, e, id);
    } else {
      GivingKeepsAttempts(s, e, id);
    }
  }

  lemma {:induction false} ReloadIsStep(s: State, e: Event, id: nat)
    requires Reloads(e) && Sound(s)
    ensures View(Step(s, e), id) == Reloaded(View(s, id), e.Restart?)
  {
    hide Sound, Step, Restored, DemoteStatuses;
    ReloadIsHarmless(s, e);
    RestartKeeps(s);
    ReapplyKeeps(s);
  }

  /** One step of the cannon is one step of each of its transactions. */
  lemma {:induction false} StepIsLive(s: State, e: Event, id: nat)
    requires Reloads(e) ==> Sound(s)
    ensures View(Step(s, e), id) == Live(View(s, id), e, id)
  {
    hide Step, Sound, View, Came, Worked, Given, Reloaded;
    if Reloads(e) {
      ReloadIsStep(s, e, id);
    } else if e.id != id {
      OthersStay(s, e, id);
    } else if e.Authorize? || e.Broadcast? || e.BroadcastKnown? {
      CameIsStep(s, e);
    } else if e.Receive? || e.NoAgent? || e.Begin? {
      StartedIsStep(s, e);
    } else if e.Complete? || e.Fail? {
      EndedIsStep(s, e);
    } else {
      GivenIsStep(s, e);
    }
  }

  lemma {:induction false} RunFromIsLives(s: State, events: seq<Event>, id: nat)
    requires Sound(s) && AllHarmless(s, events)
    ensures View(Run(s, events), id) == Lives(View(s, id), events, id)
    decreases |events|
  {
    hide Step, Sound, View, Live, Harmless;
    if events != [] {
      StepKeepsSound(s, events[0]);
      StepIsLive(s, events[0], id);
      RunFromIsLives(Step(s, events[0]), events[1..], id);
    }
  }

  /**
   Every harmless run of the cannon is the lives of its transactions side by
   side, whatever was reloaded in between, and what is tracked is what is stored.
   */
  lemma {:induction false} RunIsLives(events: seq<Event>, id: nat)
    requires AllHarmless(Empty(), events)
    ensures View(Run(Empty(), events), id) == Lives(Unborn(), events, id)
    ensures
      var end := Run(Empty(), events);
      KnownOf(Restored(end.store), id) == Lives(Unborn(), events, id).known
  {
    hide Run, AllHarmless, Lives, Restored, Sound;
    NothingYet();
    RunFromIsLives(Empty(), events, id);
    RunKeepsSound(Empty(), events);
    RestoredOfSound(Run(Empty(), events));
  }

  lemma {:induction false} RestoredOfSound(s: State)
    requires Sound(s)
    ensures Restored(s.store) == s.tracked
  {
    hide Restored;
    RestoredIsTracked(s);
  }

  // ---------- What a step leaves ----------

  /** A broadcast is recorded with its height and time, in memory and in the store, and counted. */
  lemma {:induction false} SentIsRecorded(s: State, id: nat, height: Option<nat>, now: int)
    requires id in s.tracked && id in s.shots
    ensures
      var t := Step(s, Sent(id, height, now));
      && t.tracked == s.tracked[id := s.tracked[id].(status := Broadcasted(height, now))]
      && t.store.status == s.store.status[id := Broadcasted(height, now)]
      && t.store.attempts == s.store.attempts[id := AttemptsOf(s.store, id) + 1]
      && t.shots == s.shots - multiset{id}
  {
  }

  /** The start of an execution is recorded with its time, in memory and in the store, and counted. */
  lemma {:induction false} BeginIsRecorded(s: State, id: nat, now: int)
    requires id in s.tracked && id in s.queued
    ensures
      var t := Step(s, Begin(id, now));
      && t.tracked == s.tracked[id := s.tracked[id].(status := Executing(now))]
      && t.store.status == s.store.status[id := Executing(now)]
      && t.store.attempts == s.store.attempts[id := AttemptsOf(s.store, id) + 1]
      && t.queued == s.queued - multiset{id} && t.running == s.running + multiset{id}
  {
  }

  /** An executed transaction is kept with its body, to be sent, and its attempts start anew. */
  lemma {:induction false} CompleteIsRecorded(s: State, id: nat, body: nat)
    requires id in s.tracked && id in s.running
    ensures
      var t := Step(s, Complete(id, body));
      && t.tracked == s.tracked[id := s.tracked[id].(status := Unsent, tx := Some(body))]
      && t.store.status == s.store.status[id := Unsent] && t.store.blobs == s.store.blobs[id := body]
      && t.store.attempts == s.store.attempts - {id}
      && t.running == s.running - multiset{id}
  {
  }

  // ---------- Broadcasts ----------

  lemma {:induction false} LivesAppend(l: Life, events: seq<Event>, e: Event, id: nat)
    ensures Lives(l, events + [e], id) == Live(Lives(l, events, id), e, id)
    decreases |events|
  {
    hide Live;
    if events == [] {
      assert [] + [e] == [e] && [e][1..] == [];
    } else {
      assert (events + [e])[0] == events[0] && (events + [e])[1..] == events[1..] + [e];
      LivesAppend(Live(l, events[0], id), events[1..], e, id);
    }
  }

  /** A node takes the transaction, which is tracked and on its way. */
  predicate Takes(l: Life, e: Event, id: nat) {
    e.Sent? && e.id == id && l.shots > 0 && l.known.Some?
  }

  /** Only being taken by a node makes a transaction broadcast. */
  lemma {:induction false} BroadcastsOnlyIfTaken(l: Life, e: Event, id: nat)
    ensures
      var after := Live(l, e, id);
      if Takes(l, e, id) then
        after.known.Some? && after.known.value.status == Broadcasted(e.height, e.now)
      else
        after.known.Some? && after.known.value.status.Broadcasted? ==>
          l.known.Some? && l.known.value.status == after.known.value.status
  {
  }

  /** The i-th event is the last time a node takes the transaction. */
  ghost predicate LastTaken(events: seq<Event>, id: nat, i: nat) {
    && i < |events| && Takes(Lives(Unborn(), events[..i], id), events[i], id)
    && forall j :: i < j < |events| ==> !Takes(Lives(Unborn(), events[..j], id), events[j], id)
  }

  lemma {:induction false} LastTakenOf(events: seq<Event>, id: nat) returns (i: nat)
    requires Lives(Unborn(), events, id).known.Some? && Lives(Unborn(), events, id).known.value.status.Broadcasted?
    ensures LastTaken(events, id, i)
    ensures Lives(Unborn(), events, id).known.value.status == Broadcasted(events[i].height, events[i].now)
    decreases |events|
  {
    hide Takes, Live;
    assert events != [];
    var n := |events| - 1;
    var front, e := events[..n], events[n];
    assert events == front + [e];
    LivesAppend(Unborn(), front, e, id);
    BroadcastsOnlyIfTaken(Lives(Unborn(), front, id), e, id);
    if Takes(Lives(Unborn(), front, id), e, id) {
      TakenIsSent(Lives(Unborn(), front, id), e, id);
      i := n;
    } else {
      i := LastTakenOf(front, id);
      forall j | 0 <= j < n ensures front[..j] == events[..j] && front[j] == events[j] {
      }
      assert front == events[..n];
    }
  }

  lemma {:induction false} TakenIsSent(l: Life, e: Event, id: nat)
    requires Takes(l, e, id)
    ensures e.Sent?
  {
  }

  /**
   In every harmless run, reloads included, the height and time of a broadcast
   transaction are those of the last time a node took it.
   */
  lemma {:induction false} BroadcastIsLastSent(events: seq<Event>, id: nat)
    requires AllHarmless(Empty(), events)
    requires
      var end := Run(Empty(), events);
      id in end.tracked && end.tracked[id].status.Broadcasted?
    ensures
      var end := Run(Empty(), events);
      && id in end.store.status && end.store.status[id] == end.tracked[id].status
      && exists i: nat :: LastTaken(events, id, i) && events[i].Sent?
           && end.tracked[id].status == Broadcasted(events[i].height, events[i].now)
  {
    hide Run, AllHarmless, Lives, Restored, Takes, Sound;
    RunIsLives(events, id);
    RunKeepsSoundHere(events, id);
    var i := LastTakenOf(events, id);
    TakenIsSent(Lives(Unborn(), events[..i], id), events[i], id);
  }

  lemma {:induction false} RunKeepsSoundHere(events: seq<Event>, id: nat)
    requires AllHarmless(Empty(), events) && id in Run(Empty(), events).tracked
    ensures
      var end := Run(Empty(), events);
      id in end.store.status && end.store.status[id] == end.tracked[id].status
  {
    hide Run, AllHarmless;
    NothingYet();
    RunKeepsSound(Empty(), events);
    assert Mirrors(Run(Empty(), events).store, id, Run(Empty(), events).tracked[id]);
  }

  // ---------- Attempts ----------

  /** Only what is tracked has been tried. */
  predicate CountsTracked(l: Life) {
    l.known.None? ==> l.attempts == 0
  }

  /** An execution starts, or a node takes the transaction, after it has been given up. */
  predicate CountsLate(l: Life, e: Event, id: nat) {
    l.known.None? && !Reloads(e) && e.id == id && ((e.Begin? && l.queued > 0) || (e.Sent? && l.shots > 0))
  }

  /** Attempts are counted for tracked transactions only, exactly unless work goes on after one is given up. */
  lemma {:induction false} CountsTrackedExactly(l: Life, e: Event, id: nat)
    requires CountsTracked(l)
    ensures CountsTracked(Live(l, e, id)) <==> !CountsLate(l, e, id)
  {
  }

  /**
   An authorization that is given up while it waits for an agent leaves its count
   behind: coming in again, it has been tried once before anything is tried.
   */
  lemma {:induction false} CountOutlivesTracker(id: nat, auth: nat, now: int)
    ensures
      var events := [Authorize(id, auth), Receive(id), Untrack(id), Begin(id, now), Cannon.Fail(id), Authorize(id, auth)];
      AllHarmless(Empty(), events)
      && View(Run(Empty(), events), id) == Life(Some(Known(Some(auth), None, Authorized)), 1, 0, 0, 0)
  {
    hide Run, Step, AllHarmless, Sound, Harmless, View;
    NothingYet();
    BornEmpty(id);
    var queued, worked := Life(Some(Known(Some(auth), None, Authorized)), 0, 1, 0, 0), Life(None, 1, 0, 1, 0);
    var e1 := Further([], Authorize(id, auth), id);
    var e2 := Further(e1, Receive(id), id);
    assert View(Run(Empty(), e2), id) == queued;
    var e3 := Further(e2, Untrack(id), id);
    var e4 := Further(e3, Begin(id, now), id);
    assert View(Run(Empty(), e4), id) == worked;
    var e5 := Further(e4, Cannon.Fail(id), id);
    var e6 := Further(e5, Authorize(id, auth), id);
    assert e6 == [Authorize(id, auth), Receive(id), Untrack(id), Begin(id, now), Cannon.Fail(id), Authorize(id, auth)];
  }

  lemma {:induction false} BornEmpty(id: nat)
    ensures View(Empty(), id) == Unborn()
  {
  }

  lemma {:induction false} Further(events: seq<Event>, e: Event, id: nat) returns (more: seq<Event>)
    requires AllHarmless(Empty(), events) && !Reloads(e) && e.id == id
    requires e.Authorize? ==> View(Run(Empty(), events), id).shots == 0
    requires !e.Broadcast? && !e.BroadcastKnown?
    ensures more == events + [e] && AllHarmless(Empty(), more)
    ensures View(Run(Empty(), more), id) == Live(View(Run(Empty(), events), id), e, id)
  {
    hide Run, Step, AllHarmless, Live;
    var s := Run(Empty(), events);
    assert Harmless(s, e);
    OneMoreStep(Empty(), events, s, e);
    StepIsLive(s, e, id);
    more := events + [e];
  }
}
