/**
 The transactions of a cannon: which are tracked, what of them is stored, and
 which executions and broadcasts are under way.  One step is what happens
 between two points at which a task can be suspended.
 */
module Cannon {
  import opened Wrappers

  datatype Status = Authorized | Executing(since: int) | Unsent | Broadcasted(height: Option<nat>, at: int)

  /** Transaction ids, authorizations and transaction bodies are numbers. */
  datatype Tracker = Tracker(index: nat, auth: Option<nat>, tx: Option<nat>, status: Status)

  /** The store of one cannon; `received` is the counter kept under the empty id. */
  datatype Store = Store(
    index: map<nat, nat>, status: map<nat, Status>, auths: map<nat, nat>, blobs: map<nat, nat>,
    attempts: map<nat, nat>, received: Option<nat>)

  /**
   `queued` executions have passed the checks but not found an agent yet,
   `running` ones have, and `shots` are transactions on their way to a node.
   */
  datatype State = State(
    tracked: map<nat, Tracker>, store: Store, next: nat, queued: multiset<nat>, running: multiset<nat>, shots: multiset<nat>)

  datatype Event =
    | Authorize(id: nat, auth: nat)                        // an authorization comes in
    | Broadcast(id: nat, body: nat)                        // a transaction comes in
    | BroadcastKnown(id: nat, body: nat)                   // one that is in a cached block comes in
    | Receive(id: nat)                                     // an id is taken to be executed
    | NoAgent(id: nat)                                     // no agent can execute it
    | Begin(id: nat, now: int)                             // an agent starts
    | Complete(id: nat, body: nat)                         // the agent is done
    | Fail(id: nat)                                        // the agent has failed
    | Fire(id: nat, target: bool)                          // an id is taken to be broadcast
    | Sent(id: nat, height: Option<nat>, now: int)         // a node has taken it
    | NotSent(id: nat)                                     // no node has, or the ledger has it
    | Untrack(id: nat)                                     // confirmed, or too many attempts
    | Restart                                              // the program stops and starts again
    | Reapply                                              // the environment is applied again

  // ---------- The store ----------

  function Save(s: Store, id: nat, t: Tracker): Store {
    s.(index := s.index[id := t.index],
       status := s.status[id := t.status],
       auths := if t.auth.Some? then s.auths[id := t.auth.value] else s.auths,
       blobs := if t.tx.Some? then s.blobs[id := t.tx.value] else s.blobs)
  }

  function Delete(s: Store, id: nat): Store {
    s.(index := s.index - {id}, status := s.status - {id}, auths := s.auths - {id}, blobs := s.blobs - {id},
       attempts := s.attempts - {id})
  }

  function AttemptsOf(s: Store, id: nat): nat {
    if id in s.attempts then s.attempts[id] else 0
  }

  function MoreAttempts(s: Store, id: nat): Store {
    s.(attempts := s.attempts[id := AttemptsOf(s, id) + 1])
  }

  // ---------- Steps ----------

  /** The index of a new transaction, which is also what is stored of the counter. */
  function Counted(s: State): State {
    s.(next := s.next + 1, store := s.store.(received := Some(s.next)))
  }

  function WriteStatus(s: State, id: nat, status: Status): State {
    if id in s.tracked then
      s.(tracked := s.tracked[id := s.tracked[id].(status := status)],
         store := s.store.(status := s.store.status[id := status]))
    else s
  }

  function Forget(s: State, id: nat): State {
    s.(tracked := s.tracked - {id}, store := Delete(s.store, id))
  }

  function Track(s: State, id: nat, t: Tracker): State {
    s.(tracked := s.tracked[id := t], store := Save(s.store, id, t))
  }

  function AfterBroadcast(s: State, id: nat, body: nat): State {
    if id in s.tracked then
      if s.tracked[id].status.Executing? then
        Track(s.(store := s.store.(attempts := s.store.attempts - {id})), id,
              s.tracked[id].(status := Unsent, tx := Some(body)))
      else s
    else Track(Counted(s), id, Tracker(s.next, None, Some(body), Unsent))
  }

  function AfterComplete(s: State, id: nat, body: nat): State {
    if id in s.tracked then
      s.(tracked := s.tracked[id := s.tracked[id].(status := Unsent, tx := Some(body))],
         store := s.store.(status := s.store.status[id := Unsent], blobs := s.store.blobs[id := body],
                           attempts := s.store.attempts - {id}))
    else s
  }

  /** The checks before a transaction is executed, and before it is broadcast. */
  predicate MayExecute(t: Tracker) {
    t.status == Authorized && t.auth.Some?
  }

  predicate MayBroadcast(t: Tracker) {
    (t.status.Unsent? || t.status.Broadcasted?) && t.tx.Some?
  }

  // ---------- Restart ----------

  /** Every transaction with a status and an index comes back. */
  function Restored(s: Store): map<nat, Tracker> {
    map id | id in s.status && id in s.index ::
      Tracker(s.index[id],
              if id in s.auths then Some(s.auths[id]) else None,
              if id in s.blobs then Some(s.blobs[id]) else None,
              s.status[id])
  }

  function Demoted(status: Status): Status {
    if status.Executing? then Authorized else status
  }

  function DemoteAll(tracked: map<nat, Tracker>): map<nat, Tracker> {
    map id | id in tracked :: tracked[id].(status := Demoted(tracked[id].status))
  }

  /** The statuses of interrupted executions are written back. */
  function DemoteStatuses(status: map<nat, Status>, tracked: map<nat, Tracker>): map<nat, Status> {
    map id | id in status :: if id in tracked && tracked[id].status.Executing? then Authorized else status[id]
  }

  function AfterRestart(s: Store): State {
    var tracked := Restored(s);
    State(DemoteAll(tracked), s.(status := DemoteStatuses(s.status, tracked)), s.received.GetOr(0),
          multiset{}, multiset{}, multiset{})
  }

  /** The cannon of an environment that is applied again loads its trackers as they are stored. */
  function AfterReapply(s: Store): State {
    State(Restored(s), s, s.received.GetOr(0), multiset{}, multiset{}, multiset{})
  }

  /** The events that do not concern a single transaction. */
  predicate Reloads(e: Event) {
    e.Restart? || e.Reapply?
  }

  function Step(s: State, e: Event): State {
    match e
    case Authorize(id, auth) =>
      if id in s.tracked then s else Track(Counted(s), id, Tracker(s.next, Some(auth), None, Authorized))
    case Broadcast(id, body) => AfterBroadcast(s, id, body)
    case BroadcastKnown(id, _) => s.(store := Delete(s.store, id))
    case Receive(id) => if id in s.tracked && MayExecute(s.tracked[id]) then s.(queued := s.queued + multiset{id}) else s
    case NoAgent(id) => s.(queued := s.queued - multiset{id})
    case Begin(id, now) =>
      if id !in s.queued then s
      else
        var t := WriteStatus(s, id, Executing(now));
        t.(store := MoreAttempts(t.store, id), queued := s.queued - multiset{id}, running := s.running + multiset{id})
    case Complete(id, body) =>
      if id !in s.running then s else AfterComplete(s, id, body).(running := s.running - multiset{id})
    case Fail(id) =>
      if id !in s.running then s else WriteStatus(s, id, Authorized).(running := s.running - multiset{id})
    case Fire(id, target) =>
      if id !in s.tracked || !MayBroadcast(s.tracked[id]) then s
      else if target then s.(shots := s.shots + multiset{id})
      else Forget(s, id)
    case Sent(id, height, now) =>
      if id !in s.shots then s
      else
        var t := WriteStatus(s, id, Broadcasted(height, now));
        t.(store := MoreAttempts(t.store, id), shots := s.shots - multiset{id})
    case NotSent(id) => s.(shots := s.shots - multiset{id})
    case Untrack(id) => Forget(s, id)
    case Restart => AfterRestart(s.store)
    case Reapply => AfterReapply(s.store)
  }

  function Run(s: State, events: seq<Event>): State
    decreases |events|
  {
    if events == [] then s else Run(Step(s, events[0]), events[1..])
  }

  function Empty(): State {
    State(map[], Store(map[], map[], map[], map[], map[], None), 0, multiset{}, multiset{}, multiset{})
  }
}
