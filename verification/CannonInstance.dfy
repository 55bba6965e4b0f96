/**
 A cannon as the program runs it: a map of trackers in memory, the maps of the
 store, and the methods that change them.  Each method is one step.
 */
module CannonInstance {
  import opened Wrappers
  import opened Cannon

  datatype CannonError =
    | TransactionAlreadyExists | TransactionLost | InvalidTransactionState | NoAvailableAgents
    | MissingTracker | UnexpectedStatus | MissingAuthorization | SinkFailed

  /** All rows of a map. */
  ghost predicate RowsOf(rows: seq<(nat, Status)>, status: map<nat, Status>) {
    && (forall i :: 0 <= i < |rows| ==> rows[i].0 in status && status[rows[i].0] == rows[i].1)
    && (forall id :: id in status ==> exists i :: 0 <= i < |rows| && rows[i].0 == id)
  }

  ghost predicate Lists(order: seq<nat>, tracked: map<nat, Tracker>) {
    forall id :: id in order <==> id in tracked
  }

  /** One of the first n rows is about the transaction. */
  ghost predicate Before(rows: seq<(nat, Status)>, n: nat, id: nat) {
    exists i :: 0 <= i < n && i < |rows| && rows[i].0 == id
  }

  /** What the next row brings back. */
  lemma {:induction false} RowRestored(s: Store, rows: seq<(nat, Status)>, n: nat)
    requires RowsOf(rows, s.status) && n < |rows|
    ensures
      var id := rows[n].0;
      && (id in Restored(s) <==> id in s.index)
      && (id in s.index ==>
            Restored(s)[id] == Tracker(s.index[id], if id in s.auths then Some(s.auths[id]) else None,
                                       if id in s.blobs then Some(s.blobs[id]) else None, rows[n].1))
    ensures forall id :: Before(rows, n + 1, id) <==> Before(rows, n, id) || id == rows[n].0
  {
    forall id ensures Before(rows, n + 1, id) <==> Before(rows, n, id) || id == rows[n].0 {
      if Before(rows, n, id) {
        var i :| 0 <= i < n && rows[i].0 == id;
        assert 0 <= i < n + 1 && rows[i].0 == id;
      }
    }
  }

  lemma {:induction false} AllRowsRestored(s: Store, rows: seq<(nat, Status)>)
    requires RowsOf(rows, s.status)
    ensures forall id :: id in Restored(s) ==> Before(rows, |rows|, id)
  {
  }

  class Instance {
    var tracked: map<nat, Tracker>
    var txIndex: map<nat, nat>
    var txStatus: map<nat, Status>
    var txAuths: map<nat, nat>
    var txBlobs: map<nat, nat>
    var txAttempts: map<nat, nat>
    var storedCount: Option<nat>
    var receivedTxs: nat
    var queued: multiset<nat>
    var running: multiset<nat>
    var shots: multiset<nat>

    ghost function Abs(): State
      reads this
    {
      State(tracked, Store(txIndex, txStatus, txAuths, txBlobs, txAttempts, storedCount), receivedTxs, queued, running, shots)
    }

    constructor ()
      ensures Abs() == Empty()
    {
      tracked, txIndex, txStatus, txAuths, txBlobs, txAttempts := map[], map[], map[], map[], map[], map[];
      storedCount, receivedTxs := None, 0;
      queued, running, shots := multiset{}, multiset{}, multiset{};
    }

    // ---------- The store ----------

    method Write(id: nat, t: Tracker)
      modifies this
      ensures Abs() == old(Abs()).(store := Save(old(Abs()).store, id, t))
    {
      txIndex := txIndex[id := t.index];
      txStatus := txStatus[id := t.status];
      if t.auth.Some? {
        txAuths := txAuths[id := t.auth.value];
      }
      if t.tx.Some? {
        txBlobs := txBlobs[id := t.tx.value];
      }
    }

    method DeleteStored(id: nat)
      modifies this
      ensures Abs() == old(Abs()).(store := Delete(old(Abs()).store, id))
    {
      txIndex := txIndex - {id};
      txAttempts := txAttempts - {id};
      txStatus := txStatus - {id};
      txAuths := txAuths - {id};
      txBlobs := txBlobs - {id};
    }

    method IncAttempts(id: nat)
      modifies this
      ensures Abs() == old(Abs()).(store := MoreAttempts(old(Abs()).store, id))
    {
      var prev := if id in txAttempts then txAttempts[id] else 0;
      txAttempts := txAttempts[id := prev + 1];
    }

    method IncReceivedTxs() returns (index: nat)
      modifies this
      ensures Abs() == Counted(old(Abs())) && index == old(receivedTxs)
    {
      index := receivedTxs;
      receivedTxs := receivedTxs + 1;
      storedCount := Some(index);
    }

    method WriteTxStatus(id: nat, status: Status)
      modifies this
      ensures Abs() == WriteStatus(old(Abs()), id, status)
    {
      if id in tracked {
        txStatus := txStatus[id := status];
        tracked := tracked[id := tracked[id].(status := status)];
      }
    }

    method RemoveTxTracker(id: nat)
      modifies this
      ensures Abs() == Step(old(Abs()), Untrack(id))
    {
      tracked := tracked - {id};
      DeleteStored(id);
    }

    // ---------- What comes in ----------

    /** `known` says whether a cached block has the transaction. */
    method ProxyBroadcast(id: nat, body: nat, known: bool) returns (r: Result<(), CannonError>)
      modifies this
      ensures Abs() == Step(old(Abs()), if known then BroadcastKnown(id, body) else Broadcast(id, body))
      ensures r.Ok? <==> !known && (id in old(tracked) ==> old(tracked)[id].status.Executing?)
      ensures r.Ok? ==> id in tracked && tracked[id].status == Unsent && tracked[id].tx == Some(body)
    {
      if known {
        DeleteStored(id);
        return Err(TransactionAlreadyExists);
      }
      var tracker: Tracker;
      if id in tracked {
        tracker := tracked[id];
        if !tracker.status.Executing? {
          return Err(TransactionAlreadyExists);
        }
        txAttempts := txAttempts - {id};
        tracker := tracker.(status := Unsent, tx := Some(body));
      } else {
        var index := IncReceivedTxs();
        tracker := Tracker(index, None, Some(body), Unsent);
      }
      Write(id, tracker);
      tracked := tracked[id := tracker];
      return Ok(());
    }

    method ProxyAuth(id: nat, auth: nat) returns (r: Result<(), CannonError>)
      modifies this
      ensures Abs() == Step(old(Abs()), Authorize(id, auth))
      ensures r.Ok? <==> id !in old(tracked)
      ensures r.Ok? ==> tracked == old(tracked)[id := Tracker(old(receivedTxs), Some(auth), None, Authorized)]
    {
      if id in tracked {
        return Err(TransactionAlreadyExists);
      }
      var index := IncReceivedTxs();
      var tracker := Tracker(index, Some(auth), None, Authorized);
      Write(id, tracker);
      tracked := tracked[id := tracker];
      return Ok(());
    }

    // ---------- Executing ----------

    method ReceiveAuthorization(id: nat) returns (r: Result<nat, CannonError>)
      modifies this
      ensures Abs() == Step(old(Abs()), Receive(id))
      ensures r.Ok? <==> id in old(tracked) && MayExecute(old(tracked)[id])
      ensures r.Ok? ==> Some(r.value) == old(tracked)[id].auth
    {
      if id !in tracked {
        return Err(MissingTracker);
      }
      var tracker := tracked[id];
      if tracker.status != Authorized {
        return Err(UnexpectedStatus);
      }
      if tracker.auth.None? {
        return Err(MissingAuthorization);
      }
      queued := queued + multiset{id};
      return Ok(tracker.auth.value);
    }

    method StartAgent(id: nat, now: int)
      requires id in queued
      modifies this
      ensures Abs() == Step(old(Abs()), Begin(id, now))
    {
      hide WriteStatus, MoreAttempts;
      ghost var s := Abs();
      WriteTxStatus(id, Executing(now));
      ghost var t := Abs();
      WriteStatusFrame(s, id, Executing(now));
      IncAttempts(id);
      queued, running := queued - multiset{id}, running + multiset{id};
      assert Abs() == t.(store := MoreAttempts(t.store, id), queued := s.queued - multiset{id}, running := s.running + multiset{id});
    }

    /** `agent` says whether an agent was found. */
    method BeginExecution(id: nat, agent: bool, now: int) returns (r: Result<(), CannonError>)
      requires id in queued
      modifies this
      ensures Abs() == Step(old(Abs()), if agent then Begin(id, now) else NoAgent(id))
      ensures r.Ok? <==> agent
      ensures
        agent && id in old(tracked) ==>
          && id in tracked && tracked[id].status == Executing(now) && id in txStatus && txStatus[id] == Executing(now)
          && id in txAttempts && txAttempts[id] == AttemptsOf(old(Abs()).store, id) + 1
    {
      if !agent {
        queued := queued - multiset{id};
        return Err(NoAvailableAgents);
      }
      StartAgent(id, now);
      return Ok(());
    }

    method SaveTransaction(id: nat, body: nat)
      modifies this
      ensures Abs() == AfterComplete(old(Abs()), id, body)
      ensures
        id in old(tracked) ==>
          && tracked == old(tracked)[id := old(tracked)[id].(status := Unsent, tx := Some(body))]
          && id in txStatus && txStatus[id] == Unsent && id in txBlobs && txBlobs[id] == body && id !in txAttempts
    {
      if id in tracked {
        txStatus := txStatus[id := Unsent];
        txBlobs := txBlobs[id := body];
        txAttempts := txAttempts - {id};
        tracked := tracked[id := tracked[id].(status := Unsent, tx := Some(body))];
      }
    }

    method CompleteExecution(id: nat, body: nat)
      requires id in running
      modifies this
      ensures Abs() == Step(old(Abs()), Complete(id, body))
      ensures
        id in old(tracked) ==>
          && tracked == old(tracked)[id := old(tracked)[id].(status := Unsent, tx := Some(body))]
          && id in txStatus && txStatus[id] == Unsent && id in txBlobs && txBlobs[id] == body && id !in txAttempts
    {
      hide AfterComplete;
      ghost var s := Abs();
      SaveTransaction(id, body);
      CompleteFrame(s, id, body);
      running := running - multiset{id};
    }

    method FailExecution(id: nat)
      requires id in running
      modifies this
      ensures Abs() == Step(old(Abs()), Cannon.Fail(id))
      ensures id in old(tracked) ==> tracked[id].status == Authorized && id in txStatus && txStatus[id] == Authorized
    {
      WriteTxStatus(id, Authorized);
      running := running - multiset{id};
    }

    // ---------- Broadcasting ----------

    /**
     Write the transaction to the file if there is one, which `written` says has
     worked, and send it to the target's nodes, if there is a target.  Without a
     target there is nothing to confirm and the transaction is forgotten; with a
     target of which no node is known the broadcast fails.
     */
    method FireTx(id: nat, written: bool, nodes: Option<nat>) returns (r: Result<nat, CannonError>)
      modifies this
      ensures Abs() == if r.Ok? then Step(old(Abs()), Fire(id, nodes.Some?)) else old(Abs())
      ensures r.Ok? <==> id in old(tracked) && MayBroadcast(old(tracked)[id]) && written && nodes != Some(0)
      ensures r.Ok? ==> Some(r.value) == old(tracked)[id].tx
      ensures r == Err(SinkFailed) ==> !written
      ensures r == Err(NoAvailableAgents) ==> written && nodes == Some(0)
    {
      if id !in tracked {
        return Err(TransactionLost);
      }
      var tracker := tracked[id];
      if !tracker.status.Unsent? && !tracker.status.Broadcasted? {
        return Err(InvalidTransactionState);
      }
      if tracker.tx.None? {
        return Err(TransactionLost);
      }
      if !written {
        return Err(SinkFailed);
      }
      if nodes == Some(0) {
        return Err(NoAvailableAgents);
      }
      if nodes.Some? {
        shots := shots + multiset{id};
      } else {
        RemoveTxTracker(id);
      }
      return Ok(tracker.tx.value);
    }

    method UpdateStatus(id: nat, height: Option<nat>, now: int)
      requires id in shots
      modifies this
      ensures Abs() == Step(old(Abs()), Sent(id, height, now))
      ensures
        id in old(tracked) ==>
          && tracked == old(tracked)[id := old(tracked)[id].(status := Broadcasted(height, now))]
          && txStatus == old(txStatus)[id := Broadcasted(height, now)]
      ensures txAttempts == old(txAttempts)[id := AttemptsOf(old(Abs()).store, id) + 1]
    {
      WriteTxStatus(id, Broadcasted(height, now));
      IncAttempts(id);
      shots := shots - multiset{id};
    }

    // ---------- Restarting ----------

    /** Load the trackers: `rows` is what the store has under the prefix of the cannon. */
    method RestoreTransactions(rows: seq<(nat, Status)>)
      requires RowsOf(rows, txStatus)
      modifies this`tracked, this`receivedTxs
      ensures tracked == Restored(old(Abs()).store) && receivedTxs == storedCount.GetOr(0)
    {
      hide Restored;
      ghost var store := Abs().store;
      receivedTxs := storedCount.GetOr(0);
      tracked := map[];
      for n := 0 to |rows|
        invariant receivedTxs == storedCount.GetOr(0)
        invariant forall id :: id in tracked <==> id in Restored(store) && Before(rows, n, id)
        invariant forall id :: id in tracked ==> tracked[id] == Restored(store)[id]
      {
        var (id, status) := rows[n];
        RowRestored(store, rows, n);
        if id in txIndex {
          var auth := if id in txAuths then Some(txAuths[id]) else None;
          var tx := if id in txBlobs then Some(txBlobs[id]) else None;
          tracked := tracked[id := Tracker(txIndex[id], auth, tx, status)];
        }
      }
      AllRowsRestored(store, rows);
    }

    /** Interrupted executions go back to authorized; `order` lists the trackers. */
    method DemoteInterrupted(order: seq<nat>)
      requires Lists(order, tracked)
      requires forall id :: id in tracked ==> id in txStatus && txStatus[id] == tracked[id].status
      modifies this`tracked, this`txStatus
      ensures tracked == DemoteAll(old(tracked)) && txStatus == DemoteStatuses(old(txStatus), old(tracked))
    {
      ghost var before, stored := tracked, txStatus;
      assert order[..|order|] == order;
      for n := 0 to |order|
        invariant tracked.Keys == before.Keys && txStatus.Keys == stored.Keys
        invariant forall id :: id in before ==>
          tracked[id] == (if id in order[..n] then before[id].(status := Demoted(before[id].status)) else before[id])
        invariant forall id :: id in stored && id !in before ==> txStatus[id] == stored[id]
        invariant forall id :: id in before ==> txStatus[id] == tracked[id].status
      {
        var id := order[n];
        assert order[..n + 1] == order[..n] + [id];
        if tracked[id].status.Executing? {
          tracked := tracked[id := tracked[id].(status := Authorized)];
          txStatus := txStatus[id := Authorized];
        }
      }
    }
  }

  /** A restart: what was under way is gone, the trackers are loaded and interrupted executions demoted. */
  method Reload(c: Instance, rows: seq<(nat, Status)>, order: seq<nat>)
    requires RowsOf(rows, c.txStatus) && Lists(order, Restored(c.Abs().store))
    modifies c
    ensures c.Abs() == Step(old(c.Abs()), Restart)
  {
    hide Restored, DemoteAll, DemoteStatuses, RowsOf, Lists;
    ghost var s := c.Abs().store;
    c.queued, c.running, c.shots := multiset{}, multiset{}, multiset{};
    c.RestoreTransactions(rows);
    RestoredStatuses(s);
    c.DemoteInterrupted(order);
    assert c.Abs() == AfterRestart(s);
  }

  /** The environment is applied again: a new cannon loads the trackers as they are stored. */
  method Rebuild(c: Instance, rows: seq<(nat, Status)>)
    requires RowsOf(rows, c.txStatus)
    modifies c
    ensures c.Abs() == Step(old(c.Abs()), Reapply)
  {
    hide Restored, RowsOf;
    c.queued, c.running, c.shots := multiset{}, multiset{}, multiset{};
    c.RestoreTransactions(rows);
  }

  lemma {:induction false} WriteStatusFrame(s: State, id: nat, status: Status)
    ensures
      var t := WriteStatus(s, id, status);
      t.next == s.next && t.queued == s.queued && t.running == s.running && t.shots == s.shots
  {
  }

  lemma {:induction false} CompleteFrame(s: State, id: nat, body: nat)
    ensures AfterComplete(s, id, body).running == s.running
  {
  }

  lemma {:induction false} RestoredStatuses(s: Store)
    ensures forall id :: id in Restored(s) ==> id in s.status && s.status[id] == Restored(s)[id].status
  {
  }
}
