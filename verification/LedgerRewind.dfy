/**
 Rewinding a ledger: the checks, the removal of all heights above the
 checkpoint one after the other, and the same removals interleaved.
 */
module LedgerRewind {
  import opened Wrappers
  import opened Ledger
  import opened LedgerRun
  import opened LedgerStores
  import opened LedgerPlan
  import opened LedgerSchedule
  import opened LedgerChain
  import opened LedgerChainProofs

  // ---------- The rounds of a height ----------

  /** The first round the search deletes: it never goes down to round 0. */
  function Lowest(start: nat, first: nat): nat {
    if start == 0 then 0 else if first == 0 then 1 else first
  }

  lemma {:induction false} DeletesRounds(db: Db, first: nat, last: nat)
    ensures Deletes(db, RoundsWork(first, last), RoundKeys(first, last))
    decreases last - first
  {
    hide Deletes;
    if first >= last {
      DeletesNothing(db);
    } else {
      DeletesOneKey(db, Round(first));
      DeletesRounds(db, first + 1, last);
      DeletesAppend(db, [Del(Round(first))], [Round(first)], RoundsWork(first + 1, last), RoundKeys(first + 1, last));
    }
  }

  lemma {:induction false} RoundIn(first: nat, last: nat, r: nat)
    ensures Round(r) in RoundKeys(first, last) <==> first <= r < last
    ensures forall k :: k in RoundKeys(first, last) ==> k.Round?
    decreases last - first
  {
    if first < last {
      RoundIn(first + 1, last, r);
    }
  }

  lemma {:induction false} DeletesLater(db: Db, height: nat, lowest: nat, round: nat, first: nat, last: nat)
    requires HoldsRounds(db, height, first, last) && first <= lowest <= round <= last
    ensures Deletes(db, [LaterRounds(height, lowest, round)], RoundKeys(lowest, last) + [Committee(height)])
    decreases last - round
  {
    hide Deletes, RoundsWork, RoundKeys;
    var keys := RoundKeys(lowest, last) + [Committee(height)];
    assert NumberAt(db, Round(round)) == Some(height) <==> first <= round < last;
    if round < last {
      DeletesLater(db, height, lowest, round + 1, first, last);
      RoundIn(lowest, last, round);
    } else {
      DeletesRounds(db, lowest, last);
      DeletesOneKey(db, Committee(height));
      DeletesAppend(db, RoundsWork(lowest, last), RoundKeys(lowest, last), [Del(Committee(height))], [Committee(height)]);
    }
    DeletesExpanded(db, LaterRounds(height, lowest, round), keys);
  }

  lemma {:induction false} DeletesEarlier(db: Db, height: nat, start: nat, round: nat, first: nat, last: nat)
    requires HoldsRounds(db, height, first, last) && first <= start < last && Lowest(start, first) <= round + 1 && round <= start
    requires start == 0 ==> round == 0
    ensures Deletes(db, [EarlierRounds(height, start, round)], RoundKeys(Lowest(start, first), last) + [Committee(height)])
    decreases round
  {
    hide Deletes, RoundsWork, RoundKeys;
    var lowest := Lowest(start, first);
    var keys := RoundKeys(lowest, last) + [Committee(height)];
    assert NumberAt(db, Round(round)) == Some(height) <==> first <= round < last;
    if round > 0 && first <= round {
      DeletesEarlier(db, height, start, round - 1, first, last);
      RoundIn(lowest, last, round);
    } else {
      DeletesLater(db, height, lowest, start, first, last);
    }
    DeletesExpanded(db, EarlierRounds(height, start, round), keys);
  }

  /** The search in both directions, for rounds that lie around the start. */
  lemma {:induction false} DeletesCommittee(db: Db, height: nat, start: nat, first: nat, last: nat)
    requires NumberAt(db, Committee(height)) == Some(start)
    requires HoldsRounds(db, height, first, last) && first <= start < last
    ensures Deletes(db, [CommitteeAt(height)], RoundKeys(Lowest(start, first), last) + [Committee(height)])
  {
    hide Deletes, RoundKeys;
    DeletesEarlier(db, height, start, start, first, last);
    DeletesExpanded(db, CommitteeAt(height), RoundKeys(Lowest(start, first), last) + [Committee(height)]);
  }

  /** The search deletes exactly the rounds of a height unless round 0 is one of them and not the start. */
  lemma {:induction false} RoundSearchIsExact(db: Db, height: nat, start: nat, first: nat, last: nat)
    requires NumberAt(db, Committee(height)) == Some(start)
    requires HoldsRounds(db, height, first, last) && first <= start < last
    ensures RanksBelow([CommitteeAt(height)], TOP) && PlanOf(db, [CommitteeAt(height)]).Some?
    ensures
      var keys := PlanOf(db, [CommitteeAt(height)]).value.keys;
      (forall r: nat :: Round(r) in keys <==> NumberAt(db, Round(r)) == Some(height)) <==> (start == 0 || first > 0)
  {
    hide RoundKeys, PlanOf, RanksBelow;
    DeletesCommittee(db, height, start, first, last);
    var keys := PlanOf(db, [CommitteeAt(height)]).value.keys;
    forall r: nat ensures Round(r) in keys <==> Lowest(start, first) <= r < last {
      RoundIn(Lowest(start, first), last, r);
    }
    assert NumberAt(db, Round(0)) == Some(height) <==> first == 0;
  }

  /** A height whose rounds are 0 and 1 and that starts in round 1 keeps round 0. */
  lemma {:induction false} RoundZeroIsLeft(height: nat)
    ensures
      var db: Db := map[Committee(height) := Number(1), Round(0) := Number(height), Round(1) := Number(height)];
      RanksBelow([CommitteeAt(height)], TOP) && PlanOf(db, [CommitteeAt(height)]).Some?
      && Round(0) !in PlanOf(db, [CommitteeAt(height)]).value.keys
  {
    hide RoundKeys, PlanOf, RanksBelow;
    var db: Db := map[Committee(height) := Number(1), Round(0) := Number(height), Round(1) := Number(height)];
    DeletesCommittee(db, height, 1, 0, 2);
    RoundIn(1, 2, 0);
  }

  // ---------- A chain of blocks ----------

  /** No two blocks share an entry. */
  ghost predicate Apart(blocks: map<nat, Block>) {
    forall h, h', k :: h in blocks && h' in blocks && h != h' && k in BlockKeys(blocks[h]) ==> k !in BlockKeys(blocks[h'])
  }

  /** The store holds every block and no two blocks share an entry. */
  ghost predicate Chain(db: Db, blocks: map<nat, Block>) {
    && (forall h :: h in blocks ==>
          blocks[h].height == h && Holds(db, blocks[h]) && NoRepeats(BlockKeys(blocks[h])))
    && Apart(blocks)
  }

  lemma {:induction false} RemovalDeletesBlock(db: Db, b: Block)
    requires Holds(db, b)
    ensures Deletes(db, Removal(b.height), BlockKeys(b))
  {
    hide Deletes, HoldsContent, ContentKeys, RoundKeys;
    DeletesContent(db, b);
    DeletesCommittee(db, b.height, b.start, b.first, b.last);
    DeletesAppend(db, [BlockAt(b.height)], ContentKeys(b), [CommitteeAt(b.height)],
                  RoundKeys(b.first, b.last) + [Committee(b.height)]);
    assert [BlockAt(b.height)] + [CommitteeAt(b.height)] == Removal(b.height);
  }

  /** The store without the entries of some heights. */
  ghost function Rewound(db: Db, blocks: map<nat, Block>, heights: set<nat>): Db {
    map k | k in db && (forall h :: h in heights && h in blocks ==> k !in BlockKeys(blocks[h])) :: db[k]
  }

  lemma {:induction false} RewoundMore(db: Db, blocks: map<nat, Block>, heights: set<nat>, h: nat)
    requires h in blocks
    ensures Without(Rewound(db, blocks, heights), BlockKeys(blocks[h])) == Rewound(db, blocks, heights + {h})
  {
    hide BlockKeys;
    var a, b := Without(Rewound(db, blocks, heights), BlockKeys(blocks[h])), Rewound(db, blocks, heights + {h});
    assert forall k :: k in a <==> k in b;
  }

  /** Nothing of the other heights is lost. */
  lemma {:induction false} RewoundKeepsOthers(db: Db, blocks: map<nat, Block>, heights: set<nat>, h: nat, k: Key)
    requires Apart(blocks) && h in blocks && h !in heights && k in BlockKeys(blocks[h])
    ensures k in db <==> k in Rewound(db, blocks, heights)
    ensures k in db ==> Rewound(db, blocks, heights)[k] == db[k]
  {
    hide BlockKeys, Holds;
  }

  lemma {:induction false} PendingOthers(db: Db, blocks: map<nat, Block>, heights: set<nat>, h: nat)
    requires Chain(db, blocks) && h in blocks && h !in heights
    ensures Pending(db, Rewound(db, blocks, heights), BlockKeys(blocks[h]))
    ensures Within(Rewound(db, blocks, heights), db)
  {
    hide BlockKeys, Holds;
    forall k | k in BlockKeys(blocks[h]) && k in db ensures k in Rewound(db, blocks, heights) {
      RewoundKeepsOthers(db, blocks, heights, h, k);
    }
  }

  /** Removing one more height never fails and deletes its entries only. */
  lemma {:induction false} RemoveNext(db: Db, blocks: map<nat, Block>, heights: set<nat>, h: nat)
    requires Chain(db, blocks) && h in blocks && h !in heights
    ensures RunRemoval(Rewound(db, blocks, heights), h) == Ended(Rewound(db, blocks, heights + {h}), None)
  {
    hide BlockKeys, Holds, PlanOf, Run, Rewound, RanksBelow;
    RemovalDeletesBlock(db, blocks[h]);
    PendingOthers(db, blocks, heights, h);
    RunFollowsPlan(db, Rewound(db, blocks, heights), Removal(h));
    RewoundMore(db, blocks, heights, h);
  }

  // ---------- Rewinding ----------

  datatype RewindError =
    | HeightMismatch | BlockNotFound | HashMismatch | RemoveDocument(error: RemoveError) | MissingCommitteeAt

  /** A ledger is rewound only to an earlier height at which it has the checkpoint's block. */
  function Check(db: Db, myHeight: nat, hash: nat, top: nat): Option<RewindError> {
    if top <= myHeight then Some(HeightMismatch)
    else
      match NumberAt(db, Id(myHeight))
      case None => Some(BlockNotFound)
      case Some(found) => if found != hash then Some(HashMismatch) else None
  }

  /** An order of removal: every height above the checkpoint once. */
  ghost predicate OrderOf(order: seq<nat>, myHeight: nat, top: nat) {
    && (forall i, j :: 0 <= i < j < |order| ==> order[i] != order[j])
    && (forall h :: h in order <==> myHeight < h <= top)
  }

  function Above(myHeight: nat, top: nat): (heights: set<nat>)
    ensures forall h :: h in heights <==> myHeight < h <= top
  {
    if top <= myHeight then {} else Above(myHeight, top - 1) + {top}
  }

  /** Removals one after the other, until one fails. */
  ghost function RemoveAll(db: Db, order: seq<nat>): Ended
    decreases |order|
  {
    if order == [] then
      Ended(db, None)
    else
      var first := RunRemoval(db, order[0]);
      if first.error.Some? then first else RemoveAll(first.db, order[1..])
  }

  function AfterRemoval(db: Db, error: Option<RemoveError>, myHeight: nat): Result<(), RewindError> {
    match error
    case Some(e) => Err(RemoveDocument(e))
    case None => if NumberAt(db, Committee(myHeight)).None? then Err(MissingCommitteeAt) else Ok(())
  }

  /** Check, then remove all heights above the checkpoint in the given order. */
  method Rewind(stores: Stores, myHeight: nat, hash: nat, top: nat, order: seq<nat>) returns (r: Result<(), RewindError>)
    requires OrderOf(order, myHeight, top)
    modifies stores
    ensures
      var check := Check(old(stores.db), myHeight, hash, top);
      check.Some? ==> r == Err(check.value) && stores.db == old(stores.db)
    ensures
      var end := RemoveAll(old(stores.db), order);
      Check(old(stores.db), myHeight, hash, top).None? ==>
        stores.db == end.db && r == AfterRemoval(end.db, end.error, myHeight)
  {
    hide RunRemoval;
    var error := Check(stores.db, myHeight, hash, top);
    if error.Some? {
      return Err(error.value);
    }
    for i := 0 to |order|
      invariant RemoveAll(old(stores.db), order) == RemoveAll(stores.db, order[i..])
    {
      assert order[i..][0] == order[i] && order[i..][1..] == order[i + 1..];
      var removed := stores.Remove(order[i]);
      if removed.Err? {
        return Err(RemoveDocument(removed.error));
      }
    }
    if NumberAt(stores.db, Committee(myHeight)).None? {
      return Err(MissingCommitteeAt);
    }
    return Ok(());
  }

  lemma {:induction false} RemoveRest(db: Db, blocks: map<nat, Block>, done: set<nat>, order: seq<nat>)
    requires Chain(db, blocks)
    requires forall i :: 0 <= i < |order| ==> order[i] in blocks && order[i] !in done
    requires forall i, j :: 0 <= i < j < |order| ==> order[i] != order[j]
    ensures RemoveAll(Rewound(db, blocks, done), order)
         == Ended(Rewound(db, blocks, done + set i | 0 <= i < |order| :: order[i]), None)
    decreases |order|
  {
    hide RunRemoval, Chain, Rewound;
    var all := set i | 0 <= i < |order| :: order[i];
    if order == [] {
      assert done + all == done;
    } else {
      RemoveNext(db, blocks, done, order[0]);
      RemoveRest(db, blocks, done + {order[0]}, order[1..]);
      var rest := set i | 0 <= i < |order[1..]| :: order[1..][i];
      SetOfSeq(order);
      assert done + {order[0]} + rest == done + all;
    }
  }

  lemma {:induction false} SetOfSeq(s: seq<nat>)
    requires s != []
    ensures (set i | 0 <= i < |s| :: s[i]) == {s[0]} + set i | 0 <= i < |s[1..]| :: s[1..][i]
  {
    var rest := set i | 0 <= i < |s[1..]| :: s[1..][i];
    forall x | x in s ensures x == s[0] || x in rest {
      var i :| 0 <= i < |s| && s[i] == x;
      if i > 0 {
        assert s[1..][i - 1] == x;
      }
    }
    forall x | x in rest ensures x in s {
      var i :| 0 <= i < |s[1..]| && s[1..][i] == x;
      assert s[i + 1] == x;
    }
  }

  /** The order of the removals does not matter: a chain is rewound without failure and to the same store. */
  lemma {:induction false} AnyOrderRewinds(db: Db, blocks: map<nat, Block>, myHeight: nat, top: nat, order: seq<nat>)
    requires Chain(db, blocks) && (forall h :: myHeight <= h <= top ==> h in blocks)
    requires OrderOf(order, myHeight, top)
    ensures
      var end := RemoveAll(db, order);
      end == Ended(Rewound(db, blocks, Above(myHeight, top)), None)
      && (myHeight <= top ==> AfterRemoval(end.db, end.error, myHeight) == Ok(()))
  {
    hide Rewound, RemoveAll, Chain, Check;
    RewoundNone(db, blocks);
    assert forall i :: 0 <= i < |order| ==> order[i] in order;
    RemoveRest(db, blocks, {}, order);
    var all := set i | 0 <= i < |order| :: order[i];
    assert forall h :: h in all <==> h in order;
    assert {} + all == Above(myHeight, top);
    if myHeight <= top {
      KeepsCommittee(db, blocks, Above(myHeight, top), myHeight);
    }
  }

  lemma {:induction false} RewoundNone(db: Db, blocks: map<nat, Block>)
    ensures Rewound(db, blocks, {}) == db
  {
  }

  lemma {:induction false} KeepsCommittee(db: Db, blocks: map<nat, Block>, heights: set<nat>, h: nat)
    requires Chain(db, blocks) && h in blocks && h !in heights
    ensures NumberAt(Rewound(db, blocks, heights), Committee(h)) == Some(blocks[h].start)
  {
    hide ContentKeys, RoundKeys, HoldsContent;
    assert Committee(h) in BlockKeys(blocks[h]);
    RewoundKeepsOthers(db, blocks, heights, h, Committee(h));
  }

  // ---------- In parallel ----------

  ghost function PlansOf(blocks: map<nat, Block>, heights: set<nat>): Plans {
    map h | h in heights && h in blocks :: BlockKeys(blocks[h])
  }

  lemma {:induction false} StartUnderway(db: Db, blocks: map<nat, Block>, heights: set<nat>)
    requires Chain(db, blocks) && heights <= blocks.Keys
    ensures Underway(db, PlansOf(blocks, heights), Start(db, heights))
    ensures forall h :: h in heights ==> Left(db, Start(db, heights), h).keys == BlockKeys(blocks[h])
  {
    hide BlockKeys, Holds, PlanOf, RanksBelow, NoRepeats, Removal;
    forall h | h in heights
      ensures Planned(db, Removal(h)) && PlanOf(db, Removal(h)).value.keys == BlockKeys(blocks[h])
    {
      RemovalDeletesBlock(db, blocks[h]);
    }
  }

  /** How many turns the removal of a height takes, read off the store it starts from. */
  ghost function TurnsNeeded(db: Db, b: Block): nat
    requires Holds(db, b)
  {
    RemovalDeletesBlock(db, b);
    PlanOf(db, Removal(b.height)).value.steps
  }

  /**
   Whatever the interleaving, no removal fails, a removal is done once it had
   the turns it needs and not before, and when all are done the store is the
   same as after removing the heights one by one.
   */
  lemma {:induction false} AnyInterleavingRewinds(db: Db, blocks: map<nat, Block>, heights: set<nat>, schedule: seq<nat>) returns (end: State)
    requires Chain(db, blocks) && heights <= blocks.Keys
    requires forall i :: 0 <= i < |schedule| ==> schedule[i] in heights
    ensures Schedule(Start(db, heights), schedule) == Ok(end) && end.tasks.Keys == heights
    ensures forall h :: h in heights ==> (end.tasks[h] == [] <==> Turns(schedule, h) >= TurnsNeeded(db, blocks[h]))
    ensures (forall h :: h in heights ==> Turns(schedule, h) >= TurnsNeeded(db, blocks[h])) ==>
      end.db == Rewound(db, blocks, heights)
  {
    hide BlockKeys, Holds, PlanOf, RanksBelow, NoRepeats, Removal, Disjoint, Untouched, Schedule, Turns;
    StartUnderway(db, blocks, heights);
    var plans := PlansOf(blocks, heights);
    end := ScheduleFollowsPlans(db, plans, Start(db, heights), schedule);
    forall h | h in heights ensures end.tasks[h] == [] <==> Turns(schedule, h) >= TurnsNeeded(db, blocks[h]) {
      NoStepsLeft(db, end.tasks[h]);
      assert Left(db, Start(db, heights), h).steps == TurnsNeeded(db, blocks[h]);
    }
    if forall h :: h in heights ==> Turns(schedule, h) >= TurnsNeeded(db, blocks[h]) {
      DoneDeletesPlans(db, plans, end);
      SamePlans(db, blocks, heights);
    }
  }

  lemma {:induction false} SamePlans(db: Db, blocks: map<nat, Block>, heights: set<nat>)
    requires heights <= blocks.Keys
    ensures
      var plans := PlansOf(blocks, heights);
      (map k | k in db && (forall h :: h in plans ==> k !in plans[h]) :: db[k]) == Rewound(db, blocks, heights)
  {
    hide BlockKeys;
    var plans := PlansOf(blocks, heights);
    var a := map k | k in db && (forall h :: h in plans ==> k !in plans[h]) :: db[k];
    var b := Rewound(db, blocks, heights);
    forall k | k in a ensures k in b {
      forall h | h in heights && h in blocks ensures k !in BlockKeys(blocks[h]) {
        assert h in plans && plans[h] == BlockKeys(blocks[h]);
      }
    }
    forall k | k in b ensures k in a {
      forall h | h in plans ensures k !in plans[h] {
        assert plans[h] == BlockKeys(blocks[h]);
      }
    }
    assert forall k :: k in a <==> k in b;
  }

  /** If every entry belongs to a block, rewinding leaves exactly the entries of the blocks not removed. */
  lemma {:induction false} RewoundIsRestriction(db: Db, blocks: map<nat, Block>, heights: set<nat>, k: Key)
    requires Chain(db, blocks)
    requires forall x :: x in db ==> exists h :: h in blocks && x in BlockKeys(blocks[h])
    ensures k in Rewound(db, blocks, heights) <==>
      k in db && exists h :: h in blocks && h !in heights && k in BlockKeys(blocks[h])
  {
    hide BlockKeys, Holds;
  }
}
