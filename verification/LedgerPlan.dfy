/**
 Removals side by side.  The plan of a list of work, read off one store, says
 which entries it deletes and in how many steps.  As long as the plans of the
 removals under way share no entry, every interleaving carries all of them out.
 */
module LedgerPlan {
  import opened Wrappers
  import opened Ledger
  import opened LedgerRun

  datatype Plan = Plan(keys: seq<Key>, steps: nat)

  /** The entries a piece of work looks at; of the rounds only those that keep a search going. */
  predicate Reads(db: Db, work: Work, k: Key) {
    match work
    case Del(_) => false
    case InputRecordOf(i) => k == InputRecord(i)
    case OutputRecordOf(o) => k == OutputRecord(o)
    case InputsOf(t) => k == InputIds(t)
    case OutputsOf(t) => k == OutputIds(t)
    case TransitionOf(t) => k == Tpk(t) || k == Tcm(t)
    case FeeOf(tx) => k == Fee(tx)
    case DeploymentOf(tx) =>
      || k == DeployedProgram(tx)
      || (match NumberAt(db, DeployedProgram(tx))
          case None => false
          case Some(p) =>
            k == Edition(p) || (NumberAt(db, Edition(p)).Some? && k == ProgramAt(p, NumberAt(db, Edition(p)).value)))
    case ExecutionOf(tx) => k == Execution(tx)
    case TransactionOf(tx) => k == TxKind(tx)
    case BlockAt(h) =>
      || k == Id(h) || k == StateRoot(h)
      || (match NumberAt(db, Id(h))
          case None => false
          case Some(hash) => ReadsOfBlock(db, hash, k))
    case CommitteeAt(h) => k == Committee(h)
    case EarlierRounds(h, _, r) => k == Round(r) && r > 0 && NumberAt(db, k) == Some(h)
    case LaterRounds(h, _, r) => k == Round(r) && NumberAt(db, k) == Some(h)
  }

  predicate ReadsOfBlock(db: Db, hash: nat, k: Key) {
    || k == Transactions(hash) || k == Solutions(hash) || k == Authority(hash)
    || k == AbortedSolutions(hash) || k == AbortedTransactions(hash)
    || (k.Confirmed? && IdsAt(db, Transactions(hash)).Some? && k.tx in IdsAt(db, Transactions(hash)).value)
  }

  ghost predicate OwnReads(db: Db, work: Work, keys: seq<Key>) {
    forall k :: k in db && Reads(db, work, k) ==> k in keys
  }

  /** What a piece of work deletes, if it finds what it needs and reads only entries it deletes later itself. */
  ghost function PlanOne(db: Db, work: Work): Option<Plan>
    decreases Rank(work), 1 + Distance(db, work), 0
  {
    if work.Del? then
      Some(Plan([work.key], 1))
    else
      match Expand(db, work)
      case Err(_) => None
      case Ok(more) =>
        ExpandRanks(db, work);
        var p := if RanksBelow(more, Rank(work)) then PlanAll(db, more, Rank(work)) else PlanOne(db, more[0]);
        if p.Some? && OwnReads(db, work, p.value.keys) then Some(Plan(p.value.keys, p.value.steps + 1)) else None
  }

  ghost function PlanAll(db: Db, items: seq<Work>, r: nat): Option<Plan>
    requires RanksBelow(items, r)
    decreases r, 0, |items|
  {
    if items == [] then
      Some(Plan([], 0))
    else
      match PlanOne(db, items[0])
      case None => None
      case Some(p) =>
        match PlanAll(db, items[1..], r)
        case None => None
        case Some(q) => Some(Plan(p.keys + q.keys, p.steps + q.steps))
  }

  lemma {:induction false} PlanAnyBound(db: Db, items: seq<Work>, r: nat, r': nat)
    requires RanksBelow(items, r) && RanksBelow(items, r')
    ensures PlanAll(db, items, r) == PlanAll(db, items, r')
    decreases |items|
  {
    hide PlanOne;
    if items != [] {
      PlanAnyBound(db, items[1..], r, r');
    }
  }

  ghost function PlanOf(db: Db, items: seq<Work>): Option<Plan>
    requires RanksBelow(items, TOP)
  {
    PlanAll(db, items, TOP)
  }

  lemma {:induction false} PlanNothing(db: Db)
    ensures RanksBelow([], TOP) && PlanOf(db, []) == Some(Plan([], 0))
  {
  }

  lemma {:induction false} PlanCons(db: Db, items: seq<Work>)
    requires items != [] && RanksBelow(items, TOP)
    ensures RanksBelow(items[1..], TOP)
    ensures
      var p, q := PlanOne(db, items[0]), PlanOf(db, items[1..]);
      PlanOf(db, items) ==
        if p.Some? && q.Some? then Some(Plan(p.value.keys + q.value.keys, p.value.steps + q.value.steps)) else None
  {
    hide PlanOne;
  }

  lemma {:induction false} PlanSingle(db: Db, work: Work)
    ensures RanksBelow([work], TOP) && PlanOf(db, [work]) == PlanOne(db, work)
  {
    hide PlanOne, PlanOf;
    PlanCons(db, [work]);
    PlanNothing(db);
    assert [work][1..] == [];
    var p := PlanOne(db, work);
    if p.Some? {
      assert p.value.keys + [] == p.value.keys;
    }
  }

  lemma {:induction false} PlanAppend(db: Db, a: seq<Work>, b: seq<Work>)
    requires RanksBelow(a, TOP) && RanksBelow(b, TOP)
    ensures RanksBelow(a + b, TOP)
    ensures
      var p, q := PlanOf(db, a), PlanOf(db, b);
      PlanOf(db, a + b) ==
        if p.Some? && q.Some? then Some(Plan(p.value.keys + q.value.keys, p.value.steps + q.value.steps)) else None
    decreases |a|
  {
    hide PlanOne, PlanOf;
    RanksAppend(a, b, TOP);
    var q := PlanOf(db, b);
    if a == [] {
      PlanNothing(db);
      assert a + b == b;
      if q.Some? {
        assert [] + q.value.keys == q.value.keys;
      }
    } else {
      PlanCons(db, a);
      PlanCons(db, a + b);
      PlanAppend(db, a[1..], b);
      assert (a + b)[1..] == a[1..] + b && (a + b)[0] == a[0];
      var p0, p := PlanOne(db, a[0]), PlanOf(db, a[1..]);
      if p0.Some? && p.Some? && q.Some? {
        assert p0.value.keys + (p.value.keys + q.value.keys) == (p0.value.keys + p.value.keys) + q.value.keys;
      }
    }
  }

  /** The plan of work that is not a deletion is the plan of what it leaves, one step longer. */
  lemma {:induction false} PlanExpand(db: Db, work: Work)
    requires !work.Del? && Expand(db, work).Ok?
    ensures RanksBelow(Expand(db, work).value, TOP)
    ensures
      var p := PlanOf(db, Expand(db, work).value);
      PlanOne(db, work) ==
        if p.Some? && OwnReads(db, work, p.value.keys) then Some(Plan(p.value.keys, p.value.steps + 1)) else None
  {
    hide Expand, OwnReads;
    var more := Expand(db, work).value;
    ExpandRanks(db, work);
    if RanksBelow(more, Rank(work)) {
      PlanAnyBound(db, more, Rank(work), TOP);
    } else {
      PlanSingle(db, more[0]);
      assert more == [more[0]];
    }
  }

  /** Work with a plan finds what it needs. */
  lemma {:induction false} PlannedExpands(db: Db, work: Work)
    requires !work.Del? && PlanOne(db, work).Some?
    ensures Expand(db, work).Ok?
  {
  }

  // ---------- Work looks only at its reads ----------

  /** A later store is an earlier one without some entries. */
  predicate Within(db: Db, db0: Db) {
    forall k :: k in db ==> k in db0 && db[k] == db0[k]
  }

  ghost predicate KeepsReads(db0: Db, db: Db, work: Work) {
    forall k :: k in db0 && Reads(db0, work, k) ==> k in db
  }

  lemma {:induction false} SameRead(db0: Db, db: Db, k: Key)
    requires Within(db, db0) && (k in db0 ==> k in db)
    ensures k in db <==> k in db0
    ensures NumberAt(db, k) == NumberAt(db0, k) && IdsAt(db, k) == IdsAt(db0, k)
  {
  }

  lemma {:induction false} SameRejections(db0: Db, db: Db, txs: seq<nat>)
    requires Within(db, db0)
    requires forall k: Key :: k.Confirmed? && k.tx in txs && k in db0 ==> k in db
    ensures Rejections(db, txs) == Rejections(db0, txs)
  {
    if txs != [] {
      assert Confirmed(txs[0]).tx in txs;
      SameRejections(db0, db, txs[1..]);
    }
  }

  lemma {:induction false} SameBlock(db0: Db, db: Db, height: nat)
    requires Within(db, db0) && KeepsReads(db0, db, BlockAt(height))
    ensures ReadBlock(db, height) == ReadBlock(db0, height)
  {
    hide Rejections;
    SameRead(db0, db, Id(height));
    SameRead(db0, db, StateRoot(height));
    var hash := NumberAt(db0, Id(height));
    if hash.Some? {
      SameBlockAt(db0, db, height, hash.value);
    }
  }

  lemma {:induction false} SameBlockAt(db0: Db, db: Db, height: nat, hash: nat)
    requires Within(db, db0) && KeepsReads(db0, db, BlockAt(height)) && NumberAt(db0, Id(height)) == Some(hash)
    ensures IdsAt(db, Transactions(hash)) == IdsAt(db0, Transactions(hash))
    ensures IdsAt(db, Solutions(hash)) == IdsAt(db0, Solutions(hash))
    ensures IdsAt(db, AbortedSolutions(hash)) == IdsAt(db0, AbortedSolutions(hash))
    ensures IdsAt(db, AbortedTransactions(hash)) == IdsAt(db0, AbortedTransactions(hash))
    ensures (Authority(hash) in db <==> Authority(hash) in db0) && CertificateIds(db, hash) == CertificateIds(db0, hash)
    ensures
      IdsAt(db0, Transactions(hash)).Some? ==>
        var txs := IdsAt(db0, Transactions(hash)).value;
        Rejections(db, txs) == Rejections(db0, txs)
  {
    hide Rejections;
    SameRead(db0, db, Transactions(hash));
    SameRead(db0, db, Solutions(hash));
    SameRead(db0, db, AbortedSolutions(hash));
    SameRead(db0, db, AbortedTransactions(hash));
    SameRead(db0, db, Authority(hash));
    var txs := IdsAt(db0, Transactions(hash));
    if txs.Some? {
      SameRejections(db0, db, txs.value);
    }
  }

  /** Work does the same in a later store that still has the entries it reads. */
  lemma {:induction false} ExpandLocal(db0: Db, db: Db, work: Work)
    requires !work.Del? && Within(db, db0) && KeepsReads(db0, db, work)
    ensures Expand(db, work) == Expand(db0, work)
  {
    hide InputsWork, OutputsWork, TransitionsWork, FunctionsWork, BlockWork, RoundsWork, ReadBlock;
    match work
    case BlockAt(h) => SameBlock(db0, db, h);
    case _ =>
  }

  // ---------- One removal at a time ----------

  ghost predicate NoRepeats(keys: seq<Key>) {
    forall i, j :: 0 <= i < j < |keys| ==> keys[i] != keys[j]
  }

  function Without(db: Db, keys: seq<Key>): (r: Db) {
    map k | k in db && k !in keys :: db[k]
  }

  /** The store still has what the plan is going to delete. */
  ghost predicate Pending(db0: Db, db: Db, keys: seq<Key>) {
    forall k :: k in keys && k in db0 ==> k in db
  }

  lemma {:induction false} PendingReads(db0: Db, db: Db, work: Work, keys: seq<Key>)
    requires Pending(db0, db, keys) && OwnReads(db0, work, keys)
    ensures KeepsReads(db0, db, work)
  {
  }

  lemma {:induction false} SplitKeys(p: seq<Key>, q: seq<Key>)
    requires NoRepeats(p + q)
    ensures NoRepeats(p) && NoRepeats(q) && forall k :: k in p ==> k !in q
  {
    forall i, j | 0 <= i < j < |p| ensures p[i] != p[j] {
      assert (p + q)[i] == p[i] && (p + q)[j] == p[j];
    }
    forall i, j | 0 <= i < j < |q| ensures q[i] != q[j] {
      assert (p + q)[|p| + i] == q[i] && (p + q)[|p| + j] == q[j];
    }
    forall i | 0 <= i < |p| ensures p[i] !in q {
      forall j | 0 <= j < |q| ensures p[i] != q[j] {
        assert (p + q)[i] == p[i] && (p + q)[|p| + j] == q[j];
      }
    }
  }

  lemma {:induction false} PendingSplit(db0: Db, db: Db, p: seq<Key>, q: seq<Key>)
    requires Pending(db0, db, p + q) && NoRepeats(p + q)
    ensures Pending(db0, db, p) && Pending(db0, Without(db, p), q)
    ensures Without(Without(db, p), q) == Without(db, p + q)
  {
    SplitKeys(p, q);
  }

  /** Run alone, work deletes exactly what its plan says and does not fail. */
  lemma {:induction false} RunFollowsPlan(db0: Db, db: Db, items: seq<Work>)
    requires Within(db, db0) && RanksBelow(items, TOP) && PlanOf(db0, items).Some?
    requires NoRepeats(PlanOf(db0, items).value.keys) && Pending(db0, db, PlanOf(db0, items).value.keys)
    ensures Run(db, items) == Ended(Without(db, PlanOf(db0, items).value.keys), None)
    decreases PlanOf(db0, items).value.steps, |items|
  {
    hide PlanOf, PlanOne, Run, RunOne, Expand, Rank, NoRepeats, Pending;
    if items == [] {
      PlanNothing(db0);
      RunEmpty(db);
      assert Without(db, []) == db;
    } else {
      PlanCons(db0, items);
      RunTail(db, items);
      var p, q := PlanOne(db0, items[0]).value, PlanOf(db0, items[1..]).value;
      SplitKeys(p.keys, q.keys);
      PendingSplit(db0, db, p.keys, q.keys);
      PlanPositive(db0, items[0]);
      if items[0].Del? {
        DeletesOne(db0, db, items[0]);
      } else {
        PlannedExpands(db0, items[0]);
        PlanExpand(db0, items[0]);
        PendingReads(db0, db, items[0], p.keys);
        ExpandLocal(db0, db, items[0]);
        RunOneExpands(db, items[0]);
        RunFollowsPlan(db0, db, Expand(db0, items[0]).value);
      }
      RunFollowsPlan(db0, Without(db, p.keys), items[1..]);
    }
  }

  lemma {:induction false} RunEmpty(db: Db)
    ensures RanksBelow([], TOP) && Run(db, []) == Ended(db, None)
  {
  }

  lemma {:induction false} PlanPositive(db: Db, work: Work)
    requires PlanOne(db, work).Some?
    ensures PlanOne(db, work).value.steps > 0
  {
  }

  lemma {:induction false} DeletesOne(db0: Db, db: Db, work: Work)
    requires work.Del?
    ensures PlanOne(db0, work) == Some(Plan([work.key], 1))
    ensures RunOne(db, work) == Ended(Without(db, [work.key]), None)
  {
    assert db - {work.key} == Without(db, [work.key]);
  }
}
