/**
 Removals one after the other: what a list of work does to the store when
 nothing else happens in between.
 */
module LedgerRun {
  import opened Wrappers
  import opened Ledger

  // ---------- Work is finite ----------

  /** Work only leaves work of lower rank, apart from the two searches for rounds. */
  function Rank(work: Work): nat {
    match work
    case Del(_) => 0
    case InputRecordOf(_) => 1
    case OutputRecordOf(_) => 1
    case InputsOf(_) => 2
    case OutputsOf(_) => 2
    case TransitionOf(_) => 3
    case FeeOf(_) => 4
    case DeploymentOf(_) => 5
    case ExecutionOf(_) => 5
    case TransactionOf(_) => 6
    case BlockAt(_) => 7
    case CommitteeAt(_) => 3
    case EarlierRounds(_, _, _) => 2
    case LaterRounds(_, _, _) => 1
  }

  const TOP := 8

  predicate RanksBelow(items: seq<Work>, r: nat) {
    forall i :: 0 <= i < |items| ==> Rank(items[i]) < r
  }

  predicate IsSearch(work: Work) {
    work.EarlierRounds? || work.LaterRounds?
  }

  /** What is left of a search: the rounds it can still look at. */
  ghost function Distance(db: Db, work: Work): nat {
    if work.EarlierRounds? then work.round
    else if work.LaterRounds? then |set k | k in db && k.Round? && k.round >= work.round|
    else 0
  }

  lemma {:induction false} DelsRank(ids: seq<nat>, key: nat -> Key, r: nat)
    requires r > 0
    ensures RanksBelow(DelEach(ids, key), r)
  {
    if ids != [] {
      DelsRank(ids[1..], key, r);
    }
  }

  lemma {:induction false} InputsRank(inputs: seq<nat>)
    ensures RanksBelow(InputsWork(inputs), 2)
  {
    if inputs != [] {
      InputsRank(inputs[1..]);
    }
  }

  lemma {:induction false} OutputsRank(outputs: seq<nat>)
    ensures RanksBelow(OutputsWork(outputs), 2)
  {
    if outputs != [] {
      OutputsRank(outputs[1..]);
    }
  }

  lemma {:induction false} TransitionsRank(transitions: seq<nat>)
    ensures RanksBelow(TransitionsWork(transitions), 5)
  {
    if transitions != [] {
      TransitionsRank(transitions[1..]);
    }
  }

  lemma {:induction false} FunctionsRank(program: nat, edition: nat, functions: seq<nat>)
    ensures RanksBelow(FunctionsWork(program, edition, functions), 5)
  {
    if functions != [] {
      FunctionsRank(program, edition, functions[1..]);
    }
  }

  lemma {:induction false} RejectionsRank(rejections: seq<Rejection>)
    ensures RanksBelow(RejectionsWork(rejections), 7)
  {
    if rejections != [] {
      RejectionsRank(rejections[1..]);
    }
  }

  lemma {:induction false} TransactionsRank(txs: seq<nat>)
    ensures RanksBelow(TransactionsWork(txs), 7)
  {
    if txs != [] {
      TransactionsRank(txs[1..]);
    }
  }

  lemma {:induction false} RoundsRank(first: nat, last: nat)
    ensures RanksBelow(RoundsWork(first, last), 1)
    decreases last - first
  {
    if first < last {
      RoundsRank(first + 1, last);
    }
  }

  lemma {:induction false} RanksAppend(a: seq<Work>, b: seq<Work>, r: nat)
    requires RanksBelow(a, r) && RanksBelow(b, r)
    ensures RanksBelow(a + b, r)
  {
  }

  lemma {:induction false} AfterAbortedSolutionsRank(b: BlockInfo)
    ensures RanksBelow(AfterAbortedTxs(b), 7) && RanksBelow(AfterAbortedSolutions(b), 7)
  {
    hide DelEach, RejectionsWork, TransactionsWork;
    RejectionsRank(b.rejections);
    TransactionsRank(b.txs);
    RanksAppend(RejectionsWork(b.rejections), TransactionsWork(b.txs), 7);
    var ids := DelEach(b.abortedTxs, (tx: nat) => RejectedOrAborted(tx));
    DelsRank(b.abortedTxs, (tx: nat) => RejectedOrAborted(tx), 7);
    RanksAppend(ids, AfterAbortedTxs(b), 7);
  }

  lemma {:induction false} AfterSolutionsRank(b: BlockInfo)
    ensures RanksBelow(AfterSolutions(b), 7)
  {
    hide DelEach, AfterAbortedSolutions;
    var ids := DelEach(b.abortedSolutions, (id: nat) => AbortedSolutionHeight(id));
    DelsRank(b.abortedSolutions, (id: nat) => AbortedSolutionHeight(id), 7);
    AfterAbortedSolutionsRank(b);
    RanksAppend(ids, AfterAbortedSolutions(b), 7);
  }

  lemma {:induction false} AfterCertificatesRank(b: BlockInfo)
    ensures RanksBelow(AfterCertificates(b), 7)
  {
    hide DelEach, AfterSolutions;
    var ids := DelEach(b.solutions, (id: nat) => SolutionId(id));
    DelsRank(b.solutions, (id: nat) => SolutionId(id), 7);
    AfterSolutionsRank(b);
    RanksAppend(ids, AfterSolutions(b), 7);
  }

  lemma {:induction false} BlockWorkRank(b: BlockInfo)
    ensures RanksBelow(BlockWork(b), 7)
  {
    hide DelEach, AfterCertificates;
    var ids := DelEach(b.certificates, (id: nat) => Certificate(id));
    DelsRank(b.certificates, (id: nat) => Certificate(id), 7);
    AfterCertificatesRank(b);
    RanksAppend(ids, AfterCertificates(b), 7);
  }

  /** Where work leads: lower ranks, or a shorter search. */
  lemma {:induction false} ExpandRanks(db: Db, work: Work)
    requires !work.Del? && Expand(db, work).Ok?
    ensures
      var more := Expand(db, work).value;
      || RanksBelow(more, Rank(work))
      || (|more| == 1 && IsSearch(work) && Rank(more[0]) == Rank(work) && Distance(db, more[0]) < Distance(db, work))
  {
    hide InputsWork, OutputsWork, TransitionsWork, FunctionsWork, BlockWork, RoundsWork, ReadBlock, NonceAt, IdsAt;
    match work
    case InputsOf(t) => InputsRank(IdsAt(db, InputIds(t)).GetOr([]));
    case OutputsOf(t) => OutputsRank(IdsAt(db, OutputIds(t)).GetOr([]));
    case DeploymentOf(tx) =>
      var program := NumberAt(db, DeployedProgram(tx)).value;
      var edition := NumberAt(db, Edition(program)).value;
      FunctionsRank(program, edition, IdsAt(db, ProgramAt(program, edition)).value);
    case ExecutionOf(tx) => TransitionsRank(db[Execution(tx)].transitions);
    case BlockAt(height) => BlockWorkRank(ReadBlock(db, height).value);
    case LaterRounds(height, first, round) =>
      RoundsRank(first, round);
      FewerLaterRounds(db, round);
    case _ =>
  }

  lemma {:induction false} FewerLaterRounds(db: Db, round: nat)
    ensures
      Round(round) in db ==>
        |set k | k in db && k.Round? && k.round >= round + 1| < |set k | k in db && k.Round? && k.round >= round|
  {
    var a := set k | k in db && k.Round? && k.round >= round + 1;
    var b := set k | k in db && k.Round? && k.round >= round;
    if Round(round) in db {
      assert b == a + {Round(round)};
    }
  }

  // ---------- Runs ----------

  /** The store a run ends with, and the error that stopped it, if any. */
  datatype Ended = Ended(db: Db, error: Option<RemoveError>)

  ghost function RunOne(db: Db, work: Work): Ended
    decreases Rank(work), 1 + Distance(db, work), 0
  {
    if work.Del? then
      Ended(db - {work.key}, None)
    else
      match Expand(db, work)
      case Err(e) => Ended(db, Some(e))
      case Ok(more) =>
        ExpandRanks(db, work);
        if RanksBelow(more, Rank(work)) then RunAll(db, more, Rank(work)) else RunOne(db, more[0])
  }

  ghost function RunAll(db: Db, items: seq<Work>, r: nat): Ended
    requires RanksBelow(items, r)
    decreases r, 0, |items|
  {
    if items == [] then
      Ended(db, None)
    else
      var first := RunOne(db, items[0]);
      if first.error.Some? then first else RunAll(first.db, items[1..], r)
  }

  /** The bound on ranks does not matter. */
  lemma {:induction false} RunAnyBound(db: Db, items: seq<Work>, r: nat, r': nat)
    requires RanksBelow(items, r) && RanksBelow(items, r')
    ensures RunAll(db, items, r) == RunAll(db, items, r')
    decreases |items|
  {
    if items != [] {
      var first := RunOne(db, items[0]);
      RunAnyBound(first.db, items[1..], r, r');
    }
  }

  ghost function Run(db: Db, items: seq<Work>): Ended
    requires RanksBelow(items, TOP)
  {
    RunAll(db, items, TOP)
  }

  /** Removing one height. */
  ghost function RunRemoval(db: Db, height: nat): Ended {
    Run(db, Removal(height))
  }

  /** Work that is not a deletion is the work it leaves, however it ends. */
  lemma {:induction false} RunOneExpands(db: Db, work: Work)
    requires !work.Del?
    ensures Expand(db, work).Err? ==> RunOne(db, work) == Ended(db, Some(Expand(db, work).error))
    ensures Expand(db, work).Ok? ==>
      RanksBelow(Expand(db, work).value, TOP) && RunOne(db, work) == Run(db, Expand(db, work).value)
  {
    hide Expand;
    if Expand(db, work).Ok? {
      var more := Expand(db, work).value;
      ExpandRanks(db, work);
      if RanksBelow(more, Rank(work)) {
        RunAnyBound(db, more, Rank(work), TOP);
      } else {
        RunSingle(db, more[0]);
        assert more == [more[0]];
      }
    }
  }

  lemma {:induction false} RunSingle(db: Db, work: Work)
    ensures RanksBelow([work], TOP) && Run(db, [work]) == RunOne(db, work)
  {
    var first := RunOne(db, work);
    assert RunAll(db, [work], TOP) == if first.error.Some? then first else RunAll(first.db, [work][1..], TOP);
  }

  lemma {:induction false} RunAppend(db: Db, a: seq<Work>, b: seq<Work>)
    requires RanksBelow(a, TOP) && RanksBelow(b, TOP)
    ensures RanksBelow(a + b, TOP)
    ensures
      var first := Run(db, a);
      Run(db, a + b) == if first.error.Some? then first else Run(first.db, b)
    decreases |a|
  {
    hide RunOne;
    RanksAppend(a, b, TOP);
    if a == [] {
      assert a + b == b;
    } else {
      var first := RunOne(db, a[0]);
      RunAppend(first.db, a[1..], b);
      assert (a + b)[1..] == a[1..] + b;
    }
  }

  /** The first piece of work is done. */
  lemma {:induction false} RunTail(db: Db, todo: seq<Work>)
    requires todo != [] && RanksBelow(todo, TOP)
    ensures
      var first := RunOne(db, todo[0]);
      RanksBelow(todo[1..], TOP) && Run(db, todo) == if first.error.Some? then first else Run(first.db, todo[1..])
  {
    hide RunOne;
  }
}
