/**
 The removal functions of the ledger as the program runs them, deleting one
 entry after the other.  Each is the run of the work it stands for.
 */
module LedgerStores {
  import opened Wrappers
  import opened Ledger
  import opened LedgerRun

  type Removed = Result<(), RemoveError>

  function ErrorOf(r: Removed): Option<RemoveError> {
    match r
    case Ok(_) => None
    case Err(e) => Some(e)
  }

  class Stores {
    var db: Db

    constructor (db: Db)
      ensures this.db == db
    {
      this.db := db;
    }

    /** Delete an entry: the first piece of the work still to do. */
    method Delete(key: Key, ghost todo: seq<Work>) returns (ghost rest: seq<Work>)
      requires todo != [] && todo[0] == Del(key) && RanksBelow(todo, TOP)
      modifies this
      ensures db == old(db) - {key} && rest == todo[1..]
      ensures RanksBelow(rest, TOP) && Run(old(db), todo) == Run(db, rest)
    {
      RunTail(db, todo);
      db := db - {key};
      rest := todo[1..];
    }

    method DeleteInput(input: nat)
      modifies this
      ensures RunOne(old(db), InputRecordOf(input)) == Ended(db, None)
    {
      hide RunOne, RunAll;
      RunOneExpands(db, InputRecordOf(input));
      ghost var todo := Expand(db, InputRecordOf(input)).value;
      var tag := NumberAt(db, InputRecord(input));
      if tag.Some? {
        todo := Delete(RecordTag(tag.value), todo);
      }
      todo := Delete(InputConstant(input), todo);
      todo := Delete(InputPublic(input), todo);
      todo := Delete(InputPrivate(input), todo);
      todo := Delete(InputRecord(input), todo);
      todo := Delete(InputExternal(input), todo);
      RunNothing(db);
    }

    method FastInputRemove(t: nat)
      modifies this
      ensures RunOne(old(db), InputsOf(t)) == Ended(db, None)
    {
      hide RunOne, RunAll;
      RunOneExpands(db, InputsOf(t));
      var ids := IdsAt(db, InputIds(t));
      if ids.None? {
        RunNothing(db);
        return;
      }
      ghost var todo := [Del(InputIds(t))] + InputsWork(ids.value);
      todo := Delete(InputIds(t), todo);
      for i := 0 to |ids.value|
        invariant todo == InputsWork(ids.value[i..]) && RanksBelow(todo, TOP)
        invariant RunOne(old(db), InputsOf(t)) == Run(db, todo)
      {
        var input := ids.value[i];
        assert ids.value[i..][0] == input && ids.value[i..][1..] == ids.value[i + 1..];
        todo := Delete(ReverseInput(input), todo);
        RunTail(db, todo);
        DeleteInput(input);
        todo := todo[1..];
      }
      RunNothing(db);
    }

    method DeleteOutput(output: nat)
      modifies this
      ensures RunOne(old(db), OutputRecordOf(output)) == Ended(db, None)
    {
      hide RunOne, RunAll;
      RunOneExpands(db, OutputRecordOf(output));
      ghost var todo := Expand(db, OutputRecordOf(output)).value;
      var nonce := NonceAt(db, output);
      if nonce.Some? {
        todo := Delete(RecordNonce(nonce.value), todo);
      }
      todo := Delete(OutputConstant(output), todo);
      todo := Delete(OutputPublic(output), todo);
      todo := Delete(OutputPrivate(output), todo);
      todo := Delete(OutputRecord(output), todo);
      todo := Delete(OutputExternal(output), todo);
      todo := Delete(OutputFuture(output), todo);
      RunNothing(db);
    }

    method FastOutputRemove(t: nat)
      modifies this
      ensures RunOne(old(db), OutputsOf(t)) == Ended(db, None)
    {
      hide RunOne, RunAll;
      RunOneExpands(db, OutputsOf(t));
      var ids := IdsAt(db, OutputIds(t));
      if ids.None? {
        RunNothing(db);
        return;
      }
      ghost var todo := [Del(OutputIds(t))] + OutputsWork(ids.value);
      todo := Delete(OutputIds(t), todo);
      for i := 0 to |ids.value|
        invariant todo == OutputsWork(ids.value[i..]) && RanksBelow(todo, TOP)
        invariant RunOne(old(db), OutputsOf(t)) == Run(db, todo)
      {
        var output := ids.value[i];
        assert ids.value[i..][0] == output && ids.value[i..][1..] == ids.value[i + 1..];
        todo := Delete(ReverseOutput(output), todo);
        RunTail(db, todo);
        DeleteOutput(output);
        todo := todo[1..];
      }
      RunNothing(db);
    }

    /** A transition with no public key or commitment is left alone. */
    method FastTransitionRemove(t: nat)
      modifies this
      ensures RunOne(old(db), TransitionOf(t)) == Ended(db, None)
    {
      hide RunOne, RunAll;
      RunOneExpands(db, TransitionOf(t));
      var tpk := NumberAt(db, Tpk(t));
      if tpk.None? {
        RunNothing(db);
        return;
      }
      var tcm := NumberAt(db, Tcm(t));
      if tcm.None? {
        RunNothing(db);
        return;
      }
      ghost var todo := Expand(db, TransitionOf(t)).value;
      todo := Delete(Locator(t), todo);
      RunTail(db, todo);
      FastInputRemove(t);
      todo := todo[1..];
      RunTail(db, todo);
      FastOutputRemove(t);
      todo := todo[1..];
      todo := Delete(Tpk(t), todo);
      todo := Delete(ReverseTpk(tpk.value), todo);
      todo := Delete(Tcm(t), todo);
      todo := Delete(ReverseTcm(tcm.value), todo);
      todo := Delete(Scm(t), todo);
      RunNothing(db);
    }

    method FastFeeRemove(tx: nat) returns (r: Removed)
      modifies this
      ensures RunOne(old(db), FeeOf(tx)) == Ended(db, ErrorOf(r))
    {
      hide RunOne, RunAll;
      RunOneExpands(db, FeeOf(tx));
      var transition := NumberAt(db, Fee(tx));
      if transition.None? {
        return Err(MissingFee);
      }
      var t := transition.value;
      ghost var todo := [Del(Fee(tx)), Del(ReverseFee(t)), TransitionOf(t)];
      todo := Delete(Fee(tx), todo);
      todo := Delete(ReverseFee(t), todo);
      RunSingle(db, TransitionOf(t));
      assert todo == [TransitionOf(t)];
      FastTransitionRemove(t);
      return Ok(());
    }

    method FastExecutionRemove(tx: nat) returns (r: Removed)
      modifies this
      ensures RunOne(old(db), ExecutionOf(tx)) == Ended(db, ErrorOf(r))
    {
      hide RunOne, RunAll;
      RunOneExpands(db, ExecutionOf(tx));
      if Execution(tx) !in db || !db[Execution(tx)].Transitions? {
        return Err(MissingTransitions);
      }
      var transitions, hasFee := db[Execution(tx)].transitions, db[Execution(tx)].hasFee;
      ghost var end := [Del(Inclusion(tx))] + if hasFee then [FeeOf(tx)] else [];
      ghost var todo := [Del(Execution(tx))] + (TransitionsWork(transitions) + end);
      todo := Delete(Execution(tx), todo);
      for i := 0 to |transitions|
        invariant todo == TransitionsWork(transitions[i..]) + end && RanksBelow(todo, TOP)
        invariant RunOne(old(db), ExecutionOf(tx)) == Run(db, todo)
      {
        var t := transitions[i];
        assert transitions[i..][0] == t && transitions[i..][1..] == transitions[i + 1..];
        todo := Delete(ReverseExecution(t), todo);
        RunTail(db, todo);
        FastTransitionRemove(t);
        todo := todo[1..];
      }
      todo := Delete(Inclusion(tx), todo);
      RunNothing(db);
      if hasFee {
        RunSingle(db, FeeOf(tx));
        assert todo == [FeeOf(tx)];
        r := FastFeeRemove(tx);
      } else {
        r := Ok(());
      }
    }

    method DeleteFunctions(p: nat, e: nat, functions: seq<nat>, ghost todo: seq<Work>, ghost rest: seq<Work>)
      requires todo == FunctionsWork(p, e, functions) + rest && RanksBelow(todo, TOP)
      modifies this
      ensures RanksBelow(rest, TOP) && Run(old(db), todo) == Run(db, rest)
    {
      hide RunOne, RunAll, Run;
      ghost var left := todo;
      for i := 0 to |functions|
        invariant left == FunctionsWork(p, e, functions[i..]) + rest && RanksBelow(left, TOP)
        invariant Run(old(db), todo) == Run(db, left)
      {
        assert functions[i..][0] == functions[i] && functions[i..][1..] == functions[i + 1..];
        left := Delete(VerifyingKey(p, functions[i], e), left);
        left := Delete(FunctionCertificate(p, functions[i], e), left);
      }
      assert left == rest;
    }

    method FastDeploymentRemove(tx: nat) returns (r: Removed)
      modifies this
      ensures RunOne(old(db), DeploymentOf(tx)) == Ended(db, ErrorOf(r))
    {
      hide RunOne, RunAll;
      RunOneExpands(db, DeploymentOf(tx));
      var programId := NumberAt(db, DeployedProgram(tx));
      if programId.None? {
        return Err(MissingProgramId);
      }
      var p := programId.value;
      var edition := NumberAt(db, Edition(p));
      if edition.None? {
        return Err(MissingEdition);
      }
      var e := edition.value;
      var program := IdsAt(db, ProgramAt(p, e));
      if program.None? {
        return Err(MissingProgram);
      }
      var functions := program.value;
      ghost var todo := Expand(db, DeploymentOf(tx)).value;
      todo := Delete(DeployedProgram(tx), todo);
      todo := Delete(Edition(p), todo);
      todo := Delete(ReverseDeployment(p, e), todo);
      todo := Delete(Owner(p, e), todo);
      todo := Delete(ProgramAt(p, e), todo);
      DeleteFunctions(p, e, functions, todo, [FeeOf(tx)]);
      RunSingle(db, FeeOf(tx));
      r := FastFeeRemove(tx);
    }

    method FastTxRemove(tx: nat) returns (r: Removed)
      modifies this
      ensures RunOne(old(db), TransactionOf(tx)) == Ended(db, ErrorOf(r))
    {
      hide RunOne, RunAll;
      RunOneExpands(db, TransactionOf(tx));
      if TxKind(tx) !in db || !db[TxKind(tx)].KindOf? {
        return Err(MissingKind);
      }
      var kind := db[TxKind(tx)].kind;
      ghost var todo := [Del(TxKind(tx)), KindWork(kind, tx)];
      todo := Delete(TxKind(tx), todo);
      RunSingle(db, KindWork(kind, tx));
      assert todo == [KindWork(kind, tx)];
      match kind {
        case Deploy => r := FastDeploymentRemove(tx);
        case Execute => r := FastExecutionRemove(tx);
        case PayFee => r := FastFeeRemove(tx);
      }
    }

    /** Delete the entries of some ids from one map. */
    method DeleteEach(ids: seq<nat>, key: nat -> Key, ghost todo: seq<Work>, ghost rest: seq<Work>)
      requires todo == DelEach(ids, key) + rest && RanksBelow(todo, TOP)
      modifies this
      ensures RanksBelow(rest, TOP) && Run(old(db), todo) == Run(db, rest)
    {
      hide RunOne, RunAll, Run;
      ghost var left := todo;
      for i := 0 to |ids|
        invariant left == DelEach(ids[i..], key) + rest && RanksBelow(left, TOP)
        invariant Run(old(db), todo) == Run(db, left)
      {
        assert ids[i..][0] == ids[i] && ids[i..][1..] == ids[i + 1..];
        left := Delete(key(ids[i]), left);
      }
      assert left == rest;
    }

    method DeleteRejections(rejections: seq<Rejection>, ghost todo: seq<Work>, ghost rest: seq<Work>)
      requires todo == RejectionsWork(rejections) + rest && RanksBelow(todo, TOP)
      modifies this
      ensures RanksBelow(rest, TOP) && Run(old(db), todo) == Run(db, rest)
    {
      hide RunOne, RunAll, Run;
      ghost var left := todo;
      for i := 0 to |rejections|
        invariant left == RejectionsWork(rejections[i..]) + rest && RanksBelow(left, TOP)
        invariant Run(old(db), todo) == Run(db, left)
      {
        assert rejections[i..][0] == rejections[i] && rejections[i..][1..] == rejections[i + 1..];
        left := Delete(RejectedOrAborted(rejections[i].unconfirmed), left);
        var rejected := rejections[i].rejected;
        if rejected.Some? {
          left := Delete(RejectedObject(rejected.value), left);
        }
      }
      assert left == rest;
    }

    method RemoveTransactions(txs: seq<nat>, ghost todo: seq<Work>) returns (r: Removed)
      requires todo == TransactionsWork(txs) && RanksBelow(todo, TOP)
      modifies this
      ensures Run(old(db), todo) == Ended(db, ErrorOf(r))
    {
      hide RunOne, RunAll, Run;
      ghost var left := todo;
      for i := 0 to |txs|
        invariant left == TransactionsWork(txs[i..]) && RanksBelow(left, TOP)
        invariant Run(old(db), todo) == Run(db, left)
      {
        assert txs[i..][0] == txs[i] && txs[i..][1..] == txs[i + 1..];
        left := Delete(Confirmed(txs[i]), left);
        RunTail(db, left);
        r := FastTxRemove(txs[i]);
        if r.Err? {
          return;
        }
        left := left[1..];
      }
      RunNothing(db);
      r := Ok(());
    }

    method FastBlockRemove(height: nat) returns (r: Removed)
      modifies this
      ensures RunOne(old(db), BlockAt(height)) == Ended(db, ErrorOf(r))
    {
      hide RunOne, RunAll, Run, RejectionsWork, TransactionsWork, ReadBlock, DelEach;
      RunOneExpands(db, BlockAt(height));
      var info := ReadBlock(db, height);
      if info.Err? {
        return Err(info.error);
      }
      var b := info.value;
      ghost var todo := BlockWork(b);
      todo := DeleteBlockHead(b, todo);
      DeleteEach(b.certificates, (id: nat) => Certificate(id), todo, AfterCertificates(b));
      todo := AfterCertificates(b);
      todo := Delete(Ratifications(b.hash), todo);
      todo := Delete(Solutions(b.hash), todo);
      DeleteEach(b.solutions, (id: nat) => SolutionId(id), todo, AfterSolutions(b));
      todo := AfterSolutions(b);
      todo := Delete(AbortedSolutions(b.hash), todo);
      DeleteEach(b.abortedSolutions, (id: nat) => AbortedSolutionHeight(id), todo, AfterAbortedSolutions(b));
      todo := AfterAbortedSolutions(b);
      todo := Delete(Transactions(b.hash), todo);
      todo := Delete(AbortedTransactions(b.hash), todo);
      DeleteEach(b.abortedTxs, (tx: nat) => RejectedOrAborted(tx), todo, AfterAbortedTxs(b));
      todo := AfterAbortedTxs(b);
      DeleteRejections(b.rejections, todo, TransactionsWork(b.txs));
      r := RemoveTransactions(b.txs, TransactionsWork(b.txs));
    }

    method DeleteBlockHead(b: BlockInfo, ghost todo: seq<Work>) returns (ghost rest: seq<Work>)
      requires todo == BlockWork(b) && RanksBelow(todo, TOP)
      modifies this
      ensures rest == DelEach(b.certificates, (id: nat) => Certificate(id)) + AfterCertificates(b)
      ensures RanksBelow(rest, TOP) && Run(old(db), todo) == Run(db, rest)
    {
      hide RunOne, RunAll, Run, AfterCertificates, DelEach;
      rest := Delete(StateRoot(b.height), todo);
      rest := Delete(ReverseStateRoot(b.root), rest);
      rest := Delete(Id(b.height), rest);
      rest := Delete(ReverseId(b.hash), rest);
      rest := Delete(Header(b.hash), rest);
      rest := Delete(Authority(b.hash), rest);
    }

    method DeleteRounds(first: nat, last: nat, ghost todo: seq<Work>, ghost rest: seq<Work>)
      requires todo == RoundsWork(first, last) + rest && RanksBelow(todo, TOP)
      modifies this
      ensures RanksBelow(rest, TOP) && Run(old(db), todo) == Run(db, rest)
    {
      hide RunOne, RunAll, Run;
      ghost var left := todo;
      var round := first;
      while round < last
        invariant left == RoundsWork(round, last) + rest && RanksBelow(left, TOP)
        invariant Run(old(db), todo) == Run(db, left)
        decreases last as int - round as int
      {
        left := Delete(Round(round), left);
        round := round + 1;
      }
      assert left == rest;
    }

    method FastCommitteeRemove(height: nat) returns (r: Removed)
      modifies this
      ensures RunOne(old(db), CommitteeAt(height)) == Ended(db, ErrorOf(r))
    {
      hide RunOne, RunAll, Run;
      RunOneExpands(db, CommitteeAt(height));
      var committee := NumberAt(db, Committee(height));
      if committee.None? {
        return Err(MissingCommittee);
      }
      var start := committee.value;
      RunSingle(db, EarlierRounds(height, start, start));
      var earliest := start;
      while earliest > 0 && NumberAt(db, Round(earliest)) == Some(height)
        invariant earliest <= start && db == old(db)
        invariant RunOne(old(db), CommitteeAt(height)) == RunOne(db, EarlierRounds(height, start, earliest))
        decreases earliest
      {
        RunOneExpands(db, EarlierRounds(height, start, earliest));
        RunSingle(db, EarlierRounds(height, start, earliest - 1));
        earliest := earliest - 1;
      }
      RunOneExpands(db, EarlierRounds(height, start, earliest));
      if earliest != start {
        earliest := earliest + 1;
      }
      RunSingle(db, LaterRounds(height, earliest, start));
      var latest := start;
      while NumberAt(db, Round(latest)) == Some(height)
        invariant latest >= start && db == old(db)
        invariant RunOne(old(db), CommitteeAt(height)) == RunOne(db, LaterRounds(height, earliest, latest))
        decreases Distance(db, LaterRounds(height, earliest, latest))
      {
        RunOneExpands(db, LaterRounds(height, earliest, latest));
        RunSingle(db, LaterRounds(height, earliest, latest + 1));
        FewerLaterRounds(db, latest);
        latest := latest + 1;
      }
      RunOneExpands(db, LaterRounds(height, earliest, latest));
      ghost var todo := RoundsWork(earliest, latest) + [Del(Committee(height))];
      DeleteRounds(earliest, latest, todo, [Del(Committee(height))]);
      todo := [Del(Committee(height))];
      todo := Delete(Committee(height), todo);
      RunNothing(db);
      r := Ok(());
    }

    /** Remove a height: its block, then its committee. */
    method Remove(height: nat) returns (r: Removed)
      modifies this
      ensures RunRemoval(old(db), height) == Ended(db, ErrorOf(r))
    {
      hide RunOne, RunAll, Run;
      ghost var todo := Removal(height);
      RunTail(db, todo);
      r := FastBlockRemove(height);
      if r.Err? {
        return;
      }
      todo := todo[1..];
      RunSingle(db, CommitteeAt(height));
      assert todo == [CommitteeAt(height)];
      r := FastCommitteeRemove(height);
    }
  }

  lemma {:induction false} RunNothing(db: Db)
    ensures RanksBelow([], TOP) && Run(db, []) == Ended(db, None)
  {
  }
}
