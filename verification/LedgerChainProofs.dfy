/**
 The work of removing a block that a store holds deletes the entries of that
 block, no more and no less.
 */
module LedgerChainProofs {
  import opened Wrappers
  import opened Ledger
  import opened LedgerRun
  import opened LedgerPlan
  import opened LedgerChain

  /** A list of work is planned to delete some keys. */
  ghost predicate Deletes(db: Db, items: seq<Work>, keys: seq<Key>) {
    RanksBelow(items, TOP) && PlanOf(db, items).Some? && PlanOf(db, items).value.keys == keys
  }

  lemma {:induction false} DeletesNothing(db: Db)
    ensures Deletes(db, [], [])
  {
    PlanNothing(db);
  }

  lemma {:induction false} DeletesAppend(db: Db, a: seq<Work>, ka: seq<Key>, b: seq<Work>, kb: seq<Key>)
    requires Deletes(db, a, ka) && Deletes(db, b, kb)
    ensures Deletes(db, a + b, ka + kb)
  {
    hide PlanOf, PlanOne;
    PlanAppend(db, a, b);
  }

  lemma {:induction false} DeletesExpanded(db: Db, work: Work, keys: seq<Key>)
    requires !work.Del? && Expand(db, work).Ok? && Deletes(db, Expand(db, work).value, keys)
    requires OwnReads(db, work, keys)
    ensures Deletes(db, [work], keys)
  {
    hide PlanOf, PlanOne, OwnReads;
    PlanExpand(db, work);
    PlanSingle(db, work);
  }

  /** Deletions delete their keys. */
  lemma {:induction false} DeletesKeys(db: Db, items: seq<Work>, keys: seq<Key>)
    requires |items| == |keys| && forall i :: 0 <= i < |items| ==> items[i] == Del(keys[i])
    ensures Deletes(db, items, keys)
    decreases |items|
  {
    if items == [] {
      DeletesNothing(db);
      assert keys == [];
    } else {
      DeletesKeys(db, items[1..], keys[1..]);
      DeletesOneKey(db, keys[0]);
      DeletesAppend(db, [Del(keys[0])], [keys[0]], items[1..], keys[1..]);
      assert [Del(keys[0])] + items[1..] == items;
      assert [keys[0]] + keys[1..] == keys;
    }
  }

  lemma {:induction false} DeletesOneKey(db: Db, key: Key)
    ensures Deletes(db, [Del(key)], [key])
  {
    hide PlanOf;
    PlanSingle(db, Del(key));
  }

  lemma {:induction false} DeletesEach(db: Db, ids: seq<nat>, key: nat -> Key)
    ensures Deletes(db, DelEach(ids, key), KeyEach(ids, key))
  {
    hide Deletes;
    if ids == [] {
      DeletesNothing(db);
    } else {
      DeletesOneKey(db, key(ids[0]));
      DeletesEach(db, ids[1..], key);
      DeletesAppend(db, [Del(key(ids[0]))], [key(ids[0])], DelEach(ids[1..], key), KeyEach(ids[1..], key));
    }
  }

  // ---------- Transitions ----------

  lemma {:induction false} DeletesInputRecord(db: Db, i: Input)
    requires HoldsInput(db, i)
    ensures Deletes(db, [Del(ReverseInput(i.id)), InputRecordOf(i.id)], InputKeys(i))
  {
    hide Deletes;
    var keys := (match i.tag case Some(tag) => [RecordTag(tag)] case None => [])
      + [InputConstant(i.id), InputPublic(i.id), InputPrivate(i.id), InputRecord(i.id), InputExternal(i.id)];
    DeletesKeys(db, Expand(db, InputRecordOf(i.id)).value, keys);
    DeletesExpanded(db, InputRecordOf(i.id), keys);
    DeletesOneKey(db, ReverseInput(i.id));
    DeletesAppend(db, [Del(ReverseInput(i.id))], [ReverseInput(i.id)], [InputRecordOf(i.id)], keys);
    assert [Del(ReverseInput(i.id))] + [InputRecordOf(i.id)] == [Del(ReverseInput(i.id)), InputRecordOf(i.id)];
  }

  lemma {:induction false} DeletesInputs(db: Db, inputs: seq<Input>)
    requires HoldsInputs(db, inputs)
    ensures Deletes(db, InputsWork(InputIdsOf(inputs)), InputsKeys(inputs))
  {
    hide Deletes, InputKeys;
    if inputs == [] {
      DeletesNothing(db);
    } else {
      DeletesInputRecord(db, inputs[0]);
      DeletesInputs(db, inputs[1..]);
      DeletesAppend(db, [Del(ReverseInput(inputs[0].id)), InputRecordOf(inputs[0].id)], InputKeys(inputs[0]),
                    InputsWork(InputIdsOf(inputs[1..])), InputsKeys(inputs[1..]));
      assert InputIdsOf(inputs)[1..] == InputIdsOf(inputs[1..]);
    }
  }

  lemma {:induction false} OutputNonce(db: Db, o: Output)
    requires HoldsOutput(db, o)
    ensures NonceAt(db, o.id) == o.nonce
  {
  }

  lemma {:induction false} DeletesOutputRecord(db: Db, o: Output)
    requires HoldsOutput(db, o)
    ensures Deletes(db, [Del(ReverseOutput(o.id)), OutputRecordOf(o.id)], OutputKeys(o))
  {
    hide Deletes, NonceAt, HoldsOutput;
    OutputNonce(db, o);
    var keys := (match o.nonce case Some(nonce) => [RecordNonce(nonce)] case None => [])
      + [OutputConstant(o.id), OutputPublic(o.id), OutputPrivate(o.id), OutputRecord(o.id), OutputExternal(o.id),
         OutputFuture(o.id)];
    DeletesKeys(db, Expand(db, OutputRecordOf(o.id)).value, keys);
    DeletesExpanded(db, OutputRecordOf(o.id), keys);
    DeletesOneKey(db, ReverseOutput(o.id));
    DeletesAppend(db, [Del(ReverseOutput(o.id))], [ReverseOutput(o.id)], [OutputRecordOf(o.id)], keys);
    assert [Del(ReverseOutput(o.id))] + [OutputRecordOf(o.id)] == [Del(ReverseOutput(o.id)), OutputRecordOf(o.id)];
  }

  lemma {:induction false} DeletesOutputs(db: Db, outputs: seq<Output>)
    requires HoldsOutputs(db, outputs)
    ensures Deletes(db, OutputsWork(OutputIdsOf(outputs)), OutputsKeys(outputs))
  {
    hide Deletes, OutputKeys;
    if outputs == [] {
      DeletesNothing(db);
    } else {
      DeletesOutputRecord(db, outputs[0]);
      DeletesOutputs(db, outputs[1..]);
      DeletesAppend(db, [Del(ReverseOutput(outputs[0].id)), OutputRecordOf(outputs[0].id)], OutputKeys(outputs[0]),
                    OutputsWork(OutputIdsOf(outputs[1..])), OutputsKeys(outputs[1..]));
      assert OutputIdsOf(outputs)[1..] == OutputIdsOf(outputs[1..]);
    }
  }

  lemma {:induction false} DeletesInputsOf(db: Db, t: Transition)
    requires HoldsTransition(db, t)
    ensures Deletes(db, [InputsOf(t.id)], [InputIds(t.id)] + InputsKeys(t.inputs))
  {
    hide Deletes, HoldsInputs, HoldsOutputs, InputsKeys, InputsWork;
    DeletesInputs(db, t.inputs);
    DeletesOneKey(db, InputIds(t.id));
    DeletesAppend(db, [Del(InputIds(t.id))], [InputIds(t.id)], InputsWork(InputIdsOf(t.inputs)), InputsKeys(t.inputs));
    DeletesExpanded(db, InputsOf(t.id), [InputIds(t.id)] + InputsKeys(t.inputs));
  }

  lemma {:induction false} DeletesOutputsOf(db: Db, t: Transition)
    requires HoldsTransition(db, t)
    ensures Deletes(db, [OutputsOf(t.id)], [OutputIds(t.id)] + OutputsKeys(t.outputs))
  {
    hide Deletes, HoldsInputs, HoldsOutputs, OutputsKeys, OutputsWork;
    DeletesOutputs(db, t.outputs);
    DeletesOneKey(db, OutputIds(t.id));
    DeletesAppend(db, [Del(OutputIds(t.id))], [OutputIds(t.id)], OutputsWork(OutputIdsOf(t.outputs)), OutputsKeys(t.outputs));
    DeletesExpanded(db, OutputsOf(t.id), [OutputIds(t.id)] + OutputsKeys(t.outputs));
  }

  lemma {:induction false} DeletesTransition(db: Db, t: Transition)
    requires HoldsTransition(db, t)
    ensures Deletes(db, [TransitionOf(t.id)], TransitionKeys(t))
  {
    hide Deletes, HoldsInputs, HoldsOutputs, OutputsKeys, OutputsWork, InputsKeys, InputsWork;
    var last := [Tpk(t.id), ReverseTpk(t.tpk), Tcm(t.id), ReverseTcm(t.tcm), Scm(t.id)];
    var lastWork := [Del(Tpk(t.id)), Del(ReverseTpk(t.tpk)), Del(Tcm(t.id)), Del(ReverseTcm(t.tcm)), Del(Scm(t.id))];
    var ins, outs := [InputIds(t.id)] + InputsKeys(t.inputs), [OutputIds(t.id)] + OutputsKeys(t.outputs);
    DeletesKeys(db, lastWork, last);
    DeletesOutputsOf(db, t);
    DeletesAppend(db, [OutputsOf(t.id)], outs, lastWork, last);
    DeletesInputsOf(db, t);
    DeletesAppend(db, [InputsOf(t.id)], ins, [OutputsOf(t.id)] + lastWork, outs + last);
    DeletesOneKey(db, Locator(t.id));
    DeletesAppend(db, [Del(Locator(t.id))], [Locator(t.id)], [InputsOf(t.id)] + ([OutputsOf(t.id)] + lastWork), ins + (outs + last));
    assert Expand(db, TransitionOf(t.id)).value
        == [Del(Locator(t.id))] + ([InputsOf(t.id)] + ([OutputsOf(t.id)] + lastWork));
    TransitionReads(db, t);
    DeletesExpanded(db, TransitionOf(t.id), TransitionKeys(t));
  }

  lemma {:induction false} TransitionReads(db: Db, t: Transition)
    ensures OwnReads(db, TransitionOf(t.id), TransitionKeys(t))
  {
    var last := [Tpk(t.id), ReverseTpk(t.tpk), Tcm(t.id), ReverseTcm(t.tcm), Scm(t.id)];
    assert last[0] == Tpk(t.id) && last[2] == Tcm(t.id);
    InTail(Tpk(t.id), [OutputIds(t.id)] + OutputsKeys(t.outputs), last);
    InTail(Tcm(t.id), [OutputIds(t.id)] + OutputsKeys(t.outputs), last);
  }

  lemma {:induction false} InTail(k: Key, a: seq<Key>, b: seq<Key>)
    requires k in b
    ensures k in a + b
  {
  }

  // ---------- Transactions ----------

  lemma {:induction false} DeletesFee(db: Db, tx: nat, fee: Transition)
    requires HoldsFee(db, tx, fee)
    ensures Deletes(db, [FeeOf(tx)], FeeKeys(tx, fee))
  {
    hide Deletes, HoldsTransition, TransitionKeys;
    DeletesTransition(db, fee);
    DeletesKeys(db, [Del(Fee(tx)), Del(ReverseFee(fee.id))], [Fee(tx), ReverseFee(fee.id)]);
    DeletesAppend(db, [Del(Fee(tx)), Del(ReverseFee(fee.id))], [Fee(tx), ReverseFee(fee.id)],
                  [TransitionOf(fee.id)], TransitionKeys(fee));
    assert [Del(Fee(tx)), Del(ReverseFee(fee.id))] + [TransitionOf(fee.id)]
        == [Del(Fee(tx)), Del(ReverseFee(fee.id)), TransitionOf(fee.id)];
    assert [Fee(tx), ReverseFee(fee.id)][0] == Fee(tx);
    DeletesExpanded(db, FeeOf(tx), FeeKeys(tx, fee));
  }

  lemma {:induction false} DeletesTransitions(db: Db, ts: seq<Transition>)
    requires HoldsTransitions(db, ts)
    ensures Deletes(db, TransitionsWork(TransitionIdsOf(ts)), TransitionsKeys(ts))
  {
    hide Deletes, HoldsTransition, TransitionKeys;
    if ts == [] {
      DeletesNothing(db);
    } else {
      var t := ts[0];
      DeletesTransition(db, t);
      DeletesOneKey(db, ReverseExecution(t.id));
      DeletesAppend(db, [Del(ReverseExecution(t.id))], [ReverseExecution(t.id)], [TransitionOf(t.id)], TransitionKeys(t));
      DeletesTransitions(db, ts[1..]);
      DeletesAppend(db, [Del(ReverseExecution(t.id))] + [TransitionOf(t.id)], [ReverseExecution(t.id)] + TransitionKeys(t),
                    TransitionsWork(TransitionIdsOf(ts[1..])), TransitionsKeys(ts[1..]));
      assert TransitionIdsOf(ts)[1..] == TransitionIdsOf(ts[1..]);
      assert [Del(ReverseExecution(t.id))] + [TransitionOf(t.id)] == [Del(ReverseExecution(t.id)), TransitionOf(t.id)];
    }
  }

  lemma {:induction false} DeletesFunctions(db: Db, p: nat, e: nat, functions: seq<nat>)
    ensures Deletes(db, FunctionsWork(p, e, functions), FunctionKeys(p, e, functions))
  {
    hide Deletes;
    if functions == [] {
      DeletesNothing(db);
    } else {
      var f := functions[0];
      DeletesKeys(db, [Del(VerifyingKey(p, f, e)), Del(FunctionCertificate(p, f, e))],
                  [VerifyingKey(p, f, e), FunctionCertificate(p, f, e)]);
      DeletesFunctions(db, p, e, functions[1..]);
      DeletesAppend(db, [Del(VerifyingKey(p, f, e)), Del(FunctionCertificate(p, f, e))],
                    [VerifyingKey(p, f, e), FunctionCertificate(p, f, e)],
                    FunctionsWork(p, e, functions[1..]), FunctionKeys(p, e, functions[1..]));
    }
  }

  lemma {:induction false} DeletesDeployment(db: Db, tx: nat, body: Body)
    requires body.Deployment? && HoldsBody(db, tx, body)
    ensures Deletes(db, [DeploymentOf(tx)], BodyKeys(tx, body))
  {
    hide Deletes, HoldsFee, FeeKeys, FunctionsWork, FunctionKeys;
    var p, e, functions := body.program, body.edition, body.functions;
    var head := [DeployedProgram(tx), Edition(p), ReverseDeployment(p, e), Owner(p, e), ProgramAt(p, e)];
    var headWork := [Del(DeployedProgram(tx)), Del(Edition(p)), Del(ReverseDeployment(p, e)), Del(Owner(p, e)),
                     Del(ProgramAt(p, e))];
    DeletesKeys(db, headWork, head);
    DeletesFunctions(db, p, e, functions);
    DeletesFee(db, tx, body.fee);
    DeletesAppend(db, FunctionsWork(p, e, functions), FunctionKeys(p, e, functions), [FeeOf(tx)], FeeKeys(tx, body.fee));
    DeletesAppend(db, headWork, head, FunctionsWork(p, e, functions) + [FeeOf(tx)],
                  FunctionKeys(p, e, functions) + FeeKeys(tx, body.fee));
    assert head[0] == DeployedProgram(tx) && head[1] == Edition(p) && head[4] == ProgramAt(p, e);
    DeletesExpanded(db, DeploymentOf(tx), BodyKeys(tx, body));
  }

  lemma {:induction false} DeletesExecution(db: Db, tx: nat, body: Body)
    requires body.Executed? && HoldsBody(db, tx, body)
    ensures Deletes(db, [ExecutionOf(tx)], BodyKeys(tx, body))
  {
    hide Deletes, HoldsFee, HoldsTransitions, FeeKeys, TransitionsWork, TransitionsKeys, TransitionIdsOf;
    var ids := TransitionIdsOf(body.transitions);
    var feeKeys := match body.optionalFee case Some(t) => FeeKeys(tx, t) case None => [];
    var feeWork := if body.optionalFee.Some? then [FeeOf(tx)] else [];
    if body.optionalFee.Some? {
      DeletesFee(db, tx, body.optionalFee.value);
    } else {
      DeletesNothing(db);
    }
    DeletesOneKey(db, Inclusion(tx));
    DeletesAppend(db, [Del(Inclusion(tx))], [Inclusion(tx)], feeWork, feeKeys);
    DeletesTransitions(db, body.transitions);
    DeletesAppend(db, TransitionsWork(ids), TransitionsKeys(body.transitions),
                  [Del(Inclusion(tx))] + feeWork, [Inclusion(tx)] + feeKeys);
    DeletesOneKey(db, Execution(tx));
    DeletesAppend(db, [Del(Execution(tx))], [Execution(tx)], TransitionsWork(ids) + ([Del(Inclusion(tx))] + feeWork),
                  TransitionsKeys(body.transitions) + ([Inclusion(tx)] + feeKeys));
    DeletesExpanded(db, ExecutionOf(tx), BodyKeys(tx, body));
  }

  lemma {:induction false} DeletesTx(db: Db, tx: Transaction)
    requires HoldsTx(db, tx)
    ensures Deletes(db, [TransactionOf(tx.id)], [TxKind(tx.id)] + BodyKeys(tx.id, tx.body))
  {
    hide Deletes, HoldsFee, HoldsTransitions, FeeKeys, FunctionKeys, TransitionsKeys;
    var work := KindWork(KindOfBody(tx.body), tx.id);
    match tx.body {
      case Deployment(_, _, _, _) => DeletesDeployment(db, tx.id, tx.body);
      case Executed(_, _) => DeletesExecution(db, tx.id, tx.body);
      case FeeOnly(fee) => DeletesFee(db, tx.id, fee);
    }
    DeletesOneKey(db, TxKind(tx.id));
    DeletesAppend(db, [Del(TxKind(tx.id))], [TxKind(tx.id)], [work], BodyKeys(tx.id, tx.body));
    assert [Del(TxKind(tx.id))] + [work] == [Del(TxKind(tx.id)), work];
    DeletesExpanded(db, TransactionOf(tx.id), [TxKind(tx.id)] + BodyKeys(tx.id, tx.body));
  }

  lemma {:induction false} DeletesTxs(db: Db, txs: seq<Transaction>)
    requires HoldsTxs(db, txs)
    ensures Deletes(db, TransactionsWork(TxIdsOf(txs)), TxsKeys(txs))
  {
    hide Deletes, HoldsTx, BodyKeys;
    if txs == [] {
      DeletesNothing(db);
    } else {
      var tx := txs[0];
      var keys := [TxKind(tx.id)] + BodyKeys(tx.id, tx.body);
      DeletesTx(db, tx);
      DeletesOneKey(db, Confirmed(tx.id));
      DeletesAppend(db, [Del(Confirmed(tx.id))], [Confirmed(tx.id)], [TransactionOf(tx.id)], keys);
      DeletesTxs(db, txs[1..]);
      DeletesAppend(db, [Del(Confirmed(tx.id))] + [TransactionOf(tx.id)], [Confirmed(tx.id)] + keys,
                    TransactionsWork(TxIdsOf(txs[1..])), TxsKeys(txs[1..]));
      assert TxIdsOf(txs)[1..] == TxIdsOf(txs[1..]);
      assert [Del(Confirmed(tx.id))] + [TransactionOf(tx.id)] == [Del(Confirmed(tx.id)), TransactionOf(tx.id)];
    }
  }

  lemma {:induction false} DeletesRejections(db: Db, rejections: seq<Rejection>)
    ensures Deletes(db, RejectionsWork(rejections), RejectionsKeys(rejections))
  {
    hide Deletes;
    if rejections == [] {
      DeletesNothing(db);
    } else {
      var r := rejections[0];
      var work := [Del(RejectedOrAborted(r.unconfirmed))]
        + if r.rejected.Some? then [Del(RejectedObject(r.rejected.value))] else [];
      DeletesKeys(db, work, RejectionKeys(r));
      DeletesRejections(db, rejections[1..]);
      DeletesAppend(db, work, RejectionKeys(r), RejectionsWork(rejections[1..]), RejectionsKeys(rejections[1..]));
    }
  }

  lemma {:induction false} RejectionsRead(db: Db, txs: seq<Transaction>)
    requires HoldsTxs(db, txs)
    ensures Rejections(db, TxIdsOf(txs)) == Some(RejectionsOf(txs))
  {
    hide HoldsBody;
    if txs != [] {
      RejectionsRead(db, txs[1..]);
      assert TxIdsOf(txs)[1..] == TxIdsOf(txs[1..]);
    }
  }

  // ---------- Blocks ----------

  function InfoOf(b: Block): BlockInfo {
    BlockInfo(b.height, b.hash, b.root, TxIdsOf(b.txs), b.solutions, b.abortedSolutions, b.abortedTxs,
              RejectionsOf(b.txs), b.certificates)
  }

  lemma {:induction false} ReadsInfo(db: Db, b: Block)
    requires HoldsContent(db, b)
    ensures ReadBlock(db, b.height) == Ok(InfoOf(b))
  {
    hide HoldsTxs, Rejections;
    RejectionsRead(db, b.txs);
  }

  lemma {:induction false} DeletesTail(db: Db, b: Block)
    requires HoldsTxs(db, b.txs)
    ensures Deletes(db, AfterAbortedSolutions(InfoOf(b)), TailKeys(b))
  {
    hide Deletes, HoldsTxs, TransactionsWork, RejectionsWork, DelEach, KeyEach, TxsKeys, RejectionsKeys, RejectionsOf, TxIdsOf;
    DeletesTxs(db, b.txs);
    var rejections := RejectionsOf(b.txs);
    DeletesRejections(db, rejections);
    DeletesAppend(db, RejectionsWork(rejections), RejectionsKeys(rejections), TransactionsWork(TxIdsOf(b.txs)), TxsKeys(b.txs));
    DeletesEach(db, b.abortedTxs, (tx: nat) => RejectedOrAborted(tx));
    DeletesAppend(db, DelEach(b.abortedTxs, (tx: nat) => RejectedOrAborted(tx)),
                  KeyEach(b.abortedTxs, (tx: nat) => RejectedOrAborted(tx)),
                  AfterAbortedTxs(InfoOf(b)), RejectionsKeys(rejections) + TxsKeys(b.txs));
    DeletesKeys(db, [Del(Transactions(b.hash)), Del(AbortedTransactions(b.hash))],
                [Transactions(b.hash), AbortedTransactions(b.hash)]);
    DeletesAppend(db, [Del(Transactions(b.hash)), Del(AbortedTransactions(b.hash))],
                  [Transactions(b.hash), AbortedTransactions(b.hash)],
                  DelEach(b.abortedTxs, (tx: nat) => RejectedOrAborted(tx)) + AfterAbortedTxs(InfoOf(b)),
                  KeyEach(b.abortedTxs, (tx: nat) => RejectedOrAborted(tx)) + (RejectionsKeys(rejections) + TxsKeys(b.txs)));
  }

  lemma {:induction false} DeletesSolutions(db: Db, b: Block)
    requires HoldsTxs(db, b.txs)
    ensures Deletes(db, AfterSolutions(InfoOf(b)), SolutionKeys(b))
  {
    hide Deletes, HoldsTxs, DelEach, KeyEach, TailKeys, AfterAbortedSolutions;
    DeletesTail(db, b);
    DeletesEach(db, b.abortedSolutions, (id: nat) => AbortedSolutionHeight(id));
    DeletesAppend(db, DelEach(b.abortedSolutions, (id: nat) => AbortedSolutionHeight(id)),
                  KeyEach(b.abortedSolutions, (id: nat) => AbortedSolutionHeight(id)),
                  AfterAbortedSolutions(InfoOf(b)), TailKeys(b));
    DeletesOneKey(db, AbortedSolutions(b.hash));
    DeletesAppend(db, [Del(AbortedSolutions(b.hash))], [AbortedSolutions(b.hash)],
                  DelEach(b.abortedSolutions, (id: nat) => AbortedSolutionHeight(id)) + AfterAbortedSolutions(InfoOf(b)),
                  KeyEach(b.abortedSolutions, (id: nat) => AbortedSolutionHeight(id)) + TailKeys(b));
  }

  lemma {:induction false} DeletesMiddle(db: Db, b: Block)
    requires HoldsTxs(db, b.txs)
    ensures Deletes(db, AfterCertificates(InfoOf(b)), MiddleKeys(b))
  {
    hide Deletes, HoldsTxs, DelEach, KeyEach, SolutionKeys, AfterSolutions;
    DeletesSolutions(db, b);
    DeletesEach(db, b.solutions, (id: nat) => SolutionId(id));
    DeletesAppend(db, DelEach(b.solutions, (id: nat) => SolutionId(id)),
                  KeyEach(b.solutions, (id: nat) => SolutionId(id)), AfterSolutions(InfoOf(b)), SolutionKeys(b));
    DeletesKeys(db, [Del(Ratifications(b.hash)), Del(Solutions(b.hash))], [Ratifications(b.hash), Solutions(b.hash)]);
    DeletesAppend(db, [Del(Ratifications(b.hash)), Del(Solutions(b.hash))], [Ratifications(b.hash), Solutions(b.hash)],
                  DelEach(b.solutions, (id: nat) => SolutionId(id)) + AfterSolutions(InfoOf(b)),
                  KeyEach(b.solutions, (id: nat) => SolutionId(id)) + SolutionKeys(b));
  }

  lemma {:induction false} DeletesBlockWork(db: Db, b: Block)
    requires HoldsTxs(db, b.txs)
    ensures Deletes(db, BlockWork(InfoOf(b)), ContentKeys(b))
  {
    hide Deletes, HoldsTxs, DelEach, KeyEach, MiddleKeys, AfterCertificates;
    DeletesMiddle(db, b);
    DeletesEach(db, b.certificates, (id: nat) => Certificate(id));
    DeletesAppend(db, DelEach(b.certificates, (id: nat) => Certificate(id)),
                  KeyEach(b.certificates, (id: nat) => Certificate(id)), AfterCertificates(InfoOf(b)), MiddleKeys(b));
    DeletesKeys(db, BlockHeadWork(InfoOf(b)), HeadKeys(b));
    DeletesAppend(db, BlockHeadWork(InfoOf(b)), HeadKeys(b),
                  DelEach(b.certificates, (id: nat) => Certificate(id)) + AfterCertificates(InfoOf(b)),
                  KeyEach(b.certificates, (id: nat) => Certificate(id)) + MiddleKeys(b));
  }

  lemma {:induction false} ConfirmedIsOwn(txs: seq<Transaction>, tx: nat)
    requires tx in TxIdsOf(txs)
    ensures Confirmed(tx) in TxsKeys(txs)
  {
    hide BodyKeys;
    if tx != txs[0].id {
      ConfirmedIsOwn(txs[1..], tx);
    }
  }

  /** The entries read before a block is removed are its own. */
  lemma {:induction false} OwnContentReads(db: Db, b: Block)
    requires HoldsContent(db, b)
    ensures OwnReads(db, BlockAt(b.height), ContentKeys(b))
  {
    hide HoldsTxs, KeyEach, TxsKeys, RejectionsKeys, TxIdsOf, MiddleKeys;
    forall k | k in db && Reads(db, BlockAt(b.height), k) ensures k in ContentKeys(b) {
      if k == Id(b.height) || k == StateRoot(b.height) || k == Authority(b.hash) {
        assert HeadKeys(b)[0] == StateRoot(b.height) && HeadKeys(b)[2] == Id(b.height) && HeadKeys(b)[5] == Authority(b.hash);
      } else {
        if k.Confirmed? {
          ConfirmedIsOwn(b.txs, k.tx);
        }
        InMiddle(b, k);
      }
    }
  }

  lemma {:induction false} InMiddle(b: Block, k: Key)
    requires
      || k == Solutions(b.hash) || k == AbortedSolutions(b.hash) || k == Transactions(b.hash)
      || k == AbortedTransactions(b.hash) || k in TxsKeys(b.txs)
    ensures k in ContentKeys(b)
  {
    hide KeyEach, TxsKeys, RejectionsKeys;
    assert k in TailKeys(b) || k == AbortedSolutions(b.hash) || k == Solutions(b.hash) by {
      assert [Transactions(b.hash), AbortedTransactions(b.hash)][1] == AbortedTransactions(b.hash);
      assert [Transactions(b.hash), AbortedTransactions(b.hash)][0] == Transactions(b.hash);
    }
    assert k in SolutionKeys(b) || k == Solutions(b.hash) by {
      assert [AbortedSolutions(b.hash)][0] == AbortedSolutions(b.hash);
    }
    assert k in MiddleKeys(b) by {
      assert [Ratifications(b.hash), Solutions(b.hash)][1] == Solutions(b.hash);
    }
  }

  lemma {:induction false} DeletesContent(db: Db, b: Block)
    requires HoldsContent(db, b)
    ensures Deletes(db, [BlockAt(b.height)], ContentKeys(b))
  {
    hide Deletes, HoldsTxs, ReadBlock, BlockWork, ContentKeys, OwnReads, InfoOf;
    ReadsInfo(db, b);
    DeletesBlockWork(db, b);
    OwnContentReads(db, b);
    DeletesExpanded(db, BlockAt(b.height), ContentKeys(b));
  }
}
