/**
 Stores for any chain of blocks: what each block puts into the store, written
 out entry by entry, makes a store that holds the chain and nothing else.
 */
module LedgerBuild {
  import opened Wrappers
  import opened Ledger
  import opened LedgerPlan
  import opened LedgerChain
  import opened LedgerRewind

  /** An entry with its value, or a key that has no entry. */
  type Entry = (Key, Option<Value>)

  function EntryKeys(es: seq<Entry>): seq<Key> {
    seq(|es|, i requires 0 <= i < |es| => es[i].0)
  }

  predicate HoldsEntry(db: Db, e: Entry) {
    match e.1
    case Some(v) => Stored(db, e.0, v)
    case None => e.0 !in db
  }

  predicate HoldsEntries(db: Db, es: seq<Entry>) {
    forall i :: 0 <= i < |es| ==> HoldsEntry(db, es[i])
  }

  predicate NoRounds(es: seq<Entry>) {
    forall i :: 0 <= i < |es| ==> !es[i].0.Round?
  }

  lemma {:induction false} Parts(db: Db, a: seq<Entry>, b: seq<Entry>)
    ensures HoldsEntries(db, a + b) <==> HoldsEntries(db, a) && HoldsEntries(db, b)
    ensures EntryKeys(a + b) == EntryKeys(a) + EntryKeys(b)
    ensures NoRounds(a + b) <==> NoRounds(a) && NoRounds(b)
  {
    var all := a + b;
    assert forall i :: 0 <= i < |a| ==> all[i] == a[i];
    assert forall i :: 0 <= i < |b| ==> all[|a| + i] == b[i];
  }

  // ---------- The entries of a block ----------

  /** Entries whose contents no removal looks at. */
  function Blobs(keys: seq<Key>): (es: seq<Entry>)
    ensures EntryKeys(es) == keys
  {
    seq(|keys|, i requires 0 <= i < |keys| => (keys[i], Some(Blob)))
  }

  function InputEntries(i: Input): (es: seq<Entry>)
    ensures EntryKeys(es) == InputKeys(i) && NoRounds(es)
  {
    [(ReverseInput(i.id), Some(Blob))]
    + ((match i.tag case Some(tag) => [(RecordTag(tag), Some(Blob))] case None => [])
    + [ (InputConstant(i.id), None), (InputPublic(i.id), if i.tag.Some? then None else Some(Blob)),
        (InputPrivate(i.id), None), (InputRecord(i.id), match i.tag case Some(tag) => Some(Number(tag)) case None => None),
        (InputExternal(i.id), None) ])
  }

  function InputsEntries(inputs: seq<Input>): (es: seq<Entry>) {
    if inputs == [] then [] else InputEntries(inputs[0]) + InputsEntries(inputs[1..])
  }

  function OutputEntries(o: Output): (es: seq<Entry>)
    ensures EntryKeys(es) == OutputKeys(o) && NoRounds(es)
  {
    [(ReverseOutput(o.id), Some(Blob))]
    + ((match o.nonce case Some(nonce) => [(RecordNonce(nonce), Some(Blob))] case None => [])
    + [ (OutputConstant(o.id), None), (OutputPublic(o.id), if o.nonce.Some? then None else Some(Blob)),
        (OutputPrivate(o.id), None), (OutputRecord(o.id), if o.nonce.Some? then Some(RecordWith(o.nonce)) else None),
        (OutputExternal(o.id), None), (OutputFuture(o.id), None) ])
  }

  function OutputsEntries(outputs: seq<Output>): (es: seq<Entry>) {
    if outputs == [] then [] else OutputEntries(outputs[0]) + OutputsEntries(outputs[1..])
  }

  function TransitionEntries(t: Transition): (es: seq<Entry>) {
    [(Locator(t.id), Some(Blob))]
    + (([(InputIds(t.id), Some(Ids(InputIdsOf(t.inputs))))] + InputsEntries(t.inputs))
    + (([(OutputIds(t.id), Some(Ids(OutputIdsOf(t.outputs))))] + OutputsEntries(t.outputs))
    + [ (Tpk(t.id), Some(Number(t.tpk))), (ReverseTpk(t.tpk), Some(Blob)), (Tcm(t.id), Some(Number(t.tcm))),
        (ReverseTcm(t.tcm), Some(Blob)), (Scm(t.id), Some(Blob)) ]))
  }

  function TransitionsEntries(ts: seq<Transition>): (es: seq<Entry>) {
    if ts == [] then []
    else ([(ReverseExecution(ts[0].id), Some(Blob))] + TransitionEntries(ts[0])) + TransitionsEntries(ts[1..])
  }

  function FeeEntries(tx: nat, fee: Transition): (es: seq<Entry>) {
    [(Fee(tx), Some(Number(fee.id))), (ReverseFee(fee.id), Some(Blob))] + TransitionEntries(fee)
  }

  function BodyEntries(tx: nat, body: Body): (es: seq<Entry>) {
    match body
    case Deployment(p, e, functions, fee) =>
      [ (DeployedProgram(tx), Some(Number(p))), (Edition(p), Some(Number(e))), (ReverseDeployment(p, e), Some(Blob)),
        (Owner(p, e), Some(Blob)), (ProgramAt(p, e), Some(Ids(functions))) ]
      + (Blobs(FunctionKeys(p, e, functions)) + FeeEntries(tx, fee))
    case Executed(transitions, fee) =>
      [(Execution(tx), Some(Transitions(TransitionIdsOf(transitions), fee.Some?)))] + (TransitionsEntries(transitions)
      + ([(Inclusion(tx), Some(Blob))] + match fee case Some(t) => FeeEntries(tx, t) case None => []))
    case FeeOnly(fee) => FeeEntries(tx, fee)
  }

  function TxEntries(tx: Transaction): (es: seq<Entry>) {
    [(Confirmed(tx.id), Some(ConfirmedAs(tx.rejection)))]
    + ([(TxKind(tx.id), Some(KindOf(KindOfBody(tx.body))))] + BodyEntries(tx.id, tx.body))
  }

  function TxsEntries(txs: seq<Transaction>): (es: seq<Entry>) {
    if txs == [] then [] else TxEntries(txs[0]) + TxsEntries(txs[1..])
  }

  function RoundEntries(height: nat, first: nat, last: nat): (es: seq<Entry>)
    ensures EntryKeys(es) == RoundKeys(first, last)
    ensures forall i :: 0 <= i < |es| ==> es[i].1 == Some(Number(height))
    decreases last - first
  {
    if first >= last then [] else [(Round(first), Some(Number(height)))] + RoundEntries(height, first + 1, last)
  }

  function HeadEntries(b: Block): (es: seq<Entry>)
    ensures EntryKeys(es) == HeadKeys(b) && NoRounds(es)
  {
    [ (StateRoot(b.height), Some(Number(b.root))), (ReverseStateRoot(b.root), Some(Blob)),
      (Id(b.height), Some(Number(b.hash))), (ReverseId(b.hash), Some(Blob)), (Header(b.hash), Some(Blob)),
      (Authority(b.hash), Some(Ids(b.certificates))) ]
  }

  function TailEntries(b: Block): (es: seq<Entry>) {
    [(Transactions(b.hash), Some(Ids(TxIdsOf(b.txs)))), (AbortedTransactions(b.hash), Some(Ids(b.abortedTxs)))]
    + (Blobs(KeyEach(b.abortedTxs, (tx: nat) => RejectedOrAborted(tx)))
    + (Blobs(RejectionsKeys(RejectionsOf(b.txs))) + TxsEntries(b.txs)))
  }

  function SolutionEntries(b: Block): (es: seq<Entry>) {
    [(AbortedSolutions(b.hash), Some(Ids(b.abortedSolutions)))]
    + (Blobs(KeyEach(b.abortedSolutions, (id: nat) => AbortedSolutionHeight(id))) + TailEntries(b))
  }

  function MiddleEntries(b: Block): (es: seq<Entry>) {
    [(Ratifications(b.hash), Some(Blob)), (Solutions(b.hash), Some(Ids(b.solutions)))]
    + (Blobs(KeyEach(b.solutions, (id: nat) => SolutionId(id))) + SolutionEntries(b))
  }

  function ContentEntries(b: Block): (es: seq<Entry>) {
    HeadEntries(b) + (Blobs(KeyEach(b.certificates, (id: nat) => Certificate(id))) + MiddleEntries(b))
  }

  function BlockEntries(b: Block): (es: seq<Entry>) {
    ContentEntries(b) + (RoundEntries(b.height, b.first, b.last) + [(Committee(b.height), Some(Number(b.start)))])
  }

  // ---------- Their keys ----------

  lemma {:induction false} KeyEachRounds(ids: seq<nat>, key: nat -> Key)
    requires forall id :: !key(id).Round?
    ensures NoRounds(Blobs(KeyEach(ids, key)))
  {
    if ids != [] {
      KeyEachRounds(ids[1..], key);
      assert KeyEach(ids, key)[1..] == KeyEach(ids[1..], key);
      assert forall i :: 0 < i < |KeyEach(ids, key)| ==> Blobs(KeyEach(ids, key))[i] == Blobs(KeyEach(ids[1..], key))[i - 1];
    }
  }

  lemma {:induction false} InputsListed(inputs: seq<Input>)
    ensures EntryKeys(InputsEntries(inputs)) == InputsKeys(inputs) && NoRounds(InputsEntries(inputs))
  {
    hide InputEntries, InputKeys;
    if inputs != [] {
      InputsListed(inputs[1..]);
      Parts(map[], InputEntries(inputs[0]), InputsEntries(inputs[1..]));
    }
  }

  lemma {:induction false} OutputsListed(outputs: seq<Output>)
    ensures EntryKeys(OutputsEntries(outputs)) == OutputsKeys(outputs) && NoRounds(OutputsEntries(outputs))
  {
    hide OutputEntries, OutputKeys;
    if outputs != [] {
      OutputsListed(outputs[1..]);
      Parts(map[], OutputEntries(outputs[0]), OutputsEntries(outputs[1..]));
    }
  }

  /** Two parts of a list of entries with the keys of theirs. */
  lemma {:induction false} Listed(a: seq<Entry>, ka: seq<Key>, b: seq<Entry>, kb: seq<Key>)
    requires EntryKeys(a) == ka && NoRounds(a) && EntryKeys(b) == kb && NoRounds(b)
    ensures EntryKeys(a + b) == ka + kb && NoRounds(a + b)
  {
    Parts(map[], a, b);
  }

  lemma {:induction false} TransitionListed(t: Transition)
    ensures EntryKeys(TransitionEntries(t)) == TransitionKeys(t) && NoRounds(TransitionEntries(t))
  {
    hide InputsEntries, InputsKeys, OutputsEntries, OutputsKeys;
    InputsListed(t.inputs);
    OutputsListed(t.outputs);
    var ins: seq<Entry>, outs: seq<Entry> := [(InputIds(t.id), Some(Ids(InputIdsOf(t.inputs))))],
                                             [(OutputIds(t.id), Some(Ids(OutputIdsOf(t.outputs))))];
    var last: seq<Entry> := [ (Tpk(t.id), Some(Number(t.tpk))), (ReverseTpk(t.tpk), Some(Blob)), (Tcm(t.id), Some(Number(t.tcm))),
                              (ReverseTcm(t.tcm), Some(Blob)), (Scm(t.id), Some(Blob)) ];
    var lastKeys := [Tpk(t.id), ReverseTpk(t.tpk), Tcm(t.id), ReverseTcm(t.tcm), Scm(t.id)];
    Listed(ins, [InputIds(t.id)], InputsEntries(t.inputs), InputsKeys(t.inputs));
    Listed(outs, [OutputIds(t.id)], OutputsEntries(t.outputs), OutputsKeys(t.outputs));
    Listed(outs + OutputsEntries(t.outputs), [OutputIds(t.id)] + OutputsKeys(t.outputs), last, lastKeys);
    Listed(ins + InputsEntries(t.inputs), [InputIds(t.id)] + InputsKeys(t.inputs), (outs + OutputsEntries(t.outputs)) + last,
           ([OutputIds(t.id)] + OutputsKeys(t.outputs)) + lastKeys);
    Listed([(Locator(t.id), Some(Blob))], [Locator(t.id)],
           (ins + InputsEntries(t.inputs)) + ((outs + OutputsEntries(t.outputs)) + last),
           ([InputIds(t.id)] + InputsKeys(t.inputs)) + (([OutputIds(t.id)] + OutputsKeys(t.outputs)) + lastKeys));
  }

  lemma {:induction false} TransitionsListed(ts: seq<Transition>)
    ensures EntryKeys(TransitionsEntries(ts)) == TransitionsKeys(ts) && NoRounds(TransitionsEntries(ts))
  {
    hide TransitionEntries, TransitionKeys;
    if ts != [] {
      TransitionListed(ts[0]);
      TransitionsListed(ts[1..]);
      Listed([(ReverseExecution(ts[0].id), Some(Blob))], [ReverseExecution(ts[0].id)],
             TransitionEntries(ts[0]), TransitionKeys(ts[0]));
      Listed([(ReverseExecution(ts[0].id), Some(Blob))] + TransitionEntries(ts[0]),
             [ReverseExecution(ts[0].id)] + TransitionKeys(ts[0]), TransitionsEntries(ts[1..]), TransitionsKeys(ts[1..]));
    }
  }

  lemma {:induction false} FeeListed(tx: nat, fee: Transition)
    ensures EntryKeys(FeeEntries(tx, fee)) == FeeKeys(tx, fee) && NoRounds(FeeEntries(tx, fee))
  {
    hide TransitionEntries, TransitionKeys;
    TransitionListed(fee);
    Listed([(Fee(tx), Some(Number(fee.id))), (ReverseFee(fee.id), Some(Blob))], [Fee(tx), ReverseFee(fee.id)],
           TransitionEntries(fee), TransitionKeys(fee));
  }

  lemma {:induction false} FunctionsListed(p: nat, e: nat, functions: seq<nat>)
    ensures forall i :: 0 <= i < |FunctionKeys(p, e, functions)| ==> !FunctionKeys(p, e, functions)[i].Round?
  {
    if functions != [] {
      FunctionsListed(p, e, functions[1..]);
    }
  }

  lemma {:induction false} BodyListed(tx: nat, body: Body)
    ensures EntryKeys(BodyEntries(tx, body)) == BodyKeys(tx, body) && NoRounds(BodyEntries(tx, body))
  {
    hide FeeEntries, FeeKeys, TransitionsEntries, TransitionsKeys, FunctionKeys;
    match body {
      case Deployment(p, e, functions, fee) =>
        var head: seq<Entry> := [ (DeployedProgram(tx), Some(Number(p))), (Edition(p), Some(Number(e))),
          (ReverseDeployment(p, e), Some(Blob)), (Owner(p, e), Some(Blob)), (ProgramAt(p, e), Some(Ids(functions))) ];
        FeeListed(tx, fee);
        FunctionsListed(p, e, functions);
        Listed(Blobs(FunctionKeys(p, e, functions)), FunctionKeys(p, e, functions), FeeEntries(tx, fee), FeeKeys(tx, fee));
        Listed(head, [DeployedProgram(tx), Edition(p), ReverseDeployment(p, e), Owner(p, e), ProgramAt(p, e)],
               Blobs(FunctionKeys(p, e, functions)) + FeeEntries(tx, fee), FunctionKeys(p, e, functions) + FeeKeys(tx, fee));
      case Executed(ts, fee) =>
        var feeEntries := match fee case Some(t) => FeeEntries(tx, t) case None => [];
        var feeKeys := match fee case Some(t) => FeeKeys(tx, t) case None => [];
        if fee.Some? {
          FeeListed(tx, fee.value);
        }
        TransitionsListed(ts);
        Listed([(Inclusion(tx), Some(Blob))], [Inclusion(tx)], feeEntries, feeKeys);
        Listed(TransitionsEntries(ts), TransitionsKeys(ts), [(Inclusion(tx), Some(Blob))] + feeEntries, [Inclusion(tx)] + feeKeys);
        Listed([(Execution(tx), Some(Transitions(TransitionIdsOf(ts), fee.Some?)))], [Execution(tx)],
               TransitionsEntries(ts) + ([(Inclusion(tx), Some(Blob))] + feeEntries),
               TransitionsKeys(ts) + ([Inclusion(tx)] + feeKeys));
      case FeeOnly(fee) => FeeListed(tx, fee);
    }
  }

  lemma {:induction false} TxsListed(txs: seq<Transaction>)
    ensures EntryKeys(TxsEntries(txs)) == TxsKeys(txs) && NoRounds(TxsEntries(txs))
  {
    hide BodyEntries, BodyKeys;
    if txs != [] {
      var tx := txs[0];
      BodyListed(tx.id, tx.body);
      TxsListed(txs[1..]);
      Listed([(TxKind(tx.id), Some(KindOf(KindOfBody(tx.body))))], [TxKind(tx.id)],
             BodyEntries(tx.id, tx.body), BodyKeys(tx.id, tx.body));
      Listed([(Confirmed(tx.id), Some(ConfirmedAs(tx.rejection)))], [Confirmed(tx.id)],
             [(TxKind(tx.id), Some(KindOf(KindOfBody(tx.body))))] + BodyEntries(tx.id, tx.body),
             [TxKind(tx.id)] + BodyKeys(tx.id, tx.body));
      Listed(TxEntries(tx), [Confirmed(tx.id)] + ([TxKind(tx.id)] + BodyKeys(tx.id, tx.body)),
             TxsEntries(txs[1..]), TxsKeys(txs[1..]));
    }
  }

  lemma {:induction false} RejectionsListed(rejections: seq<Rejection>)
    ensures forall i :: 0 <= i < |RejectionsKeys(rejections)| ==> !RejectionsKeys(rejections)[i].Round?
  {
    if rejections != [] {
      RejectionsListed(rejections[1..]);
    }
  }

  lemma {:induction false} TailListed(b: Block)
    ensures EntryKeys(TailEntries(b)) == TailKeys(b) && NoRounds(TailEntries(b))
  {
    hide TxsEntries, TxsKeys, KeyEach, RejectionsKeys, RejectionsOf;
    var aborted := KeyEach(b.abortedTxs, (tx: nat) => RejectedOrAborted(tx));
    var rejected := RejectionsKeys(RejectionsOf(b.txs));
    KeyEachRounds(b.abortedTxs, (tx: nat) => RejectedOrAborted(tx));
    RejectionsListed(RejectionsOf(b.txs));
    TxsListed(b.txs);
    Listed(Blobs(rejected), rejected, TxsEntries(b.txs), TxsKeys(b.txs));
    Listed(Blobs(aborted), aborted, Blobs(rejected) + TxsEntries(b.txs), rejected + TxsKeys(b.txs));
    Listed([(Transactions(b.hash), Some(Ids(TxIdsOf(b.txs)))), (AbortedTransactions(b.hash), Some(Ids(b.abortedTxs)))],
           [Transactions(b.hash), AbortedTransactions(b.hash)],
           Blobs(aborted) + (Blobs(rejected) + TxsEntries(b.txs)), aborted + (rejected + TxsKeys(b.txs)));
  }

  lemma {:induction false} ContentListed(b: Block)
    ensures EntryKeys(ContentEntries(b)) == ContentKeys(b) && NoRounds(ContentEntries(b))
  {
    hide TailEntries, TailKeys, KeyEach, HeadEntries, HeadKeys;
    var abortedSolutions := KeyEach(b.abortedSolutions, (id: nat) => AbortedSolutionHeight(id));
    var solutions := KeyEach(b.solutions, (id: nat) => SolutionId(id));
    var certificates := KeyEach(b.certificates, (id: nat) => Certificate(id));
    KeyEachRounds(b.abortedSolutions, (id: nat) => AbortedSolutionHeight(id));
    KeyEachRounds(b.solutions, (id: nat) => SolutionId(id));
    KeyEachRounds(b.certificates, (id: nat) => Certificate(id));
    TailListed(b);
    Listed(Blobs(abortedSolutions), abortedSolutions, TailEntries(b), TailKeys(b));
    Listed([(AbortedSolutions(b.hash), Some(Ids(b.abortedSolutions)))], [AbortedSolutions(b.hash)],
           Blobs(abortedSolutions) + TailEntries(b), abortedSolutions + TailKeys(b));
    Listed(Blobs(solutions), solutions, SolutionEntries(b), SolutionKeys(b));
    Listed([(Ratifications(b.hash), Some(Blob)), (Solutions(b.hash), Some(Ids(b.solutions)))],
           [Ratifications(b.hash), Solutions(b.hash)], Blobs(solutions) + SolutionEntries(b), solutions + SolutionKeys(b));
    Listed(Blobs(certificates), certificates, MiddleEntries(b), MiddleKeys(b));
    Listed(HeadEntries(b), HeadKeys(b), Blobs(certificates) + MiddleEntries(b), certificates + MiddleKeys(b));
  }

  lemma {:induction false} BlockListed(b: Block)
    ensures EntryKeys(BlockEntries(b)) == BlockKeys(b)
  {
    hide ContentEntries, ContentKeys, RoundEntries, RoundKeys;
    ContentListed(b);
    Parts(map[], RoundEntries(b.height, b.first, b.last), [(Committee(b.height), Some(Number(b.start)))]);
    Parts(map[], ContentEntries(b), RoundEntries(b.height, b.first, b.last) + [(Committee(b.height), Some(Number(b.start)))]);
  }

  // ---------- A store with these entries holds the block ----------

  lemma {:induction false} EntriesHoldInputs(db: Db, inputs: seq<Input>)
    requires HoldsEntries(db, InputsEntries(inputs))
    ensures HoldsInputs(db, inputs)
  {
    if inputs != [] {
      Parts(db, InputEntries(inputs[0]), InputsEntries(inputs[1..]));
      EntriesHoldInput(db, inputs[0]);
      EntriesHoldInputs(db, inputs[1..]);
    }
  }

  lemma {:induction false} EntriesHoldInput(db: Db, i: Input)
    requires HoldsEntries(db, InputEntries(i))
    ensures HoldsInput(db, i)
  {
    var es := InputEntries(i);
    assert es[|es| - 2] == (InputRecord(i.id), match i.tag case Some(tag) => Some(Number(tag)) case None => None);
    assert HoldsEntry(db, es[|es| - 2]);
  }

  lemma {:induction false} EntriesHoldOutputs(db: Db, outputs: seq<Output>)
    requires HoldsEntries(db, OutputsEntries(outputs))
    ensures HoldsOutputs(db, outputs)
  {
    if outputs != [] {
      Parts(db, OutputEntries(outputs[0]), OutputsEntries(outputs[1..]));
      EntriesHoldOutput(db, outputs[0]);
      EntriesHoldOutputs(db, outputs[1..]);
    }
  }

  lemma {:induction false} EntriesHoldOutput(db: Db, o: Output)
    requires HoldsEntries(db, OutputEntries(o))
    ensures HoldsOutput(db, o)
  {
    var es := OutputEntries(o);
    assert es[|es| - 3] == (OutputRecord(o.id), if o.nonce.Some? then Some(RecordWith(o.nonce)) else None);
    assert HoldsEntry(db, es[|es| - 3]);
  }

  lemma {:induction false} EntriesHoldTransition(db: Db, t: Transition)
    requires HoldsEntries(db, TransitionEntries(t))
    ensures HoldsTransition(db, t)
  {
    hide InputsEntries, OutputsEntries, HoldsInputs, HoldsOutputs;
    var ins: seq<Entry>, outs: seq<Entry> := [(InputIds(t.id), Some(Ids(InputIdsOf(t.inputs))))],
                                             [(OutputIds(t.id), Some(Ids(OutputIdsOf(t.outputs))))];
    var last: seq<Entry> := [ (Tpk(t.id), Some(Number(t.tpk))), (ReverseTpk(t.tpk), Some(Blob)), (Tcm(t.id), Some(Number(t.tcm))),
                              (ReverseTcm(t.tcm), Some(Blob)), (Scm(t.id), Some(Blob)) ];
    Parts(db, [(Locator(t.id), Some(Blob))], (ins + InputsEntries(t.inputs)) + ((outs + OutputsEntries(t.outputs)) + last));
    Parts(db, ins + InputsEntries(t.inputs), (outs + OutputsEntries(t.outputs)) + last);
    Parts(db, ins, InputsEntries(t.inputs));
    Parts(db, outs + OutputsEntries(t.outputs), last);
    Parts(db, outs, OutputsEntries(t.outputs));
    assert HoldsEntry(db, ins[0]) && HoldsEntry(db, outs[0]) && HoldsEntry(db, last[0]) && HoldsEntry(db, last[2]);
    EntriesHoldInputs(db, t.inputs);
    EntriesHoldOutputs(db, t.outputs);
  }

  lemma {:induction false} EntriesHoldTransitions(db: Db, ts: seq<Transition>)
    requires HoldsEntries(db, TransitionsEntries(ts))
    ensures HoldsTransitions(db, ts)
  {
    hide TransitionEntries, HoldsTransition;
    if ts != [] {
      Parts(db, [(ReverseExecution(ts[0].id), Some(Blob))] + TransitionEntries(ts[0]), TransitionsEntries(ts[1..]));
      Parts(db, [(ReverseExecution(ts[0].id), Some(Blob))], TransitionEntries(ts[0]));
      EntriesHoldTransition(db, ts[0]);
      EntriesHoldTransitions(db, ts[1..]);
    }
  }

  lemma {:induction false} EntriesHoldFee(db: Db, tx: nat, fee: Transition)
    requires HoldsEntries(db, FeeEntries(tx, fee))
    ensures HoldsFee(db, tx, fee)
  {
    hide TransitionEntries, HoldsTransition;
    var head: seq<Entry> := [(Fee(tx), Some(Number(fee.id))), (ReverseFee(fee.id), Some(Blob))];
    Parts(db, head, TransitionEntries(fee));
    assert HoldsEntry(db, head[0]);
    EntriesHoldTransition(db, fee);
  }

  lemma {:induction false} EntriesHoldBody(db: Db, tx: nat, body: Body)
    requires HoldsEntries(db, BodyEntries(tx, body))
    ensures HoldsBody(db, tx, body)
  {
    hide FeeEntries, TransitionsEntries, FunctionKeys, HoldsFee, HoldsTransitions;
    match body {
      case Deployment(p, e, functions, fee) =>
        var head: seq<Entry> := [ (DeployedProgram(tx), Some(Number(p))), (Edition(p), Some(Number(e))),
          (ReverseDeployment(p, e), Some(Blob)), (Owner(p, e), Some(Blob)), (ProgramAt(p, e), Some(Ids(functions))) ];
        Parts(db, head, Blobs(FunctionKeys(p, e, functions)) + FeeEntries(tx, fee));
        Parts(db, Blobs(FunctionKeys(p, e, functions)), FeeEntries(tx, fee));
        assert HoldsEntry(db, head[0]) && HoldsEntry(db, head[1]) && HoldsEntry(db, head[4]);
        EntriesHoldFee(db, tx, fee);
      case Executed(ts, fee) =>
        var feeEntries := match fee case Some(t) => FeeEntries(tx, t) case None => [];
        var head: seq<Entry> := [(Execution(tx), Some(Transitions(TransitionIdsOf(ts), fee.Some?)))];
        Parts(db, head, TransitionsEntries(ts) + ([(Inclusion(tx), Some(Blob))] + feeEntries));
        Parts(db, TransitionsEntries(ts), [(Inclusion(tx), Some(Blob))] + feeEntries);
        Parts(db, [(Inclusion(tx), Some(Blob))], feeEntries);
        assert HoldsEntry(db, head[0]);
        EntriesHoldTransitions(db, ts);
        if fee.Some? {
          EntriesHoldFee(db, tx, fee.value);
        }
      case FeeOnly(fee) => EntriesHoldFee(db, tx, fee);
    }
  }

  lemma {:induction false} EntriesHoldTxs(db: Db, txs: seq<Transaction>)
    requires HoldsEntries(db, TxsEntries(txs))
    ensures HoldsTxs(db, txs)
  {
    hide BodyEntries, HoldsBody;
    if txs != [] {
      var tx := txs[0];
      var confirmed: seq<Entry> := [(Confirmed(tx.id), Some(ConfirmedAs(tx.rejection)))];
      var kind: seq<Entry> := [(TxKind(tx.id), Some(KindOf(KindOfBody(tx.body))))];
      Parts(db, TxEntries(tx), TxsEntries(txs[1..]));
      Parts(db, confirmed, kind + BodyEntries(tx.id, tx.body));
      Parts(db, kind, BodyEntries(tx.id, tx.body));
      assert HoldsEntry(db, confirmed[0]) && HoldsEntry(db, kind[0]);
      EntriesHoldBody(db, tx.id, tx.body);
      EntriesHoldTxs(db, txs[1..]);
    }
  }

  lemma {:induction false} EntriesHoldTail(db: Db, b: Block)
    requires HoldsEntries(db, TailEntries(b))
    ensures HoldsTxs(db, b.txs) && Stored(db, Transactions(b.hash), Ids(TxIdsOf(b.txs)))
    ensures ListStored(db, AbortedTransactions(b.hash), b.abortedTxs)
  {
    hide TxsEntries, KeyEach, RejectionsKeys, RejectionsOf, HoldsTxs;
    var head: seq<Entry> := [ (Transactions(b.hash), Some(Ids(TxIdsOf(b.txs)))),
                              (AbortedTransactions(b.hash), Some(Ids(b.abortedTxs))) ];
    var aborted := Blobs(KeyEach(b.abortedTxs, (tx: nat) => RejectedOrAborted(tx)));
    var rejected := Blobs(RejectionsKeys(RejectionsOf(b.txs)));
    Parts(db, head, aborted + (rejected + TxsEntries(b.txs)));
    Parts(db, aborted, rejected + TxsEntries(b.txs));
    Parts(db, rejected, TxsEntries(b.txs));
    assert HoldsEntry(db, head[0]) && HoldsEntry(db, head[1]);
    EntriesHoldTxs(db, b.txs);
  }

  lemma {:induction false} EntriesHoldHead(db: Db, b: Block)
    requires HoldsEntries(db, HeadEntries(b))
    ensures Stored(db, Id(b.height), Number(b.hash)) && Stored(db, StateRoot(b.height), Number(b.root))
    ensures HoldsAuthority(db, b)
  {
    var head := HeadEntries(b);
    assert HoldsEntry(db, head[0]) && HoldsEntry(db, head[2]) && HoldsEntry(db, head[5]);
  }

  lemma {:induction false} EntriesHoldMiddle(db: Db, b: Block)
    requires HoldsEntries(db, MiddleEntries(b))
    ensures HoldsTxs(db, b.txs) && Stored(db, Transactions(b.hash), Ids(TxIdsOf(b.txs)))
    ensures ListStored(db, AbortedTransactions(b.hash), b.abortedTxs)
    ensures ListStored(db, AbortedSolutions(b.hash), b.abortedSolutions) && Stored(db, Solutions(b.hash), Ids(b.solutions))
  {
    hide TailEntries, KeyEach, HoldsTxs, TxIdsOf;
    var middle: seq<Entry> := [(Ratifications(b.hash), Some(Blob)), (Solutions(b.hash), Some(Ids(b.solutions)))];
    var solutions := Blobs(KeyEach(b.solutions, (id: nat) => SolutionId(id)));
    var list: seq<Entry> := [(AbortedSolutions(b.hash), Some(Ids(b.abortedSolutions)))];
    var abortedSolutions := Blobs(KeyEach(b.abortedSolutions, (id: nat) => AbortedSolutionHeight(id)));
    Parts(db, middle, solutions + SolutionEntries(b));
    Parts(db, solutions, SolutionEntries(b));
    Parts(db, list, abortedSolutions + TailEntries(b));
    Parts(db, abortedSolutions, TailEntries(b));
    assert HoldsEntry(db, middle[1]) && HoldsEntry(db, list[0]);
    EntriesHoldTail(db, b);
  }

  lemma {:induction false} EntriesHoldContent(db: Db, b: Block)
    requires HoldsEntries(db, ContentEntries(b))
    ensures HoldsContent(db, b)
  {
    hide HeadEntries, MiddleEntries, KeyEach, HoldsTxs, TxIdsOf, Stored, ListStored, HoldsAuthority;
    var certificates := Blobs(KeyEach(b.certificates, (id: nat) => Certificate(id)));
    Parts(db, HeadEntries(b), certificates + MiddleEntries(b));
    Parts(db, certificates, MiddleEntries(b));
    EntriesHoldHead(db, b);
    EntriesHoldMiddle(db, b);
  }

  // ---------- Building the store ----------

  /** The store with just these entries. */
  function Store(es: seq<Entry>): Db {
    if es == [] then map[]
    else
      match es[0].1
      case Some(v) => Store(es[1..])[es[0].0 := v]
      case None => Store(es[1..]) - {es[0].0}
  }

  lemma {:induction false} StoreHolds(es: seq<Entry>)
    requires NoRepeats(EntryKeys(es))
    ensures HoldsEntries(Store(es), es) && forall k :: k in Store(es) ==> k in EntryKeys(es)
  {
    if es != [] {
      var rest := es[1..];
      assert EntryKeys(es)[0] == es[0].0 && EntryKeys(es)[1..] == EntryKeys(rest);
      assert forall i, j :: 0 <= i < j < |rest| ==> EntryKeys(rest)[i] == EntryKeys(es)[i + 1] && EntryKeys(rest)[j] == EntryKeys(es)[j + 1];
      StoreHolds(rest);
      forall i | 0 <= i < |es| ensures HoldsEntry(Store(es), es[i]) {
        if i > 0 {
          assert HoldsEntry(Store(rest), rest[i - 1]);
          assert EntryKeys(es)[i] != EntryKeys(es)[0];
        }
      }
    }
  }

  function StoreOf(b: Block): Db {
    Store(BlockEntries(b))
  }

  /** All blocks in one store. */
  ghost function StoreOfChain(blocks: map<nat, Block>): Db {
    var all := set h, k | h in blocks && k in StoreOf(blocks[h]) :: k;
    map k | k in all :: ValueIn(blocks, k)
  }

  ghost function ValueIn(blocks: map<nat, Block>, k: Key): Value
    requires exists h :: h in blocks && k in StoreOf(blocks[h])
  {
    var h :| h in blocks && k in StoreOf(blocks[h]);
    StoreOf(blocks[h])[k]
  }

  /** Blocks at their heights that share no entry and whose rounds lie around their start. */
  ghost predicate Separate(blocks: map<nat, Block>) {
    && Apart(blocks)
    && forall h :: h in blocks ==>
        blocks[h].height == h && NoRepeats(BlockKeys(blocks[h]))
        && blocks[h].first <= blocks[h].start < blocks[h].last && (blocks[h].start == 0 || blocks[h].first > 0)
  }

  lemma {:induction false} OwnStore(b: Block)
    requires NoRepeats(BlockKeys(b))
    ensures HoldsEntries(StoreOf(b), BlockEntries(b)) && forall k :: k in StoreOf(b) ==> k in BlockKeys(b)
  {
    hide BlockEntries, BlockKeys, Store;
    BlockListed(b);
    StoreHolds(BlockEntries(b));
  }

  /** In the store of a chain each block finds what its own store has. */
  lemma {:induction false} SameAsOwn(blocks: map<nat, Block>, h: nat, k: Key)
    requires Separate(blocks) && h in blocks && k in BlockKeys(blocks[h])
    ensures k in StoreOfChain(blocks) <==> k in StoreOf(blocks[h])
    ensures k in StoreOf(blocks[h]) ==> StoreOfChain(blocks)[k] == StoreOf(blocks[h])[k]
  {
    hide BlockKeys, StoreOf;
    forall h' | h' in blocks && k in StoreOf(blocks[h']) ensures h' == h {
      OwnStore(blocks[h']);
    }
  }

  lemma {:induction false} ChainHoldsEntries(blocks: map<nat, Block>, h: nat)
    requires Separate(blocks) && h in blocks
    ensures HoldsEntries(StoreOfChain(blocks), BlockEntries(blocks[h]))
  {
    hide BlockKeys, StoreOf, StoreOfChain, BlockEntries, Separate;
    var b := blocks[h];
    var es := BlockEntries(b);
    SeparateAt(blocks, h);
    OwnStore(b);
    BlockListed(b);
    forall i | 0 <= i < |es| ensures HoldsEntry(StoreOfChain(blocks), es[i]) {
      assert HoldsEntry(StoreOf(b), es[i]);
      assert EntryKeys(es)[i] == es[i].0;
      SameAsOwn(blocks, h, es[i].0);
    }
  }

  lemma {:induction false} SeparateAt(blocks: map<nat, Block>, h: nat)
    requires Separate(blocks) && h in blocks
    ensures NoRepeats(BlockKeys(blocks[h])) && blocks[h].height == h
    ensures blocks[h].first <= blocks[h].start < blocks[h].last && (blocks[h].start == 0 || blocks[h].first > 0)
  {
  }

  lemma {:induction false} RoundListed(height: nat, first: nat, last: nat, r: nat)
    requires first <= r < last
    ensures |RoundEntries(height, first, last)| == last - first
    ensures RoundEntries(height, first, last)[r - first] == (Round(r), Some(Number(height)))
    decreases last - first
  {
    if first + 1 < last {
      RoundListed(height, first + 1, last, if r > first then r else first + 1);
    }
  }

  /** A round in the store of a block is one of its rounds, with its height. */
  lemma {:induction false} RoundInBlock(b: Block, r: nat)
    requires NoRepeats(BlockKeys(b)) && Round(r) in StoreOf(b)
    ensures b.first <= r < b.last && StoreOf(b)[Round(r)] == Number(b.height)
  {
    hide ContentEntries, StoreOf, RoundEntries, RoundKeys, BlockKeys;
    OwnStore(b);
    BlockListed(b);
    ContentListed(b);
    var content, rounds := ContentEntries(b), RoundEntries(b.height, b.first, b.last);
    var es := BlockEntries(b);
    forall j | 0 <= j < |content| ensures EntryKeys(es)[j] != Round(r) {
      assert es[j] == content[j];
    }
    var i :| 0 <= i < |es| && EntryKeys(es)[i] == Round(r);
    assert HoldsEntry(StoreOf(b), es[i]);
    assert es[i] == (rounds + [(Committee(b.height), Some(Number(b.start)))])[i - |content|];
    assert EntryKeys(rounds)[i - |content|] == Round(r);
    RoundIn(b.first, b.last, r);
  }

  lemma {:induction false} ChainHoldsRounds(blocks: map<nat, Block>, h: nat)
    requires Separate(blocks) && h in blocks
    ensures HoldsRounds(StoreOfChain(blocks), h, blocks[h].first, blocks[h].last)
    ensures Stored(StoreOfChain(blocks), Committee(h), Number(blocks[h].start))
  {
    hide StoreOf, ContentEntries, BlockKeys, RoundEntries, Separate, StoreOfChain;
    var db, b := StoreOfChain(blocks), blocks[h];
    var rounds: seq<Entry>, committee: seq<Entry> := RoundEntries(b.height, b.first, b.last), [(Committee(b.height), Some(Number(b.start)))];
    SeparateAt(blocks, h);
    ChainHoldsEntries(blocks, h);
    Parts(db, ContentEntries(b), rounds + committee);
    Parts(db, rounds, committee);
    assert HoldsEntry(db, committee[0]);
    forall r: nat ensures Stored(db, Round(r), Number(h)) <==> b.first <= r < b.last {
      if b.first <= r < b.last {
        RoundListed(h, b.first, b.last, r);
        assert HoldsEntry(db, rounds[r - b.first]);
      }
      if Stored(db, Round(r), Number(h)) {
        StoredRound(blocks, h, r);
      }
    }
  }

  lemma {:induction false} StoredRound(blocks: map<nat, Block>, h: nat, r: nat)
    requires Separate(blocks) && Stored(StoreOfChain(blocks), Round(r), Number(h))
    ensures h in blocks && blocks[h].first <= r < blocks[h].last
  {
    hide StoreOf, BlockKeys;
    var h' :| h' in blocks && Round(r) in StoreOf(blocks[h']);
    RoundInBlock(blocks[h'], r);
    OwnStore(blocks[h']);
    SameAsOwn(blocks, h', Round(r));
  }

  lemma {:induction false} ChainHolds(blocks: map<nat, Block>, h: nat)
    requires Separate(blocks) && h in blocks
    ensures Holds(StoreOfChain(blocks), blocks[h])
  {
    hide StoreOfChain, ContentEntries, RoundEntries, HoldsContent, HoldsEntries, HoldsRounds, Separate;
    var db, b := StoreOfChain(blocks), blocks[h];
    SeparateAt(blocks, h);
    ChainHoldsEntries(blocks, h);
    Parts(db, ContentEntries(b), RoundEntries(b.height, b.first, b.last) + [(Committee(b.height), Some(Number(b.start)))]);
    EntriesHoldContent(db, b);
    ChainHoldsRounds(blocks, h);
  }

  lemma {:induction false} EntryHasBlock(blocks: map<nat, Block>, k: Key)
    requires Separate(blocks) && k in StoreOfChain(blocks)
    ensures exists h :: h in blocks && k in BlockKeys(blocks[h])
  {
    hide StoreOf, BlockKeys;
    var h :| h in blocks && k in StoreOf(blocks[h]);
    OwnStore(blocks[h]);
  }

  /**
   For any blocks at their heights that share no entry there is a store that
   holds the chain, and every entry of it belongs to a block.
   */
  lemma {:induction false} ChainsExist(blocks: map<nat, Block>)
    requires Separate(blocks)
    ensures Chain(StoreOfChain(blocks), blocks)
    ensures forall k :: k in StoreOfChain(blocks) ==> exists h :: h in blocks && k in BlockKeys(blocks[h])
  {
    hide StoreOfChain, BlockKeys, Holds;
    forall h | h in blocks ensures Holds(StoreOfChain(blocks), blocks[h]) {
      ChainHolds(blocks, h);
    }
    forall k | k in StoreOfChain(blocks) ensures exists h :: h in blocks && k in BlockKeys(blocks[h]) {
      EntryHasBlock(blocks, k);
    }
  }
}
