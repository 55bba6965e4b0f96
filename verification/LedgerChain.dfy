/**
 Blocks and the entries they own.  A store that holds a chain of blocks, no two
 of which share an entry, can be rewound: removing heights in any order, one at
 a time or interleaved, deletes the entries of exactly those heights.
 */
module LedgerChain {
  import opened Wrappers
  import opened Ledger

  // ---------- Blocks ----------

  /** A record input carries a tag. */
  datatype Input = Input(id: nat, tag: Option<nat>)

  /** A record output may carry a nonce. */
  datatype Output = Output(id: nat, nonce: Option<nat>)

  datatype Transition = Transition(id: nat, tpk: nat, tcm: nat, inputs: seq<Input>, outputs: seq<Output>)

  datatype Body =
    | Deployment(program: nat, edition: nat, functions: seq<nat>, fee: Transition)
    | Executed(transitions: seq<Transition>, optionalFee: Option<Transition>)
    | FeeOnly(fee: Transition)

  datatype Transaction = Transaction(id: nat, rejection: Option<Rejection>, body: Body)

  /** The rounds of a block are those from `first` up to but not including `last`. */
  datatype Block = Block(
    height: nat, hash: nat, root: nat, certificates: seq<nat>, solutions: seq<nat>, abortedSolutions: seq<nat>,
    abortedTxs: seq<nat>, txs: seq<Transaction>, start: nat, first: nat, last: nat)

  // ---------- The entries of a block ----------

  function KeyEach(ids: seq<nat>, key: nat -> Key): seq<Key> {
    if ids == [] then [] else [key(ids[0])] + KeyEach(ids[1..], key)
  }

  function InputKeys(i: Input): seq<Key> {
    [ReverseInput(i.id)]
    + ((match i.tag case Some(tag) => [RecordTag(tag)] case None => [])
    + [InputConstant(i.id), InputPublic(i.id), InputPrivate(i.id), InputRecord(i.id), InputExternal(i.id)])
  }

  function InputsKeys(inputs: seq<Input>): seq<Key> {
    if inputs == [] then [] else InputKeys(inputs[0]) + InputsKeys(inputs[1..])
  }

  function OutputKeys(o: Output): seq<Key> {
    [ReverseOutput(o.id)]
    + ((match o.nonce case Some(nonce) => [RecordNonce(nonce)] case None => [])
    + [OutputConstant(o.id), OutputPublic(o.id), OutputPrivate(o.id), OutputRecord(o.id), OutputExternal(o.id),
       OutputFuture(o.id)])
  }

  function OutputsKeys(outputs: seq<Output>): seq<Key> {
    if outputs == [] then [] else OutputKeys(outputs[0]) + OutputsKeys(outputs[1..])
  }

  function TransitionKeys(t: Transition): seq<Key> {
    [Locator(t.id)] + (([InputIds(t.id)] + InputsKeys(t.inputs)) + (([OutputIds(t.id)] + OutputsKeys(t.outputs))
    + [Tpk(t.id), ReverseTpk(t.tpk), Tcm(t.id), ReverseTcm(t.tcm), Scm(t.id)]))
  }

  function TransitionsKeys(ts: seq<Transition>): seq<Key> {
    if ts == [] then [] else ([ReverseExecution(ts[0].id)] + TransitionKeys(ts[0])) + TransitionsKeys(ts[1..])
  }

  function FeeKeys(tx: nat, fee: Transition): seq<Key> {
    [Fee(tx), ReverseFee(fee.id)] + TransitionKeys(fee)
  }

  function FunctionKeys(program: nat, edition: nat, functions: seq<nat>): seq<Key> {
    if functions == [] then []
    else
      [VerifyingKey(program, functions[0], edition), FunctionCertificate(program, functions[0], edition)]
      + FunctionKeys(program, edition, functions[1..])
  }

  function BodyKeys(tx: nat, body: Body): seq<Key> {
    match body
    case Deployment(p, e, functions, fee) =>
      [DeployedProgram(tx), Edition(p), ReverseDeployment(p, e), Owner(p, e), ProgramAt(p, e)]
      + (FunctionKeys(p, e, functions) + FeeKeys(tx, fee))
    case Executed(transitions, fee) =>
      [Execution(tx)] + (TransitionsKeys(transitions)
      + ([Inclusion(tx)] + match fee case Some(t) => FeeKeys(tx, t) case None => []))
    case FeeOnly(fee) => FeeKeys(tx, fee)
  }

  function TxsKeys(txs: seq<Transaction>): seq<Key> {
    if txs == [] then []
    else ([Confirmed(txs[0].id)] + ([TxKind(txs[0].id)] + BodyKeys(txs[0].id, txs[0].body))) + TxsKeys(txs[1..])
  }

  function RejectionKeys(rejection: Rejection): seq<Key> {
    [RejectedOrAborted(rejection.unconfirmed)]
    + match rejection.rejected case Some(id) => [RejectedObject(id)] case None => []
  }

  function RejectionsKeys(rejections: seq<Rejection>): seq<Key> {
    if rejections == [] then [] else RejectionKeys(rejections[0]) + RejectionsKeys(rejections[1..])
  }

  function RejectionsOf(txs: seq<Transaction>): seq<Rejection> {
    if txs == [] then []
    else (match txs[0].rejection case Some(r) => [r] case None => []) + RejectionsOf(txs[1..])
  }

  function RoundKeys(first: nat, last: nat): seq<Key>
    decreases last - first
  {
    if first >= last then [] else [Round(first)] + RoundKeys(first + 1, last)
  }

  function HeadKeys(b: Block): seq<Key> {
    [StateRoot(b.height), ReverseStateRoot(b.root), Id(b.height), ReverseId(b.hash), Header(b.hash), Authority(b.hash)]
  }

  function TailKeys(b: Block): seq<Key> {
    [Transactions(b.hash), AbortedTransactions(b.hash)]
    + (KeyEach(b.abortedTxs, (tx: nat) => RejectedOrAborted(tx))
    + (RejectionsKeys(RejectionsOf(b.txs)) + TxsKeys(b.txs)))
  }

  function SolutionKeys(b: Block): seq<Key> {
    [AbortedSolutions(b.hash)] + (KeyEach(b.abortedSolutions, (id: nat) => AbortedSolutionHeight(id)) + TailKeys(b))
  }

  function MiddleKeys(b: Block): seq<Key> {
    [Ratifications(b.hash), Solutions(b.hash)] + (KeyEach(b.solutions, (id: nat) => SolutionId(id)) + SolutionKeys(b))
  }

  function ContentKeys(b: Block): seq<Key> {
    HeadKeys(b) + (KeyEach(b.certificates, (id: nat) => Certificate(id)) + MiddleKeys(b))
  }

  /** All entries of a block: its content, the rounds of its height and its committee. */
  function BlockKeys(b: Block): seq<Key> {
    ContentKeys(b) + (RoundKeys(b.first, b.last) + [Committee(b.height)])
  }

  // ---------- A store that holds a block ----------

  function InputIdsOf(inputs: seq<Input>): seq<nat> {
    if inputs == [] then [] else [inputs[0].id] + InputIdsOf(inputs[1..])
  }

  function OutputIdsOf(outputs: seq<Output>): seq<nat> {
    if outputs == [] then [] else [outputs[0].id] + OutputIdsOf(outputs[1..])
  }

  function TransitionIdsOf(ts: seq<Transition>): seq<nat> {
    if ts == [] then [] else [ts[0].id] + TransitionIdsOf(ts[1..])
  }

  function TxIdsOf(txs: seq<Transaction>): seq<nat> {
    if txs == [] then [] else [txs[0].id] + TxIdsOf(txs[1..])
  }

  predicate Stored(db: Db, key: Key, value: Value) {
    key in db && db[key] == value
  }

  /** A record is stored with its tag, any other input has no such entry. */
  predicate HoldsInput(db: Db, i: Input) {
    if i.tag.Some? then Stored(db, InputRecord(i.id), Number(i.tag.value)) else InputRecord(i.id) !in db
  }

  predicate HoldsInputs(db: Db, inputs: seq<Input>) {
    inputs == [] || (HoldsInput(db, inputs[0]) && HoldsInputs(db, inputs[1..]))
  }

  /** A record is stored with or without a body that has a nonce, any other output has no such entry. */
  predicate HoldsOutput(db: Db, o: Output) {
    if o.nonce.Some? then Stored(db, OutputRecord(o.id), RecordWith(o.nonce))
    else OutputRecord(o.id) !in db || db[OutputRecord(o.id)] == RecordWith(None)
  }

  predicate HoldsOutputs(db: Db, outputs: seq<Output>) {
    outputs == [] || (HoldsOutput(db, outputs[0]) && HoldsOutputs(db, outputs[1..]))
  }

  predicate HoldsTransition(db: Db, t: Transition) {
    && Stored(db, Tpk(t.id), Number(t.tpk)) && Stored(db, Tcm(t.id), Number(t.tcm))
    && Stored(db, InputIds(t.id), Ids(InputIdsOf(t.inputs))) && HoldsInputs(db, t.inputs)
    && Stored(db, OutputIds(t.id), Ids(OutputIdsOf(t.outputs))) && HoldsOutputs(db, t.outputs)
  }

  predicate HoldsTransitions(db: Db, ts: seq<Transition>) {
    ts == [] || (HoldsTransition(db, ts[0]) && HoldsTransitions(db, ts[1..]))
  }

  predicate HoldsFee(db: Db, tx: nat, fee: Transition) {
    Stored(db, Fee(tx), Number(fee.id)) && HoldsTransition(db, fee)
  }

  predicate HoldsBody(db: Db, tx: nat, body: Body) {
    match body
    case Deployment(p, e, functions, fee) =>
      && Stored(db, DeployedProgram(tx), Number(p)) && Stored(db, Edition(p), Number(e))
      && Stored(db, ProgramAt(p, e), Ids(functions)) && HoldsFee(db, tx, fee)
    case Executed(ts, fee) =>
      && Stored(db, Execution(tx), Transitions(TransitionIdsOf(ts), fee.Some?))
      && HoldsTransitions(db, ts) && (fee.Some? ==> HoldsFee(db, tx, fee.value))
    case FeeOnly(fee) => HoldsFee(db, tx, fee)
  }

  function KindOfBody(body: Body): Kind {
    match body
    case Deployment(_, _, _, _) => Deploy
    case Executed(_, _) => Execute
    case FeeOnly(_) => PayFee
  }

  predicate HoldsTx(db: Db, tx: Transaction) {
    && Stored(db, Confirmed(tx.id), ConfirmedAs(tx.rejection))
    && Stored(db, TxKind(tx.id), KindOf(KindOfBody(tx.body)))
    && HoldsBody(db, tx.id, tx.body)
  }

  predicate HoldsTxs(db: Db, txs: seq<Transaction>) {
    txs == [] || (HoldsTx(db, txs[0]) && HoldsTxs(db, txs[1..]))
  }

  /** The store maps exactly the rounds of a block to its height. */
  ghost predicate HoldsRounds(db: Db, height: nat, first: nat, last: nat) {
    forall r: nat :: Stored(db, Round(r), Number(height)) <==> first <= r < last
  }

  /** A quorum is stored with the certificates of its subdag, a beacon has none. */
  predicate HoldsAuthority(db: Db, b: Block) {
    Stored(db, Authority(b.hash), Ids(b.certificates)) || (Stored(db, Authority(b.hash), Blob) && b.certificates == [])
  }

  /** A list that need not be stored if it is empty. */
  predicate ListStored(db: Db, key: Key, ids: seq<nat>) {
    Stored(db, key, Ids(ids)) || (key !in db && ids == [])
  }

  predicate HoldsContent(db: Db, b: Block) {
    && Stored(db, Id(b.height), Number(b.hash)) && Stored(db, StateRoot(b.height), Number(b.root))
    && Stored(db, Transactions(b.hash), Ids(TxIdsOf(b.txs))) && HoldsTxs(db, b.txs)
    && Stored(db, Solutions(b.hash), Ids(b.solutions)) && HoldsAuthority(db, b)
    && ListStored(db, AbortedSolutions(b.hash), b.abortedSolutions)
    && ListStored(db, AbortedTransactions(b.hash), b.abortedTxs)
  }

  /** The committee of a block starts in one of its rounds; round 0 can only be the start. */
  ghost predicate HoldsCommittee(db: Db, b: Block) {
    && Stored(db, Committee(b.height), Number(b.start))
    && HoldsRounds(db, b.height, b.first, b.last) && b.first <= b.start < b.last
    && (b.start == 0 || b.first > 0)
  }

  ghost predicate Holds(db: Db, b: Block) {
    HoldsContent(db, b) && HoldsCommittee(db, b)
  }
}
