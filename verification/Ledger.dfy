/**
 The ledger's stores as one key-value map, and the removal of a block as work
 on it: each piece of work deletes one entry or reads what one of the removal
 functions reads first and leaves the work that function does then.
 */
module Ledger {
  import opened Wrappers

  /** The entries of the stores; all ids are numbers. */
  datatype Key =
    // blocks
    | Id(height: nat) | ReverseId(hash: nat) | StateRoot(height: nat) | ReverseStateRoot(root: nat)
    | Header(hash: nat) | Authority(hash: nat) | Certificate(id: nat) | Ratifications(hash: nat)
    | Solutions(hash: nat) | SolutionId(id: nat) | AbortedSolutions(hash: nat) | AbortedSolutionHeight(id: nat)
    | Transactions(hash: nat) | AbortedTransactions(hash: nat) | RejectedOrAborted(tx: nat) | RejectedObject(id: nat)
    | Confirmed(tx: nat)
    // transactions, deployments, executions and fees
    | TxKind(tx: nat)
    | DeployedProgram(tx: nat) | Edition(program: nat) | ReverseDeployment(program: nat, edition: nat)
    | Owner(program: nat, edition: nat) | ProgramAt(program: nat, edition: nat)
    | VerifyingKey(program: nat, fn: nat, edition: nat) | FunctionCertificate(program: nat, fn: nat, edition: nat)
    | Execution(tx: nat) | ReverseExecution(transition: nat) | Inclusion(tx: nat)
    | Fee(tx: nat) | ReverseFee(transition: nat)
    // transitions, inputs and outputs
    | Locator(transition: nat) | Tpk(transition: nat) | ReverseTpk(tpk: nat)
    | Tcm(transition: nat) | ReverseTcm(tcm: nat) | Scm(transition: nat)
    | InputIds(transition: nat) | ReverseInput(input: nat) | InputRecord(input: nat) | RecordTag(tag: nat)
    | InputConstant(input: nat) | InputPublic(input: nat) | InputPrivate(input: nat) | InputExternal(input: nat)
    | OutputIds(transition: nat) | ReverseOutput(output: nat) | OutputRecord(output: nat) | RecordNonce(nonce: nat)
    | OutputConstant(output: nat) | OutputPublic(output: nat) | OutputPrivate(output: nat)
    | OutputExternal(output: nat) | OutputFuture(output: nat)
    // committees
    | Committee(height: nat) | Round(round: nat)

  datatype Kind = Deploy | Execute | PayFee

  /** A rejected transaction: its unconfirmed id and, if any, the id of what was rejected. */
  datatype Rejection = Rejection(unconfirmed: nat, rejected: Option<nat>)

  datatype Value =
    | Number(n: nat)                                      // an id, a hash, a height or a round
    | Ids(ids: seq<nat>)
    | ConfirmedAs(rejection: Option<Rejection>)
    | KindOf(kind: Kind)
    | Transitions(transitions: seq<nat>, hasFee: bool)
    | RecordWith(nonce: Option<nat>)
    | Blob                                                // contents no removal looks at

  type Db = map<Key, Value>

  datatype RemoveError =
    | MissingBlockHash | MissingStateRoot | MissingTransactions | MissingSolutions | MissingConfirmed | MissingAuthority
    | MissingKind | MissingProgramId | MissingEdition | MissingProgram
    | MissingTransitions | MissingFee | MissingCommittee

  // ---------- Reads ----------

  function NumberAt(db: Db, key: Key): Option<nat> {
    if key in db && db[key].Number? then Some(db[key].n) else None
  }

  function IdsAt(db: Db, key: Key): Option<seq<nat>> {
    if key in db && db[key].Ids? then Some(db[key].ids) else None
  }

  /** The nonce of an output that is a record with a plain or encrypted body. */
  function NonceAt(db: Db, output: nat): Option<nat> {
    var key := OutputRecord(output);
    if key in db && db[key].RecordWith? then db[key].nonce else None
  }

  /** A beacon authority has no certificates, a quorum has those of its subdag. */
  function CertificateIds(db: Db, hash: nat): seq<nat> {
    IdsAt(db, Authority(hash)).GetOr([])
  }

  /** The rejections among the confirmed transactions of a block, all of which have to be there. */
  function Rejections(db: Db, txs: seq<nat>): Option<seq<Rejection>> {
    if txs == [] then
      Some([])
    else
      var key := Confirmed(txs[0]);
      if key !in db || !db[key].ConfirmedAs? then
        None
      else
        match Rejections(db, txs[1..])
        case None => None
        case Some(more) => Some((if db[key].rejection.Some? then [db[key].rejection.value] else []) + more)
  }

  // ---------- Work ----------

  datatype Work =
    | Del(key: Key)
    | InputRecordOf(input: nat)
    | OutputRecordOf(output: nat)
    | InputsOf(transition: nat)
    | OutputsOf(transition: nat)
    | TransitionOf(transition: nat)
    | FeeOf(tx: nat)
    | DeploymentOf(tx: nat)
    | ExecutionOf(tx: nat)
    | TransactionOf(tx: nat)
    | BlockAt(height: nat)
    | CommitteeAt(height: nat)
    | EarlierRounds(height: nat, start: nat, round: nat)
    | LaterRounds(height: nat, first: nat, round: nat)

  function DelEach(ids: seq<nat>, key: nat -> Key): seq<Work> {
    if ids == [] then [] else [Del(key(ids[0]))] + DelEach(ids[1..], key)
  }

  function InputsWork(inputs: seq<nat>): seq<Work> {
    if inputs == [] then []
    else [Del(ReverseInput(inputs[0])), InputRecordOf(inputs[0])] + InputsWork(inputs[1..])
  }

  function OutputsWork(outputs: seq<nat>): seq<Work> {
    if outputs == [] then []
    else [Del(ReverseOutput(outputs[0])), OutputRecordOf(outputs[0])] + OutputsWork(outputs[1..])
  }

  function TransitionsWork(transitions: seq<nat>): seq<Work> {
    if transitions == [] then []
    else [Del(ReverseExecution(transitions[0])), TransitionOf(transitions[0])] + TransitionsWork(transitions[1..])
  }

  function FunctionsWork(program: nat, edition: nat, functions: seq<nat>): seq<Work> {
    if functions == [] then []
    else
      [Del(VerifyingKey(program, functions[0], edition)), Del(FunctionCertificate(program, functions[0], edition))]
      + FunctionsWork(program, edition, functions[1..])
  }

  function RejectionsWork(rejections: seq<Rejection>): seq<Work> {
    if rejections == [] then []
    else
      [Del(RejectedOrAborted(rejections[0].unconfirmed))]
      + (if rejections[0].rejected.Some? then [Del(RejectedObject(rejections[0].rejected.value))] else [])
      + RejectionsWork(rejections[1..])
  }

  function TransactionsWork(txs: seq<nat>): seq<Work> {
    if txs == [] then [] else [Del(Confirmed(txs[0])), TransactionOf(txs[0])] + TransactionsWork(txs[1..])
  }

  function KindWork(kind: Kind, tx: nat): Work {
    match kind
    case Deploy => DeploymentOf(tx)
    case Execute => ExecutionOf(tx)
    case PayFee => FeeOf(tx)
  }

  function RoundsWork(first: nat, last: nat): seq<Work>
    decreases last - first
  {
    if first >= last then [] else [Del(Round(first))] + RoundsWork(first + 1, last)
  }

  /** What a removal function reads before it deletes anything of a block. */
  datatype BlockInfo = BlockInfo(
    height: nat, hash: nat, root: nat, txs: seq<nat>, solutions: seq<nat>, abortedSolutions: seq<nat>,
    abortedTxs: seq<nat>, rejections: seq<Rejection>, certificates: seq<nat>)

  function ReadBlock(db: Db, height: nat): Result<BlockInfo, RemoveError> {
    match NumberAt(db, Id(height))
    case None => Err(MissingBlockHash)
    case Some(hash) =>
      match NumberAt(db, StateRoot(height))
      case None => Err(MissingStateRoot)
      case Some(root) =>
        match IdsAt(db, Transactions(hash))
        case None => Err(MissingTransactions)
        case Some(txs) =>
          match IdsAt(db, Solutions(hash))
          case None => Err(MissingSolutions)
          case Some(solutions) =>
            match Rejections(db, txs)
            case None => Err(MissingConfirmed)
            case Some(rejections) =>
              if Authority(hash) !in db then
                Err(MissingAuthority)
              else
                Ok(BlockInfo(height, hash, root, txs, solutions,
                             IdsAt(db, AbortedSolutions(hash)).GetOr([]),
                             IdsAt(db, AbortedTransactions(hash)).GetOr([]),
                             rejections, CertificateIds(db, hash)))
  }

  function BlockHeadWork(b: BlockInfo): seq<Work> {
    [ Del(StateRoot(b.height)), Del(ReverseStateRoot(b.root)), Del(Id(b.height)), Del(ReverseId(b.hash)),
      Del(Header(b.hash)), Del(Authority(b.hash)) ]
  }

  function AfterAbortedTxs(b: BlockInfo): seq<Work> {
    RejectionsWork(b.rejections) + TransactionsWork(b.txs)
  }

  function AfterAbortedSolutions(b: BlockInfo): seq<Work> {
    [Del(Transactions(b.hash)), Del(AbortedTransactions(b.hash))]
    + (DelEach(b.abortedTxs, (tx: nat) => RejectedOrAborted(tx)) + AfterAbortedTxs(b))
  }

  function AfterSolutions(b: BlockInfo): seq<Work> {
    [Del(AbortedSolutions(b.hash))]
    + (DelEach(b.abortedSolutions, (id: nat) => AbortedSolutionHeight(id)) + AfterAbortedSolutions(b))
  }

  function AfterCertificates(b: BlockInfo): seq<Work> {
    [Del(Ratifications(b.hash)), Del(Solutions(b.hash))]
    + (DelEach(b.solutions, (id: nat) => SolutionId(id)) + AfterSolutions(b))
  }

  /** Everything deleted of a block, in the order the program deletes it. */
  function BlockWork(b: BlockInfo): seq<Work> {
    BlockHeadWork(b) + (DelEach(b.certificates, (id: nat) => Certificate(id)) + AfterCertificates(b))
  }

  /** One piece of work that is not a deletion: read, and leave the work that follows. */
  function Expand(db: Db, work: Work): Result<seq<Work>, RemoveError>
    requires !work.Del?
  {
    match work
    case InputRecordOf(i) =>
      Ok((match NumberAt(db, InputRecord(i)) case Some(tag) => [Del(RecordTag(tag))] case None => [])
         + [ Del(InputConstant(i)), Del(InputPublic(i)), Del(InputPrivate(i)), Del(InputRecord(i)), Del(InputExternal(i)) ])
    case OutputRecordOf(o) =>
      Ok((match NonceAt(db, o) case Some(nonce) => [Del(RecordNonce(nonce))] case None => [])
         + [ Del(OutputConstant(o)), Del(OutputPublic(o)), Del(OutputPrivate(o)), Del(OutputRecord(o)),
             Del(OutputExternal(o)), Del(OutputFuture(o)) ])
    case InputsOf(t) =>
      Ok(match IdsAt(db, InputIds(t)) case Some(ids) => [Del(InputIds(t))] + InputsWork(ids) case None => [])
    case OutputsOf(t) =>
      Ok(match IdsAt(db, OutputIds(t)) case Some(ids) => [Del(OutputIds(t))] + OutputsWork(ids) case None => [])
    case TransitionOf(t) =>
      (match (NumberAt(db, Tpk(t)), NumberAt(db, Tcm(t)))
       case (Some(tpk), Some(tcm)) =>
         Ok([ Del(Locator(t)), InputsOf(t), OutputsOf(t), Del(Tpk(t)), Del(ReverseTpk(tpk)),
              Del(Tcm(t)), Del(ReverseTcm(tcm)), Del(Scm(t)) ])
       case _ => Ok([]))
    case FeeOf(tx) =>
      (match NumberAt(db, Fee(tx))
       case None => Err(MissingFee)
       case Some(t) => Ok([Del(Fee(tx)), Del(ReverseFee(t)), TransitionOf(t)]))
    case DeploymentOf(tx) =>
      (match NumberAt(db, DeployedProgram(tx))
       case None => Err(MissingProgramId)
       case Some(program) =>
         match NumberAt(db, Edition(program))
         case None => Err(MissingEdition)
         case Some(edition) =>
           match IdsAt(db, ProgramAt(program, edition))
           case None => Err(MissingProgram)
           case Some(functions) =>
             Ok([ Del(DeployedProgram(tx)), Del(Edition(program)), Del(ReverseDeployment(program, edition)),
                  Del(Owner(program, edition)), Del(ProgramAt(program, edition)) ]
                + (FunctionsWork(program, edition, functions) + [FeeOf(tx)])))
    case ExecutionOf(tx) =>
      (if Execution(tx) in db && db[Execution(tx)].Transitions? then
         var e := db[Execution(tx)];
         Ok([Del(Execution(tx))] + (TransitionsWork(e.transitions)
            + ([Del(Inclusion(tx))] + if e.hasFee then [FeeOf(tx)] else [])))
       else
         Err(MissingTransitions))
    case TransactionOf(tx) =>
      (if TxKind(tx) in db && db[TxKind(tx)].KindOf? then
         Ok([Del(TxKind(tx)), KindWork(db[TxKind(tx)].kind, tx)])
       else
         Err(MissingKind))
    case BlockAt(height) =>
      (match ReadBlock(db, height)
       case Err(e) => Err(e)
       case Ok(b) => Ok(BlockWork(b)))
    case CommitteeAt(height) =>
      (match NumberAt(db, Committee(height))
       case None => Err(MissingCommittee)
       case Some(start) => Ok([EarlierRounds(height, start, start)]))
    case EarlierRounds(height, start, round) =>
      Ok(if round > 0 && NumberAt(db, Round(round)) == Some(height) then
           [EarlierRounds(height, start, round - 1)]
         else
           [LaterRounds(height, if round != start then round + 1 else round, start)])
    case LaterRounds(height, first, round) =>
      Ok(if NumberAt(db, Round(round)) == Some(height) then
           [LaterRounds(height, first, round + 1)]
         else
           RoundsWork(first, round) + [Del(Committee(height))])
  }

  /** The whole removal of a height. */
  function Removal(height: nat): seq<Work> {
    [BlockAt(height), CommitteeAt(height)]
  }

  // ---------- Interleaved runs ----------

  /** Several removals under way: the store and the work each of them has left. */
  datatype State = State(db: Db, tasks: map<nat, seq<Work>>)

  /** One step of the removal of `height`; a finished one stays as it is. */
  function Step(s: State, height: nat): Result<State, RemoveError>
    requires height in s.tasks
  {
    var todo := s.tasks[height];
    if todo == [] then
      Ok(s)
    else if todo[0].Del? then
      Ok(State(s.db - {todo[0].key}, s.tasks[height := todo[1..]]))
    else
      match Expand(s.db, todo[0])
      case Err(e) => Err(e)
      case Ok(more) => Ok(s.(tasks := s.tasks[height := more + todo[1..]]))
  }

  /** Run the removals in the order `schedule` gives them their turns. */
  function Schedule(s: State, schedule: seq<nat>): (r: Result<State, RemoveError>)
    requires forall i :: 0 <= i < |schedule| ==> schedule[i] in s.tasks
    ensures r.Ok? ==> r.value.tasks.Keys == s.tasks.Keys
    decreases schedule
  {
    if schedule == [] then
      Ok(s)
    else
      match Step(s, schedule[0])
      case Err(e) => Err(e)
      case Ok(next) => Schedule(next, schedule[1..])
  }

  function Start(db: Db, heights: set<nat>): State {
    State(db, map h | h in heights :: Removal(h))
  }
}
