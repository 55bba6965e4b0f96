/**
 How the removal of a block fails: which entry it misses.  Whether a removal
 fails is decided before it deletes anything of the part it reads.
 */
module LedgerErrors {
  import opened Wrappers
  import opened Ledger

  predicate HasNumber(db: Db, key: Key) {
    key in db && db[key].Number?
  }

  predicate HasIds(db: Db, key: Key) {
    key in db && db[key].Ids?
  }

  /** All confirmed transactions are there. */
  predicate AllConfirmed(db: Db, txs: seq<nat>) {
    forall i :: 0 <= i < |txs| ==> Confirmed(txs[i]) in db && db[Confirmed(txs[i])].ConfirmedAs?
  }

  lemma {:induction false} RejectionsRead(db: Db, txs: seq<nat>)
    ensures Rejections(db, txs).Some? <==> AllConfirmed(db, txs)
  {
    if txs != [] {
      RejectionsRead(db, txs[1..]);
      if AllConfirmed(db, txs[1..]) && Confirmed(txs[0]) in db && db[Confirmed(txs[0])].ConfirmedAs? {
        forall i | 0 <= i < |txs| ensures Confirmed(txs[i]) in db && db[Confirmed(txs[i])].ConfirmedAs? {
          assert i > 0 ==> txs[1..][i - 1] == txs[i];
        }
      }
    }
  }

  /** The parts of a block that are read, in this order, and what is reported if one is missing. */
  function BlockError(db: Db, height: nat): Option<RemoveError> {
    if !HasNumber(db, Id(height)) then Some(MissingBlockHash)
    else if !HasNumber(db, StateRoot(height)) then Some(MissingStateRoot)
    else if !HasIds(db, Transactions(db[Id(height)].n)) then Some(MissingTransactions)
    else if !HasIds(db, Solutions(db[Id(height)].n)) then Some(MissingSolutions)
    else if !AllConfirmed(db, db[Transactions(db[Id(height)].n)].ids) then Some(MissingConfirmed)
    else if Authority(db[Id(height)].n) !in db then Some(MissingAuthority)
    else None
  }

  /** The same for a deployment. */
  function DeploymentError(db: Db, tx: nat): Option<RemoveError> {
    if !HasNumber(db, DeployedProgram(tx)) then Some(MissingProgramId)
    else if !HasNumber(db, Edition(db[DeployedProgram(tx)].n)) then Some(MissingEdition)
    else if !HasIds(db, ProgramAt(db[DeployedProgram(tx)].n, db[Edition(db[DeployedProgram(tx)].n)].n)) then Some(MissingProgram)
    else None
  }

  /** What is reported for any work; transitions, inputs, outputs and rounds miss nothing. */
  function WorkError(db: Db, work: Work): Option<RemoveError> {
    match work
    case BlockAt(height) => BlockError(db, height)
    case DeploymentOf(tx) => DeploymentError(db, tx)
    case FeeOf(tx) => if HasNumber(db, Fee(tx)) then None else Some(MissingFee)
    case ExecutionOf(tx) =>
      if Execution(tx) in db && db[Execution(tx)].Transitions? then None else Some(MissingTransitions)
    case TransactionOf(tx) => if TxKind(tx) in db && db[TxKind(tx)].KindOf? then None else Some(MissingKind)
    case CommitteeAt(height) => if HasNumber(db, Committee(height)) then None else Some(MissingCommittee)
    case _ => None
  }

  lemma {:induction false} BlockFails(db: Db, height: nat, e: RemoveError)
    ensures Expand(db, BlockAt(height)) == Err(e) <==> BlockError(db, height) == Some(e)
  {
    if HasNumber(db, Id(height)) && HasIds(db, Transactions(db[Id(height)].n)) {
      RejectionsRead(db, db[Transactions(db[Id(height)].n)].ids);
    }
  }

  /** Work fails exactly if an entry it reads is missing, and the first of them is reported. */
  lemma {:induction false} WorkFails(db: Db, work: Work, e: RemoveError)
    requires !work.Del?
    ensures Expand(db, work) == Err(e) <==> WorkError(db, work) == Some(e)
  {
    hide BlockError;
    if work.BlockAt? {
      BlockFails(db, work.height, e);
    }
  }
}
