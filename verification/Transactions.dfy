/** A connection's transaction under direct control: begin, commit and roll back, with
    everything that can happen when the transaction is not in the state expected. */
module Transactions {
  import opened Json

  /** `Inactive` is auto-commit mode. An invalidated transaction is still open, but can only
      be rolled back. */
  datatype Txn = Inactive | Active | Invalidated

  /** An exception, and whether it is a transaction exception. */
  datatype Thrown = Thrown(transactional: bool, message: string)

  const ALREADY_ACTIVE := Thrown(true, "cannot start a transaction within a transaction")
  const NO_ROLLBACK := Thrown(true, "cannot rollback - no transaction is active")
  const NO_COMMIT := Thrown(true, "cannot commit - no transaction is active")

  /** What the database's own commit does with an active transaction; when it throws, it may
      leave the transaction in any state. */
  datatype Commitment = Succeeds | Fails(error: Thrown, after: Txn)

  /** `error` is what the call throws, `after` the state it leaves, `stored` whether the
      transaction's rows have reached the table. */
  datatype Call = Call(error: Option<Thrown>, after: Txn, stored: bool)

  function Begin(t: Txn): (c: Call) {
    if t.Inactive? then Call(None, Active, false) else Call(Some(ALREADY_ACTIVE), t, false)
  }

  function Rollback(t: Txn): (c: Call) {
    if t.Inactive? then Call(Some(NO_ROLLBACK), t, false) else Call(None, Inactive, false)
  }

  function Commit(t: Txn, own: Commitment): (c: Call) {
    match t
    case Inactive => Call(Some(NO_COMMIT), t, false)
    case Invalidated => Rollback(t)
    case Active => if own.Succeeds? then Call(None, Inactive, true) else Call(Some(own.error), own.after, false)
  }

  /** The three primitives, over the connection they change. */
  class Connection {
    var txn: Txn

    constructor ()
      ensures txn == Inactive
    {
      txn := Inactive;
    }

    method RawBeginTransaction() returns (error: Option<Thrown>)
      modifies this
      ensures error == Begin(old(txn)).error && txn == Begin(old(txn)).after
    {
      if !txn.Inactive? { return Some(ALREADY_ACTIVE); }
      txn := Active;
      error := None;
    }

    method RawRollbackTransaction() returns (error: Option<Thrown>)
      modifies this
      ensures error == Rollback(old(txn)).error && txn == Rollback(old(txn)).after
    {
      if txn.Inactive? { return Some(NO_ROLLBACK); }
      txn := Inactive;
      error := None;
    }

    method RawCommitTransaction(own: Commitment) returns (error: Option<Thrown>, stored: bool)
      modifies this
      ensures error == Commit(old(txn), own).error && txn == Commit(old(txn), own).after
      ensures stored == Commit(old(txn), own).stored
    {
      stored := false;
      if txn.Inactive? { return Some(NO_COMMIT), false; }
      if txn.Invalidated? {
        error := RawRollbackTransaction();
        return;
      }
      match own
      case Succeeds => txn, stored, error := Inactive, true, None;
      case Fails(e, after) => txn, error := after, Some(e);
    }
  }

  /** A commit returns without an exception for a transaction that is open, but the rows are
      stored only when it was not invalidated; nothing is stored by a commit that throws. */
  lemma CommitStoresIff(t: Txn, own: Commitment)
    ensures Commit(t, own).stored <==> t.Active? && own.Succeeds?
    ensures Commit(t, own).error.None? <==> t.Invalidated? || (t.Active? && own.Succeeds?)
    ensures Commit(t, own).error.None? ==> Commit(t, own).after.Inactive?
  {
  }

  /** A rollback can fail in one way only. */
  lemma RollbackThrowsIff(t: Txn)
    ensures Rollback(t).error.Some? <==> t.Inactive?
    ensures Rollback(t).after.Inactive?
  {
  }
}
