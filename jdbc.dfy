/**
 * The JDBC connection behind jOOQ's DefaultConnectionProvider, seen only
 * through the calls the core makes on it: toggling auto-commit, commit,
 * rollback and close. Each call is recorded in `history`, so that the order
 * and number of calls a transaction makes can be stated exactly. Whether a
 * commit, rollback or close fails is decided by the caller's argument.
 */
module Jdbc {
  import opened Exceptions

  /** One call on the connection; `ok` is false when the call threw. */
  datatype ConnOp =
    | SetAutoCommit(on: bool)
    | Commit(ok: bool)
    | Rollback(ok: bool)
    | Close(ok: bool)

  class Connection {
    var autoCommit: bool
    var history: seq<ConnOp>

    /** A connection as a pool hands it out, in the given auto-commit mode. */
    constructor (autoCommit: bool)
      ensures this.autoCommit == autoCommit && history == []
    {
      this.autoCommit := autoCommit;
      history := [];
    }

    method SetAutoCommit(on: bool)
      modifies this
      ensures autoCommit == on
      ensures history == old(history) + [ConnOp.SetAutoCommit(on)]
    {
      autoCommit := on;
      history := history + [ConnOp.SetAutoCommit(on)];
    }

    /** jOOQ's provider wraps a failing commit in a DataAccessException. */
    method Commit(fails: bool) returns (r: Outcome<()>)
      modifies this
      ensures autoCommit == old(autoCommit)
      ensures history == old(history) + [ConnOp.Commit(!fails)]
      ensures r == if fails then Abrupt(CommitFailed) else Normal(())
    {
      history := history + [ConnOp.Commit(!fails)];
      r := if fails then Abrupt(CommitFailed) else Normal(());
    }

    /** jOOQ's provider wraps a failing rollback in a DataAccessException. */
    method Rollback(fails: bool) returns (r: Outcome<()>)
      modifies this
      ensures autoCommit == old(autoCommit)
      ensures history == old(history) + [ConnOp.Rollback(!fails)]
      ensures r == if fails then Abrupt(RollbackFailed) else Normal(())
    {
      history := history + [ConnOp.Rollback(!fails)];
      r := if fails then Abrupt(RollbackFailed) else Normal(());
    }

    /** The caller wraps a failing close in a RuntimeException. */
    method Close(fails: bool) returns (r: Outcome<()>)
      modifies this
      ensures autoCommit == old(autoCommit)
      ensures history == old(history) + [ConnOp.Close(!fails)]
      ensures r == if fails then Abrupt(CloseFailed) else Normal(())
    {
      history := history + [ConnOp.Close(!fails)];
      r := if fails then Abrupt(CloseFailed) else Normal(());
    }
  }
}
