/** The transactional executor: begin a transaction, run one statement,
    roll back if it failed and commit otherwise. */
module SqlUtils {
  import opened Core
  import opened Store

  /** What one begin/exec/rollback-or-commit round produces, starting at trace
      position `t0` with committed statements `log`. */
  function ExecTxOutcome(faults: Faults, t0: nat, log: seq<Stmt>, s: Stmt): Outcome
  {
    if At(faults, t0).Some? then
      Outcome(At(faults, t0), [Begin], log)
    else if At(faults, t0 + 1).Some? then
      Outcome(At(faults, t0 + 1), [Begin, Exec(s), Rollback], log)
    else
      var commit := At(faults, t0 + 2);
      Outcome(commit, [Begin, Exec(s), Commit], if commit.None? then log + [s] else log)
  }

  /** `ExecTx(db, sql)`. */
  method ExecTx(db: Database, s: Stmt) returns (err: Option<Error>)
    requires db.tx.None?
    modifies db
    ensures db.tx.None?
    ensures var o := ExecTxOutcome(db.faults, |old(db.trace)|, old(db.log), s);
      err == o.err && db.trace == old(db.trace) + o.calls && db.log == o.log
  {
    err := db.Begin();
    if err.Some? {
      return;
    }
    err := db.Exec(s);
    if err.Some? {
      var rollbackErr := db.Rollback();
      return;
    }
    err := db.Commit();
  }

  /** A failing begin is reported and no statement is executed; a failing
      statement is reported even when the rollback fails too; a failing commit
      is reported; there is no other error. */
  lemma ExecTxErrorPrecedence(faults: Faults, t0: nat, log: seq<Stmt>, s: Stmt)
    ensures var o := ExecTxOutcome(faults, t0, log, s);
      && (At(faults, t0).Some? ==> o.err == At(faults, t0) && Exec(s) !in o.calls)
      && (At(faults, t0).None? && At(faults, t0 + 1).Some? ==> o.err == At(faults, t0 + 1))
      && (At(faults, t0).None? && At(faults, t0 + 1).None? ==> o.err == At(faults, t0 + 2))
  {
  }

  /** The statement is committed exactly when no error is returned; otherwise
      committed state is unchanged. */
  lemma ExecTxAtomic(faults: Faults, t0: nat, log: seq<Stmt>, s: Stmt)
    ensures var o := ExecTxOutcome(faults, t0, log, s);
      o.log == if o.err.None? then log + [s] else log
  {
  }

  /** Once `Begin` succeeds, exactly one of `Commit` and `Rollback` is
      attempted, as the last call. */
  lemma ExecTxEndsTransaction(faults: Faults, t0: nat, log: seq<Stmt>, s: Stmt)
    requires At(faults, t0).None?
    ensures var o := ExecTxOutcome(faults, t0, log, s);
      && |o.calls| == 3 && o.calls[..2] == [Begin, Exec(s)]
      && (o.calls[2] == Commit <==> At(faults, t0 + 1).None?)
      && (o.calls[2] == Rollback <==> At(faults, t0 + 1).Some?)
  {
  }
}
