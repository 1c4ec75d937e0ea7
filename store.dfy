/** The database the engine talks to, as an abstract transactional store.
    SQL text is opaque; the only statement whose effect the store interprets
    is the insertion of a row into the `migrations` ledger table.

    Every call the engine makes is appended to `trace`, and whether the call
    at position k of the trace fails is fixed in advance by `At(faults, k)`: the
    network, the server and the SQL parser are all behind that schedule. */
module Store {
  import opened Core

  /** A statement executed inside a transaction: an opaque script, or the
      ledger insert `INSERT INTO migrations(name, created_at) VALUES (<ph>, now())`
      with its query text and the bound name. */
  datatype Stmt = Script(sql: string) | Record(query: string, name: string)

  /** One call from the engine to the database. */
  datatype Call =
    | QueryRow(query: string, arg: string)
    | Begin
    | Exec(stmt: Stmt)
    | Rollback
    | Commit

  /** What one run of a protocol produced: the error it returned, the calls it
      made in order, and the committed statements afterwards. */
  datatype Outcome = Outcome(err: Option<Error>, calls: seq<Call>, log: seq<Stmt>)

  /** The sentinel error `sql.ErrNoRows` that `Row.Scan` returns when the query
      matched nothing. */
  const ErrNoRows := Error("sql: no rows in result set")

  /** The names in the ledger table, in insertion order. */
  function Ledger(log: seq<Stmt>): seq<string>
    decreases |log|
  {
    if log == [] then []
    else (if log[0].Record? then [log[0].name] else []) + Ledger(log[1..])
  }

  /** The scripts whose effects are committed, in commit order. */
  function Effects(log: seq<Stmt>): seq<string>
    decreases |log|
  {
    if log == [] then []
    else (if log[0].Script? then [log[0].sql] else []) + Effects(log[1..])
  }

  /** No name occurs twice. */
  predicate Unique(names: seq<string>)
  {
    forall i, j :: 0 <= i < j < |names| ==> names[i] != names[j]
  }

  /** The statements that run the given scripts, in order. */
  function Scripts(sqls: seq<string>): seq<Stmt>
    decreases |sqls|
  {
    if sqls == [] then [] else Scripts(sqls[..|sqls| - 1]) + [Script(sqls[|sqls| - 1])]
  }

  /** The statements of a prefix grow by one script at a time. */
  lemma ScriptsPrefix(sqls: seq<string>, i: nat)
    requires i < |sqls|
    ensures Scripts(sqls[..i + 1]) == Scripts(sqls[..i]) + [Script(sqls[i])]
  {
    assert sqls[..i + 1][..i] == sqls[..i];
  }

  lemma {:induction false} LedgerConcat(a: seq<Stmt>, b: seq<Stmt>)
    ensures Ledger(a + b) == Ledger(a) + Ledger(b)
    decreases |a|
  {
    if a == [] {
      assert a + b == b;
    } else {
      assert (a + b)[0] == a[0] && (a + b)[1..] == a[1..] + b;
      LedgerConcat(a[1..], b);
    }
  }

  lemma {:induction false} EffectsConcat(a: seq<Stmt>, b: seq<Stmt>)
    ensures Effects(a + b) == Effects(a) + Effects(b)
    decreases |a|
  {
    if a == [] {
      assert a + b == b;
    } else {
      assert (a + b)[0] == a[0] && (a + b)[1..] == a[1..] + b;
      EffectsConcat(a[1..], b);
    }
  }

  /** Scripts add no ledger rows, and their effects are the scripts themselves. */
  lemma {:induction false} ScriptsProjections(sqls: seq<string>)
    ensures Ledger(Scripts(sqls)) == []
    ensures Effects(Scripts(sqls)) == sqls
    decreases |sqls|
  {
    if sqls != [] {
      var init, last := sqls[..|sqls| - 1], [Script(sqls[|sqls| - 1])];
      ScriptsProjections(init);
      LedgerConcat(Scripts(init), last);
      EffectsConcat(Scripts(init), last);
      assert Ledger(last) == [] && Effects(last) == [sqls[|sqls| - 1]];
      assert init + [sqls[|sqls| - 1]] == sqls;
    }
  }

  /** Committing scripts and one ledger insert adds exactly that name to the
      ledger and exactly those scripts to the effects. */
  lemma CommitMigration(log: seq<Stmt>, sqls: seq<string>, query: string, name: string)
    ensures Ledger(log + Scripts(sqls) + [Record(query, name)]) == Ledger(log) + [name]
    ensures Effects(log + Scripts(sqls) + [Record(query, name)]) == Effects(log) + sqls
  {
    var rec := [Record(query, name)];
    LedgerConcat(log + Scripts(sqls), rec);
    LedgerConcat(log, Scripts(sqls));
    EffectsConcat(log + Scripts(sqls), rec);
    EffectsConcat(log, Scripts(sqls));
    ScriptsProjections(sqls);
    assert Ledger(rec) == [name] && Effects(rec) == [];
  }

  /** Adding a name that is not yet in a duplicate-free ledger keeps it so. */
  lemma AppendFresh(names: seq<string>, name: string)
    requires Unique(names) && name !in names
    ensures Unique(names + [name])
  {
  }

  /** The database: committed statements, the open transaction's buffer, the
      calls made so far, and the failure schedule. */
  class Database {
    const faults: Faults
    var log: seq<Stmt>
    var tx: Option<seq<Stmt>>
    var trace: seq<Call>

    constructor (faults: Faults, log: seq<Stmt>)
      ensures this.faults == faults && this.log == log
      ensures tx == None && trace == []
    {
      this.faults := faults;
      this.log := log;
      tx := None;
      trace := [];
    }

    /** `db.QueryRow(query, arg).Scan(&x)` for the ledger lookup: the scan
        error, `ErrNoRows` when no ledger row has the name. Reads committed
        state only. */
    method QueryRow(query: string, arg: string) returns (scanErr: Option<Error>)
      modifies this
      ensures log == old(log) && tx == old(tx)
      ensures trace == old(trace) + [Call.QueryRow(query, arg)]
      ensures scanErr == ScanOutcome(At(faults, |old(trace)|), old(log), arg)
    {
      var fault := At(faults, |trace|);
      trace := trace + [Call.QueryRow(query, arg)];
      if fault.Some? {
        scanErr := fault;
      } else if arg in Ledger(log) {
        scanErr := None;
      } else {
        scanErr := Some(ErrNoRows);
      }
    }

    /** `db.Begin()`. */
    method Begin() returns (err: Option<Error>)
      requires tx.None?
      modifies this
      ensures err == At(faults, |old(trace)|)
      ensures log == old(log) && trace == old(trace) + [Call.Begin]
      ensures tx == if err.None? then Some([]) else None
    {
      err := At(faults, |trace|);
      trace := trace + [Call.Begin];
      if err.None? {
        tx := Some([]);
      }
    }

    /** `tx.Exec(stmt)`: on success the statement joins the transaction's buffer. */
    method Exec(stmt: Stmt) returns (err: Option<Error>)
      requires tx.Some?
      modifies this
      ensures err == At(faults, |old(trace)|)
      ensures log == old(log) && trace == old(trace) + [Call.Exec(stmt)]
      ensures tx == if err.None? then Some(old(tx).value + [stmt]) else old(tx)
    {
      err := At(faults, |trace|);
      trace := trace + [Call.Exec(stmt)];
      if err.None? {
        tx := Some(tx.value + [stmt]);
      }
    }

    /** `tx.Rollback()`: the transaction ends and its buffer is discarded,
        whether or not the call reports an error. */
    method Rollback() returns (err: Option<Error>)
      requires tx.Some?
      modifies this
      ensures err == At(faults, |old(trace)|)
      ensures log == old(log) && trace == old(trace) + [Call.Rollback] && tx == None
    {
      err := At(faults, |trace|);
      trace := trace + [Call.Rollback];
      tx := None;
    }

    /** `tx.Commit()`: the transaction ends; its buffer becomes committed
        state only when the call succeeds. */
    method Commit() returns (err: Option<Error>)
      requires tx.Some?
      modifies this
      ensures err == At(faults, |old(trace)|)
      ensures trace == old(trace) + [Call.Commit] && tx == None
      ensures log == if err.None? then old(log) + old(tx).value else old(log)
    {
      err := At(faults, |trace|);
      trace := trace + [Call.Commit];
      if err.None? {
        log := log + tx.value;
      }
      tx := None;
    }
  }

  /** The error `Scan` reports for a ledger lookup of `name`: the scheduled
      fault, else nothing when the name is in the ledger, else `ErrNoRows`. */
  function ScanOutcome(fault: Option<Error>, log: seq<Stmt>, name: string): (scanErr: Option<Error>)
    ensures fault.None? ==> (scanErr.None? <==> name in Ledger(log))
    ensures fault.None? && scanErr.Some? ==> scanErr == Some(ErrNoRows)
  {
    if fault.Some? then fault
    else if name in Ledger(log) then None
    else Some(ErrNoRows)
  }
}
