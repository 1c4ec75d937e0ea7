/** The apply-and-record protocol the drivers follow for one migration file:
    read the file, look its name up in the ledger, begin a transaction, run
    the file's statements, insert the ledger row, commit; roll back on any
    failure after the transaction has begun. The two backends differ only in
    the placeholder syntax, in how the file is cut into statements, and in
    the message for an already-applied migration. */
module Protocol {
  import opened Core
  import opened Strings
  import opened Store
  import opened Files
  import opened MigrationHelpers

  datatype Backend = MySQL | PostgreSQL

  /** The bound-parameter token each backend understands. */
  function Placeholder(b: Backend): string
  {
    match b
    case MySQL => "?"
    case PostgreSQL => "$1"
  }

  /** The ledger lookup `SELECT 1 FROM migrations WHERE name = <ph>;`. */
  function CheckQuery(ph: string): string
  {
    "SELECT 1 FROM migrations WHERE name = " + ph + ";"
  }

  /** The ledger insert `INSERT INTO migrations(name, created_at) VALUES (<ph>, now())`. */
  function TrackQuery(ph: string): string
  {
    "INSERT INTO migrations(name, created_at) VALUES (" + ph + ", now())"
  }

  /** The statements a backend executes for a file: MySQL sends the whole file
      in one call (its DSN enables multi-statement mode); Postgres cuts the
      file at every `;`. */
  function Fragments(b: Backend, sql: string): (frags: seq<string>)
    ensures |frags| >= 1
  {
    match b
    case MySQL => [sql]
    case PostgreSQL => Split(sql, ';')
  }

  /** The error returned for a migration whose name is already in the ledger. */
  function AlreadyMigrated(b: Backend, name: string): Error
  {
    match b
    case MySQL => Error("Migration already migrated")
    case PostgreSQL => Error("Migration " + name + " already migrated")
  }

  /** The `switch` on `Scan`'s error in `CheckMigrated`: `ErrNoRows` means not
      migrated, any other error is returned, and no error means migrated. */
  function Migrated(scanErr: Option<Error>): (bool, Option<Error>)
  {
    if scanErr.None? then (true, None)
    else if scanErr.value == ErrNoRows then (false, None)
    else (false, scanErr)
  }

  /** Without a fault the lookup answers exactly whether the name is in the
      ledger; a fault other than `ErrNoRows` is returned as the error. */
  lemma CheckAgreesWithLedger(fault: Option<Error>, log: seq<Stmt>, name: string)
    ensures var (migrated, err) := Migrated(ScanOutcome(fault, log, name));
      && (fault.None? ==> err.None? && (migrated <==> name in Ledger(log)))
      && (fault.Some? && fault != Some(ErrNoRows) ==> !migrated && err == fault)
  {
  }

  /** `o`, with `calls` made before it. */
  function Prepend(calls: seq<Call>, o: Outcome): Outcome
  {
    Outcome(o.err, calls + o.calls, o.log)
  }

  /** The call `failed` at trace position `t` failed inside the transaction:
      roll back, and return the rollback's error when it fails too, the
      failure's otherwise. Nothing is committed. */
  function Abort(faults: Faults, t: nat, log: seq<Stmt>, failed: Call): Outcome
  {
    var rollback := At(faults, t + 1);
    Outcome(if rollback.Some? then rollback else At(faults, t), [failed, Rollback], log)
  }

  /** Inside the open transaction, from trace position `t` on, with the
      fragments before `i` already run: the remaining fragments in order,
      then the ledger insert `rec`, then `Commit`; the first failure aborts.
      A successful commit makes all the fragments and `rec` committed state. */
  function Steps(faults: Faults, t: nat, log: seq<Stmt>, frags: seq<string>, i: nat, rec: Stmt): Outcome
    requires i <= |frags|
    decreases |frags| - i
  {
    if i == |frags| then
      if At(faults, t).Some? then Abort(faults, t, log, Exec(rec))
      else
        var commit := At(faults, t + 1);
        Outcome(commit, [Exec(rec), Commit], if commit.None? then log + Scripts(frags) + [rec] else log)
    else
      var exec := Exec(Script(frags[i]));
      if At(faults, t).Some? then Abort(faults, t, log, exec)
      else Prepend([exec], Steps(faults, t + 1, log, frags, i + 1, rec))
  }

  /** The ledger insert of backend `b` for `name`. */
  function Track(b: Backend, name: string): Stmt
  {
    Record(TrackQuery(Placeholder(b)), name)
  }

  /** The transactional part of one migration, from `Begin` at trace
      position `t` on. */
  function TxOutcome(b: Backend, faults: Faults, t: nat, log: seq<Stmt>,
                     name: string, frags: seq<string>): Outcome
  {
    if At(faults, t).Some? then Outcome(At(faults, t), [Begin], log)
    else Prepend([Begin], Steps(faults, t + 1, log, frags, 0, Track(b, name)))
  }

  /** One `Migrate(path)` call of backend `b`, starting at trace position `t0`
      with committed statements `log` and file contents `files`: an
      unreadable file is reported before anything else is done. */
  function MigrateOutcome(b: Backend, faults: Faults, t0: nat, log: seq<Stmt>,
                          files: map<string, string>, path: string): Outcome
  {
    var read := ReadMigration(files, path);
    if read.Err? then Outcome(Some(read.error), [], log)
    else CheckedOutcome(b, faults, t0, log, GetMigrationName(path), Fragments(b, read.value))
  }

  /** The rest of `Migrate` once the file is read: the ledger lookup of
      `name`; a lookup error or an applied name ends the call, and otherwise
      the transaction over `frags` follows. */
  function CheckedOutcome(b: Backend, faults: Faults, t0: nat, log: seq<Stmt>,
                          name: string, frags: seq<string>): Outcome
  {
    var check := [QueryRow(CheckQuery(Placeholder(b)), name)];
    var (migrated, checkErr) := Migrated(ScanOutcome(At(faults, t0), log, name));
    if checkErr.Some? then Outcome(checkErr, check, log)
    else if migrated then Outcome(Some(AlreadyMigrated(b, name)), check, log)
    else Prepend(check, TxOutcome(b, faults, t0 + 1, log, name, frags))
  }

  /** One successful fragment moves from the remaining work to the calls
      already made. */
  lemma StepsAdvance(faults: Faults, t: nat, log: seq<Stmt>, frags: seq<string>, i: nat,
                     rec: Stmt, done: seq<Call>)
    requires i < |frags| && At(faults, t).None?
    ensures Prepend(done, Steps(faults, t, log, frags, i, rec))
         == Prepend(done + [Exec(Script(frags[i]))], Steps(faults, t + 1, log, frags, i + 1, rec))
  {
  }

  /** Inside the transaction, all the fragments and the ledger row are
      committed when no error is reported, and nothing otherwise. */
  lemma {:induction false} StepsAllOrNothing(faults: Faults, t: nat, log: seq<Stmt>,
                                             frags: seq<string>, i: nat, rec: Stmt)
    requires i <= |frags|
    ensures var o := Steps(faults, t, log, frags, i, rec);
      o.log == if o.err.None? then log + Scripts(frags) + [rec] else log
    decreases |frags| - i
  {
    if i < |frags| && At(faults, t).None? {
      StepsAllOrNothing(faults, t + 1, log, frags, i + 1, rec);
    }
  }

  /** The transaction commits the fragments and one ledger row when it
      reports no error, and nothing otherwise. */
  lemma TxAllOrNothing(b: Backend, faults: Faults, t: nat, log: seq<Stmt>,
                       name: string, frags: seq<string>)
    ensures var o := TxOutcome(b, faults, t, log, name, frags);
      o.log == if o.err.None? then log + Scripts(frags) + [Track(b, name)] else log
  {
    StepsAllOrNothing(faults, t + 1, log, frags, 0, Track(b, name));
  }

  /** No error is reported exactly when every call inside the transaction
      succeeds: one per remaining fragment, the ledger insert and the commit. */
  lemma {:induction false} StepsSucceedExactly(faults: Faults, t: nat, log: seq<Stmt>,
                                               frags: seq<string>, i: nat, rec: Stmt)
    requires i <= |frags|
    ensures var o := Steps(faults, t, log, frags, i, rec);
      o.err.None? <==> forall k :: t <= k < t + (|frags| - i) + 2 ==> At(faults, k).None?
    decreases |frags| - i
  {
    var o := Steps(faults, t, log, frags, i, rec);
    if At(faults, t).Some? {
      assert o.err.Some?;
    } else if i < |frags| {
      StepsSucceedExactly(faults, t + 1, log, frags, i + 1, rec);
      if o.err.None? {
        forall k | t <= k < t + (|frags| - i) + 2
          ensures At(faults, k).None?
        {
          if k > t {
            assert t + 1 <= k < t + 1 + (|frags| - (i + 1)) + 2;
          }
        }
      }
    }
  }

  /** Which error the drivers report. Let `k` be the first failing call from
      position `t` on. If it is a statement or the ledger insert, the result
      is the rollback's error when the rollback at `k + 1` fails too, and
      call `k`'s otherwise. When the insert succeeds, the result is the
      commit's error, or none. */
  lemma {:induction false} StepsErrorPrecedence(faults: Faults, t: nat, log: seq<Stmt>,
                                                frags: seq<string>, i: nat, rec: Stmt, k: nat)
    requires i <= |frags| && t <= k <= t + (|frags| - i)
    requires forall j :: t <= j < k ==> At(faults, j).None?
    ensures var o := Steps(faults, t, log, frags, i, rec);
      && (At(faults, k).Some? ==>
            o.err == (if At(faults, k + 1).Some? then At(faults, k + 1) else At(faults, k))
            && o.calls[|o.calls| - 1] == Rollback)
      && (k == t + (|frags| - i) && At(faults, k).None? ==>
            o.err == At(faults, k + 1) && o.calls[|o.calls| - 1] == Commit)
    decreases |frags| - i
  {
    if k > t {
      assert At(faults, t).None?;
      var o := Steps(faults, t, log, frags, i, rec);
      var sub := Steps(faults, t + 1, log, frags, i + 1, rec);
      StepsErrorPrecedence(faults, t + 1, log, frags, i + 1, rec, k);
      assert o.calls == [Exec(Script(frags[i]))] + sub.calls;
    }
  }

  /** The same from `Begin` on. A failing `Begin` is reported as is, with
      nothing else attempted. Let `k` be the first failing call after it.
      If it is a statement or the ledger insert, the rollback's error masks
      it when the rollback fails. Otherwise the commit's error is reported. */
  lemma TxErrorPrecedence(b: Backend, faults: Faults, t: nat, log: seq<Stmt>,
                          name: string, frags: seq<string>, k: nat)
    requires t <= k <= t + |frags| + 1
    requires forall j :: t <= j < k ==> At(faults, j).None?
    ensures var o := TxOutcome(b, faults, t, log, name, frags);
      && (k == t && At(faults, t).Some? ==> o.err == At(faults, t) && o.calls == [Begin])
      && (t < k && At(faults, k).Some? ==>
            o.err == (if At(faults, k + 1).Some? then At(faults, k + 1) else At(faults, k))
            && o.calls[|o.calls| - 1] == Rollback)
      && (k == t + |frags| + 1 && At(faults, k).None? ==>
            o.err == At(faults, k + 1) && o.calls[|o.calls| - 1] == Commit)
  {
    if t < k {
      StepsErrorPrecedence(faults, t + 1, log, frags, 0, Track(b, name), k);
    }
  }

  /** Once `Begin` succeeds, the transaction ends with exactly one `Commit`
      or `Rollback`, as the last call, and `Commit` is that call whenever no
      error is reported. */
  lemma {:induction false} StepsEndTransaction(faults: Faults, t: nat, log: seq<Stmt>,
                                               frags: seq<string>, i: nat, rec: Stmt)
    requires i <= |frags|
    ensures var calls := Steps(faults, t, log, frags, i, rec).calls;
      && |calls| >= 2
      && (calls[|calls| - 1] == Commit || calls[|calls| - 1] == Rollback)
      && (forall j :: 0 <= j < |calls| - 1 ==> calls[j] != Commit && calls[j] != Rollback)
      && (Steps(faults, t, log, frags, i, rec).err.None? ==> calls[|calls| - 1] == Commit)
    decreases |frags| - i
  {
    var o := Steps(faults, t, log, frags, i, rec);
    if i < |frags| && At(faults, t).None? {
      var sub := Steps(faults, t + 1, log, frags, i + 1, rec);
      StepsEndTransaction(faults, t + 1, log, frags, i + 1, rec);
      assert o.calls == [Exec(Script(frags[i]))] + sub.calls;
    }
  }

  /** An unreadable file is reported before the ledger is consulted, whether
      or not the migration was applied: no call is made. */
  lemma UnreadableFileTouchesNothing(b: Backend, faults: Faults, t0: nat,
                                     log: seq<Stmt>, files: map<string, string>, path: string)
    requires path !in files
    ensures MigrateOutcome(b, faults, t0, log, files, path) == Outcome(Some(ReadError(path)), [], log)
  {
  }

  /** A name already in the ledger is refused after the lookup alone: no
      transaction is begun and nothing changes. */
  lemma AppliedMigrationIsRefused(b: Backend, faults: Faults, t0: nat,
                                  log: seq<Stmt>, files: map<string, string>, path: string)
    requires path in files && At(faults, t0).None?
    requires GetMigrationName(path) in Ledger(log)
    ensures var o := MigrateOutcome(b, faults, t0, log, files, path);
      && o.err == Some(AlreadyMigrated(b, GetMigrationName(path)))
      && o.calls == [QueryRow(CheckQuery(Placeholder(b)), GetMigrationName(path))]
      && o.log == log
  {
  }

  /** A failed migration commits nothing: neither its statements nor a ledger row. */
  lemma FailedMigrationLeavesNoTrace(b: Backend, faults: Faults, t0: nat,
                                     log: seq<Stmt>, files: map<string, string>, path: string)
    ensures var o := MigrateOutcome(b, faults, t0, log, files, path);
      o.err.Some? ==> o.log == log
  {
    if path in files {
      TxAllOrNothing(b, faults, t0 + 1, log, GetMigrationName(path), Fragments(b, files[path]));
    }
  }

  /** A successful migration was not yet in the ledger, and commits its
      statements and exactly one ledger row for its name, together. The lookup
      must not fail with the sentinel itself: Go compares `sql.ErrNoRows` by
      identity, and only an empty result produces it. */
  lemma SuccessfulMigrationCommitsAtomically(b: Backend, faults: Faults, t0: nat,
                                             log: seq<Stmt>, files: map<string, string>, path: string)
    requires At(faults, t0) != Some(ErrNoRows)
    ensures var o := MigrateOutcome(b, faults, t0, log, files, path);
      var name := GetMigrationName(path);
      o.err.None? ==>
        && path in files && name !in Ledger(log)
        && o.log == log + Scripts(Fragments(b, files[path])) + [Track(b, name)]
        && Ledger(o.log) == Ledger(log) + [name]
        && Effects(o.log) == Effects(log) + Fragments(b, files[path])
  {
    var o := MigrateOutcome(b, faults, t0, log, files, path);
    if o.err.None? && path in files {
      var name := GetMigrationName(path);
      var frags := Fragments(b, files[path]);
      var (migrated, checkErr) := Migrated(ScanOutcome(At(faults, t0), log, name));
      CheckAgreesWithLedger(At(faults, t0), log, name);
      assert checkErr.None? && !migrated;
      var tx := TxOutcome(b, faults, t0 + 1, log, name, frags);
      assert o.err == tx.err && o.log == tx.log;
      TxAllOrNothing(b, faults, t0 + 1, log, name, frags);
      CommitMigration(log, frags, TrackQuery(Placeholder(b)), name);
    }
  }

  /** At most once: a duplicate-free ledger stays duplicate-free. */
  lemma MigrateAtMostOnce(b: Backend, faults: Faults, t0: nat,
                          log: seq<Stmt>, files: map<string, string>, path: string)
    requires At(faults, t0) != Some(ErrNoRows)
    requires Unique(Ledger(log))
    ensures Unique(Ledger(MigrateOutcome(b, faults, t0, log, files, path).log))
  {
    var o := MigrateOutcome(b, faults, t0, log, files, path);
    FailedMigrationLeavesNoTrace(b, faults, t0, log, files, path);
    SuccessfulMigrationCommitsAtomically(b, faults, t0, log, files, path);
    if o.err.None? {
      AppendFresh(Ledger(log), GetMigrationName(path));
    }
  }

  /** Running a migration again after it succeeded is refused once the lookup
      succeeds, and changes nothing. */
  lemma RerunIsRefused(b: Backend, faults: Faults, t0: nat, t1: nat,
                       log: seq<Stmt>, files: map<string, string>, path: string)
    requires MigrateOutcome(b, faults, t0, log, files, path).err.None?
    requires At(faults, t0) != Some(ErrNoRows) && At(faults, t1).None?
    ensures var first := MigrateOutcome(b, faults, t0, log, files, path);
      var second := MigrateOutcome(b, faults, t1, first.log, files, path);
      && second.err == Some(AlreadyMigrated(b, GetMigrationName(path)))
      && second.log == first.log
  {
    SuccessfulMigrationCommitsAtomically(b, faults, t0, log, files, path);
    var first := MigrateOutcome(b, faults, t0, log, files, path);
    assert Ledger(first.log)[|Ledger(log)|] == GetMigrationName(path);
  }

  /** The scripts among a sequence of calls, in call order. */
  function Executed(calls: seq<Call>): seq<string>
    decreases |calls|
  {
    if calls == [] then []
    else (if calls[0].Exec? && calls[0].stmt.Script? then [calls[0].stmt.sql] else []) + Executed(calls[1..])
  }

  lemma {:induction false} ExecutedConcat(a: seq<Call>, b: seq<Call>)
    ensures Executed(a + b) == Executed(a) + Executed(b)
    decreases |a|
  {
    if a == [] {
      assert a + b == b;
    } else {
      assert (a + b)[0] == a[0] && (a + b)[1..] == a[1..] + b;
      ExecutedConcat(a[1..], b);
    }
  }

  lemma ExecutedOne(c: Call)
    ensures Executed([c]) == if c.Exec? && c.stmt.Script? then [c.stmt.sql] else []
  {
    assert [c][1..] == [];
  }

  /** Inside the transaction the fragments run in order: the scripts
      executed are the next ones, all the remaining ones when no error is
      reported, and at least one when not all ran. */
  lemma {:induction false} StepsRunInOrder(faults: Faults, t: nat, log: seq<Stmt>,
                                           frags: seq<string>, i: nat, rec: Stmt)
    requires i <= |frags| && !rec.Script?
    ensures var o := Steps(faults, t, log, frags, i, rec);
      var ran := Executed(o.calls);
      && i + |ran| <= |frags|
      && (forall j :: 0 <= j < |ran| ==> ran[j] == frags[i + j])
      && (o.err.None? ==> i + |ran| == |frags|)
      && (i + |ran| < |frags| ==> |ran| > 0)
    decreases |frags| - i
  {
    var o := Steps(faults, t, log, frags, i, rec);
    if i == |frags| {
      var last := o.calls[1];
      assert o.calls == [Exec(rec)] + [last];
      ExecutedConcat([Exec(rec)], [last]);
      ExecutedOne(Exec(rec));
      ExecutedOne(last);
    } else {
      var exec := Exec(Script(frags[i]));
      ExecutedOne(exec);
      if At(faults, t).Some? {
        assert o.calls == [exec] + [Rollback];
        ExecutedConcat([exec], [Rollback]);
        ExecutedOne(Rollback);
      } else {
        var sub := Steps(faults, t + 1, log, frags, i + 1, rec);
        assert o.calls == [exec] + sub.calls;
        StepsRunInOrder(faults, t + 1, log, frags, i + 1, rec);
        ExecutedConcat([exec], sub.calls);
      }
    }
  }

  /** Every script executed but the last succeeded, and when not all ran,
      the last one executed is the one that failed. */
  lemma {:induction false} StepsStopAtFailure(faults: Faults, t: nat, log: seq<Stmt>,
                                              frags: seq<string>, i: nat, rec: Stmt)
    requires i <= |frags| && !rec.Script?
    ensures var ran := Executed(Steps(faults, t, log, frags, i, rec).calls);
      && (forall k :: t <= k < t + |ran| - 1 ==> At(faults, k).None?)
      && (i + |ran| < |frags| ==> At(faults, t + |ran| - 1).Some?)
    decreases |frags| - i
  {
    var o := Steps(faults, t, log, frags, i, rec);
    StepsRunInOrder(faults, t, log, frags, i, rec);
    if i < |frags| {
      var exec := Exec(Script(frags[i]));
      ExecutedOne(exec);
      if At(faults, t).None? {
        var sub := Steps(faults, t + 1, log, frags, i + 1, rec);
        assert o.calls == [exec] + sub.calls;
        StepsStopAtFailure(faults, t + 1, log, frags, i + 1, rec);
        ExecutedConcat([exec], sub.calls);
      } else {
        assert o.calls == [exec] + [Rollback];
        ExecutedConcat([exec], [Rollback]);
        ExecutedOne(Rollback);
      }
    }
  }

  /** The same, from `Begin` on. */
  lemma TxRunsInOrder(b: Backend, faults: Faults, t: nat, log: seq<Stmt>,
                      name: string, frags: seq<string>)
    ensures var o := TxOutcome(b, faults, t, log, name, frags);
      var ran := Executed(o.calls);
      && |ran| <= |frags| && ran == frags[..|ran|]
      && (o.err.None? ==> ran == frags)
      && (forall k :: t + 1 <= k < t + |ran| ==> At(faults, k).None?)
      && (0 < |ran| < |frags| ==> At(faults, t + |ran|).Some?)
  {
    var o := TxOutcome(b, faults, t, log, name, frags);
    assert Executed([Begin]) == [];
    if At(faults, t).Some? {
      assert o.calls == [Begin];
    } else {
      var steps := Steps(faults, t + 1, log, frags, 0, Track(b, name));
      StepsRunInOrder(faults, t + 1, log, frags, 0, Track(b, name));
      StepsStopAtFailure(faults, t + 1, log, frags, 0, Track(b, name));
      ExecutedConcat([Begin], steps.calls);
      var ran := Executed(steps.calls);
      assert ran == frags[..|ran|];
    }
  }

  /** The file's statements run in file order: the scripts executed are a
      prefix of its fragments, all of them on success; every one but the last
      executed succeeded, and when not all ran, the last one executed is the
      one that failed. */
  lemma FragmentsRunInOrder(b: Backend, faults: Faults, t0: nat,
                            log: seq<Stmt>, files: map<string, string>, path: string)
    requires path in files
    ensures var o := MigrateOutcome(b, faults, t0, log, files, path);
      var frags := Fragments(b, files[path]);
      var ran := Executed(o.calls);
      && |ran| <= |frags| && ran == frags[..|ran|]
      && (o.err.None? ==> ran == frags)
      && (forall k :: t0 + 2 <= k < t0 + 1 + |ran| ==> At(faults, k).None?)
      && (0 < |ran| < |frags| ==> At(faults, t0 + 1 + |ran|).Some?)
  {
    var o := MigrateOutcome(b, faults, t0, log, files, path);
    var name := GetMigrationName(path);
    var check := [QueryRow(CheckQuery(Placeholder(b)), name)];
    var (migrated, checkErr) := Migrated(ScanOutcome(At(faults, t0), log, name));
    if checkErr.Some? || migrated {
      assert o.calls == check;
    } else {
      var tx := TxOutcome(b, faults, t0 + 1, log, name, Fragments(b, files[path]));
      assert o.calls == check + tx.calls;
      TxRunsInOrder(b, faults, t0 + 1, log, name, Fragments(b, files[path]));
      ExecutedConcat(check, tx.calls);
    }
  }
}
