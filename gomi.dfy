/** The command-line program's own runner, older than the drivers: it loads
    a MySQL configuration, sets the placeholder, and applies migration files
    one by one (`-name`) or all of `./migrations` (`-all`). Unlike the drivers
    it runs a migration and its ledger insert as two separate transactions,
    and it keeps going after a migration fails. */
module Gomi {
  import opened Core
  import opened Strings
  import opened Store
  import opened Files
  import opened SqlUtils
  import opened MigrationHelpers
  import opened Protocol
  import MySql

  const MigrationsDir := "./migrations"

  const DriverMySQL := "mysql"

  const LoadError := Error("Could not load config")

  /** The runtime panic of taking the second segment of a path without `/`;
      it ends the program like `log.Fatal`. */
  const IndexOutOfRange := Error("runtime error: index out of range [1] with length 1")

  /** The program's `Config` struct. */
  datatype Settings = Settings(driver: string, dsn: string)

  /** The DSN the program builds: `user:password@protocol(host:port)/dbname`,
      the driver's without its parameters. */
  function LegacyDsn(config: Config): (dsn: string)
    ensures dsn + "?" + MySql.Params == MySql.ParseConfig(config)
  {
    MySql.Credentials(config) + "@" + MySql.Address(config)
  }

  /** The `switch` of `readConfig` on the decoded `driver` field: only MySQL
      is known, and its DSN is the driver's minus `?multiStatements=true`. */
  function LoadConfig(config: Config): (r: Result<Settings>)
    requires HasDriver(config)
    ensures r.Ok? <==> DriverOf(config) == DriverMySQL
    ensures r.Ok? ==> r.value.driver == DriverMySQL && r.value.dsn + "?" + MySql.Params == MySql.ParseConfig(config)
    ensures r.Err? ==> r.error == LoadError
  {
    if DriverOf(config) == DriverMySQL then Ok(Settings(DriverMySQL, LegacyDsn(config))) else Err(LoadError)
  }

  /** What the ledger lookup of `name` at trace position `t` answers, after
      the `Scan` switch. */
  function LookupOutcome(faults: Faults, t: nat, log: seq<Stmt>, name: string): (bool, Option<Error>)
  {
    Migrated(ScanOutcome(At(faults, t), log, name))
  }

  /** `migrate(path)`: name the migration by the second segment of its path
      (a path without `/` panics before anything else happens), read the
      file, then run it and record the name. */
  function LegacyOutcome(faults: Faults, t: nat, log: seq<Stmt>, files: map<string, string>,
                         ph: string, path: string): Outcome
  {
    match SecondSegment(path)
    case None => Outcome(Some(IndexOutOfRange), [], log)
    case Some(name) => MigrateNamed(faults, t, log, files, ph, path, name)
  }

  /** `migrate(path)` once the name is taken: read the file, then run it and
      record `name`. */
  function MigrateNamed(faults: Faults, t: nat, log: seq<Stmt>, files: map<string, string>,
                        ph: string, path: string, name: string): Outcome
  {
    match ReadFile(files, path)
    case Err(e) => Outcome(Some(e), [], log)
    case Ok(sql) => RunThenTrack(faults, t, log, sql, Record(TrackQuery(ph), name))
  }

  /** The two transactions of `migrate`: the script in one, and only once that
      one committed, the ledger insert `rec` in another. */
  function RunThenTrack(faults: Faults, t: nat, log: seq<Stmt>, sql: string, rec: Stmt): Outcome
  {
    var run := ExecTxOutcome(faults, t, log, Script(sql));
    if run.err.Some? then run
    else Prepend(run.calls, ExecTxOutcome(faults, t + 3, log + [Script(sql)], rec))
  }

  /** One file of the `-name` or `-all` mode: take its name, the second
      segment of the path, where a path without `/` panics; look the name up;
      a lookup error is fatal and is the result; an applied file is skipped;
      otherwise the file is migrated and the error of `migrate` is dropped. */
  function StepOutcome(faults: Faults, t: nat, log: seq<Stmt>, files: map<string, string>,
                       ph: string, path: string): Outcome
  {
    match SecondSegment(path)
    case None => Outcome(Some(IndexOutOfRange), [], log)
    case Some(name) =>
      var check := QueryRow(CheckQuery(ph), name);
      var (migrated, err) := LookupOutcome(faults, t, log, name);
      if err.Some? then Outcome(err, [check], log)
      else if migrated then Outcome(None, [check], log)
      else
        var m := MigrateNamed(faults, t + 1, log, files, ph, path, name);
        Outcome(None, [check] + m.calls, m.log)
  }

  /** The `-all` loop over `paths`: one step per path, in order, stopping at
      the first fatal lookup error. */
  function BatchOutcome(faults: Faults, t: nat, log: seq<Stmt>, files: map<string, string>,
                        ph: string, paths: seq<string>): Outcome
    decreases |paths|, 2
  {
    if paths == [] then Outcome(None, [], log) else BatchFrom(faults, t, log, files, ph, paths[0], paths[1..])
  }

  /** The loop over the non-empty list `first :: rest`. */
  function BatchFrom(faults: Faults, t: nat, log: seq<Stmt>, files: map<string, string>,
                     ph: string, first: string, rest: seq<string>): Outcome
    decreases |rest| + 1, 1
  {
    StepThenBatch(faults, t, log, files, ph, first, rest)
  }

  /** The step for `first`; a fatal one ends the loop, and otherwise its
      calls come before those of the loop over `rest`, run from where the
      step left off. */
  function StepThenBatch(faults: Faults, t: nat, log: seq<Stmt>, files: map<string, string>,
                         ph: string, first: string, rest: seq<string>): Outcome
    decreases |rest| + 1, 0
  {
    var s := StepOutcome(faults, t, log, files, ph, first);
    if s.err.Some? then s
    else Prepend(s.calls, BatchOutcome(faults, t + |s.calls|, s.log, files, ph, rest))
  }

  /** The fault schedule never injects `ErrNoRows`: that sentinel is what the
      database reports for a name it does not hold, and nothing else. */
  predicate NoSpuriousNoRows(faults: Faults)
  {
    forall k :: k in faults ==> faults[k] != ErrNoRows
  }

  /** The names a sequence of calls looks up, in order. */
  function Lookups(calls: seq<Call>): seq<string>
    decreases |calls|
  {
    if calls == [] then []
    else (if calls[0].QueryRow? then [calls[0].arg] else []) + Lookups(calls[1..])
  }

  /** The name a path is looked up under: its second segment, or none for a
      path without `/`. */
  function Looked(path: string): seq<string>
  {
    match SecondSegment(path)
    case None => []
    case Some(name) => [name]
  }

  /** The migration names of the given paths, in order. */
  function Names(paths: seq<string>): seq<string>
    decreases |paths|
  {
    if paths == [] then [] else Looked(paths[0]) + Names(paths[1..])
  }

  lemma {:induction false} LookupsConcat(a: seq<Call>, b: seq<Call>)
    ensures Lookups(a + b) == Lookups(a) + Lookups(b)
    decreases |a|
  {
    if a == [] {
      assert a + b == b;
    } else {
      assert (a + b)[0] == a[0] && (a + b)[1..] == a[1..] + b;
      LookupsConcat(a[1..], b);
    }
  }

  /** Calls without a lookup look nothing up. */
  lemma {:induction false} NoLookups(calls: seq<Call>)
    requires forall k :: 0 <= k < |calls| ==> !calls[k].QueryRow?
    ensures Lookups(calls) == []
    decreases |calls|
  {
    if calls != [] {
      NoLookups(calls[1..]);
    }
  }

  /** One transaction makes no lookup. */
  lemma ExecTxNoLookups(faults: Faults, t: nat, log: seq<Stmt>, s: Stmt)
    ensures Lookups(ExecTxOutcome(faults, t, log, s).calls) == []
  {
    NoLookups(ExecTxOutcome(faults, t, log, s).calls);
  }

  /** The committed statements after the two transactions: nothing when the
      first fails, the script alone when only the second fails, and the
      script followed by the ledger insert when neither fails. The run makes
      no lookup: unlike the drivers, `migrate` does not consult the ledger. */
  lemma RunThenTrackLog(faults: Faults, t: nat, log: seq<Stmt>, sql: string, rec: Stmt)
    ensures var o := RunThenTrack(faults, t, log, sql, rec);
      var ran := ExecTxOutcome(faults, t, log, Script(sql)).err.None?;
      && o.log == (if !ran then log else if o.err.None? then log + [Script(sql), rec] else log + [Script(sql)])
      && (o.err.None? ==> ran)
      && Lookups(o.calls) == []
  {
    var run := ExecTxOutcome(faults, t, log, Script(sql));
    ExecTxAtomic(faults, t, log, Script(sql));
    ExecTxNoLookups(faults, t, log, Script(sql));
    if run.err.None? {
      var track := ExecTxOutcome(faults, t + 3, log + [Script(sql)], rec);
      ExecTxAtomic(faults, t + 3, log + [Script(sql)], rec);
      ExecTxNoLookups(faults, t + 3, log + [Script(sql)], rec);
      LookupsConcat(run.calls, track.calls);
      assert log + [Script(sql)] + [rec] == log + [Script(sql), rec];
    }
  }

  /** A committed script adds its effect and no ledger row; a ledger insert
      after it adds the name and no effect. */
  lemma LegacyProjections(log: seq<Stmt>, sql: string, query: string, name: string)
    ensures Ledger(log + [Script(sql)]) == Ledger(log)
    ensures Effects(log + [Script(sql)]) == Effects(log) + [sql]
    ensures Ledger(log + [Script(sql), Record(query, name)]) == Ledger(log) + [name]
    ensures Effects(log + [Script(sql), Record(query, name)]) == Effects(log) + [sql]
  {
    var pair := [Script(sql), Record(query, name)];
    LedgerConcat(log, [Script(sql)]);
    EffectsConcat(log, [Script(sql)]);
    LedgerConcat(log, pair);
    EffectsConcat(log, pair);
    assert pair[1..][1..] == [];
    assert Ledger([Script(sql)]) == [] && Effects([Script(sql)]) == [sql];
    assert Ledger(pair) == [name] && Effects(pair) == [sql];
  }

  /** The two transactions of `migrate`: a path without `/` panics and an
      unreadable file fails, both touching nothing; otherwise the script is
      committed exactly when its own transaction succeeds, and the second
      segment of the path is recorded exactly when both succeed. A failing
      ledger insert therefore leaves the script applied but unrecorded. */
  lemma LegacyTwoTransactions(faults: Faults, t: nat, log: seq<Stmt>, files: map<string, string>,
                              ph: string, path: string)
    ensures var o := LegacyOutcome(faults, t, log, files, ph, path);
      && Lookups(o.calls) == []
      && ('/' !in path ==> o == Outcome(Some(IndexOutOfRange), [], log))
      && ('/' in path && path !in files ==> o == Outcome(Some(ReadError(path)), [], log))
      && ('/' in path && path in files ==>
            var ran := ExecTxOutcome(faults, t, log, Script(files[path])).err.None?;
            && Effects(o.log) == (if ran then Effects(log) + [files[path]] else Effects(log))
            && Ledger(o.log) == (if o.err.None? then Ledger(log) + [SecondSegment(path).value] else Ledger(log))
            && (o.err.None? ==> ran))
  {
    if '/' in path && path in files {
      var name := SecondSegment(path).value;
      RunThenTrackLog(faults, t, log, files[path], Record(TrackQuery(ph), name));
      LegacyProjections(log, files[path], TrackQuery(ph), name);
    }
  }

  /** A path without `/` panics before any call. Otherwise the second
      segment is looked up first; a lookup that fails is fatal and returns its
      error; an applied name is skipped with no further call; a pending one is
      migrated and whatever `migrate` returns, the step reports no error. */
  lemma StepDecision(faults: Faults, t: nat, log: seq<Stmt>, files: map<string, string>, ph: string, path: string)
    requires NoSpuriousNoRows(faults)
    ensures var s := StepOutcome(faults, t, log, files, ph, path);
      && ('/' !in path ==> s == Outcome(Some(IndexOutOfRange), [], log))
      && ('/' in path ==>
            var name := SecondSegment(path).value;
            && |s.calls| >= 1 && s.calls[0] == QueryRow(CheckQuery(ph), name)
            && (At(faults, t).Some? ==> s.err == At(faults, t) && s.calls == [s.calls[0]] && s.log == log)
            && (At(faults, t).None? && name in Ledger(log) ==> s.err.None? && s.calls == [s.calls[0]] && s.log == log)
            && (At(faults, t).None? && name !in Ledger(log) ==>
                  var m := LegacyOutcome(faults, t + 1, log, files, ph, path);
                  s.err.None? && s.calls[1..] == m.calls && s.log == m.log))
  {
    assert At(faults, t).Some? ==> t in faults && faults[t] != ErrNoRows;
  }

  /** A step adds at most its own name, the second segment of its path, to
      the ledger, and only a name the ledger did not hold; committed scripts
      are only ever added. */
  lemma StepGrows(faults: Faults, t: nat, log: seq<Stmt>, files: map<string, string>, ph: string, path: string)
    requires NoSpuriousNoRows(faults)
    ensures var s := StepOutcome(faults, t, log, files, ph, path);
      && (Ledger(s.log) == Ledger(log)
          || ('/' in path && SecondSegment(path).value !in Ledger(log)
              && Ledger(s.log) == Ledger(log) + [SecondSegment(path).value]))
      && Effects(log) <= Effects(s.log)
  {
    StepDecision(faults, t, log, files, ph, path);
    LegacyTwoTransactions(faults, t + 1, log, files, ph, path);
  }

  /** A pending migration is migrated: the step is its lookup followed by
      `migrate`. */
  lemma StepMigrates(faults: Faults, t: nat, log: seq<Stmt>, files: map<string, string>,
                     ph: string, path: string, name: string)
    requires SecondSegment(path) == Some(name)
    requires LookupOutcome(faults, t, log, name) == (false, None)
    ensures var m := LegacyOutcome(faults, t + 1, log, files, ph, path);
      StepOutcome(faults, t, log, files, ph, path) == Outcome(None, [QueryRow(CheckQuery(ph), name)] + m.calls, m.log)
  {
  }

  /** Pass `i` of the loop over `paths`: the loop over `[paths[i]]`, and
      unless that is fatal, the passes after it from where it left off. */
  lemma BatchSplit(faults: Faults, t: nat, log: seq<Stmt>, files: map<string, string>,
                  ph: string, paths: seq<string>, i: nat)
    requires i < |paths|
    ensures var s := BatchOutcome(faults, t, log, files, ph, [paths[i]]);
      BatchOutcome(faults, t, log, files, ph, paths[i..])
      == if s.err.Some? then s else Prepend(s.calls, BatchOutcome(faults, t + |s.calls|, s.log, files, ph, paths[i + 1..]))
  {
    assert paths[i..] == [paths[i]] + paths[i + 1..];
    BatchConcat(faults, t, log, files, ph, [paths[i]], paths[i + 1..]);
  }

  /** Running the loop over `front + back` is running it over `front`, and,
      unless that failed, over `back` from where it left off: once a step
      fails, no later path is visited. */
  lemma {:induction false} BatchConcat(faults: Faults, t: nat, log: seq<Stmt>, files: map<string, string>,
                                       ph: string, front: seq<string>, back: seq<string>)
    ensures var o := BatchOutcome(faults, t, log, files, ph, front);
      BatchOutcome(faults, t, log, files, ph, front + back)
      == if o.err.Some? then o else Prepend(o.calls, BatchOutcome(faults, t + |o.calls|, o.log, files, ph, back))
    decreases |front|
  {
    if front == [] {
      assert front + back == back;
    } else {
      var s := StepOutcome(faults, t, log, files, ph, front[0]);
      assert (front + back)[0] == front[0] && (front + back)[1..] == front[1..] + back;
      BatchUnfold(faults, t, log, files, ph, front);
      BatchUnfold(faults, t, log, files, ph, front + back);
      if s.err.None? {
        var t1 := t + |s.calls|;
        var o1 := BatchOutcome(faults, t1, s.log, files, ph, front[1..]);
        BatchConcat(faults, t1, s.log, files, ph, front[1..], back);
        if o1.err.None? {
          var tail := BatchOutcome(faults, t1 + |o1.calls|, o1.log, files, ph, back);
          assert s.calls + (o1.calls + tail.calls) == (s.calls + o1.calls) + tail.calls;
        }
      }
    }
  }

  /** The loop over a non-empty list: the step for its first path, and
      unless that is fatal, the loop over the rest from where it left off. */
  lemma BatchUnfold(faults: Faults, t: nat, log: seq<Stmt>, files: map<string, string>,
                    ph: string, paths: seq<string>)
    requires paths != []
    ensures var s := StepOutcome(faults, t, log, files, ph, paths[0]);
      BatchOutcome(faults, t, log, files, ph, paths)
      == if s.err.Some? then s else Prepend(s.calls, BatchOutcome(faults, t + |s.calls|, s.log, files, ph, paths[1..]))
  {
    assert BatchOutcome(faults, t, log, files, ph, paths) == StepThenBatch(faults, t, log, files, ph, paths[0], paths[1..]);
  }

  /** A step never records a name the ledger already holds. */
  lemma StepKeepsLedgerUnique(faults: Faults, t: nat, log: seq<Stmt>, files: map<string, string>,
                              ph: string, path: string)
    requires NoSpuriousNoRows(faults) && Unique(Ledger(log))
    ensures Unique(Ledger(StepOutcome(faults, t, log, files, ph, path).log))
  {
    var s := StepOutcome(faults, t, log, files, ph, path);
    StepGrows(faults, t, log, files, ph, path);
    if Ledger(s.log) != Ledger(log) {
      AppendFresh(Ledger(log), SecondSegment(path).value);
    }
  }

  /** The batch never records a name twice. */
  lemma {:induction false} BatchKeepsLedgerUnique(faults: Faults, t: nat, log: seq<Stmt>, files: map<string, string>,
                                                  ph: string, paths: seq<string>)
    requires NoSpuriousNoRows(faults) && Unique(Ledger(log))
    ensures Unique(Ledger(BatchOutcome(faults, t, log, files, ph, paths).log))
    decreases |paths|
  {
    if paths != [] {
      var s := StepOutcome(faults, t, log, files, ph, paths[0]);
      BatchUnfold(faults, t, log, files, ph, paths);
      StepKeepsLedgerUnique(faults, t, log, files, ph, paths[0]);
      if s.err.None? {
        BatchKeepsLedgerUnique(faults, t + |s.calls|, s.log, files, ph, paths[1..]);
      }
    }
  }

  /** The batch only adds to the ledger and to the committed scripts. */
  lemma {:induction false} BatchOnlyGrows(faults: Faults, t: nat, log: seq<Stmt>, files: map<string, string>,
                                          ph: string, paths: seq<string>)
    requires NoSpuriousNoRows(faults)
    ensures var o := BatchOutcome(faults, t, log, files, ph, paths);
      Ledger(log) <= Ledger(o.log) && Effects(log) <= Effects(o.log)
    decreases |paths|
  {
    if paths != [] {
      var s := StepOutcome(faults, t, log, files, ph, paths[0]);
      BatchUnfold(faults, t, log, files, ph, paths);
      StepGrows(faults, t, log, files, ph, paths[0]);
      if s.err.None? {
        BatchOnlyGrows(faults, t + |s.calls|, s.log, files, ph, paths[1..]);
      }
    }
  }

  /** A step looks up the second segment of its path and nothing else; when
      it fails, it either panicked on a path without `/`, making no call, or
      the lookup was the only call it made; its error is never `ErrNoRows`. */
  lemma StepLookups(faults: Faults, t: nat, log: seq<Stmt>, files: map<string, string>, ph: string, path: string)
    ensures var s := StepOutcome(faults, t, log, files, ph, path);
      && Lookups(s.calls) == Looked(path)
      && ('/' !in path ==> s.err == Some(IndexOutOfRange) && s.calls == [])
      && ('/' in path && s.err.Some? ==> s.calls == [QueryRow(CheckQuery(ph), SecondSegment(path).value)])
      && s.err != Some(ErrNoRows)
  {
    assert |IndexOutOfRange.msg| != |ErrNoRows.msg|;
    if '/' in path {
      var name := SecondSegment(path).value;
      var check := QueryRow(CheckQuery(ph), name);
      var (migrated, err) := LookupOutcome(faults, t, log, name);
      assert err != Some(ErrNoRows);
      assert Lookups([check]) == [name];
      if err.None? && !migrated {
        var m := MigrateNamed(faults, t + 1, log, files, ph, path, name);
        if path in files {
          RunThenTrackLog(faults, t + 1, log, files[path], Record(TrackQuery(ph), name));
        }
        LookupsConcat([check], m.calls);
      }
    }
  }

  /** Whether `o` is what the loop over paths named `names` may return: a
      panic, or a failed lookup as its last call, and otherwise one lookup per
      name. */
  predicate LooksUp(o: Outcome, names: seq<string>)
  {
    && (o.err.None? ==> Lookups(o.calls) == names)
    && (o.err.Some? ==>
          && o.err != Some(ErrNoRows)
          && (o.err == Some(IndexOutOfRange) || (|o.calls| >= 1 && o.calls[|o.calls| - 1].QueryRow?)))
  }

  /** Calls that look up `name` alone, put before an outcome that looks up
      `names`, look up `name` and then `names`. */
  lemma PrependLooksUp(calls: seq<Call>, o: Outcome, name: string, names: seq<string>)
    requires Lookups(calls) == [name] && LooksUp(o, names)
    ensures LooksUp(Prepend(calls, o), [name] + names)
  {
    LookupsConcat(calls, o.calls);
    if o.err.Some? && o.err != Some(IndexOutOfRange) {
      assert (calls + o.calls)[|calls + o.calls| - 1] == o.calls[|o.calls| - 1];
    }
  }

  /** A failing migration does not stop the batch: the only errors the
      batch returns are a panic on a path without `/` and a failed lookup,
      as its last call; when there is none, every path held a `/` and every
      file was looked up by its second segment, in order. */
  lemma {:induction false} BatchLooksUpEachFile(faults: Faults, t: nat, log: seq<Stmt>, files: map<string, string>,
                                                ph: string, paths: seq<string>)
    ensures LooksUp(BatchOutcome(faults, t, log, files, ph, paths), Names(paths))
    ensures BatchOutcome(faults, t, log, files, ph, paths).err.None? ==> forall i :: 0 <= i < |paths| ==> '/' in paths[i]
    decreases |paths|
  {
    if paths != [] {
      var s := StepOutcome(faults, t, log, files, ph, paths[0]);
      var rest := BatchOutcome(faults, t + |s.calls|, s.log, files, ph, paths[1..]);
      BatchUnfold(faults, t, log, files, ph, paths);
      StepLookups(faults, t, log, files, ph, paths[0]);
      if s.err.None? {
        BatchLooksUpEachFile(faults, t + |s.calls|, s.log, files, ph, paths[1..]);
        PrependLooksUp(s.calls, rest, SecondSegment(paths[0]).value, Names(paths[1..]));
        if rest.err.None? {
          SlashedCons(paths);
        }
      }
    }
  }

  /** Every path of a non-empty list holds a `/` when its first one and all
      the others do. */
  lemma SlashedCons(paths: seq<string>)
    requires paths != [] && '/' in paths[0]
    requires forall i :: 0 <= i < |paths[1..]| ==> '/' in paths[1..][i]
    ensures forall i :: 0 <= i < |paths| ==> '/' in paths[i]
  {
    forall i | 0 < i < |paths|
      ensures '/' in paths[i]
    {
      assert paths[i] == paths[1..][i - 1];
    }
  }

  /** The name as `main` takes it: the second `/`-separated segment of the
      path, and an index-out-of-range panic (`None`) when there is no `/`. */
  function SecondSegment(path: string): (r: Option<string>)
    ensures r.None? <==> '/' !in path
    ensures r.Some? ==> '/' !in r.value
  {
    if '/' !in path then None
    else
      SplitAgainstSeparator(path);
      SplitPiecesFree(path, '/');
      Some(Split(path, '/')[1])
  }

  /** A path with a `/` splits into at least two pieces. */
  lemma SplitAgainstSeparator(path: string)
    requires '/' in path
    ensures |Split(path, '/')| >= 2
  {
    if |Split(path, '/')| == 1 {
      SplitSingle(path, '/');
      SplitPiecesFree(path, '/');
    }
  }

  /** For the paths the `-all` glob yields, `migrations/<file>`, the second
      segment is the file's name, the same as `GetMigrationName`. */
  lemma SecondSegmentOfGlobPath(fileName: string)
    requires '/' !in fileName
    ensures SecondSegment("migrations/" + fileName) == Some(fileName)
    ensures GetMigrationName("migrations/" + fileName) == fileName
  {
    assert "migrations/" + fileName == "migrations" + ['/'] + fileName;
    SplitPair("migrations", '/', fileName);
    NameOfPath("migrations", fileName);
  }

  /** A path under `./migrations` has `migrations` as its second segment,
      whatever file it names. */
  lemma SecondSegmentOfDotPath(fileName: string)
    requires '/' !in fileName
    ensures SecondSegment("./migrations/" + fileName) == Some("migrations")
    ensures GetMigrationName("./migrations/" + fileName) == fileName
  {
    var path := "./migrations/" + fileName;
    var tail := "migrations" + ['/'] + fileName;
    assert "./migrations/" == "." + ['/'] + "migrations" + ['/'];
    assert path == "." + ['/'] + tail;
    SplitAtFirstSeparator(".", '/', tail);
    SplitPair("migrations", '/', fileName);
    assert path == MigrationPath("./migrations", fileName);
    NameOfPath("./migrations", fileName);
  }

  /** With `-name ./migrations/<a>` the second segment is `migrations`, so
      once that file is migrated and recorded under it, `-name
      ./migrations/<b>` looks up the same name and skips the file although its
      script never ran; the last segment tells the two files apart. */
  lemma SecondSegmentConflates(a: string, b: string, files: map<string, string>, ph: string)
    requires '/' !in a && '/' !in b && a != b
    requires "./migrations/" + a in files && "./migrations/" + b in files
    requires files["./migrations/" + a] != files["./migrations/" + b]
    ensures SecondSegment("./migrations/" + a) == SecondSegment("./migrations/" + b) == Some("migrations")
    ensures var first := StepOutcome(map[], 0, [], files, ph, "./migrations/" + a);
      var second := StepOutcome(map[], |first.calls|, first.log, files, ph, "./migrations/" + b);
      && first.err.None? && Ledger(first.log) == ["migrations"]
      && Effects(first.log) == [files["./migrations/" + a]]
      && second == Outcome(None, [QueryRow(CheckQuery(ph), "migrations")], first.log)
      && files["./migrations/" + b] !in Effects(second.log)
    ensures GetMigrationName("./migrations/" + a) != GetMigrationName("./migrations/" + b)
  {
    var pa := "./migrations/" + a;
    SecondSegmentOfDotPath(a);
    SecondSegmentOfDotPath(b);
    var rec := Record(TrackQuery(ph), "migrations");
    assert LegacyOutcome(map[], 1, [], files, ph, pa) == RunThenTrack(map[], 1, [], files[pa], rec);
    RunThenTrackLog(map[], 1, [], files[pa], rec);
    LegacyProjections([], files[pa], TrackQuery(ph), "migrations");
    assert [] + [Script(files[pa]), rec] == [Script(files[pa]), rec];
  }

  /** The program's state: the placeholder `readConfig` selects. */
  class Program {
    var sqlPlaceholder: string

    constructor ()
      ensures sqlPlaceholder == ""
    {
      sqlPlaceholder := "";
    }

    /** `readConfig()`, given what reading and decoding `./config.json`
        produced. A known driver sets the placeholder to `?`; an unknown one
        leaves it alone and reports `LoadError`. */
    method ReadConfig(decoded: Result<Config>) returns (r: Result<Settings>)
      requires decoded.Ok? ==> HasDriver(decoded.value)
      modifies this
      ensures decoded.Err? ==> r == Err(decoded.error)
      ensures decoded.Ok? ==> r == LoadConfig(decoded.value)
      ensures sqlPlaceholder == if r.Ok? then "?" else old(sqlPlaceholder)
    {
      if decoded.Err? {
        return Err(decoded.error);
      }
      var config := decoded.value;
      if DriverOf(config) == DriverMySQL {
        sqlPlaceholder := "?";
        return Ok(Settings(DriverMySQL, LegacyDsn(config)));
      }
      return Err(LoadError);
    }

    /** `checkMigrated(name)`: the lookup with the selected placeholder. */
    method CheckMigrated(db: Database, name: string) returns (migrated: bool, err: Option<Error>)
      modifies db
      ensures db.log == old(db.log) && db.tx == old(db.tx)
      ensures db.trace == old(db.trace) + [QueryRow(CheckQuery(sqlPlaceholder), name)]
      ensures (migrated, err) == LookupOutcome(db.faults, |old(db.trace)|, old(db.log), name)
    {
      var scanErr := db.QueryRow(CheckQuery(sqlPlaceholder), name);
      if scanErr.Some? {
        if scanErr.value == ErrNoRows {
          return false, None;
        }
        return false, scanErr;
      }
      return true, None;
    }

    /** `trackMigration(name)`: the ledger insert in a transaction of its own. */
    method TrackMigration(db: Database, name: string) returns (err: Option<Error>)
      requires db.tx.None?
      modifies db
      ensures db.tx.None?
      ensures var o := ExecTxOutcome(db.faults, |old(db.trace)|, old(db.log), Record(TrackQuery(sqlPlaceholder), name));
        err == o.err && db.trace == old(db.trace) + o.calls && db.log == o.log
    {
      err := ExecTx(db, Record(TrackQuery(sqlPlaceholder), name));
    }

    /** `migrate(path)`. */
    method Migrate(db: Database, files: map<string, string>, path: string) returns (err: Option<Error>)
      requires db.tx.None?
      modifies db
      ensures db.tx.None?
      ensures var o := LegacyOutcome(db.faults, |old(db.trace)|, old(db.log), files, sqlPlaceholder, path);
        err == o.err && db.trace == old(db.trace) + o.calls && db.log == o.log
    {
      var segment := SecondSegment(path);
      if segment.None? {
        return Some(IndexOutOfRange);
      }
      var name := segment.value;
      var sql := ReadFile(files, path);
      if sql.Err? {
        return Some(sql.error);
      }
      err := ExecTx(db, Script(sql.value));
      if err.Some? {
        return;
      }
      err := TrackMigration(db, name);
    }

    /** One file of `-name` or `-all`; a returned error is the fatal one. */
    method Visit(db: Database, files: map<string, string>, path: string) returns (err: Option<Error>)
      requires db.tx.None?
      modifies db
      ensures db.tx.None?
      ensures var o := StepOutcome(db.faults, |old(db.trace)|, old(db.log), files, sqlPlaceholder, path);
        err == o.err && db.trace == old(db.trace) + o.calls && db.log == o.log
    {
      ghost var t, log := |db.trace|, db.log;
      var segment := SecondSegment(path);
      if segment.None? {
        return Some(IndexOutOfRange);
      }
      var name := segment.value;
      var migrated;
      migrated, err := CheckMigrated(db, name);
      if err.Some? {
        return;
      }
      if !migrated {
        assert |db.trace| == t + 1 && db.log == log;
        StepMigrates(db.faults, t, log, files, sqlPlaceholder, path, name);
        var ignored := Migrate(db, files, path);
      }
    }

    /** `Visit` as one pass of the `-all` loop: the loop over `[path]`. */
    method VisitOne(db: Database, files: map<string, string>, path: string) returns (err: Option<Error>)
      requires db.tx.None?
      modifies db
      ensures db.tx.None?
      ensures var o := BatchOutcome(db.faults, |old(db.trace)|, old(db.log), files, sqlPlaceholder, [path]);
        err == o.err && db.trace == old(db.trace) + o.calls && db.log == o.log
    {
      assert [path][0] == path && [path][1..] == [];
      assert BatchOutcome(db.faults, |db.trace|, db.log, files, sqlPlaceholder, [path])
          == StepThenBatch(db.faults, |db.trace|, db.log, files, sqlPlaceholder, path, []);
      err := Visit(db, files, path);
    }

    /** The `-all` loop over the glob result `paths`, in order. */
    method RunAll(db: Database, files: map<string, string>, paths: seq<string>) returns (err: Option<Error>)
      requires db.tx.None?
      modifies db
      ensures db.tx.None?
      ensures var o := BatchOutcome(db.faults, |old(db.trace)|, old(db.log), files, sqlPlaceholder, paths);
        err == o.err && db.trace == old(db.trace) + o.calls && db.log == o.log
    {
      ghost var total := BatchOutcome(db.faults, |db.trace|, db.log, files, sqlPlaceholder, paths);
      ghost var done: seq<Call> := [];
      var i := 0;
      while i < |paths|
        invariant i <= |paths| && db.tx.None?
        invariant db.trace == old(db.trace) + done
        invariant total == Prepend(done, BatchOutcome(db.faults, |db.trace|, db.log, files, sqlPlaceholder, paths[i..]))
      {
        ghost var s := BatchOutcome(db.faults, |db.trace|, db.log, files, sqlPlaceholder, [paths[i]]);
        BatchSplit(db.faults, |db.trace|, db.log, files, sqlPlaceholder, paths, i);
        err := VisitOne(db, files, paths[i]);
        if err.Some? {
          return;
        }
        done := done + s.calls;
        i := i + 1;
      }
      err := None;
    }
  }


  /** `generateMigration(name)` with the clock reading `timestamp`: create
      `./migrations` when it is missing, then write
      `./migrations/<timestamp>_<name>.sql` holding its own name as a comment. */
  method CreateMigration(fs: FileSystem, name: string, timestamp: int) returns (err: Option<Error>)
    requires fs.Valid()
    modifies fs
    ensures fs.Valid()
    ensures var missing := MigrationsDir !in old(fs.Existing());
      var fileName := GenerateMigrationName(timestamp, name);
      if missing && At(fs.faults, old(fs.ops)).Some? then
        err == At(fs.faults, old(fs.ops)) && fs.dirs == old(fs.dirs) && fs.files == old(fs.files)
        && fs.ops == old(fs.ops) + 1
      else
        && fs.ops == old(fs.ops) + (if missing then 2 else 1)
        && fs.dirs == (if missing then old(fs.dirs) + {MigrationsDir} else old(fs.dirs))
        && err == At(fs.faults, if missing then old(fs.ops) + 1 else old(fs.ops))
        && fs.files == if err.None? then old(fs.files)[MigrationPath(MigrationsDir, fileName) := MigrationContent(fileName)]
                       else old(fs.files)
  {
    var migrationName := GenerateMigrationName(timestamp, name);
    if MigrationsDir !in fs.Existing() {
      err := fs.Mkdir(MigrationsDir);
      if err.Some? {
        return;
      }
    }
    var content := MigrationContent(migrationName);
    var fileName := MigrationPath(MigrationsDir, migrationName);
    err := fs.WriteFile(fileName, content);
  }
}
