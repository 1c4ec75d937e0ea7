# gomi, modelled in Dafny

gomi is a small command-line tool, written in Go, that applies schema
migrations to MySQL and Postgres databases. A migration is a
`.sql` file named `<unix-timestamp>_<name>.sql`. gomi records every
migration it has applied in a ledger table, `migrations`, keyed by the
file's name, and it refuses to apply a name that is already there.

This project models gomi's core. It covers the following pieces:

- **The file helpers of `utils/migration_helpers.go`:**
  - generating a migration file's name and contents;
  - taking a migration's name from its path;
  - reading a migration file;
  - locating or creating the migrations directory.
- **The transactional executor of `utils/sql.go`:** begin, execute, then
  roll back or commit.
- **The two drivers, `drivers/mysql` and `drivers/postgres`.**
  - Each builds its DSN from the decoded `config.json`.
  - Each initialises a package-level driver value in place.
  - Each applies one migration with the apply-and-record protocol:
    1. read the file;
    2. look its name up in the ledger;
    3. refuse it if it is there;
    4. otherwise begin a transaction, run the file's statements, insert the
       ledger row and commit;
    5. roll back on any failure.

    MySQL sends the whole file as one statement, since its DSN enables
    multi-statement mode. Postgres cuts the file at every `;` and runs the
    pieces in order.
- **The dispatch of `drivers/driver.go`** on the configuration's `driver`
  field.
- **The command-line runner of `main.go`:**
  - `readConfig`;
  - the ledger lookup `checkMigrated`;
  - the ledger insert `trackMigration` and `execSql`;
  - `migrate`;
  - `generateMigration` (the `-new` mode);
  - the `-name` mode, which handles one file;
  - the `-all` mode, which loops over `./migrations/*.sql`.

The database is modelled as an abstract transactional store
(`Store.Database`). It holds four things:

- the committed statements (`log`);
- the open transaction's buffer (`tx`);
- every call made so far (`trace`);
- a failure schedule fixed in advance (`faults`). The call at trace position
  `k` fails with `faults[k]` when `k` is scheduled.

SQL text is opaque. The only statement whose effect the store interprets is
the ledger insert: `Ledger(log)` is the list of recorded names, and
`Effects(log)` the list of committed scripts. The filesystem
(`Files.FileSystem`) follows the same scheme: its directories and files are
updated in place, and `os.Mkdir` and `ioutil.WriteFile` fail as scheduled.

Each operation that changes state is a method on these classes. Each is
proved equal to a pure outcome function that gives the error it returns,
the calls it makes in order, and the committed statements afterwards:

| outcome function | operation |
|---|---|
| `SqlUtils.ExecTxOutcome` | `ExecTx` |
| `Protocol.MigrateOutcome` | both drivers' `Migrate` |
| `Gomi.LegacyOutcome` | `migrate` |
| `Gomi.StepOutcome` | one file of `-name`/`-all` |
| `Gomi.BatchOutcome` | the `-all` loop |

The properties are lemmas about those functions.

Several behaviours of the code are easy to miss; the model follows the
code in each:

- **The `-all` loop keeps going after a migration fails.** The error of
  `migrate` is dropped. Only a failing ledger lookup (`log.Fatal`) or a
  path without `/` (a runtime panic) stops the run. See
  `Gomi.BatchLooksUpEachFile`.
- **A failing rollback masks the original error.** When the drivers' rollback
  fails, `Migrate` returns the rollback's error, not the statement's (see
  `Protocol.TxErrorPrecedence`). `ExecTx` and `execSql` return the
  statement's error either way.
- **No configuration reaches the Postgres driver.** `GetDriverFromConfig`
  knows only `mysql`, so `postgres` and `pgx` are refused (see
  `Drivers.PostgresUnreachable`).
- **`main.go`'s `migrate` uses two separate transactions,** one for the script
  and one for the ledger insert. A failing insert therefore leaves the script
  applied but unrecorded (see `Gomi.LegacyTwoTransactions`).
- **`main.go`'s DSN lacks `?multiStatements=true`.** The MySQL driver's DSN has
  it (see `Gomi.LoadConfig`).

The drivers call four helpers around an open transaction: `utils.BeginTx`,
`utils.ExecTx(tx, sql)`, `utils.RollbackTx` and `utils.CommitTx`.
`utils/sql.go` defines `ExecTx` only for a `*sql.DB`, and the other three not
at all. The four calls are therefore modelled as the transaction's own
`Begin`, `Exec`, `Rollback` and `Commit`.

## Model

| member | source | states |
|---|---|---|
| MigrationHelpers.GenerateMigrationName | utils/migration_helpers.go:14-17 | the generated name ends in `.sql`, and it holds no `/` when the user-supplied name holds none |
| MigrationHelpers.ReadMigration | utils/migration_helpers.go:32-34 | reading succeeds exactly for an existing path and yields its contents; otherwise the not-found error |
| MigrationHelpers.GetMigrationName | utils/migration_helpers.go:36-39 | the name holds no `/` and is a suffix of the path |
| MigrationHelpers.GeneratedNameKeepsTimestamp | utils/migration_helpers.go:14-17 | a generated name ends in `.sql` and its text before the first `_` parses back to the timestamp, whatever the user-supplied name holds |
| MigrationHelpers.GenerateMigration | utils/migration_helpers.go:19-30 | on success the file `dir/<timestamp>_<name>.sql` holds `-- Migration name: <file name>`; on failure the files are unchanged and the error is returned; directories never change |
| MigrationHelpers.NameIsLastSegment | utils/migration_helpers.go:36-39 | the migration name is the suffix after the path's last `/`: it holds no `/`, and it is the whole path or is preceded by `/` |
| MigrationHelpers.NameOfPlainFile | utils/migration_helpers.go:36-39 | a path without `/` is its own name |
| MigrationHelpers.GetMigrationNameIdempotent | utils/migration_helpers.go:36-39 | taking the name of a name changes nothing |
| MigrationHelpers.NameOfPath | utils/migration_helpers.go:36-39 | the name of `dir/<file>` is `<file>` when the file name has no `/` |
| MigrationHelpers.GeneratedFileName | utils/migration_helpers.go:20-38 | a generated migration file is found again under exactly its generated name |
| Files.ReadFile | main.go:227 | reading succeeds exactly for an existing path and yields its contents; otherwise the not-found error |
| MigrationHelpers.CreateDirectory | utils/migration_helpers.go:68-74 | `CreateDir` returns the directory and adds it when `os.Mkdir` succeeds, and `""` with the error otherwise |
| MigrationHelpers.SetupMigrationsDirAsWritten | utils/migration_helpers.go:49-66 | `SetupMigrationsDir` as written: a non-empty dir yields its absolute form, created if missing; the empty dir tests the empty path and so always tries to create `../migrations` |
| MigrationHelpers.SetupAsWrittenFailsOnExistingDefault | utils/migration_helpers.go:60-65 | as written, the empty dir fails with `file exists` once `../migrations` exists |
| MigrationHelpers.SetupMigrationsDir | utils/migration_helpers.go:49-66 | the corrected setup: the empty dir uses `../migrations`, created only when missing |
| MigrationHelpers.SetupIntendedRule | utils/migration_helpers.go:49-66 | the corrected setup returns a failing `filepath.Abs` error with no directory; otherwise it yields the absolute or default directory, creating it only when missing and reporting only the `os.Mkdir` error |
| SqlUtils.ExecTx | utils/sql.go:8-26 | `ExecTx` makes exactly the calls and commits exactly the statement that `ExecTxOutcome` gives, and leaves no transaction open |
| SqlUtils.ExecTxErrorPrecedence | main.go:126-144 | `execSql`/`ExecTx` report a failing begin before any statement runs, and the statement's error even when the rollback fails too; otherwise the commit's error |
| SqlUtils.ExecTxAtomic | utils/sql.go:14-25 | the statement is committed exactly when no error is returned; otherwise nothing changes |
| SqlUtils.ExecTxEndsTransaction | utils/sql.go:14-25 | once `Begin` succeeds, exactly one of `Commit` and `Rollback` ends the transaction, `Rollback` exactly when the statement failed |
| Drivers.SelectBackend | drivers/driver.go:17-25 | the MySQL backend is selected exactly when `driver` is `mysql`; anything else gives the could-not-get-driver error |
| Drivers.SelectionIgnoresOtherFields | drivers/driver.go:17-25 | two configurations with the same `driver` field select the same backend: no other field is consulted |
| Drivers.PostgresUnreachable | drivers/driver.go:20-24 | no configuration selects Postgres; `postgres` and `pgx` are refused |
| Drivers.GetDriverFromConfig | drivers/driver.go:17-25 | `mysql` initialises the package-level MySQL driver from the configuration; anything else returns `nil` and the error and changes nothing |
| MySql.ParseConfig | drivers/mysql/mysql.go:22-33 | the DSN starts with `username:password@` and ends with `?multiStatements=true` |
| MySql.DsnLayout | drivers/mysql/mysql.go:22-33 | when no field holds `@` or `?`, the DSN splits at `@` into exactly the credentials and the rest, and at `?` into exactly the address and `multiStatements=true` |
| MySql.Driver.InitDriver | drivers/mysql/mysql.go:39-50 | DSN and driver name are set even when opening fails; the pool is set, and the driver copied into the package-level value, only on success |
| MySql.GetDriver | drivers/mysql/mysql.go:52-58 | returns a pointer to the initialised package-level driver, or `nil` and the open error |
| MySql.Driver.CheckMigrated | drivers/mysql/mysql.go:73-91 | one lookup call, nothing committed; `ErrNoRows` means not migrated, another error is returned, a row means migrated |
| MySql.Driver.TrackMigration | drivers/mysql/mysql.go:93-102 | the ledger row with the `?` placeholder joins the open transaction when its execution succeeds |
| MySql.Driver.Migrate | drivers/mysql/mysql.go:104-153 | `Migrate` makes exactly the calls, returns exactly the error and commits exactly what the shared protocol gives for MySQL, and leaves no transaction open |
| MySql.Driver.MigrateFile | drivers/mysql/mysql.go:111-118 | after the read, the lookup decides: a lookup error or an applied name ends the call, otherwise the transaction runs |
| MySql.Driver.Apply | drivers/mysql/mysql.go:120-152 | the transaction runs the whole file as one statement, then the ledger insert, then commits; a failure rolls back and returns the rollback's error if that fails too |
| MySql.Driver.constructor | drivers/mysql/mysql.go:20 | the package-level driver starts as the zero value |
| Postgres.ParseConfig | drivers/postgres/postgres.go:33-44 | `parseConfig`: when no value holds a space, the DSN splits at spaces into exactly the six `key=value` settings, in order |
| Postgres.Driver.InitDriver | drivers/postgres/postgres.go:50-66 | DSN and driver name `pgx` are set even when opening fails; the pool and the package-level copy only on success |
| Postgres.GetDriver | drivers/postgres/postgres.go:68-74 | returns a pointer to the initialised package-level driver, or `nil` and the open error |
| Postgres.Driver.CheckMigrated | drivers/postgres/postgres.go:91-109 | one lookup call with `$1`, nothing committed; `ErrNoRows` means not migrated, another error is returned |
| Postgres.Driver.TrackMigration | drivers/postgres/postgres.go:111-120 | the ledger row with the `$1` placeholder joins the open transaction when its execution succeeds |
| Postgres.Driver.Migrate | drivers/postgres/postgres.go:122-175 | `Migrate` makes exactly the calls, returns exactly the error and commits exactly what the shared protocol gives for Postgres |
| Postgres.Driver.MigrateFile | drivers/postgres/postgres.go:129-139 | after the read, the lookup decides, and the file is cut at every `;` before the transaction |
| Postgres.Driver.Apply | drivers/postgres/postgres.go:141-174 | the loop runs the statements in order inside one transaction, stopping at the first failure with a rollback; its invariant ties the state after each statement to the protocol |
| Postgres.Driver.Conclude | drivers/postgres/postgres.go:161-172 | after the last statement: the ledger insert, then the commit; a failure rolls back |
| Protocol.CheckAgreesWithLedger | drivers/mysql/mysql.go:82-90 | without a fault the lookup answers exactly whether the name is in the ledger; any other fault is returned as the error |
| Protocol.StepsAllOrNothing | drivers/postgres/postgres.go:147-172 | inside the transaction, every statement and the ledger row are committed when no error is reported, and nothing otherwise |
| Protocol.TxAllOrNothing | drivers/mysql/mysql.go:120-152 | the transaction commits the file's statements and one ledger row when it reports no error, and nothing otherwise |
| Protocol.StepsSucceedExactly | drivers/postgres/postgres.go:147-172 | no error is reported exactly when every call inside the transaction succeeds: one per statement, the insert and the commit |
| Protocol.StepsEndTransaction | drivers/postgres/postgres.go:141-172 | once begun, the transaction ends with exactly one `Commit` or `Rollback`, as its last call, and with `Commit` on success |
| Protocol.UnreadableFileTouchesNothing | drivers/mysql/mysql.go:104-109 | an unreadable file is reported with no database call, applied or not |
| Protocol.AppliedMigrationIsRefused | drivers/mysql/mysql.go:111-118 | a name already in the ledger is refused after the lookup alone, with the backend's message, and nothing changes |
| Protocol.FailedMigrationLeavesNoTrace | drivers/mysql/mysql.go:120-150 | a migration that reports an error commits nothing, neither statements nor ledger row |
| Protocol.SuccessfulMigrationCommitsAtomically | drivers/mysql/mysql.go:104-153 | a successful migration was not in the ledger, and commits its statements and exactly one ledger row for its name, together |
| Protocol.MigrateAtMostOnce | drivers/postgres/postgres.go:122-175 | a duplicate-free ledger stays duplicate-free |
| Protocol.RerunIsRefused | drivers/postgres/postgres.go:129-137 | after a success, running the same file again is refused and changes nothing |
| Protocol.StepsErrorPrecedence | drivers/postgres/postgres.go:147-172 | when the first failing call after `Begin` is a statement or the ledger insert, the error returned is the rollback's if the rollback fails too and the failing call's otherwise, with `Rollback` as last call; when none fails, it is the commit's, with `Commit` as last call |
| Protocol.TxErrorPrecedence | drivers/mysql/mysql.go:120-150 | a failing `Begin` is returned with no other call; a later first failure returns the rollback's error when the rollback fails too and its own otherwise, ending with `Rollback`; without one, the commit's error, ending with `Commit` |
| Protocol.StepsRunInOrder | drivers/postgres/postgres.go:147-159 | the statements executed are the next ones in file order, all of them on success |
| Protocol.StepsStopAtFailure | drivers/postgres/postgres.go:147-159 | every statement executed but the last succeeded, and when not all ran, the last one executed failed |
| Protocol.TxRunsInOrder | drivers/postgres/postgres.go:141-159 | from `Begin` on, the scripts executed are a prefix of the statements, all of them on success, stopping at the failing one |
| Protocol.FragmentsRunInOrder | drivers/postgres/postgres.go:139-159 | the file's `;`-separated statements run in file order, as a prefix that stops exactly at the failing one |
| Gomi.LoadConfig | main.go:45-62 | a configuration loads exactly when `driver` is `mysql`; its DSN is the driver's DSN without `?multiStatements=true`; otherwise `Could not load config` |
| Gomi.LegacyDsn | main.go:51-58 | the runner's DSN followed by `?multiStatements=true` is exactly the MySQL driver's DSN |
| Gomi.Program.ReadConfig | main.go:29-63 | a read or decode error is returned; otherwise the result is `LoadConfig`'s, and the placeholder becomes `?` exactly when loading succeeds |
| Gomi.Program.CheckMigrated | main.go:192-211 | one lookup call with the selected placeholder, nothing committed; its answer is the ledger lookup's |
| Gomi.Program.TrackMigration | main.go:213-223 | the ledger insert runs as a transaction of its own |
| Gomi.Program.Migrate | main.go:225-245 | `migrate` panics on a path without `/`, and otherwise makes exactly the calls and commits exactly what its two-transaction outcome gives, recording the path's second segment |
| Gomi.RunThenTrackLog | main.go:233-241 | nothing is committed when the script's transaction fails, the script alone when only the insert fails, script then ledger row on success; no lookup is made |
| Gomi.LegacyTwoTransactions | main.go:225-245 | a path without `/` panics and an unreadable file fails, both touching nothing; otherwise the script is committed exactly when its own transaction succeeds, and the path's second segment is recorded exactly when both succeed |
| Gomi.StepDecision | main.go:280-291 | a path without `/` panics before any call; otherwise its second segment is looked up first: a failing lookup is fatal and is the result; an applied name is skipped with no further call; a pending one is migrated and its error dropped |
| Gomi.StepMigrates | main.go:281-287 | for a pending name, the step is its lookup followed by exactly `migrate` |
| Gomi.StepGrows | main.go:299-311 | one file adds at most its own name, the second segment of its path, to the ledger, only when the ledger lacked it, and only adds committed scripts |
| Gomi.StepKeepsLedgerUnique | main.go:299-311 | one file never records a name the ledger already holds |
| Gomi.Program.Visit | main.go:280-291 | one file of `-name`/`-all` makes exactly the calls and commits exactly what the step outcome gives |
| Gomi.Program.VisitOne | main.go:300-310 | one pass of the `-all` loop makes exactly the calls and commits exactly what the loop over that single path gives |
| Gomi.Program.RunAll | main.go:293-312 | the `-all` loop makes exactly the calls, returns exactly the error and commits exactly what the batch outcome over all paths gives |
| Gomi.BatchConcat | main.go:299-311 | the loop over `front + back` is the loop over `front` followed, unless that failed fatally, by the loop over `back` from where it left off; after a fatal error no later path is visited |
| Gomi.BatchSplit | main.go:299-311 | from pass `i` on, the loop is pass `i` alone and then, unless it failed fatally, the passes after it |
| Gomi.BatchKeepsLedgerUnique | main.go:299-311 | the `-all` loop never records a name twice |
| Gomi.BatchOnlyGrows | main.go:299-311 | the `-all` loop only adds to the ledger and to the committed scripts |
| Gomi.StepLookups | main.go:300-310 | one file looks up its path's second segment and nothing else; a path without `/` panics with no call; a failing step on a path with `/` made the lookup alone; the error is never `ErrNoRows` |
| Gomi.BatchLooksUpEachFile | main.go:299-311 | a failing migration does not stop the loop: without a fatal error every path held a `/` and every file was looked up by its second segment, in order; the only errors returned are that panic and a failed lookup, as the last call |
| Gomi.SecondSegment | main.go:226 | the name as `main.go` takes it, the second `/`-separated segment, exists exactly when the path has a `/` and holds no `/` |
| Gomi.SecondSegmentOfGlobPath | main.go:294-300 | for the `migrations/<file>` paths the glob yields, the second segment and the last segment agree |
| Gomi.SecondSegmentOfDotPath | main.go:281 | for `./migrations/<file>` the second segment is `migrations`, whatever the file |
| Gomi.SecondSegmentConflates | main.go:281-287 | without faults, `-name ./migrations/<a>` migrates and records `migrations`; `-name ./migrations/<b>` then looks up `migrations`, skips the file, and its script never runs; the last segment tells the two apart |
| Gomi.CreateMigration | main.go:173-190 | `-new` creates `./migrations` only when missing and stops if that fails, then writes the named file holding its own name; the error returned is the failing call's |

## Left out

- The `init` command of `main.go` runs the fixed DDL of `initMigrationsSql` through `execSql`, which is the transaction `SqlUtils.ExecTx` models; the command itself is not modelled separately, since SQL text is opaque to the store and the DDL's effect (creating the ledger table) is not represented.
- `InitMigrationTable` of both drivers runs fixed DDL through `utils.Exec`, which is not part of this model.
- `utils.BeginTx`, `utils.RollbackTx`, `utils.CommitTx` and `utils.Exec` are not part of this model. The drivers' calls to them and to `utils.ExecTx(tx, …)` are modelled as the transaction's `Begin`, `Rollback`, `Commit` and `Exec`.
- `QuerySingle` and `querySingleSql` are folded into the lookups as one `QueryRow` call. `QueryAll` and `querySql` are never called.
- `CloseConn` and `db.Close()`, the Postgres pool settings (`SetMaxIdleConns`, `SetMaxOpenConns`, `SetConnMaxLifetime`) and `PGError` have no effect on what is modelled.
- The `Driver` interface of `drivers/driver.go` (`GetDB`, `GetSqlPlaceholder`): neither driver defines those methods, and dispatch is modelled directly.
- I/O outside the store and filesystem is given as parameters:
  - `sql.Open` is given as a connection and an error;
  - reading and decoding `config.json` is given as its decoded result;
  - `filepath.Abs` is given as its result;
  - `filepath.Glob` is given as the list of paths. Its error case cannot arise with the constant pattern.
  - The clock is given as the Unix timestamp.
- Flag parsing, `CheckParams`, `PrintUsage`, `os.Exit` and logging are left out. `log.Fatal` is modelled as the fatal error the runner returns. `main()` runs its modes in sequence; each mode is modelled on its own.
- `os.Stat` errors other than not-exist are not modelled. A path exists exactly when it is a known directory or file.
- Type-assertion panics on a missing or non-string `driver` are excluded by the precondition `HasDriver`.
- Go's `%s` rendering of non-string JSON values is carried as text (`Core.Value.NonString`), not computed.
- Query texts are modelled with their whitespace collapsed to single spaces.
- Timestamps are unbounded integers; the 64-bit range of `Unix()` is not modelled.
- Store.Database.Commit: the store assumes every statement is transactional and that a failed `Commit` commits nothing. MySQL commits DDL implicitly, so a `CREATE TABLE` followed by a failing ledger insert keeps the table; and a commit that fails on a broken connection leaves the outcome unknown. The failure halves of Protocol.FailedMigrationLeavesNoTrace, Protocol.TxAllOrNothing, Protocol.StepsAllOrNothing and SqlUtils.ExecTxAtomic hold only under these assumptions.
- Gomi.StepDecision, Gomi.StepGrows, Gomi.StepKeepsLedgerUnique, Gomi.BatchKeepsLedgerUnique and Gomi.BatchOnlyGrows assume `NoSpuriousNoRows`: the database never injects `sql.ErrNoRows` for a name it holds. Go compares that sentinel by identity, and only an empty result produces it.
- Protocol.SuccessfulMigrationCommitsAtomically, Protocol.MigrateAtMostOnce and Protocol.RerunIsRefused assume the same of their single lookup.
- Gomi.Program.Migrate, Gomi.Program.Visit, Gomi.LegacyTwoTransactions, Gomi.StepDecision, Gomi.StepLookups and Gomi.BatchLooksUpEachFile: the runtime panic of `strings.Split(path, "/")[1]` on a path without `/` is modelled as the fatal error `Gomi.IndexOutOfRange`, returned before any call; the stack trace and exit status are not modelled.
- Files.ReadFile: the only read error modelled is `open <path>: no such file or directory`. A directory is not in `files`, so reading one (`-name ./migrations`, say) fails with that text where Go reports `read <path>: is a directory`; a permission error on an existing file is not modelled. The control flow on a read error is the same; only the error text differs.
- Files.FileSystem.Mkdir and Files.FileSystem.WriteFile: a missing parent directory (`ENOENT`) and writing to a path that is a directory (`EISDIR`) are not derived from the directory tree; they appear only as scheduled faults.

## Findings

| source | as written | input that shows it | evidently intended | confidence | as-written member | corrected member |
|---|---|---|---|---|---|---|
| utils/migration_helpers.go:60-65 | for the empty `dir`, the existence test is made on `dir` itself, the empty path, which never exists, so `../migrations` is always created anew | `SetupMigrationsDir("")` when `../migrations` already exists returns `mkdir ../migrations: file exists` | test and create `../migrations`, using it when it exists | high, not executed | MigrationHelpers.SetupMigrationsDirAsWritten, MigrationHelpers.SetupAsWrittenFailsOnExistingDefault | MigrationHelpers.SetupMigrationsDir, MigrationHelpers.SetupIntendedRule |
| main.go:226 | `migrate`, `-name` and `-all` take a migration's name as `strings.Split(path, "/")[1]`, the second segment | `-name ./migrations/1_a.sql` records the name `migrations`; afterwards `./migrations/2_b.sql` looks up as applied and is never run; `-name 1_a.sql` panics | the last segment, as the drivers' `GetMigrationName` takes it | high, not executed | Gomi.SecondSegment, Gomi.SecondSegmentConflates | MigrationHelpers.GetMigrationName, MigrationHelpers.NameIsLastSegment |
