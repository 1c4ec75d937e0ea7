/** The Postgres driver (`pgx`): its DSN, its package-level driver value,
    and the apply-and-record protocol with the file cut at every `;` and the
    pieces run in order inside one transaction. */
module Postgres {
  import opened Core
  import opened Strings
  import opened Store
  import opened MigrationHelpers
  import opened Protocol

  /** The `database/sql` driver name. */
  const DriverName := "pgx"

  /** The six DSN settings, in order, each as `key=value`. */
  function Settings(config: Config): (settings: seq<string>)
    ensures |settings| == 6
  {
    [ "host=" + Field(config, "host"), "port=" + Field(config, "port"),
      "user=" + Field(config, "username"), "password=" + Field(config, "password"),
      "dbname=" + Field(config, "dbname"), "sslmode=" + Field(config, "sslmode") ]
  }

  /** `parseConfig(config)`:
      `host=H port=P user=U password=W dbname=D sslmode=S`. */
  function ParseConfig(config: Config): (dsn: string)
    ensures ValuesWithoutSpaces(config) ==> Split(dsn, ' ') == Settings(config)
  {
    SettingsSplitBack(config);
    Join(Settings(config), ' ')
  }

  /** No setting's value holds a space. */
  predicate ValuesWithoutSpaces(config: Config)
  {
    && ' ' !in Field(config, "host") && ' ' !in Field(config, "port")
    && ' ' !in Field(config, "username") && ' ' !in Field(config, "password")
    && ' ' !in Field(config, "dbname") && ' ' !in Field(config, "sslmode")
  }

  /** When no value holds a space, the settings joined by spaces split back
      into exactly the six settings, in order. */
  lemma SettingsSplitBack(config: Config)
    ensures ValuesWithoutSpaces(config) ==> Split(Join(Settings(config), ' '), ' ') == Settings(config)
  {
    if ValuesWithoutSpaces(config) {
      var settings := Settings(config);
      forall i | 0 <= i < |settings|
        ensures ' ' !in settings[i]
      {
      }
      SplitJoin(settings, ' ');
    }
  }

  /** The driver struct: its `database/sql` driver name, its DSN and its
      connection pool (`nil` until initialised). */
  class Driver {
    var driverName: string
    var dsn: string
    var db: Database?

    /** The zero value, which the package-level `PGDriver` starts as. */
    constructor ()
      ensures driverName == "" && dsn == "" && db == null
    {
      driverName := "";
      dsn := "";
      db := null;
    }

    /** `InitDriver(config)`. `global` is the package-level `PGDriver`,
        and `sql.Open` is given as its result `conn` and error `openErr`. The
        DSN and driver name are assigned before opening, so they change even
        when opening fails; only on success is the pool set and the whole
        driver copied into `global`. The pool tuning that follows a
        successful open is not part of this model. */
    method InitDriver(config: Config, conn: Database, openErr: Option<Error>, global: Driver)
      returns (err: Option<Error>)
      modifies this, global
      ensures err == openErr
      ensures dsn == ParseConfig(config) && driverName == DriverName
      ensures db == if openErr.None? then conn else old(db)
      ensures openErr.None? ==> global.dsn == dsn && global.driverName == driverName && global.db == conn
      ensures openErr.Some? && global != this ==> unchanged(global)
    {
      dsn := ParseConfig(config);
      driverName := DriverName;
      if openErr.Some? {
        return openErr;
      }
      db := conn;
      global.driverName := driverName;
      global.dsn := dsn;
      global.db := db;
      return None;
    }

    /** `CheckMigrated(name)`: `ErrNoRows` means not migrated, another scan
        error is returned, a row means migrated. */
    method CheckMigrated(name: string) returns (migrated: bool, err: Option<Error>)
      requires db != null
      modifies db
      ensures db.log == old(db.log) && db.tx == old(db.tx)
      ensures db.trace == old(db.trace) + [QueryRow(CheckQuery(Placeholder(PostgreSQL)), name)]
      ensures (migrated, err) == Migrated(ScanOutcome(At(db.faults, |old(db.trace)|), old(db.log), name))
    {
      var scanErr := db.QueryRow(CheckQuery(Placeholder(PostgreSQL)), name);
      if scanErr.Some? {
        if scanErr.value == ErrNoRows {
          return false, None;
        }
        return false, scanErr;
      }
      return true, None;
    }

    /** `TrackMigration(tx, name)`: the ledger insert inside the open transaction. */
    method TrackMigration(name: string) returns (err: Option<Error>)
      requires db != null && db.tx.Some?
      modifies db
      ensures err == At(db.faults, |old(db.trace)|)
      ensures db.log == old(db.log)
      ensures db.trace == old(db.trace) + [Exec(Record(TrackQuery(Placeholder(PostgreSQL)), name))]
      ensures db.tx == if err.None? then Some(old(db.tx).value + [Record(TrackQuery(Placeholder(PostgreSQL)), name)])
                       else old(db.tx)
    {
      err := db.Exec(Record(TrackQuery(Placeholder(PostgreSQL)), name));
    }

    /** `Migrate(path)`: exactly the Postgres instance of the shared
        protocol, and the transaction is closed afterwards. */
    method Migrate(files: map<string, string>, path: string) returns (err: Option<Error>)
      requires db != null && db.tx.None?
      modifies db
      ensures db.tx.None?
      ensures var o := MigrateOutcome(PostgreSQL, db.faults, |old(db.trace)|, old(db.log), files, path);
        err == o.err && db.trace == old(db.trace) + o.calls && db.log == o.log
    {
      var name := GetMigrationName(path);
      var migration := ReadMigration(files, path);
      if migration.Err? {
        return Some(migration.error);
      }
      err := MigrateFile(name, migration.value);
    }

    /** The rest of `Migrate` once the file is read: look the name up in the
        ledger, refuse an applied migration, and apply it otherwise. */
    method MigrateFile(name: string, sql: string) returns (err: Option<Error>)
      requires db != null && db.tx.None?
      modifies db
      ensures db.tx.None?
      ensures var o := CheckedOutcome(PostgreSQL, db.faults, |old(db.trace)|, old(db.log), name, Fragments(PostgreSQL, sql));
        err == o.err && db.trace == old(db.trace) + o.calls && db.log == o.log
    {
      var migrated;
      migrated, err := CheckMigrated(name);
      if err.Some? {
        return;
      }
      if migrated {
        return Some(AlreadyMigrated(PostgreSQL, name));
      }
      var statements := Split(sql, ';');
      err := Apply(name, statements);
    }

    /** The transaction of `Migrate`: begin, run the statements one by one,
        insert the ledger row, commit; the first failure rolls back. */
    method Apply(name: string, statements: seq<string>) returns (err: Option<Error>)
      requires db != null && db.tx.None?
      modifies db
      ensures db.tx.None?
      ensures var o := TxOutcome(PostgreSQL, db.faults, |old(db.trace)|, old(db.log), name, statements);
        err == o.err && db.trace == old(db.trace) + o.calls && db.log == o.log
    {
      ghost var log, rec := db.log, Track(PostgreSQL, name);
      ghost var target := TxOutcome(PostgreSQL, db.faults, |db.trace|, log, name, statements);
      err := db.Begin();
      if err.Some? {
        return;
      }
      ghost var done := [Begin];
      var i := 0;
      assert Scripts(statements[..i]) == [];
      while i < |statements|
        invariant 0 <= i <= |statements|
        invariant db.log == log && db.tx == Some(Scripts(statements[..i]))
        invariant db.trace == old(db.trace) + done
        invariant target == Prepend(done, Steps(db.faults, |db.trace|, log, statements, i, rec))
      {
        ghost var at := |db.trace|;
        err := db.Exec(Script(statements[i]));
        if err.Some? {
          var rollbackErr := db.Rollback();
          assert db.trace == old(db.trace) + (done + [Exec(Script(statements[i])), Rollback]);
          if rollbackErr.Some? {
            return rollbackErr;
          }
          return;
        }
        StepsAdvance(db.faults, at, log, statements, i, rec, done);
        ScriptsPrefix(statements, i);
        done := done + [Exec(Script(statements[i]))];
        i := i + 1;
      }
      assert statements[..i] == statements;
      ghost var rest := Steps(db.faults, |db.trace|, log, statements, i, rec);
      err := Conclude(name, statements);
      assert db.trace == old(db.trace) + (done + rest.calls);
    }

    /** The end of the transaction once every statement ran: the ledger
        insert, then `Commit`; a failed insert rolls back. */
    method Conclude(name: string, statements: seq<string>) returns (err: Option<Error>)
      requires db != null && db.tx == Some(Scripts(statements))
      modifies db
      ensures db.tx.None?
      ensures var o := Steps(db.faults, |old(db.trace)|, old(db.log), statements, |statements|, Track(PostgreSQL, name));
        err == o.err && db.trace == old(db.trace) + o.calls && db.log == o.log
    {
      err := TrackMigration(name);
      if err.Some? {
        var rollbackErr := db.Rollback();
        if rollbackErr.Some? {
          return rollbackErr;
        }
        return;
      }
      err := db.Commit();
    }
  }

  /** `GetDriver(config)`: initialise the package-level driver in place and
      return a pointer to it, or `nil` and the error. */
  method GetDriver(global: Driver, config: Config, conn: Database, openErr: Option<Error>)
    returns (d: Driver?, err: Option<Error>)
    modifies global
    ensures err == openErr
    ensures d == if openErr.None? then global else null
    ensures global.dsn == ParseConfig(config) && global.driverName == DriverName
    ensures global.db == if openErr.None? then conn else old(global.db)
  {
    err := global.InitDriver(config, conn, openErr, global);
    if err.Some? {
      return null, err;
    }
    return global, None;
  }
}
