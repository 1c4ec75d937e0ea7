/** The MySQL driver: its DSN, its package-level driver value, and the
    apply-and-record protocol with the whole file sent as one statement. */
module MySql {
  import opened Core
  import opened Strings
  import opened Store
  import opened MigrationHelpers
  import opened Protocol

  /** The `database/sql` driver name. */
  const DriverName := "mysql"

  /** `parseConfig(config)`: `user:password@protocol(host:port)/dbname`
      with multi-statement mode switched on. */
  function ParseConfig(config: Config): (dsn: string)
    ensures Credentials(config) + "@" <= dsn
    ensures |dsn| > |Params| && dsn[|dsn| - |Params| - 1..] == "?" + Params
  {
    var user := Credentials(config) + "@";
    Framed(user, Address(config), "?", Params);
    Credentials(config) + "@" + Address(config) + "?" + Params
  }

  /** `a + b + c + d` starts with `a` and ends with `c + d`. */
  lemma Framed(a: string, b: string, c: string, d: string)
    ensures a <= a + b + c + d && (a + b + c + d)[|a + b|..] == c + d
  {
    assert a + b + c + d == (a + b) + (c + d);
  }

  /** `user:password`. */
  function Credentials(config: Config): string
  {
    Field(config, "username") + ":" + Field(config, "password")
  }

  /** `protocol(host:port)/dbname`. */
  function Address(config: Config): string
  {
    Field(config, "protocol") + "(" + Field(config, "host") + ":" + Field(config, "port") + ")/" + Field(config, "dbname")
  }

  /** The DSN parameters: multi-statement mode, which is what lets `Migrate`
      send a whole file in one call. */
  const Params := "multiStatements=true"

  /** When no field holds `@` or `?`, the DSN is taken apart again at its
      separators: the credentials are exactly what precedes the `@`, and the
      parameters are exactly what follows the `?`. */
  lemma DsnLayout(config: Config)
    requires FieldsAvoid(config, '@') && FieldsAvoid(config, '?')
    ensures Split(ParseConfig(config), '@') == [Credentials(config), Address(config) + "?" + Params]
    ensures Split(ParseConfig(config), '?') == [Credentials(config) + "@" + Address(config), Params]
  {
    assert '@' !in Params && '?' !in Params;
    SplitThree(Credentials(config), '@', Address(config), '?', Params);
  }

  /** `u@a?p` taken apart at `@` and at `?`, when neither occurs elsewhere. */
  lemma SplitThree(u: string, at: char, a: string, q: char, p: string)
    requires at != q
    requires at !in u && at !in a && at !in p && q !in u && q !in a && q !in p
    ensures Split(u + [at] + a + [q] + p, at) == [u, a + [q] + p]
    ensures Split(u + [at] + a + [q] + p, q) == [u + [at] + a, p]
  {
    assert u + [at] + a + [q] + p == u + [at] + (a + [q] + p);
    SplitPair(u, at, a + [q] + p);
    SplitPair(u + [at] + a, q, p);
  }

  /** None of the six connection fields holds `c`. */
  predicate FieldsAvoid(config: Config, c: char)
  {
    && c !in Field(config, "username") && c !in Field(config, "password")
    && c !in Field(config, "protocol") && c !in Field(config, "host")
    && c !in Field(config, "port") && c !in Field(config, "dbname")
  }

  /** The driver struct: its `database/sql` driver name, its DSN and its
      connection pool (`nil` until initialised). */
  class Driver {
    var driverName: string
    var dsn: string
    var db: Database?

    /** The zero value, which the package-level `MySQLDriver` starts as. */
    constructor ()
      ensures driverName == "" && dsn == "" && db == null
    {
      driverName := "";
      dsn := "";
      db := null;
    }

    /** `InitDriver(config)`. `global` is the package-level `MySQLDriver`,
        and `sql.Open` is given as its result `conn` and error `openErr`. The
        DSN and driver name are assigned before opening, so they change even
        when opening fails; only on success is the pool set and the whole
        driver copied into `global`. */
    method InitDriver(config: Config, conn: Database, openErr: Option<Error>, global: Driver)
      returns (err: Option<Error>)
      modifies this, global
      ensures err == openErr
      ensures dsn == ParseConfig(config) && driverName == DriverName
      ensures db == if openErr.None? then conn else old(db)
      ensures openErr.None? ==> global.dsn == dsn && global.driverName == driverName && global.db == conn
      ensures openErr.Some? && global != this ==> unchanged(global)
    {
      dsn := ParseConfig(config);
      driverName := DriverName;
      if openErr.Some? {
        return openErr;
      }
      db := conn;
      global.driverName := driverName;
      global.dsn := dsn;
      global.db := db;
      return None;
    }

    /** `CheckMigrated(name)`: `ErrNoRows` means not migrated, another scan
        error is returned, a row means migrated. */
    method CheckMigrated(name: string) returns (migrated: bool, err: Option<Error>)
      requires db != null
      modifies db
      ensures db.log == old(db.log) && db.tx == old(db.tx)
      ensures db.trace == old(db.trace) + [QueryRow(CheckQuery(Placeholder(MySQL)), name)]
      ensures (migrated, err) == Migrated(ScanOutcome(At(db.faults, |old(db.trace)|), old(db.log), name))
    {
      var scanErr := db.QueryRow(CheckQuery(Placeholder(MySQL)), name);
      if scanErr.Some? {
        if scanErr.value == ErrNoRows {
          return false, None;
        }
        return false, scanErr;
      }
      return true, None;
    }

    /** `TrackMigration(tx, name)`: the ledger insert inside the open transaction. */
    method TrackMigration(name: string) returns (err: Option<Error>)
      requires db != null && db.tx.Some?
      modifies db
      ensures err == At(db.faults, |old(db.trace)|)
      ensures db.log == old(db.log)
      ensures db.trace == old(db.trace) + [Exec(Record(TrackQuery(Placeholder(MySQL)), name))]
      ensures db.tx == if err.None? then Some(old(db.tx).value + [Record(TrackQuery(Placeholder(MySQL)), name)])
                       else old(db.tx)
    {
      err := db.Exec(Record(TrackQuery(Placeholder(MySQL)), name));
    }

    /** `Migrate(path)`: exactly the MySQL instance of the shared protocol,
        and the transaction is closed afterwards. */
    method Migrate(files: map<string, string>, path: string) returns (err: Option<Error>)
      requires db != null && db.tx.None?
      modifies db
      ensures db.tx.None?
      ensures var o := MigrateOutcome(MySQL, db.faults, |old(db.trace)|, old(db.log), files, path);
        err == o.err && db.trace == old(db.trace) + o.calls && db.log == o.log
    {
      var name := GetMigrationName(path);
      var migration := ReadMigration(files, path);
      if migration.Err? {
        return Some(migration.error);
      }
      err := MigrateFile(name, migration.value);
    }

    /** The rest of `Migrate` once the file is read: look the name up in the
        ledger, refuse an applied migration, and apply it otherwise. */
    method MigrateFile(name: string, sql: string) returns (err: Option<Error>)
      requires db != null && db.tx.None?
      modifies db
      ensures db.tx.None?
      ensures var o := CheckedOutcome(MySQL, db.faults, |old(db.trace)|, old(db.log), name, Fragments(MySQL, sql));
        err == o.err && db.trace == old(db.trace) + o.calls && db.log == o.log
    {
      var migrated;
      migrated, err := CheckMigrated(name);
      if err.Some? {
        return;
      }
      if migrated {
        return Some(AlreadyMigrated(MySQL, name));
      }
      err := Apply(name, sql);
    }

    /** The transaction of `Migrate`: begin, run the whole file in one call,
        insert the ledger row, commit; a failure rolls back. */
    method Apply(name: string, sql: string) returns (err: Option<Error>)
      requires db != null && db.tx.None?
      modifies db
      ensures db.tx.None?
      ensures var o := TxOutcome(MySQL, db.faults, |old(db.trace)|, old(db.log), name, Fragments(MySQL, sql));
        err == o.err && db.trace == old(db.trace) + o.calls && db.log == o.log
    {
      ghost var t, log, rec := |db.trace|, db.log, Track(MySQL, name);
      assert Fragments(MySQL, sql) == [sql];
      err := db.Begin();
      if err.Some? {
        return;
      }
      assert TxOutcome(MySQL, db.faults, t, log, name, [sql])
          == Prepend([Begin], Steps(db.faults, t + 1, log, [sql], 0, rec));
      err := db.Exec(Script(sql));
      if err.Some? {
        var rollbackErr := db.Rollback();
        if rollbackErr.Some? {
          return rollbackErr;
        }
        return;
      }
      assert Steps(db.faults, t + 1, log, [sql], 0, rec)
          == Prepend([Exec(Script(sql))], Steps(db.faults, t + 2, log, [sql], 1, rec));
      assert Scripts([sql]) == [Script(sql)];
      err := TrackMigration(name);
      if err.Some? {
        var rollbackErr := db.Rollback();
        if rollbackErr.Some? {
          return rollbackErr;
        }
        return;
      }
      err := db.Commit();
    }
  }

  /** `GetDriver(config)`: initialise the package-level driver in place and
      return a pointer to it, or `nil` and the error. */
  method GetDriver(global: Driver, config: Config, conn: Database, openErr: Option<Error>)
    returns (d: Driver?, err: Option<Error>)
    modifies global
    ensures err == openErr
    ensures d == if openErr.None? then global else null
    ensures global.dsn == ParseConfig(config) && global.driverName == DriverName
    ensures global.db == if openErr.None? then conn else old(global.db)
  {
    err := global.InitDriver(config, conn, openErr, global);
    if err.Some? {
      return null, err;
    }
    return global, None;
  }
}
