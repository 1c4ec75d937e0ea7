/** Choosing a backend from the configuration's `driver` field. Only MySQL is
    wired in: the Postgres driver exists but no `driver` value reaches it. */
module Drivers {
  import opened Core
  import opened Store
  import opened Protocol
  import MySql

  const DriverMySQL := "mysql"

  const UnknownDriver := Error("Could not get the driver specified in the config")

  /** The `switch` of `GetDriverFromConfig` on the `driver` field. */
  function SelectBackend(config: Config): (r: Result<Backend>)
    requires HasDriver(config)
    ensures r.Ok? <==> DriverOf(config) == DriverMySQL
    ensures r.Ok? ==> r.value == MySQL
    ensures r.Err? ==> r.error == UnknownDriver
  {
    if DriverOf(config) == DriverMySQL then Ok(MySQL) else Err(UnknownDriver)
  }

  /** No configuration selects the Postgres backend, whatever it names. */
  lemma PostgresUnreachable(config: Config)
    requires HasDriver(config)
    ensures SelectBackend(config) != Ok(PostgreSQL)
    ensures DriverOf(config) in {"postgres", "pgx"} ==> SelectBackend(config) == Err(UnknownDriver)
  {
  }

  /** Selection looks at the `driver` field only. */
  lemma SelectionIgnoresOtherFields(c1: Config, c2: Config)
    requires HasDriver(c1) && HasDriver(c2) && DriverOf(c1) == DriverOf(c2)
    ensures SelectBackend(c1) == SelectBackend(c2)
  {
  }

  /** `GetDriverFromConfig(config)`: `mysql` hands the same configuration to
      `mysql.GetDriver`, which initialises the package-level driver `global`;
      anything else is refused and touches nothing. `sql.Open` is given as
      its result `conn` and error `openErr`. */
  method GetDriverFromConfig(global: MySql.Driver, config: Config, conn: Database, openErr: Option<Error>)
    returns (d: MySql.Driver?, err: Option<Error>)
    requires HasDriver(config)
    modifies global
    ensures SelectBackend(config).Err? ==> d == null && err == Some(UnknownDriver) && unchanged(global)
    ensures SelectBackend(config).Ok? ==>
      && err == openErr && d == (if openErr.None? then global else null)
      && global.dsn == MySql.ParseConfig(config) && global.driverName == MySql.DriverName
      && global.db == (if openErr.None? then conn else old(global.db))
  {
    if DriverOf(config) == DriverMySQL {
      d, err := MySql.GetDriver(global, config, conn, openErr);
      return;
    }
    return null, Some(UnknownDriver);
  }
}
