/** Naming, generating, reading and locating migration files. */
module MigrationHelpers {
  import opened Core
  import opened Strings
  import opened Files

  const DefaultMigrationsDir := "../migrations"

  /** `GenerateMigrationName(name)` with the clock reading `timestamp` (Unix
      seconds): `<timestamp>_<name>.sql`. */
  function GenerateMigrationName(timestamp: int, name: string): (fileName: string)
    ensures |fileName| > 4 && fileName[|fileName| - 4..] == ".sql"
    ensures '/' !in name ==> '/' !in fileName
  {
    FormatInt(timestamp) + "_" + name + ".sql"
  }

  /** The ordering key of a migration file: the integer before its first `_`. */
  function MigrationTimestamp(fileName: string): Option<int>
  {
    ParseInt(Split(fileName, '_')[0])
  }

  /** A generated name ends in `.sql` and carries its timestamp as ordering key,
      whatever the user-supplied part contains. */
  lemma GeneratedNameKeepsTimestamp(timestamp: int, name: string)
    ensures var fileName := GenerateMigrationName(timestamp, name);
      && |fileName| >= 4 && fileName[|fileName| - 4..] == ".sql"
      && MigrationTimestamp(fileName) == Some(timestamp)
  {
    var digits := FormatInt(timestamp);
    assert '_' !in digits;
    assert GenerateMigrationName(timestamp, name) == digits + ['_'] + (name + ".sql");
    SplitAtFirstSeparator(digits, '_', name + ".sql");
    ParseFormatInt(timestamp);
  }

  /** The first line written into a new migration file. */
  function MigrationContent(fileName: string): string
  {
    "-- Migration name: " + fileName
  }

  function MigrationPath(dir: string, fileName: string): string
  {
    dir + "/" + fileName
  }

  /** `GenerateMigration(dir, name)` with the clock reading `timestamp`: write
      `dir/<timestamp>_<name>.sql` holding its own name as a comment. */
  method GenerateMigration(fs: FileSystem, dir: string, name: string, timestamp: int)
    returns (err: Option<Error>)
    requires fs.Valid()
    modifies fs
    ensures fs.Valid() && fs.dirs == old(fs.dirs)
    ensures var fileName := GenerateMigrationName(timestamp, name);
      && err == At(fs.faults, old(fs.ops))
      && fs.files == if err.None? then old(fs.files)[MigrationPath(dir, fileName) := MigrationContent(fileName)]
                     else old(fs.files)
  {
    var migrationName := GenerateMigrationName(timestamp, name);
    var content := MigrationContent(migrationName);
    var fileName := MigrationPath(dir, migrationName);
    err := fs.WriteFile(fileName, content);
  }

  /** `ReadMigration(path)`. */
  function ReadMigration(files: map<string, string>, path: string): (r: Result<string>)
    ensures r.Ok? <==> path in files
    ensures r.Ok? ==> r.value == files[path]
    ensures r.Err? ==> r.error == ReadError(path)
  {
    ReadFile(files, path)
  }

  /** `GetMigrationName(path)`: the last element of `strings.Split(path, "/")`. */
  function GetMigrationName(path: string): (name: string)
    ensures '/' !in name
    ensures |name| <= |path| && path[|path| - |name|..] == name
  {
    SplitLast(path, '/');
    Last(Split(path, '/'))
  }

  /** The name is the suffix of the path after its last `/`: it holds no `/`,
      and it is either the whole path or preceded by a `/`. */
  lemma NameIsLastSegment(path: string)
    ensures var name := GetMigrationName(path);
      && '/' !in name
      && |name| <= |path| && path[|path| - |name|..] == name
      && (|name| < |path| ==> path[|path| - |name| - 1] == '/')
  {
    SplitLast(path, '/');
  }

  /** A path without `/` is its own name. */
  lemma NameOfPlainFile(path: string)
    requires '/' !in path
    ensures GetMigrationName(path) == path
  {
    SplitWithoutSeparator(path, '/');
  }

  /** Taking the name twice changes nothing. */
  lemma GetMigrationNameIdempotent(path: string)
    ensures GetMigrationName(GetMigrationName(path)) == GetMigrationName(path)
  {
    NameIsLastSegment(path);
    NameOfPlainFile(GetMigrationName(path));
  }

  /** The name of `dir/<file>` is `<file>` when the file name has no `/`. */
  lemma NameOfPath(dir: string, fileName: string)
    requires '/' !in fileName
    ensures GetMigrationName(MigrationPath(dir, fileName)) == fileName
  {
    var path := MigrationPath(dir, fileName);
    NameIsLastSegment(path);
    assert path[|path| - |fileName| - 1] == '/';
    assert path[|path| - |fileName|..] == fileName;
  }

  /** A generated migration file is found again under its generated name. */
  lemma GeneratedFileName(dir: string, timestamp: int, name: string)
    requires '/' !in name
    ensures GetMigrationName(MigrationPath(dir, GenerateMigrationName(timestamp, name)))
         == GenerateMigrationName(timestamp, name)
  {
    var fileName := GenerateMigrationName(timestamp, name);
    assert '/' !in FormatInt(timestamp);
    assert fileName == FormatInt(timestamp) + "_" + name + ".sql";
    NameOfPath(dir, fileName);
  }

  /** What `SetupMigrationsDir` decides to do. */
  datatype Setup = UseDir(path: string) | CreateDir(path: string) | SetupFailed(err: Error)

  /** The decision as written: for a non-empty `dir`, its absolute form
      (`abs`, the result of `filepath.Abs`) is used if it exists and created
      otherwise; for the empty `dir`, the existence test is made on `dir`
      itself, the empty path, which never exists. */
  function SetupAsWritten(dir: string, abs: Result<string>, existing: set<string>): Setup
  {
    if dir != "" then
      if abs.Err? then SetupFailed(abs.error)
      else if abs.value !in existing then CreateDir(abs.value)
      else UseDir(abs.value)
    else if dir !in existing then CreateDir(DefaultMigrationsDir)
    else UseDir(DefaultMigrationsDir)
  }

  /** The evident intent: the empty `dir` stands for the default directory,
      which is used if it exists and created otherwise. */
  function SetupIntended(dir: string, abs: Result<string>, existing: set<string>): Setup
  {
    if dir != "" then SetupAsWritten(dir, abs, existing)
    else if DefaultMigrationsDir !in existing then CreateDir(DefaultMigrationsDir)
    else UseDir(DefaultMigrationsDir)
  }

  /** What `SetupMigrationsDir` returns for a decision: the directory, or the
      error of `filepath.Abs` or of `CreateDir`'s `os.Mkdir`. */
  function SetupResult(setup: Setup, existing: set<string>, fault: Option<Error>): (string, Option<Error>)
  {
    match setup
    case UseDir(p) => (p, None)
    case SetupFailed(e) => ("", Some(e))
    case CreateDir(p) =>
      var err := MkdirOutcome(p, existing, fault);
      if err.Some? then ("", err) else (p, None)
  }

  /** The intended rule: a non-empty `dir` yields its absolute form, created
      only if missing; the empty `dir` yields the default directory, created
      only if missing. */
  lemma SetupIntendedRule(dir: string, abs: Result<string>, existing: set<string>, fault: Option<Error>)
    requires "" !in existing
    requires abs.Ok? ==> abs.value != ""
    ensures var (r, err) := SetupResult(SetupIntended(dir, abs, existing), existing, fault);
      && (dir != "" && abs.Err? ==> r == "" && err == Some(abs.error))
      && (dir != "" && abs.Ok? && abs.value in existing ==> r == abs.value && err.None?)
      && (dir != "" && abs.Ok? && abs.value !in existing ==> err == fault && (err.None? ==> r == abs.value))
      && (dir == "" && DefaultMigrationsDir in existing ==> r == DefaultMigrationsDir && err.None?)
      && (dir == "" && DefaultMigrationsDir !in existing ==> err == fault && (err.None? ==> r == DefaultMigrationsDir))
  {
  }

  /** As written, the empty `dir` fails once the default directory exists:
      `os.Mkdir` is asked to create it again. */
  lemma SetupAsWrittenFailsOnExistingDefault(abs: Result<string>, existing: set<string>, fault: Option<Error>)
    requires "" !in existing
    requires DefaultMigrationsDir in existing
    ensures SetupResult(SetupAsWritten("", abs, existing), existing, fault)
         == ("", Some(Error("mkdir " + DefaultMigrationsDir + ": file exists")))
  {
  }

  /** `CreateDir(dir)`. */
  method CreateDirectory(fs: FileSystem, dir: string) returns (r: string, err: Option<Error>)
    requires fs.Valid()
    modifies fs
    ensures fs.Valid() && fs.files == old(fs.files) && fs.ops == old(fs.ops) + 1
    ensures (r, err) == SetupResult(CreateDir(dir), old(fs.Existing()), At(fs.faults, old(fs.ops)))
    ensures fs.dirs == if err.None? then old(fs.dirs) + {dir} else old(fs.dirs)
  {
    err := fs.Mkdir(dir);
    if err.Some? {
      return "", err;
    }
    return dir, None;
  }

  /** `SetupMigrationsDir(dir)` as written; `abs` is what `filepath.Abs(dir)` returns. */
  method SetupMigrationsDirAsWritten(fs: FileSystem, dir: string, abs: Result<string>)
    returns (r: string, err: Option<Error>)
    requires fs.Valid()
    modifies fs
    ensures fs.Valid() && fs.files == old(fs.files)
    ensures (r, err) == SetupResult(SetupAsWritten(dir, abs, old(fs.Existing())), old(fs.Existing()), At(fs.faults, old(fs.ops)))
    ensures fs.dirs == if SetupAsWritten(dir, abs, old(fs.Existing())).CreateDir? && err.None?
                       then old(fs.dirs) + {r} else old(fs.dirs)
    ensures fs.ops == old(fs.ops) + if SetupAsWritten(dir, abs, old(fs.Existing())).CreateDir? then 1 else 0
  {
    if dir != "" {
      if abs.Err? {
        return "", Some(abs.error);
      }
      var absDir := abs.value;
      if absDir !in fs.Existing() {
        r, err := CreateDirectory(fs, absDir);
        return;
      }
      return absDir, None;
    } else {
      if dir !in fs.Existing() {
        r, err := CreateDirectory(fs, DefaultMigrationsDir);
        return;
      }
      return DefaultMigrationsDir, None;
    }
  }

  /** `SetupMigrationsDir(dir)` with the existence test made on the default
      directory in the empty-`dir` branch. */
  method SetupMigrationsDir(fs: FileSystem, dir: string, abs: Result<string>)
    returns (r: string, err: Option<Error>)
    requires fs.Valid()
    modifies fs
    ensures fs.Valid() && fs.files == old(fs.files)
    ensures (r, err) == SetupResult(SetupIntended(dir, abs, old(fs.Existing())), old(fs.Existing()), At(fs.faults, old(fs.ops)))
    ensures fs.dirs == if SetupIntended(dir, abs, old(fs.Existing())).CreateDir? && err.None?
                       then old(fs.dirs) + {r} else old(fs.dirs)
    ensures fs.ops == old(fs.ops) + if SetupIntended(dir, abs, old(fs.Existing())).CreateDir? then 1 else 0
  {
    if dir != "" {
      r, err := SetupMigrationsDirAsWritten(fs, dir, abs);
    } else if DefaultMigrationsDir !in fs.Existing() {
      r, err := CreateDirectory(fs, DefaultMigrationsDir);
    } else {
      return DefaultMigrationsDir, None;
    }
  }
}
