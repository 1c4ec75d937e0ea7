/** The part of the filesystem the engine touches: directories and file
    contents by path. `os.Stat` succeeds on any existing path; `os.Mkdir` and
    `ioutil.WriteFile` may fail, as fixed in advance by `faults`, indexed by
    the number of such calls made so far. */
module Files {
  import opened Core

  /** What `ioutil.ReadFile` reports for a path that does not exist. */
  function ReadError(path: string): Error
  {
    Error("open " + path + ": no such file or directory")
  }

  /** `ioutil.ReadFile(path)` as a string. */
  function ReadFile(files: map<string, string>, path: string): (r: Result<string>)
    ensures r.Ok? <==> path in files
    ensures r.Ok? ==> r.value == files[path]
    ensures r.Err? ==> r.error == ReadError(path)
  {
    if path in files then Ok(files[path]) else Err(ReadError(path))
  }

  /** The error `os.Mkdir(dir, 0755)` returns, given the existing paths and the
      scheduled fault: the empty path does not exist, an existing path cannot
      be created again, and otherwise the schedule decides. */
  function MkdirOutcome(dir: string, existing: set<string>, fault: Option<Error>): Option<Error>
  {
    if dir == "" then Some(Error("mkdir : no such file or directory"))
    else if dir in existing then Some(Error("mkdir " + dir + ": file exists"))
    else fault
  }

  class FileSystem {
    const faults: Faults
    var dirs: set<string>
    var files: map<string, string>
    var ops: nat

    /** The empty path names nothing. */
    ghost predicate Valid()
      reads this
    {
      "" !in dirs && "" !in files
    }

    /** The paths `os.Stat` finds. */
    function Existing(): set<string>
      reads this
    {
      dirs + files.Keys
    }

    constructor (faults: Faults, dirs: set<string>, files: map<string, string>)
      requires "" !in dirs && "" !in files
      ensures Valid()
      ensures this.faults == faults && this.dirs == dirs && this.files == files && ops == 0
    {
      this.faults := faults;
      this.dirs := dirs;
      this.files := files;
      ops := 0;
    }

    /** `os.Mkdir(dir, 0755)`. */
    method Mkdir(dir: string) returns (err: Option<Error>)
      requires Valid()
      modifies this
      ensures Valid()
      ensures err == MkdirOutcome(dir, old(Existing()), At(faults, old(ops)))
      ensures dirs == if err.None? then old(dirs) + {dir} else old(dirs)
      ensures files == old(files) && ops == old(ops) + 1
    {
      err := MkdirOutcome(dir, Existing(), At(faults, ops));
      ops := ops + 1;
      if err.None? {
        dirs := dirs + {dir};
      }
    }

    /** `ioutil.WriteFile(path, content, 0644)`. */
    method WriteFile(path: string, content: string) returns (err: Option<Error>)
      requires Valid()
      modifies this
      ensures Valid()
      ensures err == if path == "" then Some(ReadError(path)) else At(faults, old(ops))
      ensures files == if err.None? then old(files)[path := content] else old(files)
      ensures dirs == old(dirs) && ops == old(ops) + 1
    {
      err := if path == "" then Some(ReadError(path)) else At(faults, ops);
      ops := ops + 1;
      if err.None? {
        files := files[path := content];
      }
    }
  }
}
