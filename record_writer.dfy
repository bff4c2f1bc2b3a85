/**
 * One run of the program over an abstract filesystem: create the record
 * directory, read the clock and the title, create (or truncate) the record
 * file and write the ADR template into it. The filesystem is a set of
 * directories and a map from path to contents; what the operating system
 * answers (success or failure of each step) comes in as `Env`.
 */
module RecordWriter {
  import opened Wrappers
  import opened RecordName

  /** The built-in ADR template, reduced to its four section headings. */
  const ADR: string := "#### Context\n#### Decision\n#### Status\n#### Consequences\n"

  /** The directories that exist once `create_dir_all` of the record directory succeeds. */
  const RECORD_DIRS: set<string> := {"./docs", DIRECTORY}

  /** How `write_all` ends: every byte written, or an error after `accepted` bytes (fewer than the data holds). */
  datatype WriteOutcome = WriteOk | WriteFailed(accepted: nat)

  /** What the operating system and the command line hand to one run. */
  datatype Env = Env(
    dirCreated: bool,     // create_dir_all succeeds
    args: ArgMatches,     // the parsed command line
    clockNanos: int,      // the clock, in nanoseconds since the Unix epoch
    fileCreated: bool,    // File::create succeeds
    write: WriteOutcome)  // how write_all ends

  /** How a run ends: success, an error returned from `main`, or a panic. */
  datatype Exit =
    | Created(path: string)
    | DirError
    | ClockPanic
    | CreatePanic(path: string)
    | WriteError(path: string)

  datatype FsState = FsState(dirs: set<string>, files: map<string, string>)

  datatype RunState = RunState(fs: FsState, exit: Exit)

  /**
   * What a write of `data` leaves in a freshly truncated file. `write_all`
   * reports an error only while bytes remain, so a failed write of non-empty
   * data always leaves a strict prefix; an `accepted` count at or beyond the
   * length is read as all but the last character.
   */
  function Written(data: string, w: WriteOutcome): (r: string)
    ensures r <= data
    ensures w.WriteOk? ==> r == data
    ensures w.WriteFailed? && |data| > 0 ==> |r| < |data|
    ensures w.WriteFailed? && w.accepted < |data| ==> |r| == w.accepted
  {
    match w
    case WriteOk => data
    case WriteFailed(n) =>
      if n < |data| then data[..n] else if data == [] then [] else data[..|data| - 1]
  }

  /** The path a run writes to, once the clock has been read successfully. */
  function PlannedPath(env: Env): (p: Option<string>)
    ensures p.Some? <==> env.clockNanos >= 0
    ensures p.Some? ==> ParseRecordPath(p.value) == Some((GetKey(env.clockNanos).value, GetTitle(env.args)))
  {
    match GetKey(env.clockNanos)
    case Failure(_) => None
    case Success(key) =>
      ParseRecordPathOfRecordPath(key, GetTitle(env.args));
      Some(RecordPath(key, GetTitle(env.args)))
  }

  /** `m` and `m'` agree at `q`: both lack it, or both hold the same contents. */
  predicate SameEntry(m: map<string, string>, m': map<string, string>, q: string) {
    (q in m <==> q in m') && (q in m ==> m[q] == m'[q])
  }

  /** The effect of one run of `main` on the filesystem, and how it ends. */
  function RunSpec(fs: FsState, env: Env): (r: RunState)
    ensures r.exit == DirError <==> !env.dirCreated
    ensures r.exit == DirError ==> r.fs == fs
    ensures r.exit != DirError ==> r.fs.dirs == fs.dirs + RECORD_DIRS
    ensures r.exit == ClockPanic <==> env.dirCreated && env.clockNanos < 0
    ensures r.exit.CreatePanic? <==> env.dirCreated && env.clockNanos >= 0 && !env.fileCreated
    ensures r.exit.WriteError? <==> env.dirCreated && env.clockNanos >= 0 && env.fileCreated && env.write.WriteFailed?
    ensures r.exit.Created? <==> env.dirCreated && env.clockNanos >= 0 && env.fileCreated && env.write.WriteOk?
    ensures !r.exit.Created? && !r.exit.WriteError? ==> r.fs.files == fs.files
    ensures r.exit.Created? ==> Some(r.exit.path) == PlannedPath(env) && r.fs.files == fs.files[r.exit.path := ADR]
    ensures r.exit.WriteError? ==>
      Some(r.exit.path) == PlannedPath(env) && r.fs.files == fs.files[r.exit.path := Written(ADR, env.write)]
  {
    if !env.dirCreated then RunState(fs, DirError)
    else
      var dirs := fs.dirs + RECORD_DIRS;
      match GetKey(env.clockNanos)
      case Failure(_) => RunState(FsState(dirs, fs.files), ClockPanic)
      case Success(key) =>
        var path := RecordPath(key, GetTitle(env.args));
        if !env.fileCreated then RunState(FsState(dirs, fs.files), CreatePanic(path))
        else
          var files := fs.files[path := Written(ADR, env.write)];
          RunState(FsState(dirs, files), if env.write.WriteOk? then Created(path) else WriteError(path))
  }

  /** A run changes at most one entry of the file map: the one at its planned path. */
  lemma RunTouchesOnlyPlannedPath(fs: FsState, env: Env, q: string)
    requires PlannedPath(env) != Some(q)
    ensures SameEntry(fs.files, RunSpec(fs, env).fs.files, q)
  {
  }

  /**
   * A successful run whose path already holds a record replaces that record:
   * the number of files does not grow, and the old contents are gone.
   */
  lemma RunOverwritesExisting(fs: FsState, env: Env)
    requires RunSpec(fs, env).exit.Created?
    requires PlannedPath(env).value in fs.files
    ensures var files' := RunSpec(fs, env).fs.files;
      files'.Keys == fs.files.Keys && files'[PlannedPath(env).value] == ADR
  {
  }

  /**
   * Two successful runs in the same second with the same title write the
   * same path: the second leaves exactly the filesystem the first left.
   */
  lemma SameSecondSameTitleOneRecord(fs: FsState, e1: Env, e2: Env, sec: nat)
    requires sec * NANOS_PER_SEC <= e1.clockNanos < (sec + 1) * NANOS_PER_SEC
    requires sec * NANOS_PER_SEC <= e2.clockNanos < (sec + 1) * NANOS_PER_SEC
    requires GetTitle(e1.args) == GetTitle(e2.args)
    requires RunSpec(fs, e1).exit.Created?
    requires RunSpec(RunSpec(fs, e1).fs, e2).exit.Created?
    ensures var r1 := RunSpec(fs, e1); var r2 := RunSpec(r1.fs, e2);
      r2.exit == r1.exit && r2.fs == r1.fs
  {
    GetKeySameSecond(e1.clockNanos, e2.clockNanos, sec);
    var r1 := RunSpec(fs, e1);
    var path := RecordPath(sec, GetTitle(e1.args));
    assert r1.exit == Created(path) && r1.fs.files == fs.files[path := ADR];
    assert RunSpec(r1.fs, e2).fs.files == r1.fs.files[path := ADR];
  }

  /**
   * Two successful runs that differ in key or in title write different paths,
   * so the record of the first survives the second.
   */
  lemma DistinctKeyOrTitleKeepsBoth(fs: FsState, e1: Env, e2: Env)
    requires RunSpec(fs, e1).exit.Created?
    requires RunSpec(RunSpec(fs, e1).fs, e2).exit.Created?
    requires GetKey(e1.clockNanos) != GetKey(e2.clockNanos) || GetTitle(e1.args) != GetTitle(e2.args)
    ensures var r1 := RunSpec(fs, e1); var r2 := RunSpec(r1.fs, e2);
      r1.exit.path != r2.exit.path &&
      r1.exit.path in r2.fs.files && r2.fs.files[r1.exit.path] == ADR &&
      r2.exit.path in r2.fs.files && r2.fs.files[r2.exit.path] == ADR
  {
  }

  /** The filesystem a run works on: directories and a path-to-contents map, both updated in place. */
  class FileSystem {
    var dirs: set<string>
    var files: map<string, string>

    function State(): FsState
      reads this
    {
      FsState(dirs, files)
    }

    constructor (init: FsState)
      ensures State() == init
    {
      dirs := init.dirs;
      files := init.files;
    }

    /** `create_dir_all` of the record directory; `succeeds` is the operating system's answer. */
    method CreateDirAll(succeeds: bool) returns (ok: bool)
      modifies this
      ensures ok == succeeds
      ensures files == old(files)
      ensures dirs == if ok then old(dirs) + RECORD_DIRS else old(dirs)
    {
      ok := succeeds;
      if ok {
        dirs := dirs + RECORD_DIRS;
      }
    }

    /** `File::create`: creates the file, or truncates it if it exists. */
    method CreateFile(path: string, succeeds: bool) returns (ok: bool)
      modifies this
      ensures ok == succeeds
      ensures dirs == old(dirs)
      ensures files == if ok then old(files)[path := ""] else old(files)
    {
      ok := succeeds;
      if ok {
        files := files[path := ""];
      }
    }

    /** `write_all` on the file just opened at `path`: appends what the write accepted. */
    method WriteAll(path: string, data: string, w: WriteOutcome) returns (ok: bool)
      requires path in files
      modifies this
      ensures ok == w.WriteOk?
      ensures dirs == old(dirs)
      ensures files == old(files)[path := old(files)[path] + Written(data, w)]
    {
      ok := w.WriteOk?;
      files := files[path := files[path] + Written(data, w)];
    }

    /** `main`: directory, key, title, create-or-truncate, write. */
    method Run(env: Env) returns (exit: Exit)
      modifies this
      ensures RunState(State(), exit) == RunSpec(old(State()), env)
      ensures exit.Created? ==> files == old(files)[exit.path := ADR] && dirs == old(dirs) + RECORD_DIRS
    {
      var dirOk := CreateDirAll(env.dirCreated);
      if !dirOk {
        return DirError;
      }
      var key := GetKey(env.clockNanos);
      if key.Failure? {
        return ClockPanic;
      }
      var title := GetTitle(env.args);
      var path := RecordPath(key.value, title);
      var created := CreateFile(path, env.fileCreated);
      if !created {
        return CreatePanic(path);
      }
      var written := WriteAll(path, ADR, env.write);
      assert "" + Written(ADR, env.write) == Written(ADR, env.write);
      exit := if written then Created(path) else WriteError(path);
    }
  }
}
