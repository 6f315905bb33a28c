/** prepare_paths in src/brickd/main_linux.c: for a user other than root the
    configuration, pid and log file names move under ~/.brickd, and that
    directory is created if it does not exist.

    getuid, getenv("HOME"), getpwuid, robust_snprintf, mkdir and stat are
    answered by a PathEnv and the state of the ~/.brickd entry. */
module LinuxPaths {
  import opened Trace

  /** The four names prepare_paths formats. */
  datatype Target = DirName | ConfigName | PidName | LogName

  /** What is at ~/.brickd in the file system. */
  datatype DirState = Absent | Directory | NotDirectory

  /** The answers of the system: the real uid, $HOME (None: unset), the home
      directory of the passwd entry (None: getpwuid failed), the names whose
      formatting robust_snprintf reports as failed, the errno of mkdir when
      it cannot create an absent ~/.brickd (None: it can), and whether stat
      of an existing ~/.brickd fails. */
  datatype PathEnv = PathEnv(
    uid: int,
    home: Option<string>,
    passwdHome: Option<string>,
    unformattable: set<Target>,
    mkdirErrno: Option<int>,
    statFails: bool)

  const EEXIST: int := 17

  /** The contents of _config_filename, _pid_filename and _log_filename. */
  datatype Paths = Paths(config: string, pid: string, log: string)

  /** The initial buffers, with SYSCONFDIR = /etc and LOCALSTATEDIR = /var. */
  const DefaultPaths := Paths("/etc/brickd.conf", "/var/run/brickd.pid", "/var/log/brickd.log")

  /** What prepare_paths returns (0 or -1), the buffers it leaves behind, and
      what is at ~/.brickd afterwards. */
  datatype Outcome = Outcome(status: int, paths: Paths, dir: DirState)

  /** The home directory used: $HOME when set and not empty, otherwise the
      passwd entry's. */
  function Home(env: PathEnv): Option<string> {
    if env.home.Some? && env.home.value != "" then env.home else env.passwdHome
  }

  function UserPaths(home: string): Paths {
    Paths(home + "/.brickd/brickd.conf", home + "/.brickd/brickd.pid", home + "/.brickd/brickd.log")
  }

  /** The result of mkdir(~/.brickd): 0 when it creates the directory,
      otherwise the errno it reports. */
  function MkdirErrno(env: PathEnv, dir: DirState): int {
    if dir != Absent then EEXIST
    else if env.mkdirErrno.None? then 0
    else env.mkdirErrno.value
  }

  /** The directory step after the names are formatted. */
  function EnsureDir(env: PathEnv, dir: DirState): (int, DirState) {
    if dir == Absent && env.mkdirErrno.None? then (0, Directory)
    else if MkdirErrno(env, dir) != EEXIST then (-1, dir)
    else if dir == Absent || env.statFails then (-1, dir)
    else if dir == NotDirectory then (-1, dir)
    else (0, dir)
  }

  /** prepare_paths as the code does it, step by step: each name is written
      to its buffer before the next is formatted, so a failure part-way
      leaves the earlier buffers overwritten. A failed format leaves its own
      buffer as it was. */
  function Prepare(env: PathEnv, dir: DirState, current: Paths): (r: Outcome)
    ensures r.status == 0 || r.status == -1
  {
    if env.uid == 0 then Outcome(0, current, dir)
    else if Home(env).None? then Outcome(-1, current, dir)
    else
      var user := UserPaths(Home(env).value);
      if DirName in env.unformattable then Outcome(-1, current, dir)
      else if ConfigName in env.unformattable then Outcome(-1, current, dir)
      else if PidName in env.unformattable then Outcome(-1, current.(config := user.config), dir)
      else if LogName in env.unformattable then Outcome(-1, current.(config := user.config, pid := user.pid), dir)
      else
        var (status, after) := EnsureDir(env, dir);
        Outcome(status, user, after)
  }

  /** ~/.brickd can be used: it is created, or it exists and stat shows a directory. */
  predicate DirUsable(env: PathEnv, dir: DirState) {
    match dir
    case Absent => env.mkdirErrno.None?
    case Directory => !env.statFails
    case NotDirectory => false
  }

  // ---------------------------------------------------------------------------
  // Properties

  /** For root nothing changes and prepare_paths succeeds. */
  lemma RootKeepsPaths(env: PathEnv, dir: DirState, current: Paths)
    requires env.uid == 0
    ensures Prepare(env, dir, current) == Outcome(0, current, dir)
  {
  }

  /** An unset or empty $HOME falls back to the passwd entry; without one,
      prepare_paths fails and leaves the buffers alone. */
  lemma HomeFallback(env: PathEnv, dir: DirState, current: Paths)
    requires env.uid != 0 && (env.home.None? || env.home == Some(""))
    ensures Home(env) == env.passwdHome
    ensures env.passwdHome.None? ==> Prepare(env, dir, current) == Outcome(-1, current, dir)
  {
  }

  /** prepare_paths succeeds exactly for root, or when a home directory is
      known, all four names format and ~/.brickd can be used; on success
      for another user the buffers hold the three names under ~/.brickd and
      ~/.brickd is a directory. */
  lemma PrepareIff(env: PathEnv, dir: DirState, current: Paths)
    ensures Prepare(env, dir, current).status == 0 <==>
      env.uid == 0 || (Home(env).Some? && env.unformattable == {} && DirUsable(env, dir))
    ensures env.uid != 0 && Prepare(env, dir, current).status == 0 ==>
      Prepare(env, dir, current).paths == UserPaths(Home(env).value)
      && Prepare(env, dir, current).dir == Directory
  {
    if env.uid != 0 && Home(env).Some? && env.unformattable != {} {
      var t :| t in env.unformattable;
      assert t == DirName || t == ConfigName || t == PidName || t == LogName;
    }
  }

  /** Failing to format any one of the four names fails prepare_paths. */
  lemma FormatFailure(env: PathEnv, dir: DirState, current: Paths, t: Target)
    requires env.uid != 0 && t in env.unformattable
    ensures Prepare(env, dir, current).status == -1
    ensures Prepare(env, dir, current).dir == dir
  {
  }

  /** The outcomes of the directory step once the names are formatted. */
  lemma DirectoryCases(env: PathEnv, dir: DirState, current: Paths)
    requires env.uid != 0 && Home(env).Some? && env.unformattable == {}
    ensures dir == Absent && env.mkdirErrno.None? ==> Prepare(env, dir, current).status == 0
    ensures dir == Directory && !env.statFails ==> Prepare(env, dir, current).status == 0
    ensures dir == Directory && env.statFails ==> Prepare(env, dir, current).status == -1
    ensures dir == NotDirectory ==> Prepare(env, dir, current).status == -1
    ensures dir == Absent && env.mkdirErrno.Some? ==> Prepare(env, dir, current).status == -1
    ensures Prepare(env, dir, current).paths == UserPaths(Home(env).value)
  {
  }

  /** An existing ~/.brickd directory is no error: when stat does not fail,
      a second run after a successful one succeeds with the same names. The
      second run stats the ~/.brickd the first one made, which the first run
      need not have done. */
  lemma RepeatRun(env: PathEnv, dir: DirState, current: Paths)
    requires Prepare(env, dir, current).status == 0 && !env.statFails
    ensures Prepare(env, Prepare(env, dir, current).dir, Prepare(env, dir, current).paths)
      == Prepare(env, dir, current)
  {
    PrepareIff(env, dir, current);
    var first := Prepare(env, dir, current);
    if env.uid != 0 {
      PrepareIff(env, first.dir, first.paths);
    }
  }
}
