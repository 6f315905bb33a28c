/** The process-wide state of src/brickd/main_linux.c and the operations on
    it: the three file-name buffers prepare_paths rewrites, the log output
    and log file handle_sighup swaps, and main's dispatch from the command
    line to --help, --version, --check-config or the coordinator. */
module LinuxMain {
  import opened Trace
  import opened LinuxCli
  import opened LinuxPaths
  import opened LinuxLifecycle
  import opened LinuxProperties

  /** Where log messages go: the standard error stream or _log_file. */
  datatype Output = Stderr | LogFile

  /** _log_file: closed, or opened on a path; each file_create gives a new handle. */
  datatype FileState = Closed | Open(path: string, handle: nat)

  /** The log output and file after handle_sighup, given whether reopening
      the log file at path succeeds; a reopened file gets handle next. */
  function AfterSighup(output: Output, file: FileState, path: string, reopenOk: bool, next: nat): (Output, FileState) {
    if output != LogFile then (output, file)
    else if !reopenOk then (Stderr, Closed)
    else (LogFile, Open(path, next))
  }

  /** What main does with a command line: its exit code, the trace of the
      coordinator (empty when main returns before config_init), and the
      ~/.brickd entry and file-name buffers it leaves. */
  datatype MainOutcome = MainOutcome(exitCode: int, trace: seq<Action>, dir: DirState, paths: Paths)

  /** main's dispatch: an unknown option fails before anything else, --help
      beats --version, both return before prepare_paths; --check-config
      returns the result of config_check after prepare_paths; otherwise the
      coordinator runs with --daemon and the --debug filter. */
  function Dispatch(argv: seq<string>, env: PathEnv, dir: DirState, current: Paths,
                    b: Build, w: World, configCheckOk: bool): MainOutcome
  {
    match ParseCommandLine(argv)
    case UnknownOption(_) => MainOutcome(ExitFailure, [], dir, current)
    case Parsed(o) =>
      if o.help || o.version then MainOutcome(ExitSuccess, [], dir, current)
      else
        var p := Prepare(env, dir, current);
        if p.status < 0 then MainOutcome(ExitFailure, [], p.dir, p.paths)
        else if o.checkConfig then MainOutcome(if configCheckOk then ExitSuccess else ExitFailure, [], p.dir, p.paths)
        else
          var so := StartOptions(o.daemon, o.debugFilter);
          MainOutcome(RunExitCode(b, so, w), RunTrace(b, so, w), p.dir, p.paths)
  }

  /** Whether main daemonizes: it reaches the coordinator with --daemon, the
      configuration has no error, and daemon_start returns a descriptor. */
  function Daemonized(argv: seq<string>, env: PathEnv, dir: DirState, current: Paths, w: World): bool {
    match ParseCommandLine(argv)
    case UnknownOption(_) => false
    case Parsed(o) =>
      !o.help && !o.version && Prepare(env, dir, current).status == 0 && !o.checkConfig
      && o.daemon && !w.configError && w.pidFd >= 0
  }

  class Brickd {
    var configFilename: string
    var pidFilename: string
    var logFilename: string
    var output: Output
    var logFile: FileState
    /** The handle the next file_create on _log_file returns. */
    var nextHandle: nat

    /** The log goes to the log file only while it is open, and every handle
        given out so far is below nextHandle. */
    predicate Valid()
      reads this
    {
      (output == LogFile ==> logFile.Open?) && (logFile.Open? ==> logFile.handle < nextHandle)
    }

    function CurrentPaths(): Paths
      reads this
    {
      Paths(configFilename, pidFilename, logFilename)
    }

    /** The state at program start: the default names, logging to stderr. */
    constructor ()
      ensures Valid()
      ensures CurrentPaths() == DefaultPaths
      ensures output == Stderr && logFile == Closed
    {
      configFilename, pidFilename, logFilename := DefaultPaths.config, DefaultPaths.pid, DefaultPaths.log;
      output := Stderr;
      logFile := Closed;
      nextHandle := 0;
    }

    /** prepare_paths: overwrites the name buffers in turn and makes sure
        ~/.brickd is a directory; dir is what is at ~/.brickd before. */
    method PreparePaths(env: PathEnv, dir: DirState) returns (status: int, dir': DirState)
      modifies this
      ensures Outcome(status, CurrentPaths(), dir') == Prepare(env, dir, old(CurrentPaths()))
      ensures output == old(output) && logFile == old(logFile) && nextHandle == old(nextHandle)
    {
      dir' := dir;
      if env.uid == 0 {
        return 0, dir';
      }
      var home := env.home;
      if home.None? || home.value == "" {
        if env.passwdHome.None? {
          return -1, dir';
        }
        home := env.passwdHome;
      }
      if DirName in env.unformattable {
        return -1, dir';
      }
      if ConfigName in env.unformattable {
        return -1, dir';
      }
      configFilename := home.value + "/.brickd/brickd.conf";
      if PidName in env.unformattable {
        return -1, dir';
      }
      pidFilename := home.value + "/.brickd/brickd.pid";
      if LogName in env.unformattable {
        return -1, dir';
      }
      logFilename := home.value + "/.brickd/brickd.log";
      if dir == Absent && env.mkdirErrno.None? {
        dir' := Directory;
        return 0, dir';
      }
      if MkdirErrno(env, dir) != EEXIST {
        return -1, dir';
      }
      if dir == Absent || env.statFails {
        return -1, dir';
      }
      if dir != Directory {
        return -1, dir';
      }
      return 0, dir';
    }

    /** handle_sighup: when logging to the log file, switch to stderr, close
        the file and reopen it at logFilename; only when that succeeds does
        the log go back to the (new) file. */
    method HandleSighup(reopenOk: bool)
      requires Valid()
      modifies this
      ensures Valid()
      ensures (output, logFile) == AfterSighup(old(output), old(logFile), logFilename, reopenOk, old(nextHandle))
      ensures CurrentPaths() == old(CurrentPaths())
      ensures nextHandle == if old(output) == LogFile && reopenOk then old(nextHandle) + 1 else old(nextHandle)
    {
      if output != LogFile {
        return;
      }
      output := Stderr;
      logFile := Closed;
      if !reopenOk {
        return;
      }
      logFile := Open(logFilename, nextHandle);
      nextHandle := nextHandle + 1;
      output := LogFile;
    }

    /** What daemon_start does to _log_file when it returns a descriptor:
        the log file is created at logFilename and the log goes there. */
    method RedirectLog()
      requires Valid()
      modifies this
      ensures Valid()
      ensures output == LogFile && logFile == Open(logFilename, old(nextHandle))
      ensures nextHandle == old(nextHandle) + 1 && CurrentPaths() == old(CurrentPaths())
    {
      logFile := Open(logFilename, nextHandle);
      nextHandle := nextHandle + 1;
      output := LogFile;
    }

    /** main: parse the command line, dispatch, and run the coordinator; a
        daemonized run leaves the log on the log file daemon_start opened. */
    method Run(argv: seq<string>, env: PathEnv, dir: DirState, b: Build, w: World, configCheckOk: bool)
      returns (exitCode: int, trace: seq<Action>, dir': DirState)
      requires Valid()
      modifies this
      ensures Valid()
      ensures MainOutcome(exitCode, trace, dir', CurrentPaths()) ==
        Dispatch(argv, env, dir, old(CurrentPaths()), b, w, configCheckOk)
      ensures Daemonized(argv, env, dir, old(CurrentPaths()), w) ==>
        output == LogFile && logFile == Open(logFilename, old(nextHandle)) && nextHandle == old(nextHandle) + 1
      ensures !Daemonized(argv, env, dir, old(CurrentPaths()), w) ==>
        output == old(output) && logFile == old(logFile) && nextHandle == old(nextHandle)
    {
      trace := [];
      dir' := dir;
      var parse := ParseArguments(argv);
      if parse.UnknownOption? {
        return ExitFailure, trace, dir';
      }
      var o := parse.options;
      if o.help {
        return ExitSuccess, trace, dir';
      }
      if o.version {
        return ExitSuccess, trace, dir';
      }
      var status;
      status, dir' := PreparePaths(env, dir);
      if status < 0 {
        return ExitFailure, trace, dir';
      }
      if o.checkConfig {
        exitCode := if configCheckOk then ExitSuccess else ExitFailure;
        return exitCode, trace, dir';
      }
      exitCode, trace := Coordinate(b, StartOptions(o.daemon, o.debugFilter), w);
      // daemon_start is called in phase 2 once the configuration loaded; its
      // effect on the log state is applied here, after the trace is built.
      if o.daemon && !w.configError && w.pidFd >= 0 {
        RedirectLog();
      }
    }
  }

  // ---------------------------------------------------------------------------
  // Properties

  /** handle_sighup changes nothing unless the log goes to the log file; then
      the log ends on the reopened file when file_create succeeds and on
      stderr otherwise, never on the file it closed. */
  lemma SighupOutcome(output: Output, file: FileState, path: string, reopenOk: bool, next: nat)
    requires output == LogFile ==> file.Open? && file.handle < next
    ensures output != LogFile ==> AfterSighup(output, file, path, reopenOk, next) == (output, file)
    ensures output == LogFile ==>
      (AfterSighup(output, file, path, reopenOk, next).0 == LogFile <==> reopenOk)
    ensures output == LogFile && reopenOk ==>
      AfterSighup(output, file, path, reopenOk, next).1 == Open(path, next) && next != file.handle
    ensures output == LogFile && !reopenOk ==> AfterSighup(output, file, path, reopenOk, next) == (Stderr, Closed)
  {
  }

  /** The exit code of main is EXIT_SUCCESS or EXIT_FAILURE, and it is
      EXIT_SUCCESS exactly for --help, --version, a passing --check-config,
      or a run whose startup completed and whose event loop succeeded. */
  lemma DispatchExitCode(argv: seq<string>, env: PathEnv, dir: DirState, current: Paths,
                         b: Build, w: World, configCheckOk: bool)
    ensures Dispatch(argv, env, dir, current, b, w, configCheckOk).exitCode in {ExitSuccess, ExitFailure}
    ensures Dispatch(argv, env, dir, current, b, w, configCheckOk).exitCode == ExitSuccess <==>
      ParseCommandLine(argv).Parsed? &&
      var o := ParseCommandLine(argv).options;
      (o.help || o.version
       || (Prepare(env, dir, current).status == 0
           && (if o.checkConfig then configCheckOk
               else !w.configError && w.pidFd >= 0 && w.eventRunOk
                    && forall s :: Checked(b, w, s) ==> s !in w.failing)))
  {
    if ParseCommandLine(argv).Parsed? {
      var o := ParseCommandLine(argv).options;
      ExitCodeIff(b, StartOptions(o.daemon, o.debugFilter), w);
    }
  }

  /** main daemonizes, and so moves the log to the log file, exactly when it
      runs with --daemon and logs "started". */
  lemma DaemonizedIff(argv: seq<string>, env: PathEnv, dir: DirState, current: Paths,
                      b: Build, w: World, configCheckOk: bool)
    ensures Daemonized(argv, env, dir, current, w) <==>
      ParseCommandLine(argv).Parsed? && ParseCommandLine(argv).options.daemon
      && Started in Dispatch(argv, env, dir, current, b, w, configCheckOk).trace
  {
    if ParseCommandLine(argv).Parsed? {
      var o := ParseCommandLine(argv).options;
      if !o.help && !o.version && !o.checkConfig && Prepare(env, dir, current).status == 0 {
        CoordinatorRuns(argv, env, dir, current, b, w, configCheckOk);
      } else {
        EarlyReturnsTouchNothing(argv, env, dir, current, b, w, configCheckOk);
      }
    }
  }

  /** Whatever makes main return before config_init (an unknown option,
      --help, --version, a prepare_paths failure, --check-config) leaves the
      trace empty: no configuration loaded and no pid lock taken. */
  lemma EarlyReturnsTouchNothing(argv: seq<string>, env: PathEnv, dir: DirState, current: Paths,
                                 b: Build, w: World, configCheckOk: bool)
    requires ParseCommandLine(argv).Parsed? ==>
      var o := ParseCommandLine(argv).options;
      o.help || o.version || o.checkConfig || Prepare(env, dir, current).status != 0
    ensures Dispatch(argv, env, dir, current, b, w, configCheckOk).trace == []
    ensures forall fd, d :: LockPid(fd, d) !in Dispatch(argv, env, dir, current, b, w, configCheckOk).trace
  {
  }

  /** When main reaches the coordinator it loads the configuration first,
      and it logs "started" exactly when the configuration has no error and
      the pid-file lock is taken. */
  lemma CoordinatorRuns(argv: seq<string>, env: PathEnv, dir: DirState, current: Paths,
                        b: Build, w: World, configCheckOk: bool)
    requires ParseCommandLine(argv).Parsed?
    requires !ParseCommandLine(argv).options.help && !ParseCommandLine(argv).options.version
    requires !ParseCommandLine(argv).options.checkConfig && Prepare(env, dir, current).status == 0
    ensures |Dispatch(argv, env, dir, current, b, w, configCheckOk).trace| >= 1
    ensures Dispatch(argv, env, dir, current, b, w, configCheckOk).trace[0] == Init(Config)
    ensures Started in Dispatch(argv, env, dir, current, b, w, configCheckOk).trace <==>
      !w.configError && w.pidFd >= 0
  {
    var o := ParseCommandLine(argv).options;
    var so := StartOptions(o.daemon, o.debugFilter);
    Banners(b, so, w);
    StartsWithConfig(b, so, w);
  }
}
