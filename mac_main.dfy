/** main() of src/brickd/main_macosx.c from the command line to the return:
    an unknown option fails at once; otherwise --help beats --version, which
    beats --check-config, all three returning before config_init; otherwise
    the coordinator runs with --daemon and --debug. */
module MacMain {
  import opened Trace
  import opened MacCli
  import opened MacLifecycle
  import opened MacProperties

  /** What main does with a command line: its exit code and the trace of the
      coordinator (empty when main returns before config_init). */
  datatype MainResult = MainResult(exitCode: int, trace: seq<Action>)

  /** main's dispatch; configCheckOk is whether config_check finds no error. */
  function MacDispatch(argv: seq<string>, w: World, configCheckOk: bool): MainResult {
    match MacParseCommandLine(argv)
    case MacUnknown(_) => MainResult(ExitFailure, [])
    case MacParsed(o) =>
      if o.help then MainResult(ExitSuccess, [])
      else if o.version then MainResult(ExitSuccess, [])
      else if o.checkConfig then MainResult(if configCheckOk then ExitSuccess else ExitFailure, [])
      else
        var so := MacStart(o.daemon, o.debug);
        MainResult(MacExitCode(w), MacRunTrace(so, w))
  }

  /** main as written: parse, return early for the informational options,
      otherwise run the coordinator. */
  method MacMainRun(argv: seq<string>, w: World, configCheckOk: bool) returns (exitCode: int, trace: seq<Action>)
    ensures MainResult(exitCode, trace) == MacDispatch(argv, w, configCheckOk)
  {
    trace := [];
    var parse := MacParseArguments(argv);
    if parse.MacUnknown? {
      return ExitFailure, trace;
    }
    var o := parse.options;
    if o.help {
      return ExitSuccess, trace;
    }
    if o.version {
      return ExitSuccess, trace;
    }
    if o.checkConfig {
      exitCode := if configCheckOk then ExitSuccess else ExitFailure;
      return exitCode, trace;
    }
    exitCode, trace := MacCoordinate(MacStart(o.daemon, o.debug), w);
  }

  // ---------------------------------------------------------------------------
  // Properties

  /** The exit code of main is EXIT_SUCCESS or EXIT_FAILURE, and it is
      EXIT_SUCCESS exactly for --help, --version, a passing --check-config,
      or a run in which every init routine started and event_run succeeded. */
  lemma MacDispatchExitCode(argv: seq<string>, w: World, configCheckOk: bool)
    ensures MacDispatch(argv, w, configCheckOk).exitCode in {ExitSuccess, ExitFailure}
    ensures MacDispatch(argv, w, configCheckOk).exitCode == ExitSuccess <==>
      MacParseCommandLine(argv).MacParsed? &&
      var o := MacParseCommandLine(argv).options;
      (o.help || o.version
       || (if o.checkConfig then configCheckOk
           else SessionRan(w) && w.eventRunOk && forall i :: 0 <= i < Rungs ==> Rung(i) !in w.failing))
  {
    if MacParseCommandLine(argv).MacParsed? {
      var o := MacParseCommandLine(argv).options;
      MacExitCodeIff(MacStart(o.daemon, o.debug), w);
    }
  }

  /** Whatever makes main return before config_init (an unknown option,
      --help, --version, --check-config) leaves the trace empty: no
      configuration loaded and no pid lock taken. */
  lemma MacEarlyReturnsTouchNothing(argv: seq<string>, w: World, configCheckOk: bool)
    requires MacParseCommandLine(argv).MacParsed? ==>
      var o := MacParseCommandLine(argv).options;
      o.help || o.version || o.checkConfig
    ensures MacDispatch(argv, w, configCheckOk).trace == []
  {
  }

  /** --version beats --check-config: the configuration is not checked. */
  lemma MacVersionBeatsCheckConfig(prog: string, w: World)
    ensures MacDispatch([prog, "--check-config", "--version"], w, false) == MainResult(ExitSuccess, [])
  {
    var argv := [prog, "--check-config", "--version"];
    MacParseMeaning(argv);
    assert Args(argv) == ["--check-config", "--version"];
    assert "--version" in Args(argv) && "--help" !in Args(argv);
  }

  /** When main reaches the coordinator it loads the configuration and the
      log first, and it logs "started" exactly when the lock is taken and
      the configuration has no error. */
  lemma MacCoordinatorRuns(argv: seq<string>, w: World, configCheckOk: bool)
    requires MacParseCommandLine(argv).MacParsed?
    requires !MacParseCommandLine(argv).options.help && !MacParseCommandLine(argv).options.version
    requires !MacParseCommandLine(argv).options.checkConfig
    ensures |MacDispatch(argv, w, configCheckOk).trace| >= 2
    ensures MacDispatch(argv, w, configCheckOk).trace[..2] == [Init(Config), Init(Log)]
    ensures Started in MacDispatch(argv, w, configCheckOk).trace <==> SessionRan(w)
  {
    var o := MacParseCommandLine(argv).options;
    var so := MacStart(o.daemon, o.debug);
    MacBanners(so, w);
    assert MacRunTrace(so, w) == Head(so, w) + (Middle(so, w) + Tail(w));
  }
}
