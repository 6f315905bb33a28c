# Brick Daemon entry points, modelled in Dafny

This project models the entry point of the Brick Daemon (`brickd`) on Linux
and on macOS. The entry point reads the command line and answers `--help`,
`--version` and `--check-config` itself. Otherwise it starts the daemon's
subsystems in a fixed order, runs the event loop, and tears down what it
started before it returns an exit code.

The two files unwind differently:

- **Linux** (`src/brickd/main_linux.c`). `main` records an integer *phase*
  after each step that succeeds. On any failure, and after the event loop,
  it jumps to `cleanup:`. There a `switch (phase)` without `break` runs the
  teardown of the phase reached and of every lower phase. Three build
  options decide which phases exist: RED Brick support, libudev and a
  dlopen'ed libusb. Before startup, `prepare_paths` moves the configuration,
  pid and log file names under `~/.brickd` for users other than root.
  `handle_sighup` reopens the log file.
- **macOS** (`src/brickd/main_macosx.c`). A failing init routine jumps to the
  label just below its own exit call, so the fall-through runs the exit
  calls of every subsystem started before it, in reverse, and then goes
  through a tail that ends logging, releases the pid file when it was
  locked, and frees the configuration.

The model turns the collaborators (config loader, logger, pid-file lock,
init routines, event loop) into a `World`. The `World` records whether the
configuration has errors, the descriptor the lock returns, which init
routines fail, whether libusb offers hotplug, and how `event_run` ends.

A run produces a trace of `Action`s: init, failed init, exit, lock, release,
banners, debug override and event loop.

The coordinators themselves are imperative Dafny:

- `LinuxLifecycle.Coordinate` uses a labelled block for `goto cleanup` and a
  descending loop for the fall-through switch.
- `MacLifecycle.MacCoordinate`, `MacLifecycle.RunLadder` and `MacLifecycle.UsbLadder` use nested
  labelled blocks for the label ladder.

Each coordinator is proved equal to a specification function:
`LinuxLifecycle.RunTrace` / `RunExitCode` for Linux and
`MacLifecycle.MacRunTrace` / `MacExitCode` for macOS. The lemmas in
`LinuxProperties` and `MacProperties` state the run-level guarantees about
those functions:

- teardown is the exact reverse of what started;
- a failed init routine is never undone;
- the banners pair up;
- the pid file is released only when it was locked;
- the exit code is `EXIT_SUCCESS` only for a complete run.

On Linux the teardown mirror excludes gpio. `gpio_init` runs in phase 12,
but the `gpio_exit()` call under `case 12` is commented out in the source.
The model keeps it that way, so `ExactReverse` states the mirror with gpio
removed.

Files:

- `trace.dfy`: shared vocabulary (subsystems, actions, world, `Inits`/`Exits` projections).
- `linux_lifecycle.dfy`, `linux_properties.dfy`: Linux startup and cleanup.
- `linux_cli.dfy`, `linux_paths.dfy`, `linux_main.dfy`: Linux command line, `prepare_paths`, process state, `handle_sighup` and `main`.
- `mac_lifecycle.dfy`, `mac_properties.dfy`: macOS startup and label ladder.
- `mac_cli.dfy`, `mac_main.dfy`: macOS command line and `main`.

## Model

| member | source | states |
|---|---|---|
| LinuxLifecycle.FinalPhase | src/brickd/main_linux.c:351-386 | a complete startup ends at phase 16 with RED Brick support and at phase 11 without; that phase exists in the build and none above it does |
| LinuxLifecycle.Owner | src/brickd/main_linux.c:297-382 | every phase from 4 on except 9 is recorded right after one subsystem's init routine, and that subsystem's phase is the phase |
| Trace.CallInit | src/brickd/main_linux.c:305-307 | calling an init routine (in both coordinators) succeeds exactly when the world does not make it fail, and records the success or the failure |
| LinuxLifecycle.Coordinate | src/brickd/main_linux.c:254-467 | main from config_init to the return produces exactly the specified run trace and exit code |
| LinuxLifecycle.StartProcess | src/brickd/main_linux.c:254-295 | phases 1-3: on success phase 3 is held with the config, log, lock, banner and debug filter done; on failure the phase held is the last reached and the next attempt failed; the pid descriptor is the lock's from phase 2 on |
| LinuxLifecycle.Advance | src/brickd/main_linux.c:305-309 | one `if (x_init() < 0) goto cleanup; phase = k;` step: it succeeds exactly when x does not fail, then phase k is reached; otherwise startup stops at the previous phase |
| LinuxLifecycle.StartUsbStack | src/brickd/main_linux.c:297-327 | phases 4-8 (libusb dlopen when built, event, signal, hardware, usb): phase 8 on success, otherwise stopped after a phase between 3 and 7 |
| LinuxLifecycle.StartNetworkStack | src/brickd/main_linux.c:329-351 | phases 9-11: udev only without libusb hotplug, network, mesh; initialized_udev is true exactly when udev_init ran and succeeded |
| LinuxLifecycle.StartRedBrickServices | src/brickd/main_linux.c:353-364 | phases 12-13 (gpio, redapid) of the RED Brick build |
| LinuxLifecycle.StartRedBrickStack | src/brickd/main_linux.c:366-382 | phases 14-16 (RED stack, extensions, USB gadget) of the RED Brick build |
| LinuxLifecycle.Cleanup | src/brickd/main_linux.c:400-464 | the switch entered at `case phase` runs that case body and every lower one, in descending order |
| LinuxLifecycle.CaseBody | src/brickd/main_linux.c:401-464 | the body of one case as compiled: gpio_exit is absent, udev_exit depends on initialized_udev, and the pid release comes before log_exit |
| LinuxLifecycle.StopsAt | src/brickd/main_linux.c:256-390 | when the attempt of phase k fails after phase r succeeded, main reaches cleanup holding phase r |
| LinuxProperties.AttemptFacts | src/brickd/main_linux.c:254-386 | the step to phase k starts only the subsystem of phase k and never a failing one; a failed step starts nothing; only phase 3 logs "started"; no step tears down or releases the pid file |
| LinuxProperties.AttemptStarts | src/brickd/main_linux.c:297-382 | the step to phase k starts s exactly when s owns phase k and the phase is recorded (udev only without hotplug) |
| LinuxProperties.CaseFacts | src/brickd/main_linux.c:401-464 | no case body starts anything; only case 3 logs "stopped"; only case 2 releases the pid file, and only the locked descriptor |
| LinuxProperties.CaseMirrorsAttempt | src/brickd/main_linux.c:254-464 | when phase k was recorded, case k tears down exactly what the step to phase k started, gpio excepted |
| LinuxProperties.OkUpToIff | src/brickd/main_linux.c:256-386 | every phase up to p succeeds exactly when the configuration loaded (p >= 2), the lock was taken (p >= 3) and no init routine checked up to p failed |
| LinuxProperties.ReachedIff | src/brickd/main_linux.c:256-386 | main gets to a compiled phase m exactly when every phase up to m succeeds |
| LinuxProperties.ReachedFacts | src/brickd/main_linux.c:256-386 | the phase reached is at least 1, compiled, and at most the final phase; below the final phase, the next attempt failed |
| LinuxProperties.PrefixFacts | src/brickd/main_linux.c:254-386 | startup up to phase p tears nothing down, logs no "stopped", releases no pid file, logs "started" exactly when p >= 3 and the lock held, and starts only non-failing subsystems of compiled phases up to p |
| LinuxProperties.UnwindFacts | src/brickd/main_linux.c:401-464 | the cascade from case p starts nothing, logs "stopped" exactly when p >= 3, and releases the pid file exactly when p >= 2 and the lock held |
| LinuxProperties.UnwindMirrorsPrefix | src/brickd/main_linux.c:254-464 | when every phase up to p succeeded, the cascade from case p tears down what startup up to p started, in reverse, gpio excepted |
| LinuxProperties.RunParts | src/brickd/main_linux.c:254-467 | a run is startup up to the phase reached, then the failed attempt or the event loop, then the cascade; the middle part starts, stops and releases nothing |
| LinuxProperties.QuietFailure | src/brickd/main_linux.c:258-390 | a failed step starts nothing, tears nothing down, and touches neither the banners nor the pid file |
| LinuxProperties.RunInits | src/brickd/main_linux.c:254-390 | the subsystems a run starts are those started up to the phase reached |
| LinuxProperties.RunExits | src/brickd/main_linux.c:400-464 | the subsystems a run tears down are those of the cascade from the phase reached |
| LinuxProperties.ExactReverse | src/brickd/main_linux.c:197-467 | the exit routines a run calls are the started subsystems in reverse start order, gpio excepted |
| LinuxProperties.TornDownIffStarted | src/brickd/main_linux.c:197-467 | a subsystem is torn down exactly when it was started and is not gpio |
| LinuxProperties.FailedNeverTornDown | src/brickd/main_linux.c:297-464 | a subsystem whose init routine fails is neither recorded as started nor torn down |
| LinuxProperties.EarlyPhases | src/brickd/main_linux.c:256-286 | main passes phase 1 exactly without a configuration error, and phase 2 exactly when in addition the lock was taken |
| LinuxProperties.PidReleaseGuard | src/brickd/main_linux.c:452-455 | the pid file is released exactly when the configuration loaded and the lock was taken, and only with the lock's descriptor |
| LinuxProperties.RunStarts | src/brickd/main_linux.c:297-386 | a run starts only subsystems of compiled phases up to the phase reached, none that failed, and udev only without hotplug |
| LinuxProperties.UdevGuard | src/brickd/main_linux.c:329-339 | udev_exit runs exactly when udev_init ran and succeeded, which needs the libudev build and no libusb hotplug |
| LinuxProperties.Banners | src/brickd/main_linux.c:283-286 | "stopped" is logged exactly when "started" was, which is when the configuration loaded and the lock was taken |
| LinuxProperties.ExitCodeIff | src/brickd/main_linux.c:388-398 | the run returns EXIT_SUCCESS exactly when the configuration loaded, the lock was taken, no checked init routine failed and event_run succeeded, and EXIT_FAILURE otherwise |
| LinuxProperties.StartsWithConfig | src/brickd/main_linux.c:254-256 | every run begins with config_init |
| LinuxProperties.ConfigErrorRun | src/brickd/main_linux.c:258-263 | with a configuration error the run is config_init then config_exit, and it fails |
| LinuxProperties.LockFailureRun | src/brickd/main_linux.c:265-281 | when the lock fails the run loads config and log, locks, then exits log and config without releasing the pid file, and fails |
| LinuxProperties.StartedIff | src/brickd/main_linux.c:297-386 | when every phase up to p succeeded, startup started exactly the subsystems owning compiled phases up to p (udev only without hotplug) |
| LinuxProperties.TornDownIff | src/brickd/main_linux.c:400-464 | cleanup tears down exactly the subsystems of compiled phases up to the phase reached, gpio excepted, udev only when started |
| LinuxProperties.UsbFailureTearsDown | src/brickd/main_linux.c:323-325 | a usb_init failure after a clean start leaves main at phase 7: hardware, signal and event are torn down, usb is not, and the run fails |
| LinuxProperties.PrefixAscending | src/brickd/main_linux.c:254-386 | startup starts subsystems in strictly increasing phase order |
| LinuxProperties.TeardownDescending | src/brickd/main_linux.c:401-464 | cleanup tears subsystems down in strictly decreasing phase order, so each at most once |
| LinuxCli.ParseArguments | src/brickd/main_linux.c:211-232 | the argv loop returns the flags or the first unknown option, as ParseCommandLine says |
| LinuxCli.FlagFrom | src/brickd/main_linux.c:211-225 | from index i on, a flag in a successful parse is set exactly when it was set already or its option occurs |
| LinuxCli.StepFlag | src/brickd/main_linux.c:220-225 | one step sets exactly the flag of the option read; a filter taken by --debug is never an option |
| LinuxCli.TakenStep | src/brickd/main_linux.c:211-225 | an option read at i consumes exactly the arguments up to the next index, and the later arguments are consumed as they would be from there |
| LinuxCli.ParsesIff | src/brickd/main_linux.c:211-232 | from index i on, the loop completes exactly when every argument is consumed: an option, or the filter a --debug takes |
| LinuxCli.FirstUnknown | src/brickd/main_linux.c:226-231 | a failed parse names the first argument that is neither an option nor a --debug filter; all arguments before it are consumed |
| LinuxCli.ParseMeaning | src/brickd/main_linux.c:211-232 | a command line parses exactly when every argument is consumed; each flag of a parsed command line is set exactly when its option is among the arguments; a failure names the first argument that is neither an option nor a --debug filter |
| LinuxCli.FilterKept | src/brickd/main_linux.c:220-225 | after the last --debug the filter no longer changes |
| LinuxCli.LastDebugFrom | src/brickd/main_linux.c:220-225 | from index i on, the last --debug decides the filter |
| LinuxCli.LastDebugWins | src/brickd/main_linux.c:220-225 | with repeated --debug, the filter is the one the last --debug takes |
| LinuxCli.UnknownAfterHelp | src/brickd/main_linux.c:226-231 | an unknown option after --help still fails the parse |
| LinuxCli.DebugTakesFilter | src/brickd/main_linux.c:221-222 | --debug takes a following argument without "--" as its filter |
| LinuxCli.DebugBeforeOption | src/brickd/main_linux.c:221-225 | --debug before another option takes the empty filter and leaves the option to the loop |
| LinuxPaths.Prepare | src/brickd/main_linux.c:68-148 | prepare_paths returns 0 or -1 |
| LinuxPaths.RootKeepsPaths | src/brickd/main_linux.c:74-76 | for root nothing changes and the call succeeds |
| LinuxPaths.HomeFallback | src/brickd/main_linux.c:78-91 | an unset or empty $HOME falls back to the passwd entry; without one the call fails and changes nothing |
| LinuxPaths.PrepareIff | src/brickd/main_linux.c:68-148 | the call succeeds exactly for root, or with a known home, all names formatted and ~/.brickd usable; on success for another user the names are under ~/.brickd, which is a directory |
| LinuxPaths.FormatFailure | src/brickd/main_linux.c:93-123 | failing to format any of the four names fails the call before mkdir |
| LinuxPaths.DirectoryCases | src/brickd/main_linux.c:125-145 | mkdir succeeds, or an existing directory is accepted; a failed stat, a non-directory or another mkdir error fails the call |
| LinuxPaths.RepeatRun | src/brickd/main_linux.c:125-145 | after a successful call, and when stat does not fail, a second one succeeds with the same names and directory |
| LinuxMain.Brickd.constructor | src/brickd/main_linux.c:63-66 | the program starts with the default file names, logging to stderr |
| LinuxMain.Brickd.PreparePaths | src/brickd/main_linux.c:68-148 | prepare_paths on the process state: the name buffers and ~/.brickd change as Prepare says, the log state does not |
| LinuxMain.Brickd.HandleSighup | src/brickd/main_linux.c:162-182 | the log output and file change as AfterSighup says; a new handle is used only when the reopen succeeds; the names are unchanged |
| LinuxMain.SighupOutcome | src/brickd/main_linux.c:162-182 | SIGHUP changes nothing unless the log goes to the log file; then the log ends on the reopened file exactly when file_create succeeds, and on stderr otherwise |
| LinuxMain.Brickd.Run | src/brickd/main_linux.c:197-467 | main's exit code, trace, directory and names are those Dispatch gives; the log goes to a newly opened log file exactly when main daemonized, and is unchanged otherwise |
| LinuxMain.Brickd.RedirectLog | src/brickd/main_linux.c:267-268 | daemon_start's effect on the log: a new file is opened at the log name and becomes the log output; the names do not change |
| LinuxMain.DaemonizedIff | src/brickd/main_linux.c:267-286 | main redirects its log exactly when the command line parses with --daemon and the run logs "started" |
| LinuxMain.DispatchExitCode | src/brickd/main_linux.c:211-252 | main returns EXIT_SUCCESS exactly for --help, --version, a passing --check-config after prepare_paths, or a complete run whose event loop succeeded |
| LinuxMain.EarlyReturnsTouchNothing | src/brickd/main_linux.c:226-252 | an unknown option, --help, --version, a prepare_paths failure or --check-config leaves the trace empty: no config load, no lock |
| LinuxMain.CoordinatorRuns | src/brickd/main_linux.c:254-286 | when main reaches the coordinator it loads the configuration first and logs "started" exactly without a configuration error and with the lock |
| MacLifecycle.FailFrom | src/brickd/main_macosx.c:166-188 | the index of the first failing init routine from i on: all before it succeed, and the one there fails |
| MacLifecycle.MacCoordinate | src/brickd/main_macosx.c:120-228 | main from config_init to the return produces exactly the specified run trace and exit code |
| MacLifecycle.RunLadder | src/brickd/main_macosx.c:166-214 | from event_init to event_exit: the body the specification gives and its exit code |
| MacLifecycle.UsbLadder | src/brickd/main_macosx.c:178-206 | from usb_init to label error_usb: the ladder arrives at error_usb with everything above it done, and the exit code of the body |
| MacLifecycle.TryRung | src/brickd/main_macosx.c:166-188 | one `if (x_init() < 0) goto error_x;`: it succeeds exactly when x does not fail and startup goes on; otherwise x is the first failure and the ladder is entered below it, failing |
| MacLifecycle.RunEvents | src/brickd/main_macosx.c:190-194 | event_run after a clean start: the exit code is EXIT_SUCCESS exactly when the event loop succeeds, and the ladder is entered at its top |
| MacLifecycle.ExitRung | src/brickd/main_macosx.c:196-212 | the exit call that follows a label runs, and the ladder goes on at the next label down, just below that call |
| MacLifecycle.Tried | src/brickd/main_macosx.c:166-188 | an init routine either starts and startup goes on, or is the first to fail and enters the ladder at the label just below its own exit call, which is just above the exit call of the routine before it |
| MacLifecycle.Ran | src/brickd/main_macosx.c:190-194 | with every init routine started, event_run runs and the ladder is entered at its top |
| MacLifecycle.StepDown | src/brickd/main_macosx.c:196-212 | the exit call that follows a label moves the ladder to the next label down, just below that call |
| MacLifecycle.Landed | src/brickd/main_macosx.c:196-214 | at error_event the ladder has done the whole body |
| MacLifecycle.Middles | src/brickd/main_macosx.c:134-153 | error_log is reached with the same middle, whether from a failed lock, a configuration error or the session |
| MacLifecycle.Closed | src/brickd/main_macosx.c:217-227 | the tail after error_log completes the run |
| MacLifecycle.StopsAt | src/brickd/main_macosx.c:166-188 | the init routine at index i is the first to fail exactly when those before it succeed and it fails (index Rungs: exactly when none fails) |
| MacProperties.StartsShape | src/brickd/main_macosx.c:166-188 | startup starts the subsystems below the first failure, in ladder order, and tears nothing down |
| MacProperties.ExitsDownShape | src/brickd/main_macosx.c:196-212 | the ladder from a label down to error_event tears down the subsystems above it in reverse, and starts nothing |
| MacProperties.BodyInits | src/brickd/main_macosx.c:166-212 | the ladder between the banners starts the subsystems below the first failure, in order |
| MacProperties.BodyExits | src/brickd/main_macosx.c:166-212 | the ladder tears those subsystems down in reverse |
| MacProperties.BodyActions | src/brickd/main_macosx.c:166-212 | the ladder logs no banner and releases no pid file |
| MacProperties.SessionInits | src/brickd/main_macosx.c:155-215 | the session between the banners starts what the ladder starts |
| MacProperties.SessionExits | src/brickd/main_macosx.c:155-215 | the session tears down what the ladder tears down |
| MacProperties.MiddleInits | src/brickd/main_macosx.c:134-215 | between the lock and the tail, the subsystems below the first failure start when the session runs, and nothing otherwise |
| MacProperties.MiddleExits | src/brickd/main_macosx.c:134-215 | between the lock and the tail, those subsystems are torn down in reverse |
| MacProperties.MiddleBanners | src/brickd/main_macosx.c:148-159 | both banners appear between the lock and the tail exactly when the lock held and the configuration had no error |
| MacProperties.MiddleNoRelease | src/brickd/main_macosx.c:134-215 | the pid file is not released before the tail |
| MacProperties.HeadShape | src/brickd/main_macosx.c:120-132 | the head starts config and log and tears nothing down |
| MacProperties.TailShape | src/brickd/main_macosx.c:217-225 | the tail tears down log then config and starts nothing |
| MacProperties.MacInits | src/brickd/main_macosx.c:120-188 | a run starts config and log, then, when the session runs, the subsystems below the first failure |
| MacProperties.MacExits | src/brickd/main_macosx.c:196-225 | a run tears down the started subsystems in reverse, then log and config |
| MacProperties.MacExactReverse | src/brickd/main_macosx.c:120-228 | teardown is the exact reverse of what was started |
| MacProperties.MacTornDownIffStarted | src/brickd/main_macosx.c:120-228 | a subsystem is torn down exactly when it was started |
| MacProperties.MacRungStarted | src/brickd/main_macosx.c:166-188 | a ladder subsystem starts exactly when the session runs and no earlier init routine failed |
| MacProperties.MacRungTornDown | src/brickd/main_macosx.c:196-212 | a ladder subsystem is torn down under exactly the same condition |
| MacProperties.MacFailureReported | src/brickd/main_macosx.c:166-188 | the first failing init routine is recorded as failed, and is neither started nor torn down |
| MacProperties.OutcomeLogged | src/brickd/main_macosx.c:166-194 | once the session runs, the failed init or event_run appears in the run |
| MacProperties.MacTail | src/brickd/main_macosx.c:217-227 | every run ends with log_exit, the pid release when the lock held, and config_exit |
| MacProperties.MacPidRelease | src/brickd/main_macosx.c:221-223 | the pid file is released exactly when the lock held, and only with the lock's descriptor |
| MacProperties.MacLockFailureRun | src/brickd/main_macosx.c:134-136 | a failed lock skips the session: the run locks, ends log and config, and fails |
| MacProperties.MacConfigErrorRun | src/brickd/main_macosx.c:138-153 | a configuration error is noticed only once the lock is held: the debug override is set, no banner is logged, the pid file is released, and the run fails |
| MacProperties.MacBanners | src/brickd/main_macosx.c:155-215 | "stopped" is logged exactly when "started" was, which is exactly when the lock held and the configuration had no error |
| MacProperties.MacExitCodeIff | src/brickd/main_macosx.c:190-194 | the run succeeds exactly when the session ran, every init routine started and event_run succeeded; the code is EXIT_SUCCESS or EXIT_FAILURE |
| MacProperties.MacLabelUnwind | src/brickd/main_macosx.c:166-212 | a failing init routine at index i unwinds exactly the subsystems below it, then log and config, and the run fails |
| MacProperties.MacEventRunFailure | src/brickd/main_macosx.c:190-212 | a failing event_run after a full start runs the whole ladder from network_exit to event_exit, then log and config, and the run fails |
| MacCli.MacParseArguments | src/brickd/main_macosx.c:83-102 | the argv loop returns the flags or the first unknown option, as MacParseCommandLine says |
| MacCli.MacStep | src/brickd/main_macosx.c:83-101 | a known option sets its flag and the loop goes on; anything else ends it |
| MacCli.MacParsesIff | src/brickd/main_macosx.c:83-102 | the loop succeeds exactly when every argument is an option |
| MacCli.MacFlags | src/brickd/main_macosx.c:83-95 | a flag in a successful parse is set exactly when it was set already or its option occurs |
| MacCli.MacFirstUnknown | src/brickd/main_macosx.c:96-101 | a failed parse names the first argument that is not an option |
| MacCli.MacParseMeaning | src/brickd/main_macosx.c:83-102 | a command line parses exactly when every argument is an option; each flag is set exactly when its option is given; a failure names the first non-option |
| MacCli.MacDebugTakesNothing | src/brickd/main_macosx.c:92-95 | --debug and --libusb-debug take no argument: a non-option after them fails the parse |
| MacCli.MacUnknownAfterHelp | src/brickd/main_macosx.c:96-101 | an unknown option after --help still fails the parse |
| MacMain.MacMainRun | src/brickd/main_macosx.c:72-228 | main's exit code and trace are those MacDispatch gives |
| MacMain.MacDispatchExitCode | src/brickd/main_macosx.c:104-228 | main returns EXIT_SUCCESS exactly for --help, --version, a passing --check-config, or a complete run whose event loop succeeded |
| MacMain.MacEarlyReturnsTouchNothing | src/brickd/main_macosx.c:96-118 | an unknown option, --help, --version or --check-config leaves the trace empty |
| MacMain.MacVersionBeatsCheckConfig | src/brickd/main_macosx.c:110-118 | with both --check-config and --version, main prints the version and checks nothing |
| MacMain.MacCoordinatorRuns | src/brickd/main_macosx.c:120-159 | when main reaches the coordinator it loads config and log first, and logs "started" exactly when the lock held and the configuration had no error |

## Left out

- Output to stdout and stderr is not modelled: print_usage, the version string, and the error and info messages (except the two banners, which are trace actions).
- Log levels are not modelled: the macOS `log_set_level` calls and the Linux and macOS configuration warnings.
- The collaborators' internals are outside the model. This covers config_init/config_check, log_init, daemon_start, pid_file_acquire, the init, exit and event_run routines of every subsystem, and network_cleanup_clients. Their results are inputs (`World`, `configCheckOk`, `reopenOk`). daemon_start's fork and stdio redirection are outside the model too.
- getuid, getenv, getpwuid, robust_snprintf, mkdir and stat are answered by a `PathEnv` and a `DirState`. A failed robust_snprintf is assumed to leave its buffer unchanged. Names longer than the 1024-byte buffers are not modelled.
- The default names assume the build prefixes SYSCONFDIR = /etc and LOCALSTATEDIR = /var.
- Signal delivery is not modelled: `HandleSighup` models the handler's effect, not when it runs.
- handle_sigusr1 (usb_reopen / usb_rescan) and handle_event_cleanup (network and mesh cleanup) are left out: they only forward to collaborators.
- The RED Brick LED triggers and the three announce-disconnect calls after a successful event_run are left out: they start and stop nothing.
- The macOS `--libusb-debug` flag is parsed, but its value, passed on to usb_init, is not modelled.
- The Linux cleanup switch is rendered as a descending loop over the case bodies. Startup is split into step methods, one per group of phases. The macOS ladder between the banners is the method `RunLadder`, which hands the rungs from usb_init up to `UsbLadder`.
- LinuxMain.Brickd.Run: daemon_start (daemonlib's daemon.c) is not part of this model. The model assumes it opens the log file at the log name and makes it the log output exactly when it returns a descriptor, and leaves the log state unchanged when it fails. That effect is applied after the trace is built.
- LinuxMain.Brickd.HandleSighup: file handles are modelled as counters, and the log messages of the handler are not in the trace.

