/** The startup and teardown of main() in src/brickd/main_macosx.c.

    Here the unwind is a ladder of labels: a failing init routine jumps to the
    label just below its own exit call, so the fall-through runs the exit
    calls of every subsystem started before it, in reverse, and then goes on
    through the rest of the ladder to a tail that always ends
    logging, releases the pid file when it was locked and frees the
    configuration. */
module MacLifecycle {
  import opened Trace

  /** What the command line hands to the coordinator: --daemon, --debug and
      --libusb-debug (the last only reaches usb_init and is not modelled). */
  datatype MacStart = MacStart(daemon: bool, debug: bool)

  /** The subsystems started between the banner and event_run, in order. */
  const Rungs: nat := 6

  /** The subsystem started at index i: event, signal, hardware, usb, iokit,
      network. */
  function Rung(i: nat): Subsystem
    requires i < Rungs
  {
    if i == 0 then Event
    else if i == 1 then Signal
    else if i == 2 then Hardware
    else if i == 3 then Usb
    else if i == 4 then IoKit
    else Network
  }

  /** The index of the first init routine that fails, from index i
      on (Rungs when none does). */
  function FailFrom(w: World, i: nat): (n: nat)
    requires i <= Rungs
    ensures i <= n <= Rungs
    ensures n < Rungs ==> Rung(n) in w.failing
    ensures forall j :: i <= j < n ==> Rung(j) !in w.failing
    decreases Rungs - i
  {
    if i == Rungs then i
    else if Rung(i) in w.failing then i
    else FailFrom(w, i + 1)
  }

  function FirstFailure(w: World): nat {
    FailFrom(w, 0)
  }

  /** Init actions for Rung(..n), in order. */
  function Starts(n: nat): seq<Action>
    requires n <= Rungs
  {
    if n == 0 then [] else Starts(n - 1) + [Init(Rung(n - 1))]
  }

  /** The exit calls the ladder makes from the label just above Rung(n - 1)'s
      exit call down to the label just above Rung(k)'s: Rung(n - 1) first,
      Rung(k) last. */
  function ExitsDown(n: nat, k: nat): seq<Action>
    requires k <= n <= Rungs
    decreases n - k
  {
    if k == n then [] else ExitsDown(n, k + 1) + [Exit(Rung(k))]
  }

  /** What follows the last init attempt: the failed init, or event_run. */
  function Outcome(w: World): seq<Action> {
    var n := FirstFailure(w);
    if n < Rungs then [InitFailed(Rung(n))] else [EventRun(w.eventRunOk)]
  }

  /** From event_init to event_exit: the inits up to the first failure, the
      failed init or event_run, and the exits of what started, in reverse. */
  function Body(w: World): seq<Action> {
    var n := FirstFailure(w);
    Starts(n) + Outcome(w) + ExitsDown(n, 0)
  }

  /** From the "started" banner to the "stopped" banner. */
  function Session(w: World): seq<Action> {
    [Started] + Body(w) + [Stopped]
  }

  function Head(o: MacStart, w: World): seq<Action> {
    [Init(Config), Init(Log), LockPid(w.pidFd, o.daemon)]
  }

  /** The code at error_config / error_log, run on every path. */
  function Tail(w: World): seq<Action> {
    [Exit(Log)] + (if w.pidFd >= 0 then [ReleasePid(w.pidFd)] else []) + [Exit(Config)]
  }

  /** Between the lock and the tail: nothing when the lock failed; the debug
      override, then the session unless the configuration has an error. */
  function Middle(o: MacStart, w: World): seq<Action> {
    if w.pidFd < 0 then []
    else [DebugOverride(o.debug)] + (if w.configError then [] else Session(w))
  }

  function MacRunTrace(o: MacStart, w: World): seq<Action> {
    Head(o, w) + Middle(o, w) + Tail(w)
  }

  /** exit_code after the ladder: success only when every init routine
      started and event_run succeeded. */
  function BodyExitCode(w: World): int {
    if FirstFailure(w) == Rungs && w.eventRunOk then ExitSuccess else ExitFailure
  }

  function MacExitCode(w: World): int {
    if w.pidFd >= 0 && !w.configError then BodyExitCode(w) else ExitFailure
  }

  /** main from config_init to `return exit_code`. The ladder between the
      banners is RunLadder; error_config labels the same point as error_log. */
  method MacCoordinate(o: MacStart, w: World) returns (exitCode: int, trace: seq<Action>)
    ensures trace == MacRunTrace(o, w)
    ensures exitCode == MacExitCode(w)
  {
    exitCode := ExitFailure;
    trace := [Init(Config), Init(Log)];
    var pidFd := w.pidFd;
    trace := trace + [LockPid(pidFd, o.daemon)];
    label error_log: {
      if pidFd < 0 {
        break error_log;
      }
      trace := trace + [DebugOverride(o.debug)];
      if w.configError {
        break error_log;
      }
      trace := trace + [Started];
      exitCode, trace := RunLadder(w, trace);
      trace := trace + [Stopped];
      Finish(o, w, trace);
    }
    Middles(o, w, trace);
    ghost var m := trace;
    trace := trace + [Exit(Log)];
    if pidFd >= 0 {
      trace := trace + [ReleasePid(pidFd)];
    }
    trace := trace + [Exit(Config)];
    Closed(o, w, m, trace);
  }

  /** main from event_init to event_exit, with the label ladder as nested
      labelled blocks: leaving block error_x continues with the code that
      follows label error_x in the source. The rungs from usb_init up are
      UsbLadder, which comes back at label error_usb. */
  method RunLadder(w: World, t: seq<Action>) returns (exitCode: int, t': seq<Action>)
    ensures t' == t + Body(w)
    ensures exitCode == BodyExitCode(w)
  {
    exitCode := ExitFailure;
    t' := t;
    var ok: bool;
    label error_event: {
      label error_signal: {
        label error_hardware: {
          Begin(w, t);
          ok, t' := TryRung(w, t, 0, Event, t');
          if !ok {
            break error_event;
          }
          ok, t' := TryRung(w, t, 1, Signal, t');
          if !ok {
            break error_signal;
          }
          ok, t' := TryRung(w, t, 2, Hardware, t');
          if !ok {
            break error_hardware;
          }
          exitCode, t' := UsbLadder(w, t, t');
          t' := ExitRung(w, t, 3, Hardware, t');
        }
        t' := ExitRung(w, t, 2, Signal, t');
      }
      t' := ExitRung(w, t, 1, Event, t');
    }
    Landed(w, t, t');
  }

  /** main from usb_init to label error_usb: the upper rungs of the ladder. */
  method UsbLadder(w: World, s: seq<Action>, t: seq<Action>) returns (exitCode: int, t': seq<Action>)
    requires Clean(w, s, 3, t)
    ensures AtLabel(w, s, 3, t')
    ensures exitCode == BodyExitCode(w)
  {
    exitCode := ExitFailure;
    t' := t;
    var ok: bool;
    label error_usb: {
      label error_iokit: {
        label error_network: {
          label error_run: {
            ok, t' := TryRung(w, s, 3, Usb, t');
            if !ok {
              break error_usb;
            }
            ok, t' := TryRung(w, s, 4, IoKit, t');
            if !ok {
              break error_iokit;
            }
            ok, t' := TryRung(w, s, 5, Network, t');
            if !ok {
              break error_network;
            }
            ok, t' := RunEvents(w, s, t');
            if !ok {
              break error_run;
            }
            exitCode := ExitSuccess;
          }
          t' := ExitRung(w, s, 6, Network, t');
        }
        t' := ExitRung(w, s, 5, IoKit, t');
      }
      t' := ExitRung(w, s, 4, Usb, t');
    }
  }

  // ---------------------------------------------------------------------------
  // The steps of the proof of MacCoordinate

  /** Startup got past the init routines before index i, and t is what it did
      since the "started" banner s. */
  ghost predicate Clean(w: World, s: seq<Action>, i: nat, t: seq<Action>) {
    i <= Rungs && (forall j :: 0 <= j < i ==> Rung(j) !in w.failing) && t == s + Starts(i)
  }

  /** At the label just above Rung(k - 1)'s exit call (error_event, below
      every exit call, for k = 0): everything up to the last init attempt is
      done, and the exit calls above that label have run. */
  ghost predicate AtLabel(w: World, s: seq<Action>, k: nat, t: seq<Action>) {
    k <= FirstFailure(w) && t == s + Starts(FirstFailure(w)) + Outcome(w) + ExitsDown(FirstFailure(w), k)
  }

  lemma Begin(w: World, s: seq<Action>)
    ensures Clean(w, s, 0, s)
  {
  }

  /** The init routine x at index i either starts and startup goes on, or
      fails, is the first to fail, and the ladder is entered at the label
      just below x's own exit call, which is just above Rung(i - 1)'s. */
  lemma Tried(w: World, s: seq<Action>, i: nat, x: Subsystem, t: seq<Action>)
    requires i < Rungs && x == Rung(i) && Clean(w, s, i, t)
    ensures x !in w.failing ==> Clean(w, s, i + 1, t + [Init(x)])
    ensures x in w.failing ==> FirstFailure(w) == i && AtLabel(w, s, i, t + [InitFailed(x)])
  {
    if x in w.failing {
      StopsAt(w, i);
    }
  }

  /** Calls the init routine x at index i of the ladder. */
  method TryRung(w: World, s: seq<Action>, i: nat, x: Subsystem, t: seq<Action>) returns (ok: bool, t': seq<Action>)
    requires i < Rungs && x == Rung(i) && Clean(w, s, i, t)
    ensures ok == (x !in w.failing)
    ensures ok ==> Clean(w, s, i + 1, t')
    ensures !ok ==> AtLabel(w, s, i, t') && BodyExitCode(w) == ExitFailure
  {
    Tried(w, s, i, x, t);
    ok, t' := CallInit(x, w, t);
  }

  /** Calls the exit routine x, which follows label k of the ladder. */
  method ExitRung(w: World, s: seq<Action>, k: nat, x: Subsystem, t: seq<Action>) returns (t': seq<Action>)
    requires 1 <= k <= Rungs && x == Rung(k - 1) && AtLabel(w, s, k, t)
    ensures AtLabel(w, s, k - 1, t')
  {
    StepDown(w, s, k, x, t);
    t' := t + [Exit(x)];
  }

  /** Runs the event loop once every init routine has started. */
  method RunEvents(w: World, s: seq<Action>, t: seq<Action>) returns (ok: bool, t': seq<Action>)
    requires Clean(w, s, Rungs, t)
    ensures ok == w.eventRunOk
    ensures AtLabel(w, s, Rungs, t')
    ensures BodyExitCode(w) == if ok then ExitSuccess else ExitFailure
  {
    Ran(w, s, t);
    ok := w.eventRunOk;
    t' := t + [EventRun(ok)];
  }

  /** With every init routine started, event_run runs and the ladder is
      entered at its top. */
  lemma Ran(w: World, s: seq<Action>, t: seq<Action>)
    requires Clean(w, s, Rungs, t)
    ensures FirstFailure(w) == Rungs
    ensures AtLabel(w, s, Rungs, t + [EventRun(w.eventRunOk)])
  {
    StopsAt(w, Rungs);
  }

  /** The exit routine x that follows label k runs, and the ladder goes on
      at label k - 1, just below that exit call. */
  lemma StepDown(w: World, s: seq<Action>, k: nat, x: Subsystem, t: seq<Action>)
    requires 1 <= k <= Rungs && x == Rung(k - 1) && AtLabel(w, s, k, t)
    ensures AtLabel(w, s, k - 1, t + [Exit(x)])
  {
  }

  /** At error_event the ladder has done the whole body. */
  lemma Landed(w: World, s: seq<Action>, t: seq<Action>)
    requires AtLabel(w, s, 0, t)
    ensures t == s + Body(w)
  {
    var n := FirstFailure(w);
    Regroup(s, Starts(n), Outcome(w), ExitsDown(n, 0));
  }

  lemma Regroup(s: seq<Action>, a: seq<Action>, b: seq<Action>, c: seq<Action>)
    ensures s + a + b + c == s + (a + b + c)
  {
  }

  /** The session between the banners completes the middle. */
  lemma Finish(o: MacStart, w: World, t: seq<Action>)
    requires w.pidFd >= 0 && !w.configError
    requires t == Head(o, w) + [DebugOverride(o.debug)] + [Started] + Body(w) + [Stopped]
    ensures t == Head(o, w) + Middle(o, w)
  {
    Nest(Head(o, w), [DebugOverride(o.debug)], [Started], Body(w), [Stopped]);
    assert Middle(o, w) == [DebugOverride(o.debug)] + Session(w);
  }

  lemma Nest(h: seq<Action>, d: seq<Action>, s: seq<Action>, m: seq<Action>, e: seq<Action>)
    ensures h + d + s + m + e == h + (d + (s + m + e))
  {
  }

  /** At error_log the trace is the head and the middle, whichever way it got there. */
  lemma Middles(o: MacStart, w: World, t: seq<Action>)
    requires
      (w.pidFd < 0 && t == Head(o, w))
      || (w.pidFd >= 0 && w.configError && t == Head(o, w) + [DebugOverride(o.debug)])
      || (w.pidFd >= 0 && !w.configError && t == Head(o, w) + Middle(o, w))
    ensures t == Head(o, w) + Middle(o, w)
  {
  }

  /** The tail after error_log completes the run. */
  lemma Closed(o: MacStart, w: World, m: seq<Action>, t: seq<Action>)
    requires m == Head(o, w) + Middle(o, w)
    requires t == m + [Exit(Log)] + (if w.pidFd >= 0 then [ReleasePid(w.pidFd)] else []) + [Exit(Config)]
    ensures t == MacRunTrace(o, w)
  {
  }

  /** The init routine at index i is the first to fail (i == Rungs: none
      fails) exactly when those before it succeed and it fails. */
  lemma StopsAt(w: World, i: nat)
    requires i <= Rungs
    ensures FirstFailure(w) == i <==>
      (i < Rungs ==> Rung(i) in w.failing) && forall j :: 0 <= j < i ==> Rung(j) !in w.failing
  {
  }
}
