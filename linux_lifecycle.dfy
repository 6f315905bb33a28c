/** The phase-counted startup and fall-through teardown of main() in
    src/brickd/main_linux.c.

    main records an integer phase after each step of startup succeeds; on any
    failure, and after the event loop returns, a fall-through switch on that
    phase runs the teardown paired with every phase reached, highest first.
    The specification below describes a run as a table: Attempt(k) is what
    main does to reach phase k, Teardown(k) the body of `case k`. */
module LinuxLifecycle {
  import opened Trace

  /** The build options BRICKD_WITH_RED_BRICK, BRICKD_WITH_LIBUDEV and
      BRICKD_WITH_LIBUSB_DLOPEN. */
  datatype Build = Build(redBrick: bool, libudev: bool, libusbDlopen: bool)

  /** What the command line hands to the coordinator: --daemon and the
      filter given with --debug (None when --debug was absent). */
  datatype StartOptions = StartOptions(daemon: bool, debugFilter: Option<string>)

  /** Phase k exists in build b: its assignment and its case label are compiled in. */
  predicate Compiled(b: Build, k: int) {
    1 <= k <= 16 && (k == 4 ==> b.libusbDlopen) && (k == 9 ==> b.libudev) && (k >= 12 ==> b.redBrick)
  }

  /** The phase of a complete startup, after which event_run is called. */
  function FinalPhase(b: Build): (k: nat)
    ensures Compiled(b, k) && forall j :: k < j <= 16 ==> !Compiled(b, j)
  {
    if b.redBrick then 16 else 11
  }

  /** The phase recorded once the init routine of s has succeeded (0: not a Linux subsystem). */
  function PhaseOf(s: Subsystem): nat {
    match s
    case Config => 1
    case Log => 2
    case LibusbDlopen => 4
    case Event => 5
    case Signal => 6
    case Hardware => 7
    case Usb => 8
    case Udev => 9
    case Network => 10
    case Mesh => 11
    case Gpio => 12
    case Redapid => 13
    case RedStack => 14
    case RedExtension => 15
    case RedUsbGadget => 16
    case IoKit => 0
  }

  /** The subsystem whose init routine alone decides whether phase k is reached. */
  function Owner(k: nat): (s: Subsystem)
    requires k in {4, 5, 6, 7, 8, 10, 11, 12, 13, 14, 15, 16}
    ensures PhaseOf(s) == k
  {
    match k
    case 4 => LibusbDlopen
    case 5 => Event
    case 6 => Signal
    case 7 => Hardware
    case 8 => Usb
    case 10 => Network
    case 11 => Mesh
    case 12 => Gpio
    case 13 => Redapid
    case 14 => RedStack
    case 15 => RedExtension
    case 16 => RedUsbGadget
  }

  /** What main does on the way to one phase, and whether it then records it. */
  datatype Step = Step(actions: seq<Action>, recorded: bool)

  function TryInit(s: Subsystem, w: World): Step {
    if s in w.failing then Step([InitFailed(s)], false) else Step([Init(s)], true)
  }

  function DebugActions(o: StartOptions): seq<Action> {
    if o.debugFilter.Some? then [DebugFilter(o.debugFilter.value)] else []
  }

  /** The actions between recording the previous phase and recording phase k. */
  function Attempt(k: nat, o: StartOptions, w: World): Step
    requires 1 <= k <= 16
  {
    if k == 1 then Step([Init(Config)], true)
    else if k == 2 then
      if w.configError then Step([], false) else Step([Init(Log), LockPid(w.pidFd, o.daemon)], true)
    else if k == 3 then
      if w.pidFd < 0 then Step([], false) else Step([Started] + DebugActions(o), true)
    else if k == 9 then
      if w.usbHotplug then Step([], true) else TryInit(Udev, w)
    else TryInit(Owner(k), w)
  }

  /** The body of `case k` in the cleanup switch. */
  function Teardown(k: nat, w: World): seq<Action>
    requires 1 <= k <= 16
  {
    if k == 1 then [Exit(Config)]
    else if k == 2 then (if w.pidFd >= 0 then [ReleasePid(w.pidFd)] else []) + [Exit(Log)]
    else if k == 3 then [Stopped]
    else if k == 9 then (if !w.usbHotplug && Udev !in w.failing then [Exit(Udev)] else [])
    else if k == 12 then []
    else [Exit(Owner(k))]
  }

  /** The actions of the attempts of every phase of the build up to p. */
  function Prefix(b: Build, o: StartOptions, w: World, p: nat): seq<Action>
    requires p <= 16
  {
    if p == 0 then [] else Prefix(b, o, w, p - 1) + (if Compiled(b, p) then Attempt(p, o, w).actions else [])
  }

  /** Every phase of the build up to p is recorded by its attempt. */
  predicate OkUpTo(b: Build, o: StartOptions, w: World, p: nat)
    requires p <= 16
  {
    p == 0 || (OkUpTo(b, o, w, p - 1) && (Compiled(b, p) ==> Attempt(p, o, w).recorded))
  }

  /** The highest phase of the build, at most n, up to which every attempt succeeded (0: none). */
  function Highest(b: Build, o: StartOptions, w: World, n: nat): (r: nat)
    requires n <= 16
    ensures r <= n
    ensures r == 0 || (Compiled(b, r) && OkUpTo(b, o, w, r))
  {
    if n == 0 then 0
    else if Compiled(b, n) && OkUpTo(b, o, w, n) then n
    else Highest(b, o, w, n - 1)
  }

  /** The phase main holds when it reaches the cleanup label. */
  function Reached(b: Build, o: StartOptions, w: World): nat {
    Highest(b, o, w, 16)
  }

  /** The phase of the build that follows p. */
  function NextPhase(b: Build, p: nat): (k: nat)
    requires p < FinalPhase(b)
    ensures p < k <= FinalPhase(b) && Compiled(b, k)
    ensures forall j :: p < j < k ==> !Compiled(b, j)
    decreases 16 - p
  {
    if Compiled(b, p + 1) then p + 1 else NextPhase(b, p + 1)
  }

  /** The actions of startup: every attempt up to the phase reached, then the
      attempt that failed, if one did. */
  function StartTrace(b: Build, o: StartOptions, w: World): seq<Action> {
    var r := Reached(b, o, w);
    Prefix(b, o, w, r) + (if r < FinalPhase(b) then Attempt(NextPhase(b, r), o, w).actions else [])
  }

  /** Startup stopped after phase r: every phase up to r succeeded, the attempt
      of the next phase of the build failed, and t is what was done. */
  predicate FailsAfter(b: Build, o: StartOptions, w: World, r: nat, t: seq<Action>) {
    1 <= r < FinalPhase(b) && Compiled(b, r) && OkUpTo(b, o, w, r)
    && !Attempt(NextPhase(b, r), o, w).recorded
    && t == Prefix(b, o, w, r) + Attempt(NextPhase(b, r), o, w).actions
  }

  /** The fall-through cascade entered at `case p`. */
  function Unwind(b: Build, w: World, p: nat): seq<Action>
    requires p <= 16
  {
    if p == 0 then [] else Case(b, w, p) + Unwind(b, w, p - 1)
  }

  function Case(b: Build, w: World, k: nat): seq<Action>
    requires 1 <= k <= 16
  {
    if Compiled(b, k) then Teardown(k, w) else []
  }

  /** Everything main does after choosing to run: startup, the event loop
      when startup completed, and the cleanup from the phase reached. */
  function RunTrace(b: Build, o: StartOptions, w: World): seq<Action> {
    var r := Reached(b, o, w);
    StartTrace(b, o, w) + (if r == FinalPhase(b) then [EventRun(w.eventRunOk)] else []) + Unwind(b, w, r)
  }

  function RunExitCode(b: Build, o: StartOptions, w: World): int {
    if Reached(b, o, w) == FinalPhase(b) && w.eventRunOk then ExitSuccess else ExitFailure
  }

  /** s is a subsystem whose init routine main calls and checks in build b. */
  predicate Checked(b: Build, w: World, s: Subsystem) {
    PhaseOf(s) >= 4 && Compiled(b, PhaseOf(s)) && (s == Udev ==> !w.usbHotplug)
  }

  // ---------------------------------------------------------------------------
  // The coordinator as main runs it

  /** main from config_init to `return exit_code`; each `goto cleanup` is a
      `break cleanup`, taken here or inside the step that failed. */
  method Coordinate(b: Build, o: StartOptions, w: World) returns (exitCode: int, trace: seq<Action>)
    ensures trace == RunTrace(b, o, w)
    ensures exitCode == RunExitCode(b, o, w)
  {
    var phase: nat := 0;
    var pidFd := -1;
    var initializedUdev := false;
    var ok: bool;
    exitCode := ExitFailure;
    trace := [];

    label cleanup: {
      ok, phase, pidFd, trace := StartProcess(b, o, w);
      if !ok {
        StopsAtCleanup(b, o, w, phase, pidFd, initializedUdev, trace);
        break cleanup;
      }
      ok, phase, trace := StartUsbStack(b, o, w, trace);
      if !ok {
        StopsAtCleanup(b, o, w, phase, pidFd, initializedUdev, trace);
        break cleanup;
      }
      ok, phase, initializedUdev, trace := StartNetworkStack(b, o, w, trace);
      if !ok {
        StopsAtCleanup(b, o, w, phase, pidFd, initializedUdev, trace);
        break cleanup;
      }
      if b.redBrick {
        ok, phase, trace := StartRedBrickServices(b, o, w, trace);
        if !ok {
          StopsAtCleanup(b, o, w, phase, pidFd, initializedUdev, trace);
          break cleanup;
        }
        ok, phase, trace := StartRedBrickStack(b, o, w, trace);
        if !ok {
          StopsAtCleanup(b, o, w, phase, pidFd, initializedUdev, trace);
          break cleanup;
        }
      }
      RunsAtCleanup(b, o, w, pidFd, initializedUdev, trace);

      trace := trace + [EventRun(w.eventRunOk)];
      if w.eventRunOk {
        exitCode := ExitSuccess;
      }
    }
    ghost var started := trace;
    trace := Cleanup(b, w, phase, pidFd, initializedUdev, trace);
    Finishes(b, o, w, phase, pidFd, initializedUdev, exitCode, started, trace);
  }

  /** What holds when main reaches the cleanup label: the phase reached, the
      descriptor and udev flags the switch reads, and everything done so far. */
  ghost predicate AtCleanup(b: Build, o: StartOptions, w: World, phase: nat, pidFd: int,
                            initializedUdev: bool, exitCode: int, t: seq<Action>) {
    phase == Reached(b, o, w) && phase <= 16
    && (phase >= 2 ==> pidFd == w.pidFd)
    && (phase >= 9 && b.libudev ==> initializedUdev == (!w.usbHotplug && Udev !in w.failing))
    && t == StartTrace(b, o, w) + (if phase == FinalPhase(b) then [EventRun(w.eventRunOk)] else [])
    && exitCode == RunExitCode(b, o, w)
  }

  /** Phases 1 to 3: config_init, log_init with the pid-file lock, and the
      "started" banner. ok is false where main jumps to cleanup. */
  method StartProcess(b: Build, o: StartOptions, w: World)
    returns (ok: bool, phase: nat, pidFd: int, trace: seq<Action>)
    ensures ok ==> phase == 3 && trace == Prefix(b, o, w, 3) && OkUpTo(b, o, w, 3)
    ensures !ok ==> phase < 3 && FailsAfter(b, o, w, phase, trace)
    ensures pidFd == if phase >= 2 then w.pidFd else -1
  {
    pidFd := -1;
    trace := [Init(Config)];
    phase := 1;
    assert trace == Prefix(b, o, w, 1) && OkUpTo(b, o, w, 1);
    if w.configError {
      assert NextPhase(b, 1) == 2;
      return false, phase, pidFd, trace;
    }
    trace := trace + [Init(Log)];
    pidFd := w.pidFd;
    trace := trace + [LockPid(pidFd, o.daemon)];
    phase := 2;
    assert trace == Prefix(b, o, w, 2) && OkUpTo(b, o, w, 2);
    if pidFd < 0 {
      assert NextPhase(b, 2) == 3;
      return false, phase, pidFd, trace;
    }
    trace := trace + [Started];
    phase := 3;
    if o.debugFilter != None {
      trace := trace + [DebugFilter(o.debugFilter.value)];
    }
    ok := true;
  }

  /** One `if (s_init() < 0) goto cleanup; phase = k;` step: r is the phase
      recorded last and k the next phase of the build, the one s owns. */
  method Advance(b: Build, o: StartOptions, w: World, r: nat, k: nat, s: Subsystem, t: seq<Action>)
    returns (ok: bool, trace: seq<Action>)
    requires 3 <= r && Compiled(b, r) && Compiled(b, k) && PhaseOf(s) == k
    requires k == r + 1 || (k == r + 2 && !Compiled(b, r + 1))
    requires s != Udev || !w.usbHotplug
    requires t == Prefix(b, o, w, r) && OkUpTo(b, o, w, r)
    ensures ok == (s !in w.failing)
    ensures ok ==> trace == Prefix(b, o, w, k) && OkUpTo(b, o, w, k)
    ensures !ok ==> FailsAfter(b, o, w, r, trace)
  {
    SkipUncompiled(b, o, w, r, k - 1);
    AttemptOfOwner(s, o, w);
    ok, trace := CallInit(s, w, t);
  }

  /** Phases 4 to 8: the optional libusb dlopen, event, signal, hardware and usb. */
  method StartUsbStack(b: Build, o: StartOptions, w: World, t: seq<Action>)
    returns (ok: bool, phase: nat, trace: seq<Action>)
    requires t == Prefix(b, o, w, 3) && OkUpTo(b, o, w, 3)
    ensures ok ==> phase == 8 && trace == Prefix(b, o, w, 8) && OkUpTo(b, o, w, 8)
    ensures !ok ==> 3 <= phase < 8 && FailsAfter(b, o, w, phase, trace)
  {
    trace := t;
    phase := 3;
    if b.libusbDlopen {
      ok, trace := Advance(b, o, w, phase, 4, LibusbDlopen, trace);
      if !ok {
        return;
      }
      phase := 4;
    }
    ok, trace := Advance(b, o, w, phase, 5, Event, trace);
    if !ok {
      return;
    }
    phase := 5;
    ok, trace := Advance(b, o, w, phase, 6, Signal, trace);
    if !ok {
      return;
    }
    phase := 6;
    ok, trace := Advance(b, o, w, phase, 7, Hardware, trace);
    if !ok {
      return;
    }
    phase := 7;
    ok, trace := Advance(b, o, w, phase, 8, Usb, trace);
    if !ok {
      return;
    }
    phase := 8;
  }

  /** Phases 9 to 11: the udev fallback when libusb lacks hotplug support,
      network and mesh. */
  method StartNetworkStack(b: Build, o: StartOptions, w: World, t: seq<Action>)
    returns (ok: bool, phase: nat, initializedUdev: bool, trace: seq<Action>)
    requires t == Prefix(b, o, w, 8) && OkUpTo(b, o, w, 8)
    ensures ok ==> phase == 11 && trace == Prefix(b, o, w, 11) && OkUpTo(b, o, w, 11)
    ensures !ok ==> 8 <= phase < 11 && FailsAfter(b, o, w, phase, trace)
    ensures phase >= 9 && b.libudev ==> initializedUdev == (!w.usbHotplug && Udev !in w.failing)
  {
    trace := t;
    phase := 8;
    initializedUdev := false;
    if b.libudev {
      if !w.usbHotplug {
        ok, trace := Advance(b, o, w, phase, 9, Udev, trace);
        if !ok {
          return;
        }
        initializedUdev := true;
      } else {
        assert trace == Prefix(b, o, w, 9) && OkUpTo(b, o, w, 9);
      }
      phase := 9;
    }
    ok, trace := Advance(b, o, w, phase, 10, Network, trace);
    if !ok {
      return;
    }
    phase := 10;
    ok, trace := Advance(b, o, w, phase, 11, Mesh, trace);
    if !ok {
      return;
    }
    phase := 11;
  }

  /** Phases 12 and 13, compiled only with BRICKD_WITH_RED_BRICK: gpio and redapid. */
  method StartRedBrickServices(b: Build, o: StartOptions, w: World, t: seq<Action>)
    returns (ok: bool, phase: nat, trace: seq<Action>)
    requires b.redBrick && t == Prefix(b, o, w, 11) && OkUpTo(b, o, w, 11)
    ensures ok ==> phase == 13 && trace == Prefix(b, o, w, 13) && OkUpTo(b, o, w, 13)
    ensures !ok ==> 11 <= phase < 13 && FailsAfter(b, o, w, phase, trace)
  {
    trace := t;
    phase := 11;
    ok, trace := Advance(b, o, w, phase, 12, Gpio, trace);
    if !ok {
      return;
    }
    phase := 12;
    ok, trace := Advance(b, o, w, phase, 13, Redapid, trace);
    if !ok {
      return;
    }
    phase := 13;
  }

  /** Phases 14 to 16, compiled only with BRICKD_WITH_RED_BRICK: the RED stack,
      the extensions and the USB gadget. */
  method StartRedBrickStack(b: Build, o: StartOptions, w: World, t: seq<Action>)
    returns (ok: bool, phase: nat, trace: seq<Action>)
    requires b.redBrick && t == Prefix(b, o, w, 13) && OkUpTo(b, o, w, 13)
    ensures ok ==> phase == 16 && trace == Prefix(b, o, w, 16) && OkUpTo(b, o, w, 16)
    ensures !ok ==> 13 <= phase < 16 && FailsAfter(b, o, w, phase, trace)
  {
    trace := t;
    phase := 13;
    ok, trace := Advance(b, o, w, phase, 14, RedStack, trace);
    if !ok {
      return;
    }
    phase := 14;
    ok, trace := Advance(b, o, w, phase, 15, RedExtension, trace);
    if !ok {
      return;
    }
    phase := 15;
    ok, trace := Advance(b, o, w, phase, 16, RedUsbGadget, trace);
    if !ok {
      return;
    }
    phase := 16;
  }

  /** The cleanup switch: entering at `case phase`, every lower case body runs
      in turn (no case has a break). */
  method Cleanup(b: Build, w: World, phase: nat, pidFd: int, initializedUdev: bool, t: seq<Action>)
    returns (trace: seq<Action>)
    requires phase <= 16
    requires phase >= 2 ==> pidFd == w.pidFd
    requires phase >= 9 && b.libudev ==> initializedUdev == (!w.usbHotplug && Udev !in w.failing)
    ensures trace == t + Unwind(b, w, phase)
  {
    trace := t;
    var k: nat := phase;
    while k > 0
      invariant k <= phase
      invariant trace + Unwind(b, w, k) == t + Unwind(b, w, phase)
    {
      ghost var before := trace;
      trace := CaseBody(b, w, k, pidFd, initializedUdev, trace);
      CascadeStep(b, w, k, phase, t, before, trace);
      k := k - 1;
    }
  }

  lemma CascadeStep(b: Build, w: World, k: nat, phase: nat, t: seq<Action>, t0: seq<Action>, t1: seq<Action>)
    requires 1 <= k <= phase <= 16
    requires t0 + Unwind(b, w, k) == t + Unwind(b, w, phase)
    requires t1 == t0 + Case(b, w, k)
    ensures t1 + Unwind(b, w, k - 1) == t + Unwind(b, w, phase)
  {
    var c, u := Case(b, w, k), Unwind(b, w, k - 1);
    assert Unwind(b, w, k) == c + u;
    Assoc(t0, c, u);
  }

  lemma Assoc(s: seq<Action>, a: seq<Action>, b: seq<Action>)
    ensures s + (a + b) == s + a + b
  {
  }

  /** The body of `case k` of the cleanup switch, as compiled in build b. */
  method CaseBody(b: Build, w: World, k: nat, pidFd: int, initializedUdev: bool, t: seq<Action>)
    returns (trace: seq<Action>)
    requires 1 <= k <= 16
    requires k == 2 ==> pidFd == w.pidFd
    requires k == 9 && b.libudev ==> initializedUdev == (!w.usbHotplug && Udev !in w.failing)
    ensures trace == t + Case(b, w, k)
  {
    trace := t;
    match k {
      case 16 => if b.redBrick { trace := trace + [Exit(RedUsbGadget)]; }
      case 15 => if b.redBrick { trace := trace + [Exit(RedExtension)]; }
      case 14 => if b.redBrick { trace := trace + [Exit(RedStack)]; }
      case 13 => if b.redBrick { trace := trace + [Exit(Redapid)]; }
      case 12 => // gpio_exit() is commented out
      case 11 => trace := trace + [Exit(Mesh)];
      case 10 => trace := trace + [Exit(Network)];
      case 9 => if b.libudev && initializedUdev { trace := trace + [Exit(Udev)]; }
      case 8 => trace := trace + [Exit(Usb)];
      case 7 => trace := trace + [Exit(Hardware)];
      case 6 => trace := trace + [Exit(Signal)];
      case 5 => trace := trace + [Exit(Event)];
      case 4 => if b.libusbDlopen { trace := trace + [Exit(LibusbDlopen)]; }
      case 3 => trace := trace + [Stopped];
      case 2 =>
        if pidFd >= 0 {
          trace := trace + [ReleasePid(pidFd)];
        }
        trace := trace + [Exit(Log)];
      case 1 => trace := trace + [Exit(Config)];
    }
  }

  // ---------------------------------------------------------------------------
  // How far startup gets

  lemma {:induction false} OkUpToPrefix(b: Build, o: StartOptions, w: World, m: nat, n: nat)
    requires m <= n <= 16 && OkUpTo(b, o, w, n)
    ensures OkUpTo(b, o, w, m)
    decreases n
  {
    if m < n {
      OkUpToPrefix(b, o, w, m, n - 1);
    }
  }

  /** The attempt of the phase a subsystem owns is the call of its init routine. */
  lemma AttemptOfOwner(s: Subsystem, o: StartOptions, w: World)
    requires 4 <= PhaseOf(s) && (s != Udev || !w.usbHotplug)
    ensures Attempt(PhaseOf(s), o, w) == TryInit(s, w)
  {
    match s {
      case LibusbDlopen =>
      case Event =>
      case Signal =>
      case Hardware =>
      case Usb =>
      case Udev =>
      case Network =>
      case Mesh =>
      case Gpio =>
      case Redapid =>
      case RedStack =>
      case RedExtension =>
      case RedUsbGadget =>
    }
  }

  /** Phases of the build that are not compiled in add nothing to startup. */
  lemma {:induction false} SkipUncompiled(b: Build, o: StartOptions, w: World, r: nat, k: nat)
    requires r <= k <= 16
    requires forall j :: r < j <= k ==> !Compiled(b, j)
    ensures Prefix(b, o, w, k) == Prefix(b, o, w, r)
    ensures OkUpTo(b, o, w, k) == OkUpTo(b, o, w, r)
    decreases k
  {
    if r < k {
      SkipUncompiled(b, o, w, r, k - 1);
    }
  }

  /** Highest(n) is r when r succeeded and nothing above r up to n both exists and succeeded. */
  lemma {:induction false} HighestIs(b: Build, o: StartOptions, w: World, r: nat, n: nat)
    requires r <= n <= 16
    requires r == 0 || (Compiled(b, r) && OkUpTo(b, o, w, r))
    requires forall j :: r < j <= n ==> !(Compiled(b, j) && OkUpTo(b, o, w, j))
    ensures Highest(b, o, w, n) == r
    decreases n
  {
    if r < n {
      HighestIs(b, o, w, r, n - 1);
    }
  }

  /** A failed startup reaches the cleanup label in the state AtCleanup describes. */
  lemma StopsAtCleanup(b: Build, o: StartOptions, w: World, r: nat, pidFd: int, initializedUdev: bool, t: seq<Action>)
    requires FailsAfter(b, o, w, r, t)
    requires r >= 2 ==> pidFd == w.pidFd
    requires r >= 9 && b.libudev ==> initializedUdev == (!w.usbHotplug && Udev !in w.failing)
    ensures AtCleanup(b, o, w, r, pidFd, initializedUdev, ExitFailure, t)
  {
    Stops(b, o, w, r, t);
  }

  /** A complete startup followed by event_run reaches the cleanup label in
      the state AtCleanup describes. */
  lemma RunsAtCleanup(b: Build, o: StartOptions, w: World, pidFd: int, initializedUdev: bool, t: seq<Action>)
    requires t == Prefix(b, o, w, FinalPhase(b)) && OkUpTo(b, o, w, FinalPhase(b))
    requires pidFd == w.pidFd
    requires b.libudev ==> initializedUdev == (!w.usbHotplug && Udev !in w.failing)
    ensures AtCleanup(b, o, w, FinalPhase(b), pidFd, initializedUdev,
                      if w.eventRunOk then ExitSuccess else ExitFailure, t + [EventRun(w.eventRunOk)])
  {
    Completes(b, o, w);
  }

  /** Cleanup from the state AtCleanup describes completes the run. */
  lemma Finishes(b: Build, o: StartOptions, w: World, phase: nat, pidFd: int, initializedUdev: bool,
                 exitCode: int, t: seq<Action>, t': seq<Action>)
    requires AtCleanup(b, o, w, phase, pidFd, initializedUdev, exitCode, t)
    requires t' == t + Unwind(b, w, phase)
    ensures t' == RunTrace(b, o, w) && exitCode == RunExitCode(b, o, w)
  {
  }

  /** A startup that fails after phase r leaves main at phase r with the startup trace. */
  lemma Stops(b: Build, o: StartOptions, w: World, r: nat, t: seq<Action>)
    requires FailsAfter(b, o, w, r, t)
    ensures Reached(b, o, w) == r && t == StartTrace(b, o, w)
  {
    StopsAt(b, o, w, r, NextPhase(b, r));
  }

  /** A failure in the attempt of phase k, with phase r the one before it, leaves main at phase r. */
  lemma StopsAt(b: Build, o: StartOptions, w: World, r: nat, k: nat)
    requires 1 <= r < k <= 16 && Compiled(b, r) && Compiled(b, k)
    requires forall j :: r < j < k ==> !Compiled(b, j)
    requires OkUpTo(b, o, w, r) && !Attempt(k, o, w).recorded
    ensures Reached(b, o, w) == r && r < FinalPhase(b) && NextPhase(b, r) == k
  {
    forall j | r < j <= 16 && Compiled(b, j) && OkUpTo(b, o, w, j)
      ensures false
    {
      OkUpToPrefix(b, o, w, k, j);
    }
    HighestIs(b, o, w, r, 16);
  }

  /** When every phase succeeds, main reaches the final phase. */
  lemma Completes(b: Build, o: StartOptions, w: World)
    requires OkUpTo(b, o, w, FinalPhase(b))
    ensures Reached(b, o, w) == FinalPhase(b)
  {
    HighestIs(b, o, w, FinalPhase(b), 16);
  }
}
