/** Vocabulary shared by both entry points of the Brick Daemon: the subsystems
    it starts, the observable actions it performs (recorded as a trace), and the
    outcomes of the collaborators it calls, which the model receives as inputs. */
module Trace {

  datatype Option<T> = None | Some(value: T)

  /** Every subsystem with an init/exit pair that an entry point drives. */
  datatype Subsystem =
    | Config | Log | LibusbDlopen | Event | Signal | Hardware | Usb | Udev
    | IoKit | Network | Mesh | Gpio | Redapid | RedStack | RedExtension | RedUsbGadget

  /** One observable step of an entry point. */
  datatype Action =
    | Init(s: Subsystem)                   // the init routine of s ran and did not report failure
    | InitFailed(s: Subsystem)             // the init routine of s ran and reported failure
    | Exit(s: Subsystem)                   // the exit routine of s ran
    | LockPid(fd: int, daemonized: bool)   // daemon_start or pid_file_acquire returned fd
    | ReleasePid(fd: int)                  // pid_file_release on fd
    | DebugFilter(filter: string)          // log_enable_debug_override(filter)
    | DebugOverride(on: bool)              // log_set_debug_override(on)
    | Started                              // the "... started" banner was logged
    | Stopped                              // the "... stopped" banner was logged
    | EventRun(ok: bool)                   // event_run ran and returned >= 0 (ok) or < 0

  /** What the collaborators answer during one run: whether the config file had
      errors, the descriptor returned by the pid-file lock, which init routines
      report failure, whether libusb offers hotplug, and how event_run ends. */
  datatype World = World(
    configError: bool,
    pidFd: int,
    failing: set<Subsystem>,
    usbHotplug: bool,
    eventRunOk: bool)

  const ExitSuccess: int := 0
  const ExitFailure: int := 1

  /** The arguments after the program name. */
  function Args(argv: seq<string>): (r: seq<string>)
    ensures |argv| >= 1 ==> r == argv[1..]
    ensures |argv| == 0 ==> r == []
  {
    if |argv| == 0 then [] else argv[1..]
  }

  /** Calls the init routine of s, whose result the world decides, and
      records whether it succeeded. */
  method CallInit(s: Subsystem, w: World, t: seq<Action>) returns (ok: bool, t': seq<Action>)
    ensures ok == (s !in w.failing)
    ensures t' == t + [if ok then Init(s) else InitFailed(s)]
  {
    ok := s !in w.failing;
    t' := t + [if ok then Init(s) else InitFailed(s)];
  }

  /** The subsystems initialised in t, in order. */
  function Inits(t: seq<Action>): (r: seq<Subsystem>)
    ensures |r| <= |t|
  {
    if t == [] then [] else (if t[0].Init? then [t[0].s] else []) + Inits(t[1..])
  }

  /** The subsystems torn down in t, in order. */
  function Exits(t: seq<Action>): (r: seq<Subsystem>)
    ensures |r| <= |t|
  {
    if t == [] then [] else (if t[0].Exit? then [t[0].s] else []) + Exits(t[1..])
  }

  /** The subsystems Inits lists are exactly those with an Init action. */
  lemma {:induction false} InitsHas(t: seq<Action>)
    ensures forall s :: s in Inits(t) <==> Init(s) in t
  {
    if t != [] {
      InitsHas(t[1..]);
      assert t == [t[0]] + t[1..];
    }
  }

  /** The subsystems Exits lists are exactly those with an Exit action. */
  lemma {:induction false} ExitsHas(t: seq<Action>)
    ensures forall s :: s in Exits(t) <==> Exit(s) in t
  {
    if t != [] {
      ExitsHas(t[1..]);
      assert t == [t[0]] + t[1..];
    }
  }

  /** ss with every occurrence of x removed. */
  function Without(ss: seq<Subsystem>, x: Subsystem): (r: seq<Subsystem>)
    ensures |r| <= |ss|
    ensures forall s :: s in r <==> s in ss && s != x
  {
    if ss == [] then [] else (if ss[0] == x then [] else [ss[0]]) + Without(ss[1..], x)
  }

  function Reverse(s: seq<Subsystem>): (r: seq<Subsystem>)
    ensures |r| == |s|
    ensures forall i :: 0 <= i < |s| ==> r[i] == s[|s| - 1 - i]
    ensures forall x :: x in r <==> x in s
  {
    if s == [] then []
    else
      assert s == [s[0]] + s[1..];
      Reverse(s[1..]) + [s[0]]
  }

  /** What a one-action trace starts and tears down. */
  lemma Unit(x: Action)
    ensures Inits([x]) == (if x.Init? then [x.s] else [])
    ensures Exits([x]) == (if x.Exit? then [x.s] else [])
  {
    assert [x][1..] == [];
  }

  lemma {:induction false} InitsAppend(a: seq<Action>, b: seq<Action>)
    ensures Inits(a + b) == Inits(a) + Inits(b)
  {
    if a == [] {
      assert a + b == b;
    } else {
      assert (a + b)[0] == a[0] && (a + b)[1..] == a[1..] + b;
      InitsAppend(a[1..], b);
    }
  }

  lemma {:induction false} ExitsAppend(a: seq<Action>, b: seq<Action>)
    ensures Exits(a + b) == Exits(a) + Exits(b)
  {
    if a == [] {
      assert a + b == b;
    } else {
      assert (a + b)[0] == a[0] && (a + b)[1..] == a[1..] + b;
      ExitsAppend(a[1..], b);
    }
  }

  lemma {:induction false} WithoutAppend(a: seq<Subsystem>, b: seq<Subsystem>, x: Subsystem)
    ensures Without(a + b, x) == Without(a, x) + Without(b, x)
  {
    if a == [] {
      assert a + b == b;
    } else {
      assert (a + b)[0] == a[0] && (a + b)[1..] == a[1..] + b;
      calc {
        Without(a + b, x);
        (if a[0] == x then [] else [a[0]]) + Without(a[1..] + b, x);
        { WithoutAppend(a[1..], b, x); }
        (if a[0] == x then [] else [a[0]]) + (Without(a[1..], x) + Without(b, x));
      }
    }
  }

  lemma ReverseAppend(a: seq<Subsystem>, b: seq<Subsystem>)
    ensures Reverse(a + b) == Reverse(b) + Reverse(a)
  {
    assert forall i :: 0 <= i < |a + b| ==> Reverse(a + b)[i] == (Reverse(b) + Reverse(a))[i];
  }
}
