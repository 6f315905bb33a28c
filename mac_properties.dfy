/** What the label ladder of main() in src/brickd/main_macosx.c guarantees
    about the actions of a run: teardown mirrors startup, the failing init is
    never undone, the tail always runs, the banners pair up, and the exit
    code reports success only for a complete run. */
module MacProperties {
  import opened Trace
  import opened MacLifecycle

  /** The subsystems of the rungs below n, in start order. */
  function Upto(n: nat): (r: seq<Subsystem>)
    requires n <= Rungs
    ensures |r| == n
    ensures forall i :: 0 <= i < n ==> r[i] == Rung(i)
  {
    if n == 0 then [] else Upto(n - 1) + [Rung(n - 1)]
  }

  /** Different rungs start different subsystems. */
  lemma RungInjective(i: nat, j: nat)
    requires i < Rungs && j < Rungs
    ensures Rung(i) == Rung(j) ==> i == j
  {
  }

  /** No rung is config or log, which start before the ladder. */
  lemma RungNotEarly(j: nat)
    requires j < Rungs
    ensures Rung(j) != Config && Rung(j) != Log
  {
  }

  /** The session between the banners ran: the lock held and the
      configuration had no error. */
  predicate SessionRan(w: World) {
    w.pidFd >= 0 && !w.configError
  }

  // ---------------------------------------------------------------------------
  // The parts of a run, projected on inits and exits

  /** Starts(n) initialises the rungs below n in order and tears nothing down. */
  lemma {:induction false} StartsShape(n: nat)
    requires n <= Rungs
    ensures Inits(Starts(n)) == Upto(n)
    ensures Exits(Starts(n)) == []
    ensures forall a :: a in Starts(n) ==> a.Init?
  {
    if n > 0 {
      StartsShape(n - 1);
      Unit(Init(Rung(n - 1)));
      InitsAppend(Starts(n - 1), [Init(Rung(n - 1))]);
      ExitsAppend(Starts(n - 1), [Init(Rung(n - 1))]);
    }
  }

  /** ExitsDown(n, k) tears down the rungs from n - 1 down to k and
      initialises nothing. */
  lemma {:induction false} ExitsDownShape(n: nat, k: nat)
    requires k <= n <= Rungs
    ensures Exits(ExitsDown(n, k)) == Reverse(Upto(n)[k..])
    ensures Inits(ExitsDown(n, k)) == []
    ensures forall a :: a in ExitsDown(n, k) ==> a.Exit?
    decreases n - k
  {
    if k < n {
      ExitsDownShape(n, k + 1);
      var rest := ExitsDown(n, k + 1);
      Unit(Exit(Rung(k)));
      InitsAppend(rest, [Exit(Rung(k))]);
      ExitsAppend(rest, [Exit(Rung(k))]);
      var u := Upto(n);
      Behead(u, k);
      ReverseAppend([u[k]], u[k + 1..]);
    } else {
      assert Upto(n)[k..] == [];
    }
  }

  lemma Behead(u: seq<Subsystem>, k: nat)
    requires k < |u|
    ensures u[k..] == [u[k]] + u[k + 1..]
  {
  }

  /** The failed init or event_run neither starts nor tears anything down. */
  lemma OutcomeShape(w: World)
    ensures Inits(Outcome(w)) == [] && Exits(Outcome(w)) == []
    ensures forall a :: a in Outcome(w) ==> a.InitFailed? || a.EventRun?
  {
    var x := Outcome(w)[0];
    assert Outcome(w) == [x];
    Unit(x);
  }

  /** The ladder between the banners initialises the rungs below the first
      failure, in order ... */
  lemma BodyInits(w: World)
    ensures Inits(Body(w)) == Upto(FirstFailure(w))
  {
    var n := FirstFailure(w);
    var a, b, c := Starts(n), Outcome(w), ExitsDown(n, 0);
    assert Body(w) == a + b + c;
    StartsShape(n);
    OutcomeShape(w);
    ExitsDownShape(n, 0);
    InitsAppend(a, b);
    InitsAppend(a + b, c);
  }

  /** ... and tears them down in reverse. */
  lemma BodyExits(w: World)
    ensures Exits(Body(w)) == Reverse(Upto(FirstFailure(w)))
  {
    var n := FirstFailure(w);
    var a, b, c := Starts(n), Outcome(w), ExitsDown(n, 0);
    assert Body(w) == a + b + c;
    StartsShape(n);
    OutcomeShape(w);
    ExitsDownShape(n, 0);
    var u := Upto(n);
    assert u[0..] == u;
    assert Exits(c) == Reverse(u);
    ExitsAppend(a, b);
    assert Exits(a + b) == [];
    ExitsAppend(a + b, c);
    assert Exits(a + b + c) == [] + Exits(c);
  }

  /** The ladder logs no banner and releases no pid file. */
  lemma BodyActions(w: World)
    ensures forall a :: a in Body(w) ==> a.Init? || a.Exit? || a.InitFailed? || a.EventRun?
  {
    var n := FirstFailure(w);
    StartsShape(n);
    OutcomeShape(w);
    ExitsDownShape(n, 0);
    assert Body(w) == Starts(n) + Outcome(w) + ExitsDown(n, 0);
  }

  /** The session between the banners starts what the ladder starts ... */
  lemma SessionInits(w: World)
    ensures Inits(Session(w)) == Upto(FirstFailure(w))
  {
    var b := Body(w);
    assert Session(w) == [Started] + b + [Stopped];
    BodyInits(w);
    Unit(Started);
    Unit(Stopped);
    InitsAppend([Started], b);
    assert Inits([Started] + b) == Inits(b);
    InitsAppend([Started] + b, [Stopped]);
  }

  /** ... and tears down what it tears down. */
  lemma SessionExits(w: World)
    ensures Exits(Session(w)) == Reverse(Upto(FirstFailure(w)))
  {
    var b := Body(w);
    assert Session(w) == [Started] + b + [Stopped];
    BodyExits(w);
    Unit(Started);
    Unit(Stopped);
    ExitsAppend([Started], b);
    assert Exits([Started] + b) == Exits(b);
    ExitsAppend([Started] + b, [Stopped]);
  }

  /** The part of a run between the lock and the tail starts the rungs below
      the first failure when the session ran, and nothing otherwise ... */
  lemma MiddleInits(o: MacStart, w: World)
    ensures Inits(Middle(o, w)) == (if SessionRan(w) then Upto(FirstFailure(w)) else [])
  {
    var d := [DebugOverride(o.debug)];
    Unit(DebugOverride(o.debug));
    if SessionRan(w) {
      SessionInits(w);
      InitsAppend(d, Session(w));
    }
  }

  /** ... and tears them down in reverse. */
  lemma MiddleExits(o: MacStart, w: World)
    ensures Exits(Middle(o, w)) == (if SessionRan(w) then Reverse(Upto(FirstFailure(w))) else [])
  {
    var d := [DebugOverride(o.debug)];
    Unit(DebugOverride(o.debug));
    if SessionRan(w) {
      SessionExits(w);
      ExitsAppend(d, Session(w));
    }
  }

  /** The banners are logged only in the session ... */
  lemma MiddleBanners(o: MacStart, w: World)
    ensures Started in Middle(o, w) <==> SessionRan(w)
    ensures Stopped in Middle(o, w) <==> SessionRan(w)
  {
    if SessionRan(w) {
      var b := Body(w);
      assert Started !in b && Stopped !in b by {
        BodyActions(w);
      }
      assert Middle(o, w) == [DebugOverride(o.debug)] + ([Started] + b + [Stopped]);
    }
  }

  /** ... and the pid file is not released before the tail. */
  lemma MiddleNoRelease(o: MacStart, w: World, x: int)
    ensures ReleasePid(x) !in Middle(o, w)
  {
    if SessionRan(w) {
      var b := Body(w);
      assert ReleasePid(x) !in b by {
        BodyActions(w);
      }
      assert Middle(o, w) == [DebugOverride(o.debug)] + ([Started] + b + [Stopped]);
    }
  }

  /** The head initialises config and log and tears nothing down. */
  lemma HeadShape(o: MacStart, w: World)
    ensures Inits(Head(o, w)) == [Config, Log]
    ensures Exits(Head(o, w)) == []
  {
    var x, y, z := Init(Config), Init(Log), LockPid(w.pidFd, o.daemon);
    assert Head(o, w) == [x] + [y] + [z];
    Unit(x);
    Unit(y);
    Unit(z);
    InitsAppend([x], [y]);
    InitsAppend([x] + [y], [z]);
    ExitsAppend([x], [y]);
    ExitsAppend([x] + [y], [z]);
  }

  /** The tail: log_exit, the pid release when the lock held, config_exit. */
  lemma TailShape(w: World)
    ensures Inits(Tail(w)) == []
    ensures Exits(Tail(w)) == [Log, Config]
  {
    var r := if w.pidFd >= 0 then [ReleasePid(w.pidFd)] else [];
    Unit(ReleasePid(w.pidFd));
    Unit(Exit(Log));
    Unit(Exit(Config));
    assert Inits(r) == [] && Exits(r) == [];
    InitsAppend([Exit(Log)], r);
    InitsAppend([Exit(Log)] + r, [Exit(Config)]);
    ExitsAppend([Exit(Log)], r);
    ExitsAppend([Exit(Log)] + r, [Exit(Config)]);
  }

  /** The inits of a whole run: config and log, then the rungs that started. */
  lemma MacInits(o: MacStart, w: World)
    ensures Inits(MacRunTrace(o, w)) == [Config, Log] + (if SessionRan(w) then Upto(FirstFailure(w)) else [])
  {
    var h, m, t := Head(o, w), Middle(o, w), Tail(w);
    assert MacRunTrace(o, w) == h + m + t;
    HeadShape(o, w);
    MiddleInits(o, w);
    TailShape(w);
    InitsAppend(h, m);
    InitsAppend(h + m, t);
    assert Inits(h + m + t) == Inits(h) + Inits(m);
  }

  /** The exits of a whole run: the rungs that started in reverse, then log
      and config. */
  lemma MacExits(o: MacStart, w: World)
    ensures Exits(MacRunTrace(o, w)) == (if SessionRan(w) then Reverse(Upto(FirstFailure(w))) else []) + [Log, Config]
  {
    var h, m, t := Head(o, w), Middle(o, w), Tail(w);
    assert MacRunTrace(o, w) == h + m + t;
    HeadShape(o, w);
    MiddleExits(o, w);
    TailShape(w);
    ExitsAppend(h, m);
    assert Exits(h + m) == Exits(m);
    ExitsAppend(h + m, t);
  }

  // ---------------------------------------------------------------------------
  // Properties of a run

  /** Teardown is the exact reverse of what was initialised. */
  lemma MacExactReverse(o: MacStart, w: World)
    ensures Exits(MacRunTrace(o, w)) == Reverse(Inits(MacRunTrace(o, w)))
  {
    MacInits(o, w);
    MacExits(o, w);
    var u := if SessionRan(w) then Upto(FirstFailure(w)) else [];
    ReverseAppend([Config, Log], u);
    assert Reverse([Config, Log]) == [Log, Config];
  }

  /** A subsystem is torn down exactly when it was initialised. */
  lemma MacTornDownIffStarted(o: MacStart, w: World, s: Subsystem)
    ensures Exit(s) in MacRunTrace(o, w) <==> Init(s) in MacRunTrace(o, w)
  {
    MacExactReverse(o, w);
    InitsHas(MacRunTrace(o, w));
    ExitsHas(MacRunTrace(o, w));
  }

  /** Rung j is started exactly when the session ran and no earlier init
      routine failed ... */
  lemma MacRungStarted(o: MacStart, w: World, j: nat)
    requires j < Rungs
    ensures Init(Rung(j)) in MacRunTrace(o, w) <==> SessionRan(w) && j < FirstFailure(w)
  {
    var t := MacRunTrace(o, w);
    var n := FirstFailure(w);
    var u := if SessionRan(w) then Upto(n) else [];
    assert Init(Rung(j)) in t <==> Rung(j) in u by {
      MacInits(o, w);
      InitsHas(t);
      RungNotEarly(j);
    }
    if SessionRan(w) && j < n {
      assert u[j] == Rung(j);
    }
    if Rung(j) in u {
      var i :| 0 <= i < |u| && u[i] == Rung(j);
      RungInjective(i, j);
    }
  }

  /** ... and so is it torn down. */
  lemma MacRungTornDown(o: MacStart, w: World, j: nat)
    requires j < Rungs
    ensures Exit(Rung(j)) in MacRunTrace(o, w) <==> SessionRan(w) && j < FirstFailure(w)
  {
    MacRungStarted(o, w, j);
    MacTornDownIffStarted(o, w, Rung(j));
  }

  /** The first failing init routine is reported, and is neither started nor
      torn down. */
  lemma MacFailureReported(o: MacStart, w: World)
    requires SessionRan(w) && FirstFailure(w) < Rungs
    ensures InitFailed(Rung(FirstFailure(w))) in MacRunTrace(o, w)
    ensures Init(Rung(FirstFailure(w))) !in MacRunTrace(o, w)
    ensures Exit(Rung(FirstFailure(w))) !in MacRunTrace(o, w)
  {
    var n := FirstFailure(w);
    OutcomeLogged(o, w);
    assert Outcome(w) == [InitFailed(Rung(n))];
    MacRungStarted(o, w, n);
    MacRungTornDown(o, w, n);
  }

  /** The failed init, or event_run, is in the run once the session ran. */
  lemma OutcomeLogged(o: MacStart, w: World)
    requires SessionRan(w)
    ensures forall a :: a in Outcome(w) ==> a in MacRunTrace(o, w)
  {
    var n := FirstFailure(w);
    assert Body(w) == Starts(n) + Outcome(w) + ExitsDown(n, 0);
    assert Session(w) == [Started] + Body(w) + [Stopped];
    assert Middle(o, w) == [DebugOverride(o.debug)] + Session(w);
    assert MacRunTrace(o, w) == Head(o, w) + Middle(o, w) + Tail(w);
  }

  /** log_exit and config_exit run on every path and end the run, with the
      pid release between them exactly when the lock held. */
  lemma MacTail(o: MacStart, w: World)
    ensures w.pidFd >= 0 ==> MacRunTrace(o, w)[|MacRunTrace(o, w)| - 3..] == [Exit(Log), ReleasePid(w.pidFd), Exit(Config)]
    ensures w.pidFd < 0 ==> MacRunTrace(o, w)[|MacRunTrace(o, w)| - 2..] == [Exit(Log), Exit(Config)]
    ensures Exit(Log) in MacRunTrace(o, w) && Exit(Config) in MacRunTrace(o, w)
  {
    EndsWithTail(Head(o, w) + Middle(o, w), w);
  }

  /** Any trace that ends with the tail ends as the tail says. */
  lemma EndsWithTail(hm: seq<Action>, w: World)
    ensures w.pidFd >= 0 ==> (hm + Tail(w))[|hm + Tail(w)| - 3..] == [Exit(Log), ReleasePid(w.pidFd), Exit(Config)]
    ensures w.pidFd < 0 ==> (hm + Tail(w))[|hm + Tail(w)| - 2..] == [Exit(Log), Exit(Config)]
    ensures Exit(Log) in hm + Tail(w) && Exit(Config) in hm + Tail(w)
  {
    var tl := Tail(w);
    assert Exit(Log) in tl && Exit(Config) in tl;
    assert (hm + tl)[|hm + tl| - |tl|..] == tl;
  }

  /** The pid file is released only when the lock held, and only with the
      descriptor the lock returned. */
  lemma MacPidRelease(o: MacStart, w: World, x: int)
    ensures ReleasePid(x) in MacRunTrace(o, w) <==> w.pidFd >= 0 && x == w.pidFd
  {
    MiddleNoRelease(o, w, x);
    var h, m, t := Head(o, w), Middle(o, w), Tail(w);
    assert MacRunTrace(o, w) == h + m + t;
    assert ReleasePid(x) !in h;
    assert ReleasePid(x) in t <==> w.pidFd >= 0 && x == w.pidFd;
  }

  /** A failed lock skips the configuration check and the whole session: the
      run locks, then ends log and config, and fails. */
  lemma MacLockFailureRun(o: MacStart, w: World)
    requires w.pidFd < 0
    ensures MacRunTrace(o, w) == [Init(Config), Init(Log), LockPid(w.pidFd, o.daemon), Exit(Log), Exit(Config)]
    ensures MacExitCode(w) == ExitFailure
  {
  }

  /** A configuration error is noticed only once the lock is held: the debug
      override is set, no banner is logged, the pid file is released, and
      the run fails. */
  lemma MacConfigErrorRun(o: MacStart, w: World)
    requires w.pidFd >= 0 && w.configError
    ensures MacRunTrace(o, w) == [Init(Config), Init(Log), LockPid(w.pidFd, o.daemon),
      DebugOverride(o.debug), Exit(Log), ReleasePid(w.pidFd), Exit(Config)]
    ensures MacExitCode(w) == ExitFailure
  {
  }

  /** "stopped" is logged exactly when "started" was, which is exactly when
      the lock held and the configuration had no error. */
  lemma MacBanners(o: MacStart, w: World)
    ensures Started in MacRunTrace(o, w) <==> SessionRan(w)
    ensures Stopped in MacRunTrace(o, w) <==> SessionRan(w)
  {
    MiddleBanners(o, w);
    var h, m, t := Head(o, w), Middle(o, w), Tail(w);
    assert MacRunTrace(o, w) == h + m + t;
    assert Started !in h && Started !in t;
    assert Stopped !in h && Stopped !in t;
  }

  /** The run succeeds exactly when the session ran, every init routine
      started and event_run succeeded. */
  lemma MacExitCodeIff(o: MacStart, w: World)
    ensures MacExitCode(w) == ExitSuccess <==>
      SessionRan(w) && (forall i :: 0 <= i < Rungs ==> Rung(i) !in w.failing) && w.eventRunOk
    ensures MacExitCode(w) == ExitSuccess || MacExitCode(w) == ExitFailure
  {
    var n := FirstFailure(w);
    if n < Rungs {
      assert Rung(n) in w.failing;
    }
  }

  /** A failing init routine at index i unwinds exactly the rungs below it,
      then log and config. */
  lemma MacLabelUnwind(o: MacStart, w: World, i: nat)
    requires SessionRan(w) && i < Rungs && Rung(i) in w.failing
    requires forall j :: 0 <= j < i ==> Rung(j) !in w.failing
    ensures Exits(MacRunTrace(o, w)) == Reverse(Upto(i)) + [Log, Config]
    ensures Exit(Rung(i)) !in MacRunTrace(o, w)
    ensures MacExitCode(w) == ExitFailure
  {
    StopsAt(w, i);
    MacExits(o, w);
    MacFailureReported(o, w);
  }

  /** With every init routine started, a failing event_run still runs the
      whole ladder from network_exit down. */
  lemma MacEventRunFailure(o: MacStart, w: World)
    requires SessionRan(w) && !w.eventRunOk
    requires forall i :: 0 <= i < Rungs ==> Rung(i) !in w.failing
    ensures Exits(MacRunTrace(o, w)) == [Network, IoKit, Usb, Hardware, Signal, Event, Log, Config]
    ensures MacExitCode(w) == ExitFailure
  {
    StopsAt(w, Rungs);
    MacExits(o, w);
    var u := Upto(Rungs);
    assert u == [Event, Signal, Hardware, Usb, IoKit, Network];
    assert Reverse(u) == [Network, IoKit, Usb, Hardware, Signal, Event];
  }
}
