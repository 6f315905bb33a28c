/** What a run of main() in src/brickd/main_linux.c guarantees, stated over the
    specification in LinuxLifecycle and so, through Coordinate's contract, over
    the coordinator itself. */
module LinuxProperties {
  import opened Trace
  import opened LinuxLifecycle

  // ---------------------------------------------------------------------------
  // One phase

  /** Two subsystems that own the same phase are the same subsystem. */
  lemma PhaseOwnerUnique(s: Subsystem, s': Subsystem)
    requires PhaseOf(s) == PhaseOf(s') > 0
    ensures s == s'
  {
  }

  /** The attempt of phase k initialises only the subsystem owning phase k,
      never one whose init routine fails, and touches no teardown. */
  lemma AttemptFacts(k: nat, o: StartOptions, w: World)
    requires 1 <= k <= 16
    ensures Exits(Attempt(k, o, w).actions) == []
    ensures forall s :: Init(s) in Attempt(k, o, w).actions ==>
      PhaseOf(s) == k && (k >= 4 ==> s !in w.failing) && (s == Udev ==> !w.usbHotplug)
    ensures !Attempt(k, o, w).recorded ==> Inits(Attempt(k, o, w).actions) == []
    ensures Started in Attempt(k, o, w).actions <==> k == 3 && w.pidFd >= 0
    ensures Stopped !in Attempt(k, o, w).actions
    ensures forall x :: ReleasePid(x) !in Attempt(k, o, w).actions
  {
    forall s | Init(s) in Attempt(k, o, w).actions
      ensures PhaseOf(s) == k && (k >= 4 ==> s !in w.failing) && (s == Udev ==> !w.usbHotplug)
    {
      AttemptStarts(k, o, w, s);
    }
    if k <= 3 {
      EarlyAttemptShape(k, o, w);
    } else {
      OwnedAttemptShape(k, o, w);
    }
  }

  lemma EarlyAttemptShape(k: nat, o: StartOptions, w: World)
    requires 1 <= k <= 3
    ensures Exits(Attempt(k, o, w).actions) == []
    ensures !Attempt(k, o, w).recorded ==> Attempt(k, o, w).actions == []
    ensures Started in Attempt(k, o, w).actions <==> k == 3 && w.pidFd >= 0
    ensures Stopped !in Attempt(k, o, w).actions
    ensures forall x :: ReleasePid(x) !in Attempt(k, o, w).actions
  {
    if k == 1 {
      Unit(Init(Config));
    } else if k == 2 && !w.configError {
      Pair(Init(Log), LockPid(w.pidFd, o.daemon));
    } else if k == 3 && w.pidFd >= 0 {
      if o.debugFilter.Some? {
        Pair(Started, DebugFilter(o.debugFilter.value));
      } else {
        Unit(Started);
      }
    }
  }

  lemma OwnedAttemptShape(k: nat, o: StartOptions, w: World)
    requires 4 <= k <= 16
    ensures Exits(Attempt(k, o, w).actions) == []
    ensures !Attempt(k, o, w).recorded ==> Inits(Attempt(k, o, w).actions) == []
    ensures Started !in Attempt(k, o, w).actions && Stopped !in Attempt(k, o, w).actions
    ensures forall x :: ReleasePid(x) !in Attempt(k, o, w).actions
  {
    if k != 9 || !w.usbHotplug {
      var owner := if k == 9 then Udev else Owner(k);
      AttemptOfOwner(owner, o, w);
      Unit(Init(owner));
      Unit(InitFailed(owner));
    }
  }

  /** The attempt at phase k starts at most one subsystem. */
  lemma AttemptInitsShort(k: nat, o: StartOptions, w: World)
    requires 1 <= k <= 16
    ensures |Inits(Attempt(k, o, w).actions)| <= 1
  {
    var a := Attempt(k, o, w).actions;
    if k == 2 && !w.configError {
      Pair(Init(Log), LockPid(w.pidFd, o.daemon));
    } else if k == 3 && w.pidFd >= 0 && o.debugFilter.Some? {
      Pair(Started, DebugFilter(o.debugFilter.value));
    } else if a != [] {
      assert a == [a[0]];
      Unit(a[0]);
    }
  }

  /** The attempt at phase k starts s exactly when s owns phase k and the
      attempt records the phase (udev only without hotplug support). */
  lemma AttemptStarts(k: nat, o: StartOptions, w: World, s: Subsystem)
    requires 1 <= k <= 16
    ensures Init(s) in Attempt(k, o, w).actions <==>
      PhaseOf(s) == k && Attempt(k, o, w).recorded && (s == Udev ==> !w.usbHotplug)
    ensures Init(s) in Attempt(k, o, w).actions && k >= 4 ==> s !in w.failing
  {
    if k >= 4 && (k != 9 || !w.usbHotplug) {
      var owner := if k == 9 then Udev else Owner(k);
      AttemptOfOwner(owner, o, w);
      if PhaseOf(s) == k {
        PhaseOwnerUnique(s, owner);
      }
    } else if k == 1 && PhaseOf(s) == 1 {
      PhaseOwnerUnique(s, Config);
    } else if k == 2 && PhaseOf(s) == 2 {
      PhaseOwnerUnique(s, Log);
    }
  }

  /** The body of case k starts nothing; only case 3 logs the "stopped" banner
      and only case 2 releases the pid file, and that only when it was locked. */
  lemma CaseFacts(b: Build, w: World, k: nat)
    requires 1 <= k <= 16
    ensures Inits(Case(b, w, k)) == []
    ensures Started !in Case(b, w, k)
    ensures Stopped in Case(b, w, k) <==> k == 3
    ensures forall x :: ReleasePid(x) in Case(b, w, k) <==> k == 2 && x == w.pidFd && w.pidFd >= 0
  {
  }

  /** When phase k was recorded, case k undoes exactly what its attempt set up
      (gpio excepted: its exit call is commented out in the source). */
  lemma CaseMirrorsAttempt(b: Build, o: StartOptions, w: World, k: nat)
    requires 1 <= k <= 16
    requires Compiled(b, k) ==> Attempt(k, o, w).recorded
    ensures Exits(Case(b, w, k)) ==
      Reverse(Without(Inits(if Compiled(b, k) then Attempt(k, o, w).actions else []), Gpio))
  {
    if !Compiled(b, k) || (k == 9 && w.usbHotplug) {
      assert Case(b, w, k) == [];
      assert (if Compiled(b, k) then Attempt(k, o, w).actions else []) == [];
    } else if k == 3 {
      MirrorBanner(b, o, w);
    } else if k == 12 {
      MirrorGpio(b, o, w);
    } else if k == 2 {
      MirrorLog(b, o, w);
    } else {
      MirrorOwned(b, o, w, k);
    }
  }

  lemma MirrorBanner(b: Build, o: StartOptions, w: World)
    ensures Exits(Case(b, w, 3)) == Reverse(Without(Inits(Attempt(3, o, w).actions), Gpio))
  {
    AttemptFacts(3, o, w);
    Unit(Stopped);
    assert Case(b, w, 3) == [Stopped];
    assert Inits(Attempt(3, o, w).actions) == [] && Exits(Case(b, w, 3)) == [];
  }

  lemma MirrorGpio(b: Build, o: StartOptions, w: World)
    requires b.redBrick && Gpio !in w.failing
    ensures Exits(Case(b, w, 12)) == Reverse(Without(Inits(Attempt(12, o, w).actions), Gpio))
  {
    assert Attempt(12, o, w).actions == [Init(Gpio)] && Case(b, w, 12) == [];
    Single(Gpio);
    assert Without([Gpio], Gpio) == [] + Without([], Gpio);
  }

  lemma MirrorLog(b: Build, o: StartOptions, w: World)
    requires !w.configError
    ensures Exits(Case(b, w, 2)) == Reverse(Without(Inits(Attempt(2, o, w).actions), Gpio))
  {
    LogStarts(o, w);
    LogStops(b, w);
    Single(Log);
  }

  lemma LogStarts(o: StartOptions, w: World)
    requires !w.configError
    ensures Inits(Attempt(2, o, w).actions) == [Log]
  {
    assert Attempt(2, o, w).actions == [Init(Log), LockPid(w.pidFd, o.daemon)];
    Pair(Init(Log), LockPid(w.pidFd, o.daemon));
  }

  lemma LogStops(b: Build, w: World)
    ensures Exits(Case(b, w, 2)) == [Log]
  {
    if w.pidFd >= 0 {
      assert Case(b, w, 2) == [ReleasePid(w.pidFd), Exit(Log)];
      Pair(ReleasePid(w.pidFd), Exit(Log));
    } else {
      assert Case(b, w, 2) == [Exit(Log)];
      Unit(Exit(Log));
    }
  }

  lemma MirrorOwned(b: Build, o: StartOptions, w: World, k: nat)
    requires 1 <= k <= 16 && k != 2 && k != 3 && k != 12 && Compiled(b, k)
    requires Attempt(k, o, w).recorded && (k == 9 ==> !w.usbHotplug)
    ensures Exits(Case(b, w, k)) == Reverse(Without(Inits(Attempt(k, o, w).actions), Gpio))
  {
    var s := if k == 1 then Config else if k == 9 then Udev else Owner(k);
    assert Attempt(k, o, w).actions == [Init(s)] && Case(b, w, k) == [Exit(s)];
    assert s != Gpio;
    Single(s);
  }

  lemma Single(s: Subsystem)
    ensures Inits([Init(s)]) == [s] && Exits([Exit(s)]) == [s]
    ensures Reverse([s]) == [s]
    ensures s != Gpio ==> Without([s], Gpio) == [s]
  {
    Unit(Init(s));
    Unit(Exit(s));
  }

  /** What a two-action trace starts and tears down. */
  lemma Pair(x: Action, y: Action)
    ensures Inits([x, y]) == Inits([x]) + Inits([y]) && Exits([x, y]) == Exits([x]) + Exits([y])
    ensures Inits([x]) == (if x.Init? then [x.s] else []) && Exits([x]) == (if x.Exit? then [x.s] else [])
    ensures Inits([y]) == (if y.Init? then [y.s] else []) && Exits([y]) == (if y.Exit? then [y.s] else [])
  {
    assert [x, y] == [x] + [y];
    InitsAppend([x], [y]);
    ExitsAppend([x], [y]);
    Unit(x);
    Unit(y);
  }

  // ---------------------------------------------------------------------------
  // Whole startups

  /** Every phase up to p succeeded exactly when neither config_init nor the
      pid lock (when reached) failed and no init routine called up to p failed. */
  lemma {:induction false} OkUpToIff(b: Build, o: StartOptions, w: World, p: nat)
    requires p <= 16
    ensures OkUpTo(b, o, w, p) <==>
      (p >= 2 ==> !w.configError) && (p >= 3 ==> w.pidFd >= 0)
      && forall s :: Checked(b, w, s) && PhaseOf(s) <= p ==> s !in w.failing
  {
    if p > 0 {
      OkUpToIff(b, o, w, p - 1);
      if p >= 4 && Compiled(b, p) && !Attempt(p, o, w).recorded {
        var s := if p == 9 then Udev else Owner(p);
        assert Checked(b, w, s) && PhaseOf(s) <= p && s in w.failing;
      }
      if p >= 4 {
        forall s | Checked(b, w, s) && PhaseOf(s) == p
          ensures Attempt(p, o, w).recorded ==> s !in w.failing
        {
          if p != 9 {
            PhaseOwnerUnique(s, Owner(p));
          }
        }
      }
    }
  }

  lemma {:induction false} HighestAtLeast(b: Build, o: StartOptions, w: World, m: nat, n: nat)
    requires m <= n <= 16 && Compiled(b, m) && OkUpTo(b, o, w, m)
    ensures Highest(b, o, w, n) >= m
    decreases n
  {
    if m < n && !(Compiled(b, n) && OkUpTo(b, o, w, n)) {
      HighestAtLeast(b, o, w, m, n - 1);
    }
  }

  /** For a phase m of the build, main gets to m exactly when every phase up to m succeeds. */
  lemma ReachedIff(b: Build, o: StartOptions, w: World, m: nat)
    requires Compiled(b, m)
    ensures Reached(b, o, w) >= m <==> OkUpTo(b, o, w, m)
  {
    if OkUpTo(b, o, w, m) {
      HighestAtLeast(b, o, w, m, 16);
    }
    if Reached(b, o, w) >= m {
      OkUpToPrefix(b, o, w, m, Reached(b, o, w));
    }
  }

  /** The phase reached is a phase of the build up to which everything
      succeeded; when it is not the last, the attempt of the next phase failed. */
  lemma ReachedFacts(b: Build, o: StartOptions, w: World)
    ensures 1 <= Reached(b, o, w) <= FinalPhase(b)
    ensures Compiled(b, Reached(b, o, w)) && OkUpTo(b, o, w, Reached(b, o, w))
    ensures Reached(b, o, w) < FinalPhase(b) ==> !Attempt(NextPhase(b, Reached(b, o, w)), o, w).recorded
  {
    var r := Reached(b, o, w);
    assert OkUpTo(b, o, w, 0) && OkUpTo(b, o, w, 1);
    HighestAtLeast(b, o, w, 1, 16);
    if r < FinalPhase(b) {
      var k := NextPhase(b, r);
      if Attempt(k, o, w).recorded {
        SkipUncompiled(b, o, w, r, k - 1);
        HighestAtLeast(b, o, w, k, 16);
        assert false;
      }
    }
  }

  /** What startup up to phase p does: no teardown, no "stopped" banner and no
      pid-file release; the "started" banner once the lock is held; and only
      subsystems of phases up to p whose init routine succeeded. */
  lemma PrefixFacts(b: Build, o: StartOptions, w: World, p: nat)
    requires p <= 16
    ensures Exits(Prefix(b, o, w, p)) == []
    ensures Stopped !in Prefix(b, o, w, p) && forall x :: ReleasePid(x) !in Prefix(b, o, w, p)
    ensures Started in Prefix(b, o, w, p) <==> p >= 3 && w.pidFd >= 0
    ensures forall s :: Init(s) in Prefix(b, o, w, p) ==>
      1 <= PhaseOf(s) <= p && Compiled(b, PhaseOf(s))
      && (PhaseOf(s) >= 4 ==> s !in w.failing) && (s == Udev ==> !w.usbHotplug)
  {
    PrefixExits(b, o, w, p);
    PrefixBanners(b, o, w, p);
    PrefixStarts(b, o, w, p);
  }

  lemma {:induction false} PrefixExits(b: Build, o: StartOptions, w: World, p: nat)
    requires p <= 16
    ensures Exits(Prefix(b, o, w, p)) == []
  {
    if p > 0 {
      var pre := Prefix(b, o, w, p - 1);
      var a := if Compiled(b, p) then Attempt(p, o, w).actions else [];
      assert Prefix(b, o, w, p) == pre + a;
      PrefixExits(b, o, w, p - 1);
      if Compiled(b, p) {
        AttemptFacts(p, o, w);
      }
      ExitsAppend(pre, a);
    }
  }

  lemma {:induction false} PrefixBanners(b: Build, o: StartOptions, w: World, p: nat)
    requires p <= 16
    ensures Stopped !in Prefix(b, o, w, p) && forall x :: ReleasePid(x) !in Prefix(b, o, w, p)
    ensures Started in Prefix(b, o, w, p) <==> p >= 3 && w.pidFd >= 0
  {
    if p > 0 {
      var pre := Prefix(b, o, w, p - 1);
      var a := if Compiled(b, p) then Attempt(p, o, w).actions else [];
      assert Prefix(b, o, w, p) == pre + a;
      PrefixBanners(b, o, w, p - 1);
      AttemptFacts(p, o, w);
      assert Compiled(b, 3);
    }
  }

  lemma {:induction false} PrefixStarts(b: Build, o: StartOptions, w: World, p: nat)
    requires p <= 16
    ensures forall s :: Init(s) in Prefix(b, o, w, p) ==>
      1 <= PhaseOf(s) <= p && Compiled(b, PhaseOf(s))
      && (PhaseOf(s) >= 4 ==> s !in w.failing) && (s == Udev ==> !w.usbHotplug)
  {
    if p > 0 {
      var pre := Prefix(b, o, w, p - 1);
      var a := if Compiled(b, p) then Attempt(p, o, w).actions else [];
      assert Prefix(b, o, w, p) == pre + a;
      PrefixStarts(b, o, w, p - 1);
      AttemptFacts(p, o, w);
    }
  }

  /** What the cascade entered at case p does: it starts nothing, logs the
      "stopped" banner exactly when p >= 3 and releases the pid file exactly
      when p >= 2 and the lock was taken. */
  lemma {:induction false} UnwindFacts(b: Build, w: World, p: nat)
    requires p <= 16
    ensures Inits(Unwind(b, w, p)) == []
    ensures Started !in Unwind(b, w, p)
    ensures Stopped in Unwind(b, w, p) <==> p >= 3
    ensures forall x :: ReleasePid(x) in Unwind(b, w, p) <==> p >= 2 && x == w.pidFd && w.pidFd >= 0
  {
    if p > 0 {
      var c := Case(b, w, p);
      var u := Unwind(b, w, p - 1);
      assert Unwind(b, w, p) == c + u;
      UnwindFacts(b, w, p - 1);
      CaseFacts(b, w, p);
      InitsAppend(c, u);
      assert Stopped in c + u <==> Stopped in c || Stopped in u;
      assert Started in c + u <==> Started in c || Started in u;
      forall x
        ensures ReleasePid(x) in c + u <==> ReleasePid(x) in c || ReleasePid(x) in u
      {
      }
    }
  }

  /** When every phase up to p succeeded, the cascade entered at case p tears
      down exactly the subsystems started up to p, in reverse order, gpio
      excepted. */
  lemma {:induction false} UnwindMirrorsPrefix(b: Build, o: StartOptions, w: World, p: nat)
    requires p <= 16 && OkUpTo(b, o, w, p)
    ensures Exits(Unwind(b, w, p)) == Reverse(Without(Inits(Prefix(b, o, w, p)), Gpio))
  {
    if p > 0 {
      var a := if Compiled(b, p) then Attempt(p, o, w).actions else [];
      var earlier := Inits(Prefix(b, o, w, p - 1));
      calc {
        Exits(Unwind(b, w, p));
        Exits(Case(b, w, p) + Unwind(b, w, p - 1));
        { ExitsAppend(Case(b, w, p), Unwind(b, w, p - 1)); }
        Exits(Case(b, w, p)) + Exits(Unwind(b, w, p - 1));
        { CaseMirrorsAttempt(b, o, w, p); UnwindMirrorsPrefix(b, o, w, p - 1); }
        Reverse(Without(Inits(a), Gpio)) + Reverse(Without(earlier, Gpio));
        { ReverseAppend(Without(earlier, Gpio), Without(Inits(a), Gpio)); }
        Reverse(Without(earlier, Gpio) + Without(Inits(a), Gpio));
        { WithoutAppend(earlier, Inits(a), Gpio); }
        Reverse(Without(earlier + Inits(a), Gpio));
        { InitsAppend(Prefix(b, o, w, p - 1), a); }
        Reverse(Without(Inits(Prefix(b, o, w, p - 1) + a), Gpio));
      }
    }
  }

  // ---------------------------------------------------------------------------
  // Whole runs

  /** A run is the startup up to the phase reached, the failed attempt (if
      any), the event loop (if startup completed) and the cascade. */
  lemma RunParts(b: Build, o: StartOptions, w: World) returns (f: seq<Action>, e: seq<Action>)
    ensures RunTrace(b, o, w) == Prefix(b, o, w, Reached(b, o, w)) + f + e + Unwind(b, w, Reached(b, o, w))
    ensures Inits(f) == [] && Exits(f) == [] && Inits(e) == [] && Exits(e) == []
    ensures Started !in f + e && Stopped !in f + e && forall x :: ReleasePid(x) !in f + e
  {
    var r := Reached(b, o, w);
    ReachedFacts(b, o, w);
    if r < FinalPhase(b) {
      f := Attempt(NextPhase(b, r), o, w).actions;
      QuietFailure(NextPhase(b, r), o, w);
      e := [];
    } else {
      f := [];
      e := [EventRun(w.eventRunOk)];
      Unit(EventRun(w.eventRunOk));
    }
    assert StartTrace(b, o, w) == Prefix(b, o, w, r) + f;
  }

  /** An attempt that does not record its phase starts nothing and touches
      neither the banners nor the pid file. */
  lemma QuietFailure(k: nat, o: StartOptions, w: World)
    requires 1 <= k <= 16 && !Attempt(k, o, w).recorded
    ensures Inits(Attempt(k, o, w).actions) == [] && Exits(Attempt(k, o, w).actions) == []
    ensures Started !in Attempt(k, o, w).actions && Stopped !in Attempt(k, o, w).actions
    ensures forall x :: ReleasePid(x) !in Attempt(k, o, w).actions
  {
    AttemptFacts(k, o, w);
  }

  /** The subsystems a run starts are those started up to the phase reached. */
  lemma RunInits(b: Build, o: StartOptions, w: World)
    ensures Inits(RunTrace(b, o, w)) == Inits(Prefix(b, o, w, Reached(b, o, w)))
  {
    var r := Reached(b, o, w);
    var f, e := RunParts(b, o, w);
    var pre := Prefix(b, o, w, r);
    var un := Unwind(b, w, r);
    UnwindFacts(b, w, r);
    calc {
      Inits(pre + f + e + un);
      { InitsAppend(pre + f + e, un); InitsAppend(pre + f, e); InitsAppend(pre, f); }
      Inits(pre) + Inits(f) + Inits(e) + Inits(un);
    }
  }

  /** The subsystems a run tears down are those of the cascade from the phase reached. */
  lemma RunExits(b: Build, o: StartOptions, w: World)
    ensures Exits(RunTrace(b, o, w)) == Exits(Unwind(b, w, Reached(b, o, w)))
  {
    var r := Reached(b, o, w);
    var f, e := RunParts(b, o, w);
    var pre := Prefix(b, o, w, r);
    var un := Unwind(b, w, r);
    PrefixFacts(b, o, w, r);
    calc {
      Exits(pre + f + e + un);
      { ExitsAppend(pre + f + e, un); ExitsAppend(pre + f, e); ExitsAppend(pre, f); }
      Exits(pre) + Exits(f) + Exits(e) + Exits(un);
    }
  }

  /** Teardown is the exact reverse of the initialised prefix: the exit
      routines run are those of the subsystems whose init routine succeeded,
      most recent first, except gpio, whose exit call is commented out. */
  lemma ExactReverse(b: Build, o: StartOptions, w: World)
    ensures Exits(RunTrace(b, o, w)) == Reverse(Without(Inits(RunTrace(b, o, w)), Gpio))
  {
    ReachedFacts(b, o, w);
    RunInits(b, o, w);
    RunExits(b, o, w);
    UnwindMirrorsPrefix(b, o, w, Reached(b, o, w));
  }

  /** A subsystem is torn down exactly when it was started, gpio never. */
  lemma TornDownIffStarted(b: Build, o: StartOptions, w: World, s: Subsystem)
    ensures Exit(s) in RunTrace(b, o, w) <==> Init(s) in RunTrace(b, o, w) && s != Gpio
  {
    ExactReverse(b, o, w);
    InitsHas(RunTrace(b, o, w));
    ExitsHas(RunTrace(b, o, w));
  }

  /** A subsystem whose init routine fails is neither recorded as started nor torn down. */
  lemma FailedNeverTornDown(b: Build, o: StartOptions, w: World, s: Subsystem)
    requires s in w.failing && PhaseOf(s) >= 4
    ensures Init(s) !in RunTrace(b, o, w) && Exit(s) !in RunTrace(b, o, w)
  {
    RunInits(b, o, w);
    PrefixFacts(b, o, w, Reached(b, o, w));
    InitsHas(RunTrace(b, o, w));
    InitsHas(Prefix(b, o, w, Reached(b, o, w)));
    TornDownIffStarted(b, o, w, s);
  }

  /** main gets past phase 1 exactly when the configuration has no error, and
      past phase 2 exactly when in addition the pid-file lock was taken. */
  lemma EarlyPhases(b: Build, o: StartOptions, w: World)
    ensures Reached(b, o, w) >= 2 <==> !w.configError
    ensures Reached(b, o, w) >= 3 <==> !w.configError && w.pidFd >= 0
  {
    ReachedIff(b, o, w, 2);
    ReachedIff(b, o, w, 3);
    OkUpToIff(b, o, w, 2);
    OkUpToIff(b, o, w, 3);
  }

  /** The pid file is released exactly once the lock was taken, and only the
      descriptor the lock returned. */
  lemma PidReleaseGuard(b: Build, o: StartOptions, w: World, x: int)
    ensures ReleasePid(x) in RunTrace(b, o, w) <==> !w.configError && w.pidFd >= 0 && x == w.pidFd
  {
    var r := Reached(b, o, w);
    var f, e := RunParts(b, o, w);
    PrefixFacts(b, o, w, r);
    UnwindFacts(b, w, r);
    EarlyPhases(b, o, w);
  }

  /** A run starts only subsystems of phases of the build up to the phase
      reached, none whose init routine failed, and udev only without hotplug. */
  lemma RunStarts(b: Build, o: StartOptions, w: World, s: Subsystem)
    requires Init(s) in RunTrace(b, o, w)
    ensures 1 <= PhaseOf(s) <= Reached(b, o, w) && Compiled(b, PhaseOf(s))
    ensures PhaseOf(s) >= 4 ==> s !in w.failing
    ensures s == Udev ==> !w.usbHotplug
  {
    var pre := Prefix(b, o, w, Reached(b, o, w));
    RunInits(b, o, w);
    InitsHas(RunTrace(b, o, w));
    InitsHas(pre);
    assert s in Inits(pre);
    PrefixFacts(b, o, w, Reached(b, o, w));
  }

  /** udev_exit runs exactly when udev_init ran and succeeded, which needs the
      libudev build and a libusb without hotplug support. */
  lemma UdevGuard(b: Build, o: StartOptions, w: World)
    ensures Exit(Udev) in RunTrace(b, o, w) <==> Init(Udev) in RunTrace(b, o, w)
    ensures Init(Udev) in RunTrace(b, o, w) ==> b.libudev && !w.usbHotplug && Udev !in w.failing
  {
    TornDownIffStarted(b, o, w, Udev);
    if Init(Udev) in RunTrace(b, o, w) {
      RunStarts(b, o, w, Udev);
    }
  }

  /** The "stopped" banner is logged exactly when the "started" banner was,
      which is when the configuration loaded and the pid-file lock was taken. */
  lemma Banners(b: Build, o: StartOptions, w: World)
    ensures Started in RunTrace(b, o, w) <==> Stopped in RunTrace(b, o, w)
    ensures Started in RunTrace(b, o, w) <==> !w.configError && w.pidFd >= 0
  {
    var r := Reached(b, o, w);
    var f, e := RunParts(b, o, w);
    PrefixFacts(b, o, w, r);
    UnwindFacts(b, w, r);
    EarlyPhases(b, o, w);
  }

  /** main returns EXIT_SUCCESS exactly when the configuration loaded, the
      lock was taken, no init routine it checked failed and event_run
      succeeded; otherwise it returns EXIT_FAILURE. */
  lemma ExitCodeIff(b: Build, o: StartOptions, w: World)
    ensures RunExitCode(b, o, w) == ExitSuccess <==>
      !w.configError && w.pidFd >= 0 && w.eventRunOk
      && forall s :: Checked(b, w, s) ==> s !in w.failing
    ensures RunExitCode(b, o, w) in {ExitSuccess, ExitFailure}
  {
    ReachedFacts(b, o, w);
    ReachedIff(b, o, w, FinalPhase(b));
    OkUpToIff(b, o, w, FinalPhase(b));
    forall s | Checked(b, w, s)
      ensures PhaseOf(s) <= FinalPhase(b)
    {
    }
  }

  lemma {:induction false} PrefixStartsWithConfig(b: Build, o: StartOptions, w: World, p: nat)
    requires 1 <= p <= 16
    ensures |Prefix(b, o, w, p)| >= 1 && Prefix(b, o, w, p)[0] == Init(Config)
  {
    if p == 1 {
      assert Prefix(b, o, w, 1) == [Init(Config)];
    } else {
      PrefixStartsWithConfig(b, o, w, p - 1);
      var a := if Compiled(b, p) then Attempt(p, o, w).actions else [];
      assert Prefix(b, o, w, p) == Prefix(b, o, w, p - 1) + a;
    }
  }

  /** Every run begins with config_init. */
  lemma StartsWithConfig(b: Build, o: StartOptions, w: World)
    ensures |RunTrace(b, o, w)| >= 1 && RunTrace(b, o, w)[0] == Init(Config)
  {
    ReachedFacts(b, o, w);
    var f, e := RunParts(b, o, w);
    PrefixStartsWithConfig(b, o, w, Reached(b, o, w));
  }

  /** With an error in the configuration file main only loads and frees the
      configuration, and fails. */
  lemma ConfigErrorRun(b: Build, o: StartOptions, w: World)
    requires w.configError
    ensures RunTrace(b, o, w) == [Init(Config), Exit(Config)]
    ensures RunExitCode(b, o, w) == ExitFailure
  {
    assert OkUpTo(b, o, w, 0) && OkUpTo(b, o, w, 1);
    StopsAt(b, o, w, 1, 2);
    assert Prefix(b, o, w, 1) == [Init(Config)];
    assert Unwind(b, w, 1) == [Exit(Config)];
  }

  /** When the pid-file lock fails (another instance runs), main shuts the
      log and the configuration down again without releasing the pid file,
      and fails. */
  lemma LockFailureRun(b: Build, o: StartOptions, w: World)
    requires !w.configError && w.pidFd < 0
    ensures RunTrace(b, o, w) ==
      [Init(Config), Init(Log), LockPid(w.pidFd, o.daemon), Exit(Log), Exit(Config)]
    ensures RunExitCode(b, o, w) == ExitFailure
  {
    assert OkUpTo(b, o, w, 0) && OkUpTo(b, o, w, 1) && OkUpTo(b, o, w, 2);
    StopsAt(b, o, w, 2, 3);
    assert Prefix(b, o, w, 1) == [Init(Config)];
    assert Prefix(b, o, w, 2) == [Init(Config), Init(Log), LockPid(w.pidFd, o.daemon)];
    assert Unwind(b, w, 1) == [Exit(Config)];
    assert Unwind(b, w, 2) == [Exit(Log), Exit(Config)];
  }

  /** When every phase up to p succeeded, startup up to p started exactly the
      subsystems owning a phase of the build up to p (udev only without
      hotplug support). */
  lemma {:induction false} StartedIff(b: Build, o: StartOptions, w: World, p: nat, s: Subsystem)
    requires p <= 16 && OkUpTo(b, o, w, p)
    ensures Init(s) in Prefix(b, o, w, p) <==>
      1 <= PhaseOf(s) <= p && Compiled(b, PhaseOf(s)) && (s == Udev ==> !w.usbHotplug)
  {
    if p > 0 {
      StartedIff(b, o, w, p - 1, s);
      var a := if Compiled(b, p) then Attempt(p, o, w).actions else [];
      assert Prefix(b, o, w, p) == Prefix(b, o, w, p - 1) + a;
      assert Init(s) in a <==> Compiled(b, p) && PhaseOf(s) == p && (s == Udev ==> !w.usbHotplug) by {
        if Compiled(b, p) {
          AttemptStarts(p, o, w, s);
        }
      }
    }
  }

  /** Cleanup runs the teardown of every subsystem owning a phase of the build
      up to the phase reached, gpio excepted (udev only when it was started),
      and of no other. */
  lemma TornDownIff(b: Build, o: StartOptions, w: World, s: Subsystem)
    ensures Exit(s) in RunTrace(b, o, w) <==>
      1 <= PhaseOf(s) <= Reached(b, o, w) && Compiled(b, PhaseOf(s))
      && (s == Udev ==> !w.usbHotplug) && s != Gpio
  {
    ReachedFacts(b, o, w);
    RunInits(b, o, w);
    InitsHas(RunTrace(b, o, w));
    InitsHas(Prefix(b, o, w, Reached(b, o, w)));
    StartedIff(b, o, w, Reached(b, o, w), s);
    TornDownIffStarted(b, o, w, s);
  }

  /** A usb_init failure after a clean start: hardware, signal and event are
      torn down, usb is not, and main fails. */
  lemma UsbFailureTearsDown(b: Build, o: StartOptions, w: World)
    requires !w.configError && w.pidFd >= 0 && Usb in w.failing
    requires Event !in w.failing && Signal !in w.failing && Hardware !in w.failing
    requires b.libusbDlopen ==> LibusbDlopen !in w.failing
    ensures Reached(b, o, w) == 7
    ensures Exit(Hardware) in RunTrace(b, o, w) && Exit(Signal) in RunTrace(b, o, w)
    ensures Exit(Event) in RunTrace(b, o, w) && Exit(Usb) !in RunTrace(b, o, w)
    ensures RunExitCode(b, o, w) == ExitFailure
  {
    OkUpToIff(b, o, w, 7);
    OkUpToIff(b, o, w, 8);
    assert Checked(b, w, Usb);
    ReachedIff(b, o, w, 7);
    ReachedIff(b, o, w, 8);
    TornDownIff(b, o, w, Hardware);
    TornDownIff(b, o, w, Signal);
    TornDownIff(b, o, w, Event);
    TornDownIff(b, o, w, Usb);
  }

  // ---------------------------------------------------------------------------
  // Order

  /** ss lists subsystems by strictly increasing phase. */
  predicate Ascending(ss: seq<Subsystem>) {
    forall i, j :: 0 <= i < j < |ss| ==> PhaseOf(ss[i]) < PhaseOf(ss[j])
  }

  lemma {:induction false} WithoutAscending(ss: seq<Subsystem>, x: Subsystem)
    requires Ascending(ss)
    ensures Ascending(Without(ss, x))
  {
    if ss != [] {
      WithoutAscending(ss[1..], x);
      var rest := Without(ss[1..], x);
      forall j | 0 <= j < |rest|
        ensures PhaseOf(ss[0]) < PhaseOf(rest[j])
      {
        assert rest[j] in ss[1..];
      }
    }
  }

  /** Startup starts subsystems in strictly increasing phase order. */
  lemma {:induction false} PrefixAscending(b: Build, o: StartOptions, w: World, p: nat)
    requires p <= 16
    ensures Ascending(Inits(Prefix(b, o, w, p)))
  {
    if p > 0 {
      PrefixAscending(b, o, w, p - 1);
      var a := if Compiled(b, p) then Attempt(p, o, w).actions else [];
      InitsAppend(Prefix(b, o, w, p - 1), a);
      AscendingAppend(b, o, w, p, Inits(Prefix(b, o, w, p - 1)), Inits(a));
    }
  }

  lemma AscendingAppend(b: Build, o: StartOptions, w: World, p: nat, earlier: seq<Subsystem>, now: seq<Subsystem>)
    requires 1 <= p <= 16
    requires Ascending(earlier) && earlier == Inits(Prefix(b, o, w, p - 1))
    requires now == Inits(if Compiled(b, p) then Attempt(p, o, w).actions else [])
    ensures Ascending(earlier + now)
  {
    PrefixStarts(b, o, w, p - 1);
    var a := if Compiled(b, p) then Attempt(p, o, w).actions else [];
    if Compiled(b, p) {
      AttemptInitsShort(p, o, w);
    }
    InitsHas(a);
    InitsHas(Prefix(b, o, w, p - 1));
    forall i | 0 <= i < |earlier|
      ensures PhaseOf(earlier[i]) < p
    {
      assert earlier[i] in earlier;
    }
    forall j | 0 <= j < |now|
      ensures PhaseOf(now[j]) == p
    {
      assert now[j] in now;
      AttemptStarts(p, o, w, now[j]);
    }
  }

  /** Cleanup tears subsystems down in strictly decreasing phase order, so
      each at most once. */
  lemma TeardownDescending(b: Build, o: StartOptions, w: World)
    ensures forall i, j :: 0 <= i < j < |Exits(RunTrace(b, o, w))| ==>
      PhaseOf(Exits(RunTrace(b, o, w))[i]) > PhaseOf(Exits(RunTrace(b, o, w))[j])
  {
    ExactReverse(b, o, w);
    RunInits(b, o, w);
    PrefixAscending(b, o, w, Reached(b, o, w));
    WithoutAscending(Inits(RunTrace(b, o, w)), Gpio);
  }
}
