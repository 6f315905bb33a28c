/** The command line of main() in src/brickd/main_macosx.c: a loop over argv
    that sets six flags, each option a plain switch that takes no argument. */
module MacCli {
  import opened Trace

  /** The flags main collects. */
  datatype MacOptions = MacOptions(
    help: bool,
    version: bool,
    checkConfig: bool,
    daemon: bool,
    debug: bool,
    libusbDebug: bool)

  const NoMacOptions := MacOptions(false, false, false, false, false, false)

  /** The result of the argv loop: the flags, or the first unknown option. */
  datatype MacParse = MacParsed(options: MacOptions) | MacUnknown(arg: string)

  predicate MacKnown(a: string) {
    a == "--help" || a == "--version" || a == "--check-config" || a == "--daemon"
    || a == "--debug" || a == "--libusb-debug"
  }

  /** The loop from index i on, with the flags o collected so far. */
  function MacParseFrom(argv: seq<string>, i: nat, o: MacOptions): MacParse
    decreases |argv| - i
  {
    if i >= |argv| then MacParsed(o)
    else
      var a := argv[i];
      if a == "--help" then MacParseFrom(argv, i + 1, o.(help := true))
      else if a == "--version" then MacParseFrom(argv, i + 1, o.(version := true))
      else if a == "--check-config" then MacParseFrom(argv, i + 1, o.(checkConfig := true))
      else if a == "--daemon" then MacParseFrom(argv, i + 1, o.(daemon := true))
      else if a == "--debug" then MacParseFrom(argv, i + 1, o.(debug := true))
      else if a == "--libusb-debug" then MacParseFrom(argv, i + 1, o.(libusbDebug := true))
      else MacUnknown(a)
  }

  /** The whole loop: argv[0] is the program name and is skipped. */
  function MacParseCommandLine(argv: seq<string>): MacParse {
    MacParseFrom(argv, 1, NoMacOptions)
  }

  /** The argv loop of main as written: flags are set in place and an
      unknown option ends the loop. */
  method MacParseArguments(argv: seq<string>) returns (r: MacParse)
    ensures r == MacParseCommandLine(argv)
  {
    var help, version, checkConfig, daemon, debug, libusbDebug := false, false, false, false, false, false;
    var i := 1;
    while i < |argv|
      invariant 1 <= i
      invariant MacParseFrom(argv, i, MacOptions(help, version, checkConfig, daemon, debug, libusbDebug))
        == MacParseCommandLine(argv)
      decreases |argv| - i
    {
      if argv[i] == "--help" {
        help := true;
      } else if argv[i] == "--version" {
        version := true;
      } else if argv[i] == "--check-config" {
        checkConfig := true;
      } else if argv[i] == "--daemon" {
        daemon := true;
      } else if argv[i] == "--debug" {
        debug := true;
      } else if argv[i] == "--libusb-debug" {
        libusbDebug := true;
      } else {
        return MacUnknown(argv[i]);
      }
      i := i + 1;
    }
    r := MacParsed(MacOptions(help, version, checkConfig, daemon, debug, libusbDebug));
  }

  // ---------------------------------------------------------------------------
  // Properties

  /** The flags after one known option a. */
  function Set(o: MacOptions, a: string): MacOptions {
    if a == "--help" then o.(help := true)
    else if a == "--version" then o.(version := true)
    else if a == "--check-config" then o.(checkConfig := true)
    else if a == "--daemon" then o.(daemon := true)
    else if a == "--debug" then o.(debug := true)
    else if a == "--libusb-debug" then o.(libusbDebug := true)
    else o
  }

  /** One step of the loop: a known option sets its flag and goes on. */
  lemma MacStep(argv: seq<string>, i: nat, o: MacOptions)
    requires i < |argv|
    ensures MacKnown(argv[i]) ==> MacParseFrom(argv, i, o) == MacParseFrom(argv, i + 1, Set(o, argv[i]))
    ensures !MacKnown(argv[i]) ==> MacParseFrom(argv, i, o) == MacUnknown(argv[i])
  {
  }

  /** From index i on, the loop succeeds exactly when every argument is an option. */
  lemma {:induction false} MacParsesIff(argv: seq<string>, i: nat, o: MacOptions)
    requires i <= |argv|
    ensures MacParseFrom(argv, i, o).MacParsed? <==> forall a :: a in argv[i..] ==> MacKnown(a)
    decreases |argv| - i
  {
    if i < |argv| {
      assert argv[i..] == [argv[i]] + argv[i + 1..];
      MacStep(argv, i, o);
      if MacKnown(argv[i]) {
        MacParsesIff(argv, i + 1, Set(o, argv[i]));
      }
    } else {
      assert argv[i..] == [];
    }
  }

  /** The flag that option f sets. */
  function Flag(o: MacOptions, f: string): bool
    requires MacKnown(f)
  {
    if f == "--help" then o.help
    else if f == "--version" then o.version
    else if f == "--check-config" then o.checkConfig
    else if f == "--daemon" then o.daemon
    else if f == "--debug" then o.debug
    else o.libusbDebug
  }

  /** Option a sets its own flag and no other. */
  lemma SetFlag(o: MacOptions, a: string, f: string)
    requires MacKnown(a) && MacKnown(f)
    ensures Flag(Set(o, a), f) == (Flag(o, f) || a == f)
  {
  }

  /** From index i on, the flag of option f in a successful parse is set
      exactly when it was already set or f occurs. */
  lemma {:induction false} MacFlags(argv: seq<string>, i: nat, o: MacOptions, f: string)
    requires i <= |argv| && MacKnown(f)
    ensures MacParseFrom(argv, i, o).MacParsed? ==>
      (Flag(MacParseFrom(argv, i, o).options, f) <==> Flag(o, f) || f in argv[i..])
    decreases |argv| - i
  {
    if i < |argv| {
      assert argv[i..] == [argv[i]] + argv[i + 1..];
      MacStep(argv, i, o);
      if MacKnown(argv[i]) {
        MacFlags(argv, i + 1, Set(o, argv[i]), f);
        SetFlag(o, argv[i], f);
      }
    } else {
      assert argv[i..] == [];
    }
  }

  /** From index i on, a failed parse names the first argument that is not
      an option. */
  lemma {:induction false} MacFirstUnknown(argv: seq<string>, i: nat, o: MacOptions)
    requires i <= |argv|
    ensures MacParseFrom(argv, i, o).MacUnknown? ==>
      exists k :: i <= k < |argv| && argv[k] == MacParseFrom(argv, i, o).arg
        && !MacKnown(argv[k]) && forall m :: i <= m < k ==> MacKnown(argv[m])
    decreases |argv| - i
  {
    if i < |argv| {
      MacStep(argv, i, o);
      if MacKnown(argv[i]) {
        MacFirstUnknown(argv, i + 1, Set(o, argv[i]));
        if MacParseFrom(argv, i, o).MacUnknown? {
          var k :| i + 1 <= k < |argv| && argv[k] == MacParseFrom(argv, i, o).arg
            && !MacKnown(argv[k]) && forall m :: i + 1 <= m < k ==> MacKnown(argv[m]);
          assert forall m :: i <= m < k ==> MacKnown(argv[m]);
        }
      }
    }
  }

  /** A command line parses exactly when every argument is an option; each
      flag is then set exactly when its option was given, and a failure
      names the first argument that is not an option. */
  lemma MacParseMeaning(argv: seq<string>)
    ensures MacParseCommandLine(argv).MacParsed? <==> forall a :: a in Args(argv) ==> MacKnown(a)
    ensures MacParseCommandLine(argv).MacParsed? ==>
      var r := MacParseCommandLine(argv).options;
      (r.help <==> "--help" in Args(argv))
      && (r.version <==> "--version" in Args(argv))
      && (r.checkConfig <==> "--check-config" in Args(argv))
      && (r.daemon <==> "--daemon" in Args(argv))
      && (r.debug <==> "--debug" in Args(argv))
      && (r.libusbDebug <==> "--libusb-debug" in Args(argv))
    ensures MacParseCommandLine(argv).MacUnknown? ==>
      exists k :: 0 <= k < |Args(argv)| && Args(argv)[k] == MacParseCommandLine(argv).arg
        && !MacKnown(Args(argv)[k]) && forall m :: 0 <= m < k ==> MacKnown(Args(argv)[m])
  {
    if |argv| >= 1 {
      MacParsesIff(argv, 1, NoMacOptions);
      MacFlags(argv, 1, NoMacOptions, "--help");
      MacFlags(argv, 1, NoMacOptions, "--version");
      MacFlags(argv, 1, NoMacOptions, "--check-config");
      MacFlags(argv, 1, NoMacOptions, "--daemon");
      MacFlags(argv, 1, NoMacOptions, "--debug");
      MacFlags(argv, 1, NoMacOptions, "--libusb-debug");
      MacFirstUnknown(argv, 1, NoMacOptions);
      if MacParseCommandLine(argv).MacUnknown? {
        var k :| 1 <= k < |argv| && argv[k] == MacParseCommandLine(argv).arg
          && !MacKnown(argv[k]) && forall m :: 1 <= m < k ==> MacKnown(argv[m]);
        assert Args(argv)[k - 1] == argv[k];
        assert forall m :: 0 <= m < k - 1 ==> Args(argv)[m] == argv[m + 1];
      }
    }
  }

  /** --debug takes no argument: what follows it is read as an option, so an
      argument that is none fails the parse. */
  lemma MacDebugTakesNothing(prog: string, x: string)
    requires !MacKnown(x)
    ensures MacParseCommandLine([prog, "--debug", x]) == MacUnknown(x)
    ensures MacParseCommandLine([prog, "--libusb-debug", x]) == MacUnknown(x)
  {
    var argv := [prog, "--debug", x];
    assert argv[1] == "--debug" && argv[2] == x;
    assert MacParseFrom(argv, 2, NoMacOptions.(debug := true)) == MacUnknown(x);
    var argv' := [prog, "--libusb-debug", x];
    assert argv'[1] == "--libusb-debug" && argv'[2] == x;
    assert MacParseFrom(argv', 2, NoMacOptions.(libusbDebug := true)) == MacUnknown(x);
  }

  /** The first unknown argument fails the parse even after --help. */
  lemma MacUnknownAfterHelp(prog: string, x: string, rest: seq<string>)
    requires !MacKnown(x)
    ensures MacParseCommandLine([prog, "--help", x] + rest) == MacUnknown(x)
  {
    var argv := [prog, "--help", x] + rest;
    assert argv[1] == "--help" && argv[2] == x;
    assert MacParseFrom(argv, 2, NoMacOptions.(help := true)) == MacUnknown(x);
  }
}
