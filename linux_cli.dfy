/** The command line of main() in src/brickd/main_linux.c: a loop over argv
    that sets the flags --help, --version, --check-config and --daemon, and
    --debug with an optional filter taken from the next argument. */
module LinuxCli {
  import opened Trace

  /** The flags main collects; debugFilter is None when --debug was absent. */
  datatype Options = Options(
    help: bool,
    version: bool,
    checkConfig: bool,
    daemon: bool,
    debugFilter: Option<string>)

  const NoOptions := Options(false, false, false, false, None)

  /** The result of the argv loop: the flags, or the first unknown option. */
  datatype Parse = Parsed(options: Options) | UnknownOption(arg: string)

  /** strncmp(s, "--", 2) == 0: s starts with two dashes. */
  predicate IsDashDash(s: string) {
    |s| >= 2 && s[0] == '-' && s[1] == '-'
  }

  predicate Known(a: string) {
    a == "--help" || a == "--version" || a == "--check-config" || a == "--daemon" || a == "--debug"
  }

  /** The filter --debug at index j takes: the next argument unless there is
      none or it starts with "--", in which case the empty filter. */
  function FilterAfter(argv: seq<string>, j: nat): string {
    if j + 1 < |argv| && !IsDashDash(argv[j + 1]) then argv[j + 1] else ""
  }

  /** The loop from index i on, with the flags o collected so far. */
  function ParseFrom(argv: seq<string>, i: nat, o: Options): Parse
    decreases |argv| - i
  {
    if i >= |argv| then Parsed(o)
    else
      var a := argv[i];
      if a == "--help" then ParseFrom(argv, i + 1, o.(help := true))
      else if a == "--version" then ParseFrom(argv, i + 1, o.(version := true))
      else if a == "--check-config" then ParseFrom(argv, i + 1, o.(checkConfig := true))
      else if a == "--daemon" then ParseFrom(argv, i + 1, o.(daemon := true))
      else if a == "--debug" then
        if i + 1 < |argv| && !IsDashDash(argv[i + 1]) then
          ParseFrom(argv, i + 2, o.(debugFilter := Some(argv[i + 1])))
        else
          ParseFrom(argv, i + 1, o.(debugFilter := Some("")))
      else UnknownOption(a)
  }

  /** The whole loop: argv[0] is the program name and is skipped. */
  function ParseCommandLine(argv: seq<string>): Parse {
    ParseFrom(argv, 1, NoOptions)
  }

  /** The argv loop of main as written: flags are set in place, --debug may
      consume the next argument with ++i, an unknown option ends the loop. */
  method ParseArguments(argv: seq<string>) returns (r: Parse)
    ensures r == ParseCommandLine(argv)
  {
    var help, version, checkConfig, daemon := false, false, false, false;
    var debugFilter: Option<string> := None;
    var i := 1;
    while i < |argv|
      invariant 1 <= i
      invariant ParseFrom(argv, i, Options(help, version, checkConfig, daemon, debugFilter)) == ParseCommandLine(argv)
      decreases |argv| - i
    {
      if argv[i] == "--help" {
        help := true;
      } else if argv[i] == "--version" {
        version := true;
      } else if argv[i] == "--check-config" {
        checkConfig := true;
      } else if argv[i] == "--daemon" {
        daemon := true;
      } else if argv[i] == "--debug" {
        if i + 1 < |argv| && !IsDashDash(argv[i + 1]) {
          i := i + 1;
          debugFilter := Some(argv[i]);
        } else {
          debugFilter := Some("");
        }
      } else {
        return UnknownOption(argv[i]);
      }
      i := i + 1;
    }
    r := Parsed(Options(help, version, checkConfig, daemon, debugFilter));
  }

  // ---------------------------------------------------------------------------
  // Properties

  /** Whether the flags o hold option f (for --debug: a filter is set). */
  function HasFlag(o: Options, f: string): bool
    requires Known(f)
  {
    if f == "--help" then o.help
    else if f == "--version" then o.version
    else if f == "--check-config" then o.checkConfig
    else if f == "--daemon" then o.daemon
    else o.debugFilter.Some?
  }

  /** A filter --debug consumes starts without "--", so it is never one of
      the options: from index i on, the flag of option f in a successful
      parse is set exactly when it was already set or f occurs. */
  lemma {:induction false} FlagFrom(argv: seq<string>, i: nat, o: Options, f: string)
    requires i <= |argv| && Known(f)
    ensures ParseFrom(argv, i, o).Parsed? ==>
      (HasFlag(ParseFrom(argv, i, o).options, f) <==> HasFlag(o, f) || f in argv[i..])
    decreases |argv| - i
  {
    if i < |argv| && Known(argv[i]) {
      var n := Next(argv, i);
      Step(argv, i, o);
      StepFlag(argv, i, o, f);
      assert argv[i..] == argv[i..n] + argv[n..];
      FlagFrom(argv, n, After(argv, i, o), f);
    }
  }

  /** The index after the known option at i: past the filter when --debug takes one. */
  function Next(argv: seq<string>, i: nat): (n: nat)
    requires i < |argv|
    ensures i < n <= |argv|
  {
    if argv[i] == "--debug" && i + 1 < |argv| && !IsDashDash(argv[i + 1]) then i + 2 else i + 1
  }

  /** The flags after the known option at i. */
  function After(argv: seq<string>, i: nat, o: Options): Options
    requires i < |argv|
  {
    var a := argv[i];
    if a == "--help" then o.(help := true)
    else if a == "--version" then o.(version := true)
    else if a == "--check-config" then o.(checkConfig := true)
    else if a == "--daemon" then o.(daemon := true)
    else if a == "--debug" then o.(debugFilter := Some(FilterAfter(argv, i)))
    else o
  }

  /** One step of the loop: a known option updates the flags and moves on,
      anything else ends the loop. */
  lemma Step(argv: seq<string>, i: nat, o: Options)
    requires i < |argv|
    ensures Known(argv[i]) ==> ParseFrom(argv, i, o) == ParseFrom(argv, Next(argv, i), After(argv, i, o))
    ensures !Known(argv[i]) ==> ParseFrom(argv, i, o) == UnknownOption(argv[i])
  {
  }

  /** The step sets the flag of option f exactly when f is the option read;
      a filter it consumes is never an option. */
  lemma StepFlag(argv: seq<string>, i: nat, o: Options, f: string)
    requires i < |argv| && Known(argv[i]) && Known(f)
    ensures HasFlag(After(argv, i, o), f) <==> HasFlag(o, f) || f in argv[i..Next(argv, i)]
  {
    var n := Next(argv, i);
    if n == i + 2 {
      assert argv[i..n] == [argv[i], argv[i + 1]];
    } else {
      assert argv[i..n] == [argv[i]];
    }
  }

  /** The argument at index k is consumed by the loop started at index i:
      it is an option, or the filter of a --debug just before it. */
  predicate Taken(argv: seq<string>, i: nat, k: nat)
    requires i <= k < |argv|
  {
    Known(argv[k]) || (k > i && argv[k - 1] == "--debug" && !IsDashDash(argv[k]))
  }

  /** The known option at i consumes itself and its filter, and past them
      consuming from i or from the next index is the same. */
  lemma TakenStep(argv: seq<string>, i: nat)
    requires i < |argv| && Known(argv[i])
    ensures forall k :: i <= k < Next(argv, i) ==> Taken(argv, i, k)
    ensures forall k :: Next(argv, i) <= k < |argv| ==> Taken(argv, i, k) == Taken(argv, Next(argv, i), k)
  {
    var n := Next(argv, i);
    forall k | n <= k < |argv|
      ensures Taken(argv, i, k) == Taken(argv, n, k)
    {
      if k == n && n == i + 2 {
        assert !IsDashDash(argv[n - 1]);
      }
    }
  }

  /** From index i on, the loop succeeds exactly when it consumes every argument. */
  lemma {:induction false} ParsesIff(argv: seq<string>, i: nat, o: Options)
    requires i <= |argv|
    ensures ParseFrom(argv, i, o).Parsed? <==> forall k :: i <= k < |argv| ==> Taken(argv, i, k)
    decreases |argv| - i
  {
    if i < |argv| {
      Step(argv, i, o);
      if Known(argv[i]) {
        var n := Next(argv, i);
        ParsesIff(argv, n, After(argv, i, o));
        TakenStep(argv, i);
      } else {
        assert !Taken(argv, i, i);
      }
    }
  }

  /** From index i on, a failed parse names the first argument the loop
      reads that is not an option. */
  lemma {:induction false} FirstUnknown(argv: seq<string>, i: nat, o: Options)
    requires i <= |argv|
    ensures ParseFrom(argv, i, o).UnknownOption? ==>
      exists k :: i <= k < |argv| && argv[k] == ParseFrom(argv, i, o).arg
        && !Taken(argv, i, k) && forall m :: i <= m < k ==> Taken(argv, i, m)
    decreases |argv| - i
  {
    if i < |argv| {
      Step(argv, i, o);
      if Known(argv[i]) {
        var n := Next(argv, i);
        FirstUnknown(argv, n, After(argv, i, o));
        TakenStep(argv, i);
        if ParseFrom(argv, i, o).UnknownOption? {
          var k :| n <= k < |argv| && argv[k] == ParseFrom(argv, i, o).arg
            && !Taken(argv, n, k) && forall m :: n <= m < k ==> Taken(argv, n, m);
          assert !Taken(argv, i, k);
          assert forall m :: i <= m < k ==> Taken(argv, i, m);
        }
      } else {
        assert !Taken(argv, i, i);
      }
    }
  }

  /** A command line parses exactly when the loop consumes every argument;
      a parsed one has each flag set exactly when its option was given, and
      a failed one names the first argument that is neither an option nor
      the filter of a --debug. */
  lemma ParseMeaning(argv: seq<string>)
    ensures ParseCommandLine(argv).Parsed? <==> forall k :: 1 <= k < |argv| ==> Taken(argv, 1, k)
    ensures ParseCommandLine(argv).Parsed? ==>
      var r := ParseCommandLine(argv).options;
      (r.help <==> "--help" in Args(argv))
      && (r.version <==> "--version" in Args(argv))
      && (r.checkConfig <==> "--check-config" in Args(argv))
      && (r.daemon <==> "--daemon" in Args(argv))
      && (r.debugFilter.Some? <==> "--debug" in Args(argv))
    ensures ParseCommandLine(argv).UnknownOption? ==>
      exists k :: 1 <= k < |argv| && argv[k] == ParseCommandLine(argv).arg
        && !Known(argv[k]) && !Taken(argv, 1, k) && forall m :: 1 <= m < k ==> Taken(argv, 1, m)
  {
    if |argv| >= 1 {
      FlagFrom(argv, 1, NoOptions, "--help");
      FlagFrom(argv, 1, NoOptions, "--version");
      FlagFrom(argv, 1, NoOptions, "--check-config");
      FlagFrom(argv, 1, NoOptions, "--daemon");
      FlagFrom(argv, 1, NoOptions, "--debug");
      ParsesIff(argv, 1, NoOptions);
      FirstUnknown(argv, 1, NoOptions);
    }
  }

  /** Once the loop is past the last --debug, the filter it holds is final. */
  lemma {:induction false} FilterKept(argv: seq<string>, i: nat, o: Options)
    requires i <= |argv| && "--debug" !in argv[i..]
    ensures ParseFrom(argv, i, o).Parsed? ==> ParseFrom(argv, i, o).options.debugFilter == o.debugFilter
    decreases |argv| - i
  {
    if i < |argv| {
      var a := argv[i];
      assert a in argv[i..];
      assert argv[i + 1..] == argv[i..][1..];
      if a == "--help" {
        FilterKept(argv, i + 1, o.(help := true));
      } else if a == "--version" {
        FilterKept(argv, i + 1, o.(version := true));
      } else if a == "--check-config" {
        FilterKept(argv, i + 1, o.(checkConfig := true));
      } else if a == "--daemon" {
        FilterKept(argv, i + 1, o.(daemon := true));
      }
    }
  }

  /** With repeated --debug, the last one decides the filter: the loop
      always stops at index j, since an argument starting with "--" is never
      taken as a filter. */
  lemma {:induction false} LastDebugFrom(argv: seq<string>, i: nat, j: nat, o: Options)
    requires i <= j < |argv| && argv[j] == "--debug"
    requires forall m :: j < m < |argv| ==> argv[m] != "--debug"
    ensures ParseFrom(argv, i, o).Parsed? ==>
      ParseFrom(argv, i, o).options.debugFilter == Some(FilterAfter(argv, j))
    decreases |argv| - i
  {
    var a := argv[i];
    if i == j {
      var next := if j + 1 < |argv| && !IsDashDash(argv[j + 1]) then j + 2 else j + 1;
      assert "--debug" !in argv[next..] by {
        forall x | x in argv[next..]
          ensures x != "--debug"
        {
          var m :| next <= m < |argv| && argv[m] == x;
        }
      }
      FilterKept(argv, next, o.(debugFilter := Some(FilterAfter(argv, j))));
    } else if a == "--help" {
      LastDebugFrom(argv, i + 1, j, o.(help := true));
    } else if a == "--version" {
      LastDebugFrom(argv, i + 1, j, o.(version := true));
    } else if a == "--check-config" {
      LastDebugFrom(argv, i + 1, j, o.(checkConfig := true));
    } else if a == "--daemon" {
      LastDebugFrom(argv, i + 1, j, o.(daemon := true));
    } else if a == "--debug" {
      if i + 1 < |argv| && !IsDashDash(argv[i + 1]) {
        assert i + 1 != j;
        LastDebugFrom(argv, i + 2, j, o.(debugFilter := Some(argv[i + 1])));
      } else {
        LastDebugFrom(argv, i + 1, j, o.(debugFilter := Some("")));
      }
    }
  }

  /** The filter of a parsed command line is the one the last --debug takes. */
  lemma LastDebugWins(argv: seq<string>, j: nat)
    requires 1 <= j < |argv| && argv[j] == "--debug"
    requires forall m :: j < m < |argv| ==> argv[m] != "--debug"
    ensures ParseCommandLine(argv).Parsed? ==>
      ParseCommandLine(argv).options.debugFilter == Some(FilterAfter(argv, j))
  {
    LastDebugFrom(argv, 1, j, NoOptions);
  }

  /** The first unknown argument fails the parse even after --help: the loop
      returns before the flags are looked at. */
  lemma UnknownAfterHelp(prog: string, x: string, rest: seq<string>)
    requires !Known(x)
    ensures ParseCommandLine([prog, "--help", x] + rest) == UnknownOption(x)
  {
    var argv := [prog, "--help", x] + rest;
    assert argv[1] == "--help" && argv[2] == x;
    assert ParseFrom(argv, 2, NoOptions.(help := true)) == UnknownOption(x);
  }

  /** --debug followed by an argument not starting with "--" takes it as the
      filter, which is then not read as an option. */
  lemma DebugTakesFilter(prog: string, f: string)
    requires !IsDashDash(f)
    ensures ParseCommandLine([prog, "--debug", f]) == Parsed(NoOptions.(debugFilter := Some(f)))
  {
    var argv := [prog, "--debug", f];
    assert argv[1] == "--debug" && argv[2] == f;
    assert ParseFrom(argv, 3, NoOptions.(debugFilter := Some(f))) == Parsed(NoOptions.(debugFilter := Some(f)));
  }

  /** --debug followed by another option takes the empty filter and leaves
      the option to the loop. */
  lemma DebugBeforeOption(prog: string)
    ensures ParseCommandLine([prog, "--debug", "--daemon"]) ==
      Parsed(NoOptions.(daemon := true, debugFilter := Some("")))
  {
    var argv := [prog, "--debug", "--daemon"];
    assert argv[1] == "--debug" && argv[2] == "--daemon";
    assert IsDashDash(argv[2]);
    assert ParseFrom(argv, 1, NoOptions) == ParseFrom(argv, 2, NoOptions.(debugFilter := Some("")));
    assert ParseFrom(argv, 3, NoOptions.(daemon := true, debugFilter := Some(""))) ==
      Parsed(NoOptions.(daemon := true, debugFilter := Some("")));
  }
}
