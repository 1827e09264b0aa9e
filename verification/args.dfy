/** The command-line parser of swf2pdf: what `main`'s argument loop computes,
    stated as functions over the argument list, with the properties it keeps. */
module Args {

  /** The output path when no `-o`/`--output` option is given. */
  const DefaultOutput: string := "output.pdf"

  predicate IsOutputOption(arg: string) { arg == "-o" || arg == "--output" }

  predicate IsHelpOption(arg: string) { arg == "-h" || arg == "--help" }

  /** A token the loop treats as an option rather than as an input file. */
  predicate IsOption(arg: string) { IsOutputOption(arg) || IsHelpOption(arg) }

  /** The process-global configuration: `output_file` and the collected `input_files`. */
  datatype Config = Config(output: string, files: seq<string>)

  /** Either the loop ran to its end, or `usage()` ended the process with `EXIT_FAILURE`. */
  datatype ParseResult = Parsed(config: Config) | UsageExit

  /** The globals before the loop starts. */
  const Initial: Config := Config(DefaultOutput, [])

  /** `argv` from index `i` on; empty when `i` is past the end. */
  function Suffix(argv: seq<string>, i: nat): seq<string>
  {
    if i < |argv| then argv[i..] else []
  }

  /** The arguments the loop scans: `argv` without the program name. */
  function ProgramArgs(argv: seq<string>): seq<string>
  {
    Suffix(argv, 1)
  }

  /** Scans `args` left to right starting from configuration `c`, one loop
      iteration per step: `-o`/`--output` consumes the next argument as the
      output path, `-h`/`--help` exits, anything else is appended to the files. */
  function Scan(args: seq<string>, c: Config): (r: ParseResult)
    ensures r.Parsed? ==> c.files <= r.config.files
    ensures r.Parsed? ==> |r.config.files| <= |c.files| + |args|
    decreases |args|
  {
    if args == [] then Parsed(c)
    else if IsOutputOption(args[0]) then
      if |args| == 1 then UsageExit
      else Scan(args[2..], c.(output := args[1]))
    else if IsHelpOption(args[0]) then UsageExit
    else Scan(args[1..], c.(files := c.files + [args[0]]))
  }

  /** The configuration `main` builds from its arguments, or a usage exit. */
  function Parse(args: seq<string>): (r: ParseResult)
    ensures r.Parsed? ==> |r.config.files| <= |args|
  {
    Scan(args, Initial)
  }

  // ---------------------------------------------------------------------------
  // A reference reading of the arguments: the role each position plays.

  /** What one argument is to the parser. `DanglingOutput` is an output option
      with no argument after it. */
  datatype Role = OutputOption | OutputValue | HelpOption | InputFile | DanglingOutput

  /** The role of every argument, read from the left: the argument after an
      output option is its value, whatever it looks like. */
  function Roles(args: seq<string>): (r: seq<Role>)
    ensures |r| == |args|
    decreases |args|
  {
    if args == [] then []
    else if IsOutputOption(args[0]) then
      if |args| == 1 then [DanglingOutput] else [OutputOption, OutputValue] + Roles(args[2..])
    else if IsHelpOption(args[0]) then [HelpOption] + Roles(args[1..])
    else [InputFile] + Roles(args[1..])
  }

  /** The arguments whose role is `InputFile`, in order. */
  function Selected(args: seq<string>, roles: seq<Role>): seq<string>
    requires |args| == |roles|
  {
    if args == [] then []
    else (if roles[0] == InputFile then [args[0]] else []) + Selected(args[1..], roles[1..])
  }

  /** The last argument whose role is `OutputValue`, or `default` when none is. */
  function LastValue(args: seq<string>, roles: seq<Role>, default: string): string
    requires |args| == |roles|
  {
    if args == [] then default
    else if roles[|roles| - 1] == OutputValue then args[|args| - 1]
    else LastValue(args[..|args| - 1], roles[..|roles| - 1], default)
  }

  /** The arguments are refused: help was asked for, or an output option has no value. */
  predicate Refused(roles: seq<Role>)
  {
    HelpOption in roles || DanglingOutput in roles
  }

  // ---------------------------------------------------------------------------
  // Lemmas

  /** Peeling the first argument off `LastValue`: a value there is overridden
      by any later one. */
  lemma {:induction false} LastValueCons(a: string, args: seq<string>, r: Role, roles: seq<Role>, default: string)
    requires |args| == |roles|
    ensures LastValue([a] + args, [r] + roles, default)
         == LastValue(args, roles, if r == OutputValue then a else default)
    decreases |args|
  {
    if args != [] {
      var n := |args|;
      assert ([a] + args)[..n] == [a] + args[..n - 1];
      assert ([r] + roles)[..n] == [r] + roles[..n - 1];
      LastValueCons(a, args[..n - 1], r, roles[..n - 1], default);
    }
  }

  /** What each role says about its argument: input files are never options,
      help and output options are what they say, and a dangling output option
      can only be the last argument. */
  lemma {:induction false} RolesMeaning(args: seq<string>, k: nat)
    requires k < |args|
    ensures var r := Roles(args);
      && (r[k] == InputFile ==> !IsOption(args[k]))
      && (r[k] == HelpOption ==> IsHelpOption(args[k]))
      && (r[k] == OutputOption ==> IsOutputOption(args[k]))
      && (r[k] == DanglingOutput ==> IsOutputOption(args[k]) && k == |args| - 1)
    decreases |args|
  {
    if k > 0 {
      if IsOutputOption(args[0]) {
        if k > 1 {
          RolesMeaning(args[2..], k - 2);
          assert Roles(args)[k] == Roles(args[2..])[k - 2];
        }
      } else {
        RolesMeaning(args[1..], k - 1);
        assert Roles(args)[k] == Roles(args[1..])[k - 1];
      }
    }
  }

  /** Output options and their values come in adjacent pairs: every value is
      preceded by an output option, and every output option that is not
      dangling is followed by its value. */
  lemma {:induction false} OptionValuePairs(args: seq<string>, k: nat)
    requires 0 < k < |args|
    ensures Roles(args)[k] == OutputValue <==> Roles(args)[k - 1] == OutputOption
    decreases |args|
  {
    var r := Roles(args);
    if IsOutputOption(args[0]) {
      if k >= 2 {
        if k == 2 {
          assert r[k] == Roles(args[2..])[0] && r[k - 1] == OutputValue;
        } else {
          OptionValuePairs(args[2..], k - 2);
        }
      }
    } else {
      if k >= 2 {
        OptionValuePairs(args[1..], k - 1);
      } else {
        assert r[1] == Roles(args[1..])[0];
      }
    }
  }

  /** The value of `ScanByRoles`'s right-hand side for arguments `args` scanned from `c`. */
  function ByRoles(args: seq<string>, c: Config): ParseResult
  {
    var roles := Roles(args);
    if Refused(roles) then UsageExit
    else Parsed(Config(LastValue(args, roles, c.output), c.files + Selected(args, roles)))
  }

  /** One step of `ByRoles` over an output option and its value. */
  lemma ByRolesOutputStep(o: string, v: string, tail: seq<string>, c: Config)
    requires IsOutputOption(o)
    ensures ByRoles([o, v] + tail, c) == ByRoles(tail, c.(output := v))
  {
    var args := [o, v] + tail;
    var rest := Roles(tail);
    var roles := [OutputOption] + ([OutputValue] + rest);
    assert args[2..] == tail;
    assert Roles(args) == roles;
    assert Refused(roles) == Refused(rest);
    assert args == [o] + ([v] + tail);
    LastValueCons(v, tail, OutputValue, rest, c.output);
    LastValueCons(o, [v] + tail, OutputOption, [OutputValue] + rest, c.output);
    assert LastValue(args, roles, c.output) == LastValue(tail, rest, v);
    assert args[1..] == [v] + tail;
    assert Selected(args, roles) == Selected(tail, rest);
  }

  /** One step of `ByRoles` over an input file. */
  lemma ByRolesFileStep(args: seq<string>, c: Config)
    requires args != [] && !IsOption(args[0])
    ensures ByRoles(args, c) == ByRoles(args[1..], c.(files := c.files + [args[0]]))
  {
    var rest := Roles(args[1..]);
    assert Roles(args) == [InputFile] + rest;
    assert args == [args[0]] + args[1..];
    LastValueCons(args[0], args[1..], InputFile, rest, c.output);
    assert c.files + [args[0]] + Selected(args[1..], rest) == c.files + Selected(args, Roles(args));
  }

  /** The scan agrees with the role reading: it exits exactly when a help
      option or a dangling output option occurs; otherwise the output path is
      the last output value (or the one it started with) and the files are the
      input-file arguments, in order, after those already collected. */
  lemma {:induction false} ScanByRoles(args: seq<string>, c: Config)
    ensures Scan(args, c) == ByRoles(args, c)
    decreases |args|
  {
    if args == [] {
    } else if IsOutputOption(args[0]) {
      if |args| > 1 {
        ScanByRoles(args[2..], c.(output := args[1]));
        assert args == [args[0], args[1]] + args[2..];
        ByRolesOutputStep(args[0], args[1], args[2..], c);
      }
    } else if !IsHelpOption(args[0]) {
      ScanByRoles(args[1..], c.(files := c.files + [args[0]]));
      ByRolesFileStep(args, c);
    }
  }

  /** One iteration of the loop at index `i` of `argv`. */
  lemma ScanAt(argv: seq<string>, i: nat, c: Config)
    requires 1 <= i < |argv|
    ensures Scan(Suffix(argv, i), c)
         == if IsOutputOption(argv[i]) then
              if i + 1 >= |argv| then UsageExit
              else Scan(Suffix(argv, i + 2), c.(output := argv[i + 1]))
            else if IsHelpOption(argv[i]) then UsageExit
            else Scan(Suffix(argv, i + 1), c.(files := c.files + [argv[i]]))
  {
    var args := argv[i..];
    assert Suffix(argv, i) == args && args[0] == argv[i];
    if i + 1 < |argv| {
      assert args[1..] == Suffix(argv, i + 1) && args[1] == argv[i + 1];
      assert args[2..] == Suffix(argv, i + 2);
    } else {
      assert args[1..] == Suffix(argv, i + 1);
    }
  }

  /** Scanning a concatenation: once a prefix has been scanned without exiting,
      the rest is scanned from the configuration the prefix left. */
  lemma {:induction false} ScanConcat(a: seq<string>, b: seq<string>, c: Config)
    requires Scan(a, c).Parsed?
    ensures Scan(a + b, c) == Scan(b, Scan(a, c).config)
    decreases |a|
  {
    if a == [] {
      assert a + b == b;
    } else if IsOutputOption(a[0]) {
      assert (a + b)[2..] == a[2..] + b;
      ScanConcat(a[2..], b, c.(output := a[1]));
    } else if !IsHelpOption(a[0]) {
      assert (a + b)[1..] == a[1..] + b;
      ScanConcat(a[1..], b, c.(files := c.files + [a[0]]));
    }
  }

  /** Arguments that are not options are all appended, in order, and leave
      the output path alone. */
  lemma {:induction false} ScanPlain(args: seq<string>, c: Config)
    requires forall k :: 0 <= k < |args| ==> !IsOption(args[k])
    ensures Scan(args, c) == Parsed(c.(files := c.files + args))
    decreases |args|
  {
    if args != [] {
      ScanPlain(args[1..], c.(files := c.files + [args[0]]));
      assert c.files + [args[0]] + args[1..] == c.files + args;
    }
  }

  /** A scan that meets no output option keeps the output path it started with. */
  lemma {:induction false} ScanKeepsOutput(args: seq<string>, c: Config)
    requires forall k :: 0 <= k < |args| ==> !IsOutputOption(args[k])
    requires Scan(args, c).Parsed?
    ensures Scan(args, c).config.output == c.output
    decreases |args|
  {
    if args != [] {
      ScanKeepsOutput(args[1..], c.(files := c.files + [args[0]]));
    }
  }

  /** No option token is ever stored as an input file. */
  lemma {:induction false} ScanFilesAreNotOptions(args: seq<string>, c: Config)
    requires forall k :: 0 <= k < |c.files| ==> !IsOption(c.files[k])
    requires Scan(args, c).Parsed?
    ensures var files := Scan(args, c).config.files;
      forall k :: 0 <= k < |files| ==> !IsOption(files[k])
    decreases |args|
  {
    if args != [] {
      if IsOutputOption(args[0]) {
        ScanFilesAreNotOptions(args[2..], c.(output := args[1]));
      } else {
        ScanFilesAreNotOptions(args[1..], c.(files := c.files + [args[0]]));
      }
    }
  }

  /** Every argument that is not an option is an input file, in argument order,
      and the output path stays the default. */
  lemma PlainArgumentsAreFiles(args: seq<string>)
    requires forall k :: 0 <= k < |args| ==> !IsOption(args[k])
    ensures Parse(args) == Parsed(Config(DefaultOutput, args))
  {
    ScanPlain(args, Initial);
  }

  /** A help option reached by the scan exits, whatever follows it. */
  lemma HelpExits(pre: seq<string>, h: string, post: seq<string>)
    requires Parse(pre).Parsed? && IsHelpOption(h)
    ensures Parse(pre + [h] + post) == UsageExit
  {
    ScanConcat(pre, [h] + post, Initial);
    assert pre + [h] + post == pre + ([h] + post);
  }

  /** An output option as the last argument reached exits. */
  lemma DanglingOutputExits(pre: seq<string>, o: string)
    requires Parse(pre).Parsed? && IsOutputOption(o)
    ensures Parse(pre + [o]) == UsageExit
  {
    ScanConcat(pre, [o], Initial);
  }

  /** The argument after an output option becomes the output path verbatim,
      even when it looks like an option, and is not stored as a file. */
  lemma OutputValueVerbatim(pre: seq<string>, o: string, v: string)
    requires Parse(pre).Parsed? && IsOutputOption(o)
    ensures Parse(pre + [o, v]) == Parsed(Parse(pre).config.(output := v))
  {
    ScanConcat(pre, [o, v], Initial);
    assert [o, v][2..] == [];
  }

  /** With several output options, the last one wins. */
  lemma LastOutputWins(pre: seq<string>, o: string, v: string, post: seq<string>)
    requires Parse(pre).Parsed? && IsOutputOption(o)
    requires forall k :: 0 <= k < |post| ==> !IsOutputOption(post[k])
    requires Parse(pre + [o, v] + post).Parsed?
    ensures Parse(pre + [o, v] + post).config.output == v
  {
    OutputValueVerbatim(pre, o, v);
    ScanConcat(pre + [o, v], post, Initial);
    ScanKeepsOutput(post, Parse(pre + [o, v]).config);
  }

  /** Without any output option the output path is `output.pdf`. */
  lemma OutputDefault(args: seq<string>)
    requires forall k :: 0 <= k < |args| ==> !IsOutputOption(args[k])
    requires Parse(args).Parsed?
    ensures Parse(args).config.output == DefaultOutput
  {
    ScanKeepsOutput(args, Initial);
  }

  /** The collected files never include `-o`, `--output`, `-h` or `--help`. */
  lemma FilesAreNotOptions(args: seq<string>)
    requires Parse(args).Parsed?
    ensures var files := Parse(args).config.files;
      forall k :: 0 <= k < |files| ==> !IsOption(files[k])
  {
    ScanFilesAreNotOptions(args, Initial);
  }

  /** A usage exit has a cause: some argument, reached by a scan that had not
      exited before it, is a help option or an output option with nothing after it. */
  lemma {:induction false} UsageCause(args: seq<string>, c: Config) returns (k: nat)
    requires Scan(args, c) == UsageExit
    ensures k < |args| && Scan(args[..k], c).Parsed?
    ensures IsHelpOption(args[k]) || (IsOutputOption(args[k]) && k == |args| - 1)
    decreases |args|
  {
    if IsOutputOption(args[0]) && |args| == 1 {
      k := 0;
    } else if IsOutputOption(args[0]) {
      var j := UsageCause(args[2..], c.(output := args[1]));
      k := j + 2;
      assert args[..k][2..] == args[2..][..j];
    } else if IsHelpOption(args[0]) {
      k := 0;
    } else {
      var j := UsageCause(args[1..], c.(files := c.files + [args[0]]));
      k := j + 1;
      assert args[..k][1..] == args[1..][..j];
    }
  }
}
