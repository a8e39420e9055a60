/**
 * The command line of `fla`: argument classification, the choice of emulator by file
 * extension, and the mapping of the run's outcome to an exit code and a message.
 */
module Cli {
  import opened Errors

  /** `endsWith(str, suffix)`. */
  function EndsWith(s: string, suffix: string): bool {
    |s| >= |suffix| && s[|s| - |suffix|..] == suffix
  }

  /** `endsWith` holds exactly when the text is some prefix followed by the suffix. */
  lemma EndsWithIff(s: string, suffix: string)
    ensures EndsWith(s, suffix) <==> exists p :: s == p + suffix
  {
    if EndsWith(s, suffix) {
      assert s == s[..|s| - |suffix|] + suffix;
    }
    if exists p :: s == p + suffix {
      var p :| s == p + suffix;
      assert s[|s| - |suffix|..] == suffix;
    }
  }

  /** A file name cannot end in both `.pda` and `.tm`, so the order of the two tests is immaterial. */
  lemma ExtensionsExclusive(s: string)
    ensures !(EndsWith(s, ".pda") && EndsWith(s, ".tm"))
  {
    if EndsWith(s, ".pda") {
      assert s[|s| - 1] == s[|s| - 4..][3] == 'a';
      assert |s| >= 2 && s[|s| - 2..][1] == s[|s| - 1];
    }
  }

  predicate IsHelpFlag(a: string) {
    a == "-h" || a == "--help"
  }

  predicate IsVerboseFlag(a: string) {
    a == "-v" || a == "--verbose"
  }

  predicate IsFlag(a: string) {
    IsHelpFlag(a) || IsVerboseFlag(a)
  }

  /** The arguments that are not flags, in their order. */
  function Positionals(args: seq<string>): (ps: seq<string>)
    ensures |ps| <= |args|
    decreases |args|
  {
    if args == [] then []
    else if IsFlag(args[|args| - 1]) then Positionals(args[..|args| - 1])
    else Positionals(args[..|args| - 1]) + [args[|args| - 1]]
  }

  /** Taking the positionals of two runs of arguments one after the other. */
  lemma {:induction false} PositionalsAppend(a: seq<string>, b: seq<string>)
    ensures Positionals(a + b) == Positionals(a) + Positionals(b)
    decreases |b|
  {
    if b != [] {
      var b' := b[..|b| - 1];
      assert (a + b)[..|a + b| - 1] == a + b';
      PositionalsAppend(a, b');
    } else {
      assert a + b == a;
    }
  }

  /** Every positional is an argument that is not a flag; without flags, all arguments are positional. */
  lemma {:induction false} PositionalsAreNonFlags(args: seq<string>)
    ensures forall x :: x in Positionals(args) ==> x in args && !IsFlag(x)
    ensures (forall i :: 0 <= i < |args| ==> !IsFlag(args[i])) ==> Positionals(args) == args
    decreases |args|
  {
    if args != [] {
      var init := args[..|args| - 1];
      PositionalsAreNonFlags(init);
      assert args == init + [args[|args| - 1]];
      assert forall x :: x in init ==> x in args;
    }
  }

  /** Conversely, every argument that is not a flag is a positional. */
  lemma {:induction false} NonFlagIsPositional(args: seq<string>, i: int)
    requires 0 <= i < |args| && !IsFlag(args[i])
    ensures args[i] in Positionals(args)
    decreases |args|
  {
    if i < |args| - 1 {
      NonFlagIsPositional(args[..|args| - 1], i);
    }
  }

  /**
   * One argument is its own positional unless it is a flag. With `PositionalsAppend`
   * this fixes the positionals of any argument list, in the arguments' order.
   */
  lemma SingletonPositionals(x: string)
    ensures Positionals([x]) == if IsFlag(x) then [] else [x]
  {
    assert [x][..0] == [];
  }

  predicate HasHelp(args: seq<string>) {
    exists i :: 0 <= i < |args| && IsHelpFlag(args[i])
  }

  predicate HasVerbose(args: seq<string>) {
    exists i :: 0 <= i < |args| && IsVerboseFlag(args[i])
  }

  /** The out-parameters of `parseArguments`; the two strings stay empty when help is requested. */
  datatype Arguments = Arguments(automataFile: string, input: string, verbose: bool, showHelp: bool)

  /** `parseArguments(argc, argv, ...)` on `argv[1..]`: the flags, then the first two positionals. */
  function ParseArgs(args: seq<string>): Result<Arguments> {
    var ps := Positionals(args);
    if HasHelp(args) then Ok(Arguments("", "", HasVerbose(args), true))
    else if |ps| < 2 then Err(InvalidArgument)
    else Ok(Arguments(ps[0], ps[1], HasVerbose(args), false))
  }

  /** Positionals beyond the second are ignored. */
  lemma ExtrasIgnored(args: seq<string>, extra: seq<string>)
    requires |Positionals(args)| >= 2 && !HasHelp(args)
    requires forall i :: 0 <= i < |extra| ==> !IsFlag(extra[i])
    ensures ParseArgs(args + extra) == ParseArgs(args)
  {
    PositionalsAppend(args, extra);
    assert forall i :: 0 <= i < |args| ==> (args + extra)[i] == args[i];
    assert forall i :: |args| <= i < |args + extra| ==> (args + extra)[i] == extra[i - |args|];
  }

  /** With a help flag anywhere the arguments are accepted, however few the positionals. */
  lemma HelpAlwaysAccepted(args: seq<string>)
    requires HasHelp(args)
    ensures ParseArgs(args).Ok? && ParseArgs(args).value.showHelp
  {
  }

  /** The `for` loop of `parseArguments` over `argv[1..argc)`, then the positional check. */
  method ParseArguments(args: seq<string>) returns (r: Result<Arguments>)
    ensures r == ParseArgs(args)
  {
    var verbose, showHelp := false, false;
    var positionalArgs: seq<string> := [];
    for i := 0 to |args|
      invariant positionalArgs == Positionals(args[..i])
      invariant showHelp <==> HasHelp(args[..i])
      invariant verbose <==> HasVerbose(args[..i])
    {
      var arg := args[i];
      assert args[..i + 1] == args[..i] + [arg];
      PositionalsAppend(args[..i], [arg]);
      assert [arg][..0] == [];
      if IsHelpFlag(arg) {
        showHelp := true;
      } else if IsVerboseFlag(arg) {
        verbose := true;
      } else {
        positionalArgs := positionalArgs + [arg];
      }
    }
    assert args[..|args|] == args;
    if showHelp {
      return Ok(Arguments("", "", verbose, true));
    }
    if |positionalArgs| < 2 {
      return Err(InvalidArgument);
    }
    return Ok(Arguments(positionalArgs[0], positionalArgs[1], verbose, false));
  }

  /** Which handler a file goes to. */
  datatype Kind = PDAFile | TMFile

  /** The extension dispatch of `main`: `.pda` first, then `.tm`, anything else an invalid argument. */
  function Dispatch(file: string): Result<Kind> {
    if EndsWith(file, ".pda") then Ok(PDAFile)
    else if EndsWith(file, ".tm") then Ok(TMFile)
    else Err(InvalidArgument)
  }

  /** A `.pda` name goes to the PDA handler, a `.tm` name to the TM handler, nothing else to either. */
  lemma DispatchByExtension(file: string)
    ensures Dispatch(file) == Ok(PDAFile) <==> exists p :: file == p + ".pda"
    ensures Dispatch(file) == Ok(TMFile) <==> exists p :: file == p + ".tm"
    ensures Dispatch(file).Err? ==> Dispatch(file).error == InvalidArgument
  {
    EndsWithIff(file, ".pda");
    EndsWithIff(file, ".tm");
    ExtensionsExclusive(file);
  }

  /**
   * How `main` ends: the exit code, the first line on standard error (empty when none),
   * whether the exception's own text follows it, and whether the usage is printed.
   */
  datatype ExitReport = ExitReport(code: int, message: string, details: bool, usage: bool)

  /** The `catch` clauses of `main`, in order. */
  function Failure(e: Error, verbose: bool): ExitReport {
    match e
    case InputSyntax(_) => ExitReport(1, if verbose then "" else "illegal input", false, false)
    case AutomataSyntax => ExitReport(1, "syntax error", verbose, false)
    case AutomataStructure => ExitReport(1, "syntax error", verbose, false)
    case InvalidArgument => ExitReport(1, "Error: ", true, true)
    case RuntimeError => ExitReport(1, "Error: ", true, true)
  }

  /**
   * `main(argc, argv)` on `argv[1..]`. The handler parses the file and runs the emulator;
   * that is I/O, so its outcome is a parameter here.
   */
  function Main(args: seq<string>, handled: Outcome): ExitReport {
    match ParseArgs(args)
    case Err(e) => Failure(e, HasVerbose(args))
    case Ok(a) =>
      if a.showHelp then ExitReport(0, "", false, true)
      else
        match Dispatch(a.automataFile)
        case Err(e) => Failure(e, a.verbose)
        case Ok(_) =>
          match handled
          case Pass => ExitReport(0, "", false, false)
          case Fail(e) => Failure(e, a.verbose)
  }

  /** Every failure exits with 1. */
  lemma FailureExitsOne(e: Error, verbose: bool)
    ensures Failure(e, verbose).code == 1
  {
  }

  /** `illegal input` is printed exactly when the input is refused and verbose mode is off. */
  lemma IllegalInputOnlyQuiet(e: Error, verbose: bool)
    ensures Failure(e, verbose).message == "illegal input" <==> e.InputSyntax? && !verbose
  {
  }

  /** Both syntax and structure errors read `syntax error`; only other exceptions print the usage. */
  lemma SyntaxAndStructureAlike(e: Error, verbose: bool)
    ensures Failure(e, verbose).message == "syntax error" <==> e == AutomataSyntax || e == AutomataStructure
    ensures Failure(e, verbose).usage <==> e == InvalidArgument || e == RuntimeError
  {
  }

  /** `main` exits with 0 exactly on help, or on a dispatched file whose handler completed normally. */
  lemma MainExitCode(args: seq<string>, handled: Outcome)
    ensures Main(args, handled).code == 0 || Main(args, handled).code == 1
    ensures Main(args, handled).code == 0 <==>
      HasHelp(args) ||
      (ParseArgs(args).Ok? && Dispatch(ParseArgs(args).value.automataFile).Ok? && handled == Pass)
  {
    match ParseArgs(args)
    case Err(e) => FailureExitsOne(e, HasVerbose(args));
    case Ok(a) =>
      match Dispatch(a.automataFile)
      case Err(e) => FailureExitsOne(e, a.verbose);
      case Ok(_) =>
        match handled
        case Pass =>
        case Fail(e) => FailureExitsOne(e, a.verbose);
  }

  /** A help flag wins over everything: exit 0 with the usage, whatever the other arguments. */
  lemma HelpWins(args: seq<string>, handled: Outcome)
    requires HasHelp(args)
    ensures Main(args, handled) == ExitReport(0, "", false, true)
  {
  }

  /** Fewer than two positionals and no help flag: an invalid argument, reported with the usage. */
  lemma MissingArgumentsReported(args: seq<string>, handled: Outcome)
    requires !HasHelp(args) && |Positionals(args)| < 2
    ensures Main(args, handled) == ExitReport(1, "Error: ", true, true)
  {
  }
}
