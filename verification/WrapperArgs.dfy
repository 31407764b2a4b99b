/**
 Argument parsing and rebuilding of the argument-comment-lint wrapper
 (tools/argument-comment-lint/wrapper_common.py).

 `Parse` describes a parse by slicing: everything before the first `--` is a lint
 argument, everything after it a cargo argument, and the flags are the union of what
 each lint argument sets, given whether it is consumed as a value. The loop of the
 source is `ParseWrapperArgs`; the main result is `RebuildIsFixpoint`.
 */
module WrapperArgs {

  const SEPARATOR := "--"

  const TARGET_SELECTION_ARGS: set<string> :=
    {"--all-targets", "--lib", "--bins", "--tests", "--examples", "--benches", "--doc"}

  const TARGET_SELECTION_WITH_VALUE: set<string> := {"--bin", "--test", "--example", "--bench"}

  /** The flag whose value the next lint argument is consumed as. */
  datatype Awaited = Nothing | ManifestPath | PackageSelection | LibrarySelection

  datatype LintFlags = LintFlags(manifestPath: bool, packageSelection: bool, noDeps: bool,
                                 librarySelection: bool, fix: bool)
  {
    function Or(that: LintFlags): LintFlags {
      LintFlags(manifestPath || that.manifestPath, packageSelection || that.packageSelection,
                noDeps || that.noDeps, librarySelection || that.librarySelection, fix || that.fix)
    }
  }

  const NO_FLAGS := LintFlags(false, false, false, false, false)

  datatype ParsedWrapperArgs = ParsedWrapperArgs(
    lintArgs: seq<string>,
    cargoArgs: seq<string>,
    flags: LintFlags,
    hasCargoTargetSelection: bool)

  // ---------------------------------------------------------------- one argument

  predicate IsTargetSelection(arg: string) {
    || arg in TARGET_SELECTION_ARGS
    || arg in TARGET_SELECTION_WITH_VALUE
    || "--bin=" <= arg || "--test=" <= arg || "--example=" <= arg || "--bench=" <= arg
  }

  datatype LintArg = TakesValue(awaited: Awaited) | Sets(flags: LintFlags)

  /** The if-chain of the source for an argument that is not consumed as a value. */
  function Classify(arg: string): LintArg {
    if arg == "--manifest-path" then TakesValue(ManifestPath)
    else if "--manifest-path=" <= arg then Sets(NO_FLAGS.(manifestPath := true))
    else if arg == "-p" || arg == "--package" then TakesValue(PackageSelection)
    else if "--package=" <= arg then Sets(NO_FLAGS.(packageSelection := true))
    else if arg == "--fix" then Sets(NO_FLAGS.(fix := true))
    else if arg == "--workspace" then Sets(NO_FLAGS.(packageSelection := true))
    else if arg == "--no-deps" then Sets(NO_FLAGS.(noDeps := true))
    else if arg == "--lib" || arg == "--lib-path" then TakesValue(LibrarySelection)
    else if "--lib=" <= arg || "--lib-path=" <= arg then Sets(NO_FLAGS.(librarySelection := true))
    else Sets(NO_FLAGS)
  }

  /** What one lint argument sets: a consumed value sets what its flag announced, whatever it looks like. */
  function FlagsOf(awaited: Awaited, arg: string): LintFlags {
    match awaited
    case ManifestPath => NO_FLAGS.(manifestPath := true)
    case PackageSelection => NO_FLAGS.(packageSelection := true)
    case LibrarySelection => NO_FLAGS.(librarySelection := true)
    case Nothing => if Classify(arg).Sets? then Classify(arg).flags else NO_FLAGS
  }

  function NextAwaited(awaited: Awaited, arg: string): Awaited {
    if awaited == Nothing && Classify(arg).TakesValue? then Classify(arg).awaited else Nothing
  }

  // ---------------------------------------------------------------- whole argument lists

  function Scan(awaited: Awaited, args: seq<string>): LintFlags
    decreases args
  {
    if args == [] then NO_FLAGS
    else FlagsOf(awaited, args[0]).Or(Scan(NextAwaited(awaited, args[0]), args[1..]))
  }

  function AwaitedAfter(awaited: Awaited, args: seq<string>): Awaited
    decreases args
  {
    if args == [] then awaited else AwaitedAfter(NextAwaited(awaited, args[0]), args[1..])
  }

  predicate SelectsTarget(args: seq<string>) {
    exists i :: 0 <= i < |args| && IsTargetSelection(args[i])
  }

  /** The index of the first separator, or the length when there is none. */
  function SeparatorIndex(argv: seq<string>): (k: nat)
    ensures k <= |argv| && SEPARATOR !in argv[..k]
    ensures k < |argv| ==> argv[k] == SEPARATOR
  {
    if argv == [] || argv[0] == SEPARATOR then 0 else 1 + SeparatorIndex(argv[1..])
  }

  function Parse(argv: seq<string>): ParsedWrapperArgs {
    var k := SeparatorIndex(argv);
    var cargoArgs := if k < |argv| then argv[k + 1..] else [];
    ParsedWrapperArgs(argv[..k], cargoArgs, Scan(Nothing, argv[..k]), SelectsTarget(cargoArgs))
  }

  function AddedPrefix(flags: LintFlags, manifestPath: string): seq<string> {
    (if flags.manifestPath then [] else ["--manifest-path", manifestPath])
    + (if flags.packageSelection || flags.manifestPath then [] else ["--workspace"])
    + (if flags.noDeps then [] else ["--no-deps"])
  }

  function FinalCargoArgs(parsed: ParsedWrapperArgs): seq<string> {
    parsed.cargoArgs
    + (if parsed.flags.fix || parsed.hasCargoTargetSelection then [] else ["--all-targets"])
  }

  function Build(parsed: ParsedWrapperArgs, manifestPath: string): seq<string> {
    var cargoArgs := FinalCargoArgs(parsed);
    AddedPrefix(parsed.flags, manifestPath) + parsed.lintArgs
    + (if cargoArgs == [] then [] else [SEPARATOR] + cargoArgs)
  }

  // ---------------------------------------------------------------- the loops of the source

  /** The part of the loop body that classifies one lint argument. */
  method NoteLintArg(flags: LintFlags, awaited: Awaited, arg: string)
    returns (newFlags: LintFlags, newAwaited: Awaited)
    ensures newFlags == flags.Or(FlagsOf(awaited, arg))
    ensures newAwaited == NextAwaited(awaited, arg)
  {
    newFlags, newAwaited := flags, Nothing;
    if awaited != Nothing {
      match awaited {
        case ManifestPath => newFlags := newFlags.(manifestPath := true);
        case PackageSelection => newFlags := newFlags.(packageSelection := true);
        case _ => newFlags := newFlags.(librarySelection := true);
      }
      return;
    }
    match Classify(arg) {
      case TakesValue(flag) => newAwaited := flag;
      case Sets(set1) => newFlags := newFlags.Or(set1);
    }
  }

  /** What the loop has gathered from the first `i` arguments while they are lint arguments. */
  predicate InLint(argv: seq<string>, i: nat, lintArgs: seq<string>, flags: LintFlags, awaited: Awaited) {
    && i <= SeparatorIndex(argv) && lintArgs == argv[..i]
    && flags == Scan(Nothing, lintArgs) && awaited == AwaitedAfter(Nothing, lintArgs)
  }

  /** What it has gathered once the separator is behind it. */
  predicate InCargo(argv: seq<string>, i: nat, lintArgs: seq<string>, flags: LintFlags, cargoArgs: seq<string>, hasTarget: bool) {
    var k := SeparatorIndex(argv);
    && k < i <= |argv| && lintArgs == argv[..k] && flags == Scan(Nothing, lintArgs)
    && cargoArgs == argv[k + 1..i] && (hasTarget <==> SelectsTarget(cargoArgs))
  }

  lemma LintStep(argv: seq<string>, i: nat, lintArgs: seq<string>, flags: LintFlags, awaited: Awaited)
    requires i < |argv| && InLint(argv, i, lintArgs, flags, awaited) && argv[i] != SEPARATOR
    ensures InLint(argv, i + 1, lintArgs + [argv[i]], flags.Or(FlagsOf(awaited, argv[i])), NextAwaited(awaited, argv[i]))
  {
    SeparatorIsFirst(argv, i);
    ScanSnoc(lintArgs, argv[i]);
    assert argv[..i + 1] == argv[..i] + [argv[i]];
  }

  lemma SeparatorStep(argv: seq<string>, i: nat, lintArgs: seq<string>, flags: LintFlags, awaited: Awaited)
    requires i < |argv| && InLint(argv, i, lintArgs, flags, awaited) && argv[i] == SEPARATOR
    ensures InCargo(argv, i + 1, lintArgs, flags, [], false)
  {
    SeparatorIsFirst(argv, i);
    assert argv[i + 1..i + 1] == [];
  }

  lemma CargoStep(argv: seq<string>, i: nat, lintArgs: seq<string>, flags: LintFlags, cargoArgs: seq<string>, hasTarget: bool)
    requires i < |argv| && InCargo(argv, i, lintArgs, flags, cargoArgs, hasTarget)
    ensures InCargo(argv, i + 1, lintArgs, flags, cargoArgs + [argv[i]], hasTarget || IsTargetSelection(argv[i]))
  {
    var k := SeparatorIndex(argv);
    SelectsTargetAppend(cargoArgs, argv[i]);
    assert argv[k + 1..i + 1] == argv[k + 1..i] + [argv[i]];
  }

  lemma AllScanned(argv: seq<string>, lintArgs: seq<string>, flags: LintFlags, awaited: Awaited, cargoArgs: seq<string>, hasTarget: bool)
    ensures InLint(argv, |argv|, lintArgs, flags, awaited) ==> ParsedWrapperArgs(lintArgs, [], flags, false) == Parse(argv)
    ensures InCargo(argv, |argv|, lintArgs, flags, cargoArgs, hasTarget) ==>
      ParsedWrapperArgs(lintArgs, cargoArgs, flags, hasTarget) == Parse(argv)
  {
    var k := SeparatorIndex(argv);
    if k < |argv| {
      assert argv[k + 1..|argv|] == argv[k + 1..];
    }
  }

  /** The single pass of the source computes `Parse`. */
  method ParseWrapperArgs(argv: seq<string>) returns (parsed: ParsedWrapperArgs)
    ensures parsed == Parse(argv)
  {
    var lintArgs, cargoArgs: seq<string>, flags, hasTarget := [], [], NO_FLAGS, false;
    var afterSeparator, awaited := false, Nothing;
    for i := 0 to |argv|
      invariant !afterSeparator ==> InLint(argv, i, lintArgs, flags, awaited) && cargoArgs == [] && !hasTarget
      invariant afterSeparator ==> InCargo(argv, i, lintArgs, flags, cargoArgs, hasTarget)
    {
      var arg := argv[i];
      if afterSeparator {
        CargoStep(argv, i, lintArgs, flags, cargoArgs, hasTarget);
        cargoArgs := cargoArgs + [arg];
        if IsTargetSelection(arg) {
          hasTarget := true;
        }
      } else if arg == SEPARATOR {
        SeparatorStep(argv, i, lintArgs, flags, awaited);
        afterSeparator := true;
      } else {
        LintStep(argv, i, lintArgs, flags, awaited);
        lintArgs := lintArgs + [arg];
        flags, awaited := NoteLintArg(flags, awaited, arg);
      }
    }
    AllScanned(argv, lintArgs, flags, awaited, cargoArgs, hasTarget);
    parsed := ParsedWrapperArgs(lintArgs, cargoArgs, flags, hasTarget);
  }

  method BuildFinalArgs(parsed: ParsedWrapperArgs, manifestPath: string) returns (finalArgs: seq<string>)
    ensures finalArgs == Build(parsed, manifestPath)
  {
    finalArgs := [];
    var cargoArgs := parsed.cargoArgs;
    if !parsed.flags.manifestPath {
      finalArgs := finalArgs + ["--manifest-path", manifestPath];
    }
    if !parsed.flags.packageSelection && !parsed.flags.manifestPath {
      finalArgs := finalArgs + ["--workspace"];
    }
    if !parsed.flags.noDeps {
      finalArgs := finalArgs + ["--no-deps"];
    }
    if !parsed.flags.fix && !parsed.hasCargoTargetSelection {
      cargoArgs := cargoArgs + ["--all-targets"];
    }
    finalArgs := finalArgs + parsed.lintArgs;
    if cargoArgs != [] {
      finalArgs := finalArgs + ([SEPARATOR] + cargoArgs);
    }
  }

  // ---------------------------------------------------------------- scanning lemmas

  lemma {:induction false} ScanAppend(awaited: Awaited, xs: seq<string>, ys: seq<string>)
    ensures Scan(awaited, xs + ys) == Scan(awaited, xs).Or(Scan(AwaitedAfter(awaited, xs), ys))
    ensures AwaitedAfter(awaited, xs + ys) == AwaitedAfter(AwaitedAfter(awaited, xs), ys)
    decreases xs
  {
    if xs == [] {
      assert xs + ys == ys;
    } else {
      assert (xs + ys)[1..] == xs[1..] + ys;
      ScanAppend(NextAwaited(awaited, xs[0]), xs[1..], ys);
    }
  }

  lemma ScanSnoc(args: seq<string>, arg: string)
    ensures Scan(Nothing, args + [arg]) == Scan(Nothing, args).Or(FlagsOf(AwaitedAfter(Nothing, args), arg))
    ensures AwaitedAfter(Nothing, args + [arg]) == NextAwaited(AwaitedAfter(Nothing, args), arg)
  {
    ScanAppend(Nothing, args, [arg]);
    var awaited := AwaitedAfter(Nothing, args);
    assert [arg][1..] == [];
    assert Scan(NextAwaited(awaited, arg), []) == NO_FLAGS;
    assert AwaitedAfter(NextAwaited(awaited, arg), []) == NextAwaited(awaited, arg);
  }

  lemma SelectsTargetAppend(args: seq<string>, arg: string)
    ensures SelectsTarget(args + [arg]) <==> SelectsTarget(args) || IsTargetSelection(arg)
  {
    if SelectsTarget(args) {
      var i :| 0 <= i < |args| && IsTargetSelection(args[i]);
      assert (args + [arg])[i] == args[i];
    }
    assert (args + [arg])[|args|] == arg;
  }

  lemma SeparatorIsFirst(argv: seq<string>, i: nat)
    requires i <= SeparatorIndex(argv) && i < |argv|
    ensures i == SeparatorIndex(argv) <==> argv[i] == SEPARATOR
  {
    var k := SeparatorIndex(argv);
    if i < k {
      assert argv[i] == argv[..k][i];
    }
  }

  lemma {:induction false} SeparatorIndexUnique(argv: seq<string>, k: nat)
    requires k <= |argv| && SEPARATOR !in argv[..k]
    requires k < |argv| ==> argv[k] == SEPARATOR
    ensures SeparatorIndex(argv) == k
  {
    if k != 0 {
      assert argv[0] == argv[..k][0];
      assert argv[1..][..k - 1] == argv[..k][1..];
      SeparatorIndexUnique(argv[1..], k - 1);
    }
  }

  // ---------------------------------------------------------------- rebuilding

  lemma PrefixHasNoSeparator(flags: LintFlags, manifestPath: string)
    requires manifestPath != SEPARATOR || flags.manifestPath
    ensures SEPARATOR !in AddedPrefix(flags, manifestPath)
  {
  }

  /** The first separator of the rebuilt list is the one put in front of the cargo arguments. */
  lemma BuiltSeparator(argv: seq<string>, manifestPath: string)
    requires manifestPath != SEPARATOR || Parse(argv).flags.manifestPath
    ensures
      var parsed := Parse(argv);
      SeparatorIndex(Build(parsed, manifestPath)) == |AddedPrefix(parsed.flags, manifestPath) + parsed.lintArgs|
  {
    var parsed := Parse(argv);
    var lint := AddedPrefix(parsed.flags, manifestPath) + parsed.lintArgs;
    var built := Build(parsed, manifestPath);
    PrefixHasNoSeparator(parsed.flags, manifestPath);
    assert built[..|lint|] == lint;
    SeparatorIndexUnique(built, |lint|);
  }

  /** What the rebuilt list parses back to. */
  lemma ParseOfBuild(argv: seq<string>, manifestPath: string)
    requires manifestPath != SEPARATOR || Parse(argv).flags.manifestPath
    ensures
      var parsed := Parse(argv);
      var reparsed := Parse(Build(parsed, manifestPath));
      && reparsed.lintArgs == AddedPrefix(parsed.flags, manifestPath) + parsed.lintArgs
      && reparsed.cargoArgs == FinalCargoArgs(parsed)
      && reparsed.flags == Scan(Nothing, AddedPrefix(parsed.flags, manifestPath)).Or(parsed.flags)
  {
    var parsed := Parse(argv);
    var prefix := AddedPrefix(parsed.flags, manifestPath);
    var built := Build(parsed, manifestPath);
    BuiltSeparator(argv, manifestPath);
    assert built[..|prefix + parsed.lintArgs|] == prefix + parsed.lintArgs;
    PrefixFlags(parsed.flags, manifestPath);
    ScanAppend(Nothing, prefix, parsed.lintArgs);
  }

  /** The added prefix leaves no flag waiting for a value and sets exactly what was missing. */
  lemma PrefixFlags(flags: LintFlags, manifestPath: string)
    ensures
      var prefix := AddedPrefix(flags, manifestPath);
      && AwaitedAfter(Nothing, prefix) == Nothing
      && Scan(Nothing, prefix) == LintFlags(!flags.manifestPath, !flags.packageSelection && !flags.manifestPath,
                                            !flags.noDeps, false, false)
  {
    var manifest := if flags.manifestPath then [] else ["--manifest-path", manifestPath];
    var workspace := if flags.packageSelection || flags.manifestPath then [] else ["--workspace"];
    var noDeps := if flags.noDeps then [] else ["--no-deps"];
    if !flags.manifestPath {
      assert manifest[1..] == [manifestPath];
      assert Scan(ManifestPath, [manifestPath]) == NO_FLAGS.(manifestPath := true);
      assert AwaitedAfter(ManifestPath, [manifestPath]) == Nothing;
    }
    assert Scan(Nothing, noDeps) == NO_FLAGS.(noDeps := !flags.noDeps);
    ScanAppend(Nothing, manifest, workspace);
    ScanAppend(Nothing, manifest + workspace, noDeps);
  }

  /** What the wrapper promises of every rebuilt list: it names a manifest, skips dependencies, and
      selects targets unless the user asked for fixes; the user's own arguments survive in order. */
  lemma BuildIsComplete(argv: seq<string>, manifestPath: string)
    requires manifestPath != SEPARATOR || Parse(argv).flags.manifestPath
    ensures
      var parsed := Parse(argv);
      var reparsed := Parse(Build(parsed, manifestPath));
      && reparsed.flags.manifestPath && reparsed.flags.noDeps
      && (reparsed.flags.packageSelection || parsed.flags.manifestPath)
      && reparsed.flags.fix == parsed.flags.fix
      && (reparsed.flags.fix || reparsed.hasCargoTargetSelection)
      && |parsed.lintArgs| <= |reparsed.lintArgs|
      && reparsed.lintArgs[|reparsed.lintArgs| - |parsed.lintArgs|..] == parsed.lintArgs
      && parsed.cargoArgs <= reparsed.cargoArgs
  {
    var parsed := Parse(argv);
    ParseOfBuild(argv, manifestPath);
    PrefixFlags(parsed.flags, manifestPath);
    SelectsTargetAppend(parsed.cargoArgs, "--all-targets");
    assert FinalCargoArgs(parsed) == parsed.cargoArgs || FinalCargoArgs(parsed) == parsed.cargoArgs + ["--all-targets"];
  }

  /** Rebuilding is a fixpoint exactly when the inserted manifest path cannot be read as the separator. */
  lemma RebuildIsFixpoint(argv: seq<string>, manifestPath: string)
    ensures
      var built := Build(Parse(argv), manifestPath);
      Build(Parse(built), manifestPath) == built
      <==> manifestPath != SEPARATOR || Parse(argv).flags.manifestPath
  {
    if manifestPath != SEPARATOR || Parse(argv).flags.manifestPath {
      RebuildTwice(argv, manifestPath);
    } else {
      RebuildGrows(argv);
    }
  }

  lemma RebuildTwice(argv: seq<string>, manifestPath: string)
    requires manifestPath != SEPARATOR || Parse(argv).flags.manifestPath
    ensures
      var built := Build(Parse(argv), manifestPath);
      Build(Parse(built), manifestPath) == built
  {
    ParseOfBuild(argv, manifestPath);
    BuildIsComplete(argv, manifestPath);
    BuildOfComplete(Parse(Build(Parse(argv), manifestPath)), manifestPath);
  }

  lemma BuildOfComplete(parsed: ParsedWrapperArgs, manifestPath: string)
    requires parsed.flags.manifestPath && parsed.flags.noDeps
    requires parsed.flags.fix || parsed.hasCargoTargetSelection
    ensures Build(parsed, manifestPath)
         == parsed.lintArgs + (if parsed.cargoArgs == [] then [] else [SEPARATOR] + parsed.cargoArgs)
  {
    assert AddedPrefix(parsed.flags, manifestPath) == [];
    assert FinalCargoArgs(parsed) == parsed.cargoArgs;
    assert [] + parsed.lintArgs == parsed.lintArgs;
  }

  lemma RebuildGrows(argv: seq<string>)
    requires !Parse(argv).flags.manifestPath
    ensures
      var built := Build(Parse(argv), SEPARATOR);
      |Build(Parse(built), SEPARATOR)| >= |built| + 4
  {
    var built := Build(Parse(argv), SEPARATOR);
    assert built[..1] == ["--manifest-path"];
    assert built[1] == SEPARATOR;
    SeparatorIndexUnique(built, 1);
    var reparsed := Parse(built);
    ScanSnoc([], "--manifest-path");
    assert [] + ["--manifest-path"] == ["--manifest-path"];
    assert reparsed.flags == NO_FLAGS;
    assert |AddedPrefix(NO_FLAGS, SEPARATOR)| == 4;
  }

  // ---------------------------------------------------------------- what the user passed

  /** The arguments that announce a value in the next one. */
  predicate Announces(arg: string) {
    arg == "--manifest-path" || arg == "-p" || arg == "--package" || arg == "--lib" || arg == "--lib-path"
  }

  /** The argument at `i` is the value of the one before it. */
  predicate IsValue(args: seq<string>, i: nat)
    requires i < |args|
  {
    i > 0 && Announces(args[i - 1]) && !IsValue(args, i - 1)
  }

  /** The user passed `flag` itself. */
  predicate Given(args: seq<string>, flag: string) {
    exists i :: 0 <= i < |args| && !IsValue(args, i) && args[i] == flag
  }

  /** The user passed `flag` with its value in the next argument. */
  predicate GivenApart(args: seq<string>, flag: string) {
    exists i :: 0 <= i < |args| - 1 && !IsValue(args, i) && args[i] == flag
  }

  /** The user passed `flag` with its value in the same argument. */
  predicate GivenTogether(args: seq<string>, flag: string) {
    exists i :: 0 <= i < |args| && !IsValue(args, i) && flag <= args[i]
  }

  predicate NamesManifest(args: seq<string>) {
    GivenApart(args, "--manifest-path") || GivenTogether(args, "--manifest-path=")
  }

  predicate NamesPackages(args: seq<string>) {
    || GivenApart(args, "-p") || GivenApart(args, "--package") || GivenTogether(args, "--package=")
    || Given(args, "--workspace")
  }

  predicate NamesLibrary(args: seq<string>) {
    || GivenApart(args, "--lib") || GivenApart(args, "--lib-path")
    || GivenTogether(args, "--lib=") || GivenTogether(args, "--lib-path=")
  }

  lemma {:induction false} ValueSnoc(args: seq<string>, arg: string, i: nat)
    requires i < |args|
    ensures IsValue(args + [arg], i) == IsValue(args, i)
  {
    if i > 0 {
      ValueSnoc(args, arg, i - 1);
    }
  }

  lemma GivenSnoc(args: seq<string>, arg: string, flag: string)
    ensures Given(args + [arg], flag) <==> Given(args, flag) || (!IsValue(args + [arg], |args|) && arg == flag)
  {
    var all := args + [arg];
    forall i | 0 <= i < |args|
      ensures IsValue(all, i) == IsValue(args, i) && all[i] == args[i]
    {
      ValueSnoc(args, arg, i);
    }
    assert all[|args|] == arg;
    if Given(args, flag) {
      var i :| 0 <= i < |args| && !IsValue(args, i) && args[i] == flag;
      assert !IsValue(all, i) && all[i] == flag;
    }
  }

  lemma GivenTogetherSnoc(args: seq<string>, arg: string, flag: string)
    ensures GivenTogether(args + [arg], flag) <==> GivenTogether(args, flag) || (!IsValue(args + [arg], |args|) && flag <= arg)
  {
    var all := args + [arg];
    forall i | 0 <= i < |args|
      ensures IsValue(all, i) == IsValue(args, i) && all[i] == args[i]
    {
      ValueSnoc(args, arg, i);
    }
    assert all[|args|] == arg;
    if GivenTogether(args, flag) {
      var i :| 0 <= i < |args| && !IsValue(args, i) && flag <= args[i];
      assert !IsValue(all, i) && flag <= all[i];
    }
  }

  lemma GivenApartSnoc(args: seq<string>, arg: string, flag: string)
    ensures
      GivenApart(args + [arg], flag) <==>
      GivenApart(args, flag) || (args != [] && !IsValue(args, |args| - 1) && args[|args| - 1] == flag)
  {
    var all := args + [arg];
    forall i | 0 <= i < |args|
      ensures IsValue(all, i) == IsValue(args, i) && all[i] == args[i]
    {
      ValueSnoc(args, arg, i);
    }
    if GivenApart(args, flag) {
      var i :| 0 <= i < |args| - 1 && !IsValue(args, i) && args[i] == flag;
      assert !IsValue(all, i) && all[i] == flag;
    }
    if args != [] && !IsValue(args, |args| - 1) && args[|args| - 1] == flag {
      assert !IsValue(all, |args| - 1) && all[|args| - 1] == flag;
    }
  }

  /** What the last argument announces. */
  function Announced(args: seq<string>): Awaited {
    if args == [] || IsValue(args, |args| - 1) then Nothing
    else
      var last := args[|args| - 1];
      if last == "--manifest-path" then ManifestPath
      else if last == "-p" || last == "--package" then PackageSelection
      else if last == "--lib" || last == "--lib-path" then LibrarySelection
      else Nothing
  }

  /** The flags, as the user's arguments say. */
  function FlagsGiven(args: seq<string>): LintFlags {
    LintFlags(NamesManifest(args), NamesPackages(args), Given(args, "--no-deps"), NamesLibrary(args), Given(args, "--fix"))
  }

  /** The scan reads the user's arguments: a value sets what was announced, whatever it looks like, and a flag
      without its value sets nothing. */
  lemma {:induction false} FlagsAreGiven(args: seq<string>)
    ensures Scan(Nothing, args) == FlagsGiven(args) && AwaitedAfter(Nothing, args) == Announced(args)
  {
    if args != [] {
      var n := |args| - 1;
      assert args == args[..n] + [args[n]];
      FlagsAreGiven(args[..n]);
      ScanSnoc(args[..n], args[n]);
      GivenStep(args[..n], args[n]);
    }
  }

  lemma GivenStep(args: seq<string>, arg: string)
    ensures FlagsGiven(args + [arg]) == FlagsGiven(args).Or(FlagsOf(Announced(args), arg))
    ensures Announced(args + [arg]) == NextAwaited(Announced(args), arg)
  {
    LastIsValue(args, arg);
    ManifestStep(args, arg);
    PackagesStep(args, arg);
    LibraryStep(args, arg);
    GivenSnoc(args, arg, "--no-deps");
    GivenSnoc(args, arg, "--fix");
    FlagsByName(arg);
  }

  lemma LastIsValue(args: seq<string>, arg: string)
    ensures IsValue(args + [arg], |args|) <==> Announced(args) != Nothing
  {
    var all := args + [arg];
    if args != [] {
      ValueSnoc(args, arg, |args| - 1);
      assert all[|args| - 1] == args[|args| - 1];
    }
  }

  lemma ManifestStep(args: seq<string>, arg: string)
    ensures
      NamesManifest(args + [arg]) <==>
      NamesManifest(args) || Announced(args) == ManifestPath || (Announced(args) == Nothing && "--manifest-path=" <= arg)
  {
    LastIsValue(args, arg);
    GivenApartSnoc(args, arg, "--manifest-path");
    GivenTogetherSnoc(args, arg, "--manifest-path=");
  }

  lemma PackagesStep(args: seq<string>, arg: string)
    ensures
      NamesPackages(args + [arg]) <==>
      || NamesPackages(args) || Announced(args) == PackageSelection
      || (Announced(args) == Nothing && ("--package=" <= arg || arg == "--workspace"))
  {
    LastIsValue(args, arg);
    GivenApartSnoc(args, arg, "-p");
    GivenApartSnoc(args, arg, "--package");
    GivenTogetherSnoc(args, arg, "--package=");
    GivenSnoc(args, arg, "--workspace");
  }

  lemma LibraryStep(args: seq<string>, arg: string)
    ensures
      NamesLibrary(args + [arg]) <==>
      || NamesLibrary(args) || Announced(args) == LibrarySelection
      || (Announced(args) == Nothing && ("--lib=" <= arg || "--lib-path=" <= arg))
  {
    LastIsValue(args, arg);
    GivenApartSnoc(args, arg, "--lib");
    GivenApartSnoc(args, arg, "--lib-path");
    GivenTogetherSnoc(args, arg, "--lib=");
    GivenTogetherSnoc(args, arg, "--lib-path=");
  }

  /** What one argument sets and announces, flag by flag. */
  lemma FlagsByName(arg: string)
    ensures
      var flags := FlagsOf(Nothing, arg);
      && (flags.manifestPath <==> "--manifest-path=" <= arg)
      && (flags.packageSelection <==> "--package=" <= arg || arg == "--workspace")
      && (flags.noDeps <==> arg == "--no-deps")
      && (flags.librarySelection <==> "--lib=" <= arg || "--lib-path=" <= arg)
      && (flags.fix <==> arg == "--fix")
    ensures
      NextAwaited(Nothing, arg) ==
      if arg == "--manifest-path" then ManifestPath
      else if arg == "-p" || arg == "--package" then PackageSelection
      else if arg == "--lib" || arg == "--lib-path" then LibrarySelection
      else Nothing
  {
    OneFlagAtMost(arg);
  }

  /** The flags that carry their value differ in the character where they first differ. */
  lemma OneFlagAtMost(arg: string)
    ensures "--manifest-path=" <= arg ==> arg[2] == 'm'
    ensures "--package=" <= arg ==> arg[2] == 'p'
    ensures "--lib=" <= arg ==> arg[2] == 'l' && arg[5] == '='
    ensures "--lib-path=" <= arg ==> arg[2] == 'l' && arg[5] == '-' && arg[10] == '='
  {
  }

  /** The user selects cargo targets. */
  predicate NamesTargets(args: seq<string>) {
    exists i :: 0 <= i < |args| &&
      (|| args[i] == "--all-targets" || args[i] == "--lib" || args[i] == "--bins" || args[i] == "--tests" || args[i] == "--examples"
       || args[i] == "--benches" || args[i] == "--doc"
       || args[i] == "--bin" || args[i] == "--test" || args[i] == "--example" || args[i] == "--bench"
       || "--bin=" <= args[i] || "--test=" <= args[i] || "--example=" <= args[i] || "--bench=" <= args[i])
  }

  /** The rebuilt list, for what the user passed before and after the separator: a manifest path unless one
      was named, the workspace unless packages or a manifest were, `--no-deps` unless given, then the user's
      own lint arguments; and the user's cargo arguments, with all targets unless fixing or targets were
      asked for. */
  lemma RebuiltList(argv: seq<string>, lint: seq<string>, cargo: seq<string>, manifestPath: string)
    requires SEPARATOR !in lint && (argv == lint + [SEPARATOR] + cargo || (argv == lint && cargo == []))
    ensures
      var allTargets := if Given(lint, "--fix") || NamesTargets(cargo) then [] else ["--all-targets"];
      Build(Parse(argv), manifestPath) ==
      (if NamesManifest(lint) then [] else ["--manifest-path", manifestPath])
      + (if NamesPackages(lint) || NamesManifest(lint) then [] else ["--workspace"])
      + (if Given(lint, "--no-deps") then [] else ["--no-deps"])
      + lint
      + (if cargo + allTargets == [] then [] else ["--"] + cargo + allTargets)
  {
    Halves(argv, lint, cargo);
    FlagsAreGiven(lint);
    TargetsAreNamed(cargo);
    var parsed := Parse(argv);
    var allTargets := if Given(lint, "--fix") || NamesTargets(cargo) then [] else ["--all-targets"];
    assert FinalCargoArgs(parsed) == cargo + allTargets;
    assert ["--"] + cargo + allTargets == ["--"] + (cargo + allTargets);
  }

  lemma Halves(argv: seq<string>, lint: seq<string>, cargo: seq<string>)
    requires SEPARATOR !in lint && (argv == lint + [SEPARATOR] + cargo || (argv == lint && cargo == []))
    ensures Parse(argv).lintArgs == lint && Parse(argv).cargoArgs == cargo
  {
    assert argv[..|lint|] == lint;
    SeparatorIndexUnique(argv, |lint|);
    if argv != lint {
      assert argv[|lint| + 1..] == cargo;
    }
  }

  lemma TargetsAreNamed(args: seq<string>)
    ensures SelectsTarget(args) <==> NamesTargets(args)
  {
    forall i | 0 <= i < |args|
      ensures IsTargetSelection(args[i]) <==>
        || args[i] == "--all-targets" || args[i] == "--lib" || args[i] == "--bins" || args[i] == "--tests" || args[i] == "--examples"
        || args[i] == "--benches" || args[i] == "--doc"
        || args[i] == "--bin" || args[i] == "--test" || args[i] == "--example" || args[i] == "--bench"
        || "--bin=" <= args[i] || "--test=" <= args[i] || "--example=" <= args[i] || "--bench=" <= args[i]
    {
    }
  }
}
