/** The command line (src/packaged/cli.py): choose between the configuration
    file and the positional arguments, run `create_package`, and turn its
    exceptions into exit codes. The platform, the filesystem the configuration
    is looked for in, the decoded configuration table and the outcome of the
    pipeline are inputs. */
module Cli {
  import opened Wrappers
  import opened Paths
  import opened Environment
  import opened Configuration
  import Packaged

  const PythonVersionOption := "--python-version"

  /** What argparse leaves in `args`. */
  datatype Args = Args(
    outputPath: string,
    buildCommand: string,
    startupCommand: string,
    sourceDirectory: Option<string>,
    pythonVersion: string)

  /** argparse stops the program: `-h` prints help and exits with 0, a usage
      error exits with 2. */
  datatype ArgsExit = HelpRequested | UsageError

  /** argparse reads a token as an option when it starts with `-`, is longer
      than `-` alone and holds no space. */
  predicate LooksLikeOption(token: string) {
    |token| >= 2 && token[0] == '-' && ' ' !in token
  }

  /** `--python-version=V` */
  predicate IsVersionAssignment(token: string) {
    |token| > |PythonVersionOption| && token[..|PythonVersionOption| + 1] == PythonVersionOption + "="
  }

  /** A token argparse takes as a positional argument. */
  predicate Positional(token: string) {
    !LooksLikeOption(token) && !IsVersionAssignment(token)
  }

  /** The tokens of `argv` that are not options or option values, in order,
      and the last `--python-version` value; `unknown` records an option the
      parser does not have. */
  datatype Scanned = Scanned(positionals: seq<string>, pythonVersion: string, unknown: bool)

  /** One left-to-right pass over the tokens. Help is acted on when it is
      reached; a missing option value fails at once; unknown options are
      reported once the pass is over. */
  function Scan(argv: seq<string>, acc: Scanned): (r: Result<Scanned, ArgsExit>)
    ensures r.Success? ==> acc.positionals <= r.value.positionals && (acc.unknown ==> r.value.unknown)
    ensures r.Success? ==> forall i :: 0 <= i < |r.value.positionals| ==>
              r.value.positionals[i] in acc.positionals || r.value.positionals[i] in argv
    decreases |argv|
  {
    if argv == [] then Success(acc)
    else
      var token := argv[0];
      if token == "-h" || token == "--help" then Failure(HelpRequested)
      else if token == PythonVersionOption then
        if |argv| < 2 || LooksLikeOption(argv[1]) then Failure(UsageError)
        else Scan(argv[2..], acc.(pythonVersion := argv[1]))
      else if IsVersionAssignment(token) then
        Scan(argv[1..], acc.(pythonVersion := token[|PythonVersionOption| + 1..]))
      else if LooksLikeOption(token) then
        Scan(argv[1..], acc.(unknown := true))
      else
        Scan(argv[1..], acc.(positionals := acc.positionals + [token]))
  }

  /** Nothing seen yet: no positionals, the default version, no unknown option. */
  const InitialScan := Scanned([], Packaged.DefaultPythonVersion, false)

  /** `parser.parse_args(argv)` for the parser of cli.py:51-72: three required
      positionals, an optional fourth one made absolute, and
      `--python-version` defaulting to "3.12". */
  function ParseArgs(cwd: Path, argv: seq<string>): (r: Result<Args, ArgsExit>)
    ensures r.Success? ==> forall i :: 0 <= i < |argv| ==> argv[i] != "-h" && argv[i] != "--help"
    ensures r.Success? <==>
              Scan(argv, InitialScan).Success? && !Scan(argv, InitialScan).value.unknown &&
              3 <= |Scan(argv, InitialScan).value.positionals| <= 4
    ensures r.Success? ==>
              var s := Scan(argv, InitialScan).value;
              r.value.outputPath == s.positionals[0] && r.value.buildCommand == s.positionals[1] &&
              r.value.startupCommand == s.positionals[2] && r.value.pythonVersion == s.pythonVersion &&
              (r.value.sourceDirectory.Some? <==> |s.positionals| == 4)
    ensures r.Failure? && Scan(argv, InitialScan).Success? ==> r.error == UsageError
  {
    var init := InitialScan;
    match Scan(argv, init)
    case Failure(e) => Failure(e)
    case Success(s) =>
      ScanHelpFirst(argv, init);
      if s.unknown || |s.positionals| < 3 || |s.positionals| > 4 then Failure(UsageError)
      else
        var source := if |s.positionals| == 4 then Some(Render(AbsPath(cwd, s.positionals[3]))) else None;
        Success(Args(s.positionals[0], s.positionals[1], s.positionals[2], source, s.pythonVersion))
  }

  lemma OptionsLookLikeOptions()
    ensures LooksLikeOption("-h") && LooksLikeOption("--help") && LooksLikeOption(PythonVersionOption)
  {
    assert "-h"[0] == '-' && "--help"[0] == '-' && PythonVersionOption[0] == '-';
    assert forall i :: 0 <= i < |PythonVersionOption| ==> PythonVersionOption[i] != ' ';
  }

  /** A token that does not start with `-` is positional. */
  lemma NoDashPositional(token: string)
    requires token == [] || token[0] != '-'
    ensures Positional(token)
  {
  }

  lemma {:induction false} ScanPlain(argv: seq<string>, acc: Scanned)
    requires forall i :: 0 <= i < |argv| ==> Positional(argv[i])
    ensures Scan(argv, acc) == Success(acc.(positionals := acc.positionals + argv))
    decreases |argv|
  {
    if argv != [] {
      var next := acc.(positionals := acc.positionals + [argv[0]]);
      ScanPositional(argv, acc);
      ScanPlain(argv[1..], next);
      AppendFirst(acc.positionals, argv);
    } else {
      assert acc.positionals + argv == acc.positionals;
    }
  }

  lemma AppendFirst(xs: seq<string>, ys: seq<string>)
    requires ys != []
    ensures xs + [ys[0]] + ys[1..] == xs + ys
  {
    assert [ys[0]] + ys[1..] == ys;
  }

  /** A positional token is appended and scanning goes on with the rest. */
  lemma ScanPositional(argv: seq<string>, acc: Scanned)
    requires argv != [] && Positional(argv[0])
    ensures Scan(argv, acc) == Scan(argv[1..], acc.(positionals := acc.positionals + [argv[0]]))
  {
    OptionsLookLikeOptions();
  }

  lemma {:induction false} ScanHelpFirst(argv: seq<string>, acc: Scanned)
    requires Scan(argv, acc).Success?
    ensures forall i :: 0 <= i < |argv| ==> argv[i] != "-h" && argv[i] != "--help"
    decreases |argv|
  {
    if argv != [] {
      var token := argv[0];
      if token == PythonVersionOption {
        ScanHelpFirst(argv[2..], acc.(pythonVersion := argv[1]));
        assert forall i :: 2 <= i < |argv| ==> argv[i] == argv[2..][i - 2];
      } else if IsVersionAssignment(token) {
        ScanHelpFirst(argv[1..], acc.(pythonVersion := token[|PythonVersionOption| + 1..]));
        assert forall i :: 1 <= i < |argv| ==> argv[i] == argv[1..][i - 1];
      } else if LooksLikeOption(token) {
        ScanHelpFirst(argv[1..], acc.(unknown := true));
        assert forall i :: 1 <= i < |argv| ==> argv[i] == argv[1..][i - 1];
      } else {
        ScanHelpFirst(argv[1..], acc.(positionals := acc.positionals + [token]));
        assert forall i :: 1 <= i < |argv| ==> argv[i] == argv[1..][i - 1];
      }
    }
  }

  /** `--python-version V`, with a value that is not itself an option, sets
      the version and goes on after the value. */
  lemma ScanVersionOption(argv: seq<string>, acc: Scanned)
    requires |argv| >= 2 && argv[0] == PythonVersionOption && !LooksLikeOption(argv[1])
    ensures Scan(argv, acc) == Scan(argv[2..], acc.(pythonVersion := argv[1]))
  {
  }

  /** `--python-version=V` sets the version to `V`. */
  lemma ScanVersionAssignment(v: string, rest: seq<string>, acc: Scanned)
    ensures IsVersionAssignment(PythonVersionOption + "=" + v)
    ensures Scan([PythonVersionOption + "=" + v] + rest, acc) == Scan(rest, acc.(pythonVersion := v))
  {
    var token := PythonVersionOption + "=" + v;
    assert token[..|PythonVersionOption| + 1] == PythonVersionOption + "=";
    assert token[|PythonVersionOption| + 1..] == v;
    assert token != "-h" && token != "--help" && token != PythonVersionOption by {
      assert |token| > |PythonVersionOption|;
    }
    assert ([token] + rest)[0] == token && ([token] + rest)[1..] == rest;
  }

  /** Three plain arguments followed by `--python-version V`: the version the
      user chose is the one `create_package` is called with. */
  lemma VersionOptionCall(cwd: Path, t: Tree, table: map<string, string>, o: string, b: string, c: string, v: string)
    requires Positional(o) && Positional(b) && Positional(c) && !LooksLikeOption(v)
    ensures Decide(false, [o, b, c, PythonVersionOption, v], cwd, t, table)
            == Call(Packaged.Request(None, o, b, c, v))
  {
    var argv := [o, b, c, PythonVersionOption, v];
    assert !UsesConfigFile(t, cwd, argv);
    ScanPositional(argv, InitialScan);
    var s1 := InitialScan.(positionals := InitialScan.positionals + [o]);
    assert argv[1..] == [b, c, PythonVersionOption, v];
    ScanPositional(argv[1..], s1);
    var s2 := s1.(positionals := s1.positionals + [b]);
    assert argv[1..][1..] == [c, PythonVersionOption, v];
    ScanPositional(argv[1..][1..], s2);
    var s3 := s2.(positionals := s2.positionals + [c]);
    assert argv[1..][1..][1..] == [PythonVersionOption, v];
    ScanVersionOption([PythonVersionOption, v], s3);
    assert [PythonVersionOption, v][2..] == [];
    assert s3.positionals == [o, b, c];
    assert Scan(argv, InitialScan) == Success(s3.(pythonVersion := v));
  }

  /** The example of the version option: `./foo … --python-version 3.11`. */
  lemma VersionElevenCall(cwd: Path, t: Tree, table: map<string, string>, argv: seq<string>)
    requires argv == ["./foo", "pip install foo", "python -m foo", "--python-version", "3.11"]
    ensures Decide(false, argv, cwd, t, table)
            == Call(Packaged.Request(None, "./foo", "pip install foo", "python -m foo", "3.11"))
  {
    NoDashPositional(argv[0]);
    NoDashPositional(argv[1]);
    NoDashPositional(argv[2]);
    assert "3.11"[0] != '-';
    VersionOptionCall(cwd, t, table, argv[0], argv[1], argv[2], argv[4]);
  }

  /** With three plain arguments there is no source directory and the version
      is the default; with a fourth, it is that argument made absolute. */
  lemma PositionalArguments(cwd: Path, argv: seq<string>)
    requires |argv| == 3 || |argv| == 4
    requires forall i :: 0 <= i < |argv| ==> Positional(argv[i])
    ensures ParseArgs(cwd, argv) ==
              Success(Args(argv[0], argv[1], argv[2],
                           if |argv| == 4 then Some(Render(AbsPath(cwd, argv[3]))) else None,
                           Packaged.DefaultPythonVersion))
  {
    ScanPlain(argv, Scanned([], Packaged.DefaultPythonVersion, false));
    assert [] + argv == argv;
  }

  // ---------------------------------------------------------------------
  // Dispatch

  /** What `cli` does before `create_package` returns or raises: return an
      exit code, let argparse exit, or call `create_package` with a request. */
  datatype Decision = Exit(code: int) | ArgparseExit(status: int) | Call(req: Packaged.Request) | Crash(exception: string)

  /** How `cli` ends: it returns a code, argparse raises `SystemExit`, or an
      exception propagates out of it. */
  datatype Ending = Returned(code: int) | SystemExit(status: int) | Propagated(failure: Packaged.Failure) | Crashed(exception: string)

  /** The single argument names a directory holding a configuration file. */
  predicate UsesConfigFile(t: Tree, cwd: Path, argv: seq<string>) {
    |argv| == 1 && ConfigFileExists(t, cwd, argv[0])
  }

  function RequestOf(c: Config): Packaged.Request {
    Packaged.Request(c.sourceDirectory, c.outputPath, c.buildCommand, c.startupCommand, c.pythonVersion)
  }

  /** `Config(**vars(args))`, with `python_version` among the fields. */
  function ConfigOf(a: Args): Config {
    Config(a.sourceDirectory, a.outputPath, a.buildCommand, a.startupCommand, a.pythonVersion)
  }

  /** The decision of `cli` (cli.py:38-82, with `Config` carrying the Python
      version). */
  function Decide(isWindows: bool, argv: seq<string>, cwd: Path, t: Tree, table: map<string, string>): (d: Decision)
    ensures isWindows ==> d == Exit(2)
    ensures !isWindows && UsesConfigFile(t, cwd, argv) ==>
              d == (match ParseConfig(cwd, argv[0], table)
                    case Failure(_) => Exit(3)
                    case Success(c) => Call(RequestOf(c)))
    ensures d.Exit? ==> d.code in {2, 3}
    ensures !d.Crash?
  {
    if isWindows then Exit(2)
    else if UsesConfigFile(t, cwd, argv) then
      match ParseConfig(cwd, argv[0], table)
      case Failure(_) => Exit(3)
      case Success(c) => Call(RequestOf(c))
    else
      match ParseArgs(cwd, argv)
      case Failure(HelpRequested) => ArgparseExit(0)
      case Failure(UsageError) => ArgparseExit(2)
      case Success(a) => Call(RequestOf(ConfigOf(a)))
  }

  /** The `try` around `create_package` (cli.py:75-90). */
  function Finish(outcome: Packaged.Outcome): (e: Ending)
    ensures e.Returned? <==> outcome.Returned? || outcome.failure.SourceDirectoryNotFound? || outcome.failure.PythonNotAvailable?
    ensures e.Returned? ==> e.code in {0, 4, 5}
    ensures e == Returned(0) <==> outcome.Returned?
    ensures e.Propagated? ==> outcome == Packaged.Raised(e.failure)
    ensures outcome.Raised? && outcome.failure.SourceDirectoryNotFound? ==> e == Returned(4)
    ensures outcome.Raised? && outcome.failure.PythonNotAvailable? ==> e == Returned(5)
  {
    if outcome.Returned? then Returned(0)
    else if outcome.failure.SourceDirectoryNotFound? then Returned(4)
    else if outcome.failure.PythonNotAvailable? then Returned(5)
    else Propagated(outcome.failure)
  }

  /** `cli(argv)`, with `create_package`'s outcome for each request given by
      `pipeline`. */
  function Run(isWindows: bool, argv: seq<string>, cwd: Path, t: Tree, table: map<string, string>,
               pipeline: Packaged.Request -> Packaged.Outcome): (e: Ending)
    ensures e.Returned? ==> e.code in {0, 2, 3, 4, 5}
    ensures e.SystemExit? ==> e.status in {0, 2}
    ensures !e.Crashed?
  {
    match Decide(isWindows, argv, cwd, t, table)
    case Exit(code) => Returned(code)
    case ArgparseExit(status) => SystemExit(status)
    case Call(req) => Finish(pipeline(req))
    case Crash(exception) => Crashed(exception)
  }

  /** Run against the modelled pipeline: `cli` returns 4 exactly when the
      source directory it asked for is not a directory, and 0 exactly when
      the package was built. */
  lemma ExitCodesOfPackage(argv: seq<string>, t0: Tree, table: map<string, string>, w: Packaged.World)
    requires Decide(false, argv, w.cwd, t0, table).Call?
    ensures var req := Decide(false, argv, w.cwd, t0, table).req;
            var e := Run(false, argv, w.cwd, t0, table, r => Packaged.Package(r, t0, w).outcome);
            (e == Returned(4) <==> !Packaged.SourceIsDir(req, t0, w)) &&
            (e == Returned(0) <==> Packaged.Package(req, t0, w).outcome.Returned?)
  {
    var req := Decide(false, argv, w.cwd, t0, table).req;
    if Packaged.SourceIsDir(req, t0, w) {
      Packaged.CheckPassed(req, t0, w);
    } else {
      Packaged.MissingSourceDirectory(req, t0, w);
    }
  }

  /** Through `cli` a source directory is always the string `abspath`
      returns, so the pipeline's `isdir` check is plain membership: the empty
      string and ".." components never reach it. */
  lemma CliSourceIsAbsolute(argv: seq<string>, t0: Tree, table: map<string, string>, w: Packaged.World)
    requires Normal(w.cwd)
    requires Decide(false, argv, w.cwd, t0, table).Call?
    ensures var req := Decide(false, argv, w.cwd, t0, table).req;
            req.sourceDirectory.Some? ==>
              (exists p :: Normal(p) && req.sourceDirectory.value == Render(p)) &&
              (Packaged.SourceIsDir(req, t0, w) <==> Packaged.SourceDir(req, w) in t0.dirs)
  {
    var req := Decide(false, argv, w.cwd, t0, table).req;
    if req.sourceDirectory.Some? {
      var p: Path;
      if UsesConfigFile(t0, w.cwd, argv) {
        p := AbsPath(w.cwd, argv[0]);
        AbsPathNormal(w.cwd, argv[0]);
      } else {
        var s := Scan(argv, InitialScan).value;
        p := AbsPath(w.cwd, s.positionals[3]);
        AbsPathNormal(w.cwd, s.positionals[3]);
      }
      assert req.sourceDirectory.value == Render(p);
      assert Packaged.Prologue(req, t0, w).tree == t0;
      RenderRoundTrip(w.cwd, p);
      IsDirRendered(t0, w.cwd, p);
    }
  }

  /** Windows is refused with 2 before anything else is looked at. */
  lemma WindowsRefused(argv: seq<string>, cwd: Path, t: Tree, table: map<string, string>,
                       pipeline: Packaged.Request -> Packaged.Outcome)
    ensures Run(true, argv, cwd, t, table, pipeline) == Returned(2)
  {
  }

  /** A configuration missing a key exits with 3 and never reaches
      `create_package`, whatever it would have done. */
  lemma InvalidConfigExits3(argv: seq<string>, cwd: Path, t: Tree, table: map<string, string>,
                            pipeline: Packaged.Request -> Packaged.Outcome)
    requires UsesConfigFile(t, cwd, argv)
    requires exists i :: 0 <= i < |RequiredKeys| && RequiredKeys[i] !in table
    ensures Run(false, argv, cwd, t, table, pipeline) == Returned(3)
  {
  }

  /** The configuration table is consulted only in the configuration branch,
      and then it alone (with the directory) decides the request. */
  lemma ConfigBranchOnlyWithConfigFile(argv: seq<string>, cwd: Path, t: Tree, table1: map<string, string>, table2: map<string, string>)
    requires !UsesConfigFile(t, cwd, argv)
    ensures Decide(false, argv, cwd, t, table1) == Decide(false, argv, cwd, t, table2)
    ensures Decide(false, argv, cwd, t, table1).Call? ==> ParseArgs(cwd, argv).Success?
  {
  }

  /** A lone argument that is not a directory with a configuration file is
      parsed positionally and is a usage error. */
  lemma LoneArgumentWithoutConfig(arg: string, cwd: Path, t: Tree, table: map<string, string>)
    requires !ConfigFileExists(t, cwd, arg)
    requires arg != "-h" && arg != "--help"
    ensures Decide(false, [arg], cwd, t, table) == ArgparseExit(2)
  {
    var init := Scanned([], Packaged.DefaultPythonVersion, false);
    if arg == PythonVersionOption {
    } else if IsVersionAssignment(arg) {
      assert Scan([arg], init) == Scan([], init.(pythonVersion := arg[|PythonVersionOption| + 1..]));
    } else if LooksLikeOption(arg) {
      assert Scan([arg], init) == Scan([], init.(unknown := true));
    } else {
      assert [arg][1..] == [];
      assert Scan([arg], init) == Scan([], init.(positionals := [] + [arg]));
    }
  }

  /** Three arguments, as in the first command-line test, give no source
      directory and the default version. That test expects a call without a
      version argument; `create_package` takes five parameters and
      `python_version` has no default, so the model passes all five. */
  lemma ThreeArgumentsCall(cwd: Path, t: Tree, table: map<string, string>, argv: seq<string>)
    requires argv == ["./foo", "pip install foo", "python -m foo"]
    ensures !UsesConfigFile(t, cwd, argv)
    ensures Decide(false, argv, cwd, t, table)
            == Call(Packaged.Request(None, "./foo", "pip install foo", "python -m foo", "3.12"))
  {
    NoDashPositional(argv[0]);
    NoDashPositional(argv[1]);
    NoDashPositional(argv[2]);
    PositionalArguments(cwd, argv);
  }

  /** `./name` names `name` in the working directory. */
  lemma DotName(cwd: Path, name: string)
    requires Plain(name)
    ensures AbsPath(cwd, "./" + name) == cwd + [name]
  {
    assert "./" + name == Join(".", name);
    AbsPathJoinName(cwd, ".", name);
    SplitWithoutSlash(".");
    assert AbsPath(cwd, ".") == Resolve(cwd, ["."]);
  }

  /** The second test: a fourth argument `./mypackage` becomes the absolute
      path of `mypackage` in the working directory (which `RenderEndsWithName`
      shows ends in `/mypackage`). */
  lemma FourArgumentsCall(cwd: Path, t: Tree, table: map<string, string>, argv: seq<string>)
    requires argv == ["./bar", "pip install -rrequirements.txt", "python src/mypackage/cli.py", "./mypackage"]
    ensures var d := Decide(false, argv, cwd, t, table);
            d.Call? && d.req.outputPath == "./bar" && d.req.sourceDirectory == Some(Render(cwd + ["mypackage"]))
  {
    var a, b, c, name := argv[0], argv[1], argv[2], "mypackage";
    assert Positional(a) && Positional(b) && Positional(c) && Plain(name) by {
      NoDashPositional(a);
      NoDashPositional(b);
      NoDashPositional(c);
    }
    assert argv == [a, b, c, "./" + name] by {
      assert "./mypackage" == "./" + name;
    }
    FourArguments(cwd, t, table, a, b, c, name);
  }

  /** Four plain arguments, the last one `./name`: the source directory is
      `name` in the working directory. */
  lemma FourArguments(cwd: Path, t: Tree, table: map<string, string>, a: string, b: string, c: string, name: string)
    requires Positional(a) && Positional(b) && Positional(c) && Plain(name)
    ensures Decide(false, [a, b, c, "./" + name], cwd, t, table)
            == Call(Packaged.Request(Some(Render(cwd + [name])), a, b, c, Packaged.DefaultPythonVersion))
  {
    var argv := [a, b, c, "./" + name];
    NoDashPositional(argv[3]);
    PositionalArguments(cwd, argv);
    DotName(cwd, name);
  }

  /** `Render` of a path ending in a name ends in `/` and that name. */
  lemma RenderEndsWithName(p: Path, name: string)
    ensures var s := Render(p + [name]);
            |s| >= |name| + 1 && s[|s| - |name| - 1..] == "/" + name
  {
    if p == [] {
      assert Render([name]) == "/" + name;
    } else {
      JoinSegmentsLast(p, name);
    }
  }

  lemma {:induction false} JoinSegmentsLast(p: seq<string>, name: string)
    requires p != []
    ensures JoinSegments(p + [name]) == JoinSegments(p) + "/" + name
    decreases |p|
  {
    if |p| == 1 {
      assert JoinSegments(p + [name]) == p[0] + "/" + JoinSegments([name]);
    } else {
      assert (p + [name])[1..] == p[1..] + [name];
      JoinSegmentsLast(p[1..], name);
    }
  }

  // ---------------------------------------------------------------------
  // As written

  /** The fields of the `Config` dataclass as written: no `python_version`. */
  const ConfigFieldsAsWritten := {"source_directory", "output_path", "build_command", "startup_command"}

  /** The attributes argparse sets on `args`. */
  const ArgsKeys := {"output_path", "build_command", "startup_command", "source_directory", "python_version"}

  /** `cli` as written: `Config(**vars(args))` passes a keyword the dataclass
      does not have (`TypeError`), and `config.python_version` reads an
      attribute it does not have (`AttributeError`). */
  function DecideAsWritten(isWindows: bool, argv: seq<string>, cwd: Path, t: Tree, table: map<string, string>): (d: Decision)
    ensures !d.Call?
    ensures d.Crash? <==> Decide(isWindows, argv, cwd, t, table).Call?
  {
    if isWindows then Exit(2)
    else if UsesConfigFile(t, cwd, argv) then
      match ParseConfig(cwd, argv[0], table)
      case Failure(_) => Exit(3)
      case Success(c) =>
        if "python_version" in ConfigFieldsAsWritten then Call(RequestOf(c)) else Crash("AttributeError")
    else
      match ParseArgs(cwd, argv)
      case Failure(HelpRequested) => ArgparseExit(0)
      case Failure(UsageError) => ArgparseExit(2)
      case Success(a) =>
        if ArgsKeys <= ConfigFieldsAsWritten then Call(RequestOf(ConfigOf(a))) else Crash("TypeError")
  }

  /** The first command-line test's input: as written, `cli` raises
      `TypeError` where the intended `cli` calls `create_package`. */
  lemma AsWrittenNeverPackages(cwd: Path, t: Tree, table: map<string, string>, argv: seq<string>)
    requires argv == ["./foo", "pip install foo", "python -m foo"]
    ensures DecideAsWritten(false, argv, cwd, t, table) == Crash("TypeError")
    ensures Decide(false, argv, cwd, t, table).Call?
  {
    ThreeArgumentsCall(cwd, t, table, argv);
    assert "python_version" in ArgsKeys && "python_version" !in ConfigFieldsAsWritten;
  }
}
