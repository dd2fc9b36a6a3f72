/** `create_package` and `ensure_python` (src/packaged/__init__.py).

    The pipeline is specified by the function `Package`, which returns the
    outcome (a normal return or the exception raised) together with the trail
    of calls made and the filesystem they leave behind. The method
    `CreatePackage` performs the same calls, one at a time, on a `Host` and is
    proved to agree with `Package`; the lemmas below state what the source
    promises about `Package`. */
module Packaged {
  import opened Wrappers
  import opened Paths
  import opened Environment

  const DefaultPythonVersion := "3.12"
  const StartupScriptName := "_packaged_startup.sh"
  const StagingName := ".packaged_python"
  const MakeselfName := "makeself.sh"

  /** The exceptions that can leave `create_package`. */
  datatype Failure =
    | SourceDirectoryNotFound(directoryPath: string)
    | PythonNotAvailable(pythonVersion: string)
    | CalledProcessError(returncode: int, cmd: seq<string>)
    | OSError(path: Path)

  /** The arguments of `create_package`. */
  datatype Request = Request(
    sourceDirectory: Option<string>,
    outputPath: string,
    buildCommand: string,
    startupCommand: string,
    pythonVersion: string)

  /** What `yen.ensure_python` does: raise `NotAvailable`, or return the
      resolved version and the interpreter's path. */
  datatype RuntimeAnswer = NotAvailable | Installed(version: string, interpreter: string)

  /** Everything outside the pipeline that decides what it sees. */
  datatype World = World(
    cwd: Path,                     // working directory of the Python process
    tempDir: string,               // the path tempfile.mkdtemp() returns
    installsPath: string,          // yen.PYTHON_INSTALLS_PATH
    moduleDir: string,             // os.path.dirname(__file__)
    runtime: RuntimeAnswer,        // the provisioner's answer
    inheritedPath: Option<string>, // os.environ.get("PATH")
    buildStatus: int,              // exit status of the build command
    makeselfStatus: int)           // exit status of makeself

  datatype Outcome = Returned | Raised(failure: Failure)

  /** The calls made so far and the filesystem they have produced. */
  datatype Trail = Trail(tree: Tree, steps: seq<Step>) {
    function Then(s: Step): Trail {
      Trail(Apply(tree, s), steps + [s])
    }
  }

  datatype Run = Run(outcome: Outcome, trail: Trail)

  /** `ensure_python`: the provisioner's `NotAvailable` becomes
      `PythonNotAvailable` carrying the version that was asked for; an answer
      is passed on unchanged. */
  function EnsurePython(version: string, answer: RuntimeAnswer): (r: Result<(string, string), Failure>)
    ensures r.Failure? <==> answer.NotAvailable?
    ensures r.Failure? ==> r.error == PythonNotAvailable(version)
    ensures r.Success? ==> r.value.0 == answer.version && r.value.1 == answer.interpreter
  {
    match answer
    case NotAvailable => Failure(PythonNotAvailable(version))
    case Installed(resolved, interpreter) => Success((resolved, interpreter))
  }

  // ---------------------------------------------------------------------
  // The pieces of create_package

  /** The source directory as a string: the argument, or the fresh temporary
      directory when it is `None`. */
  function SourceOf(req: Request, w: World): string {
    if req.sourceDirectory.Some? then req.sourceDirectory.value else w.tempDir
  }

  /** Where the source directory resolves to. */
  function SourceDir(req: Request, w: World): Path {
    AbsPath(w.cwd, SourceOf(req, w))
  }

  function StagingPath(req: Request, w: World): Path {
    SourceDir(req, w) + [StagingName]
  }

  function ScriptPath(req: Request, w: World): Path {
    SourceDir(req, w) + [StartupScriptName]
  }

  /** The calls made before the directory check: `mkdtemp` when no source
      directory was given. */
  function Prologue(req: Request, t0: Tree, w: World): Trail {
    if req.sourceDirectory.None? then Trail(t0, []).Then(MadeTempDir(AbsPath(w.cwd, w.tempDir))) else Trail(t0, [])
  }

  /** The interpreter's path relative to its installation root. */
  function InterpreterRelPath(w: World, version: string, interpreter: string): Path {
    RelPath(AbsPath(w.cwd, interpreter), AbsPath(w.cwd, Join(w.installsPath, version)))
  }

  /** The staged `bin` folder as the string the build sees:
      `join(join(source, ".packaged_python"), dirname(relative interpreter))`. */
  function BinFolder(source: string, rel: Path): string {
    Join(Join(source, StagingName), JoinSegments(Dirname(rel)))
  }

  /** The whole environment of the build: only `PATH`. */
  function BuildEnv(binFolder: string, inherited: Option<string>): map<string, string> {
    map["PATH" := binFolder + ":" + inherited.GetOr("")]
  }

  /** The text of `_packaged_startup.sh`. */
  function StartupScript(binRel: Path, startupCommand: string): string {
    "PATH=" + RenderRelative(binRel) + ":$PATH\n" + startupCommand
  }

  function MakeselfArgv(w: World, source: string, outputPath: string): seq<string> {
    [Join(w.moduleDir, MakeselfName), source, outputPath, outputPath, Join(".", StartupScriptName)]
  }

  /** The body of the `try` statement, continuing the trail `tr`: ask for the
      runtime and copy it into the staging directory. */
  function TryBody(req: Request, w: World, tr: Trail): Run {
    var staging := StagingPath(req, w);
    var asked := tr.Then(AskedRuntime(req.pythonVersion));
    match EnsurePython(req.pythonVersion, w.runtime)
    case Failure(f) => Run(Raised(f), asked)
    case Success(found) =>
      var root := AbsPath(w.cwd, Join(w.installsPath, found.0));
      var copied := asked.Then(CopiedTree(root, staging));
      if !Succeeds(asked.tree, CopiedTree(root, staging)) then
        Run(Raised(OSError(if root in asked.tree.dirs then staging else root)), copied)
      else
        BuildAndArchive(req, w, InterpreterRelPath(w, found.0, found.1), copied)
  }

  /** The rest of the `try` body, once the runtime is staged: run the build,
      write the startup script, make it executable and run makeself. */
  function BuildAndArchive(req: Request, w: World, rel: Path, copied: Trail): Run {
    var source := SourceOf(req, w);
    var script := ScriptPath(req, w);
    var binFolder := BinFolder(source, rel);
    var built := copied.Then(RanBuild([req.buildCommand], source, BuildEnv(binFolder, w.inheritedPath)));
    if w.buildStatus != 0 then
      Run(Raised(CalledProcessError(w.buildStatus, [req.buildCommand])), built)
    else
      var binRel := RelPath(AbsPath(w.cwd, binFolder), SourceDir(req, w));
      var write := WroteFile(script, StartupScript(binRel, req.startupCommand));
      var written := built.Then(write);
      if !Succeeds(built.tree, write) then
        Run(Raised(OSError(script)), written)
      else
        var argv := MakeselfArgv(w, source, req.outputPath);
        var archived := written.Then(MadeExecutable(script)).Then(RanMakeself(argv));
        if w.makeselfStatus != 0 then
          Run(Raised(CalledProcessError(w.makeselfStatus, argv)), archived)
        else
          Run(Returned, archived)
  }

  /** The second half of the `finally` clause: remove the staging tree. */
  function RemoveStaging(pending: Outcome, tr: Trail, staging: Path): Run {
    if Exists(tr.tree, staging) then
      var removed := tr.Then(RemovedTree(staging));
      if !Succeeds(tr.tree, RemovedTree(staging)) then Run(Raised(OSError(staging)), removed)
      else Run(pending, removed)
    else Run(pending, tr)
  }

  /** The `finally` clause: remove the startup script, then the staging tree.
      An exception raised here replaces the pending outcome. */
  function Finally(body: Run, dir: Path): Run {
    var script := dir + [StartupScriptName];
    var staging := dir + [StagingName];
    if Exists(body.trail.tree, script) then
      var removed := body.trail.Then(RemovedFile(script));
      if !Succeeds(body.trail.tree, RemovedFile(script)) then Run(Raised(OSError(script)), removed)
      else RemoveStaging(body.outcome, removed, staging)
    else RemoveStaging(body.outcome, body.trail, staging)
  }

  /** The trail on entry to the `try` statement: the prologue, then the
      removal of a stale staging entry if there is one. */
  function Cleared(req: Request, t0: Tree, w: World): Trail {
    var start := Prologue(req, t0, w);
    if Exists(start.tree, StagingPath(req, w)) then start.Then(RemovedTree(StagingPath(req, w))) else start
  }

  /** `os.path.isdir(source_directory)` after the prologue. */
  predicate SourceIsDir(req: Request, t0: Tree, w: World) {
    IsDir(Prologue(req, t0, w).tree, w.cwd, SourceOf(req, w))
  }

  /** Something is at the staging path and `rmtree` cannot remove it. */
  predicate StagingStuck(req: Request, t0: Tree, w: World) {
    var start := Prologue(req, t0, w);
    Exists(start.tree, StagingPath(req, w)) && !Succeeds(start.tree, RemovedTree(StagingPath(req, w)))
  }

  /** `create_package(source_directory, output_path, build_command,
      startup_command, python_version)` run on the filesystem `t0`. */
  function Package(req: Request, t0: Tree, w: World): Run {
    if !SourceIsDir(req, t0, w) then
      Run(Raised(SourceDirectoryNotFound(SourceOf(req, w))), Prologue(req, t0, w))
    else if StagingStuck(req, t0, w) then
      Run(Raised(OSError(StagingPath(req, w))), Cleared(req, t0, w))
    else
      Finally(TryBody(req, w, Cleared(req, t0, w)), SourceDir(req, w))
  }

  // ---------------------------------------------------------------------
  // The imperative pipeline

  method RunTryBody(host: Host, req: Request, w: World, ghost tr: Trail, ghost base: seq<Step>)
    returns (outcome: Outcome)
    requires host.State() == tr.tree && host.trace == base + tr.steps
    modifies host
    ensures outcome == TryBody(req, w, tr).outcome
    ensures host.State() == TryBody(req, w, tr).trail.tree
    ensures host.trace == base + TryBody(req, w, tr).trail.steps
  {
    var source := SourceOf(req, w);
    var staging := AbsPath(w.cwd, source) + [StagingName];
    host.Call(AskedRuntime(req.pythonVersion));
    ghost var asked := tr.Then(AskedRuntime(req.pythonVersion));
    var answer := EnsurePython(req.pythonVersion, w.runtime);
    if answer.Failure? {
      return Raised(answer.error);
    }
    var version, interpreter := answer.value.0, answer.value.1;
    var root := AbsPath(w.cwd, Join(w.installsPath, version));
    var rel := RelPath(AbsPath(w.cwd, interpreter), root);
    assert host.trace == base + asked.steps;
    var rootIsDir := root in host.dirs;
    var copiedOk := host.CopyTree(root, staging);
    ghost var copied := asked.Then(CopiedTree(root, staging));
    assert host.trace == base + copied.steps;
    if !copiedOk {
      assert TryBody(req, w, tr).trail == copied;
      return Raised(OSError(if rootIsDir then staging else root));
    }
    assert TryBody(req, w, tr) == BuildAndArchive(req, w, rel, copied);
    outcome := RunBuildAndArchive(host, req, w, rel, copied, base);
  }

  method RunBuildAndArchive(host: Host, req: Request, w: World, rel: Path, ghost copied: Trail, ghost base: seq<Step>)
    returns (outcome: Outcome)
    requires host.State() == copied.tree && host.trace == base + copied.steps
    modifies host
    ensures outcome == BuildAndArchive(req, w, rel, copied).outcome
    ensures host.State() == BuildAndArchive(req, w, rel, copied).trail.tree
    ensures host.trace == base + BuildAndArchive(req, w, rel, copied).trail.steps
  {
    var source := SourceOf(req, w);
    var dir := AbsPath(w.cwd, source);
    var script := dir + [StartupScriptName];
    var binFolder := BinFolder(source, rel);
    var build := RanBuild([req.buildCommand], source, BuildEnv(binFolder, w.inheritedPath));
    host.Call(build);
    ghost var tr := copied.Then(build);
    assert host.trace == base + tr.steps;
    if w.buildStatus != 0 {
      return Raised(CalledProcessError(w.buildStatus, [req.buildCommand]));
    }
    var binRel := RelPath(AbsPath(w.cwd, binFolder), dir);
    var write := WroteFile(script, StartupScript(binRel, req.startupCommand));
    var wrote := host.WriteFile(script, StartupScript(binRel, req.startupCommand));
    tr := tr.Then(write);
    assert host.trace == base + tr.steps;
    if !wrote {
      return Raised(OSError(script));
    }
    var _ := host.MakeExecutable(script);
    tr := tr.Then(MadeExecutable(script));
    assert host.trace == base + tr.steps;
    var argv := MakeselfArgv(w, source, req.outputPath);
    host.Call(RanMakeself(argv));
    tr := tr.Then(RanMakeself(argv));
    assert host.trace == base + tr.steps;
    assert tr == BuildAndArchive(req, w, rel, copied).trail;
    if w.makeselfStatus != 0 {
      return Raised(CalledProcessError(w.makeselfStatus, argv));
    }
    return Returned;
  }

  method RunFinally(host: Host, pending: Outcome, dir: Path, ghost body: Run, ghost base: seq<Step>)
    returns (outcome: Outcome)
    requires pending == body.outcome
    requires host.State() == body.trail.tree && host.trace == base + body.trail.steps
    modifies host
    ensures outcome == Finally(body, dir).outcome
    ensures host.State() == Finally(body, dir).trail.tree
    ensures host.trace == base + Finally(body, dir).trail.steps
  {
    var script := dir + [StartupScriptName];
    var staging := dir + [StagingName];
    ghost var tr := body.trail;
    if script in host.dirs || script in host.files {
      var removed := host.RemoveFile(script);
      tr := tr.Then(RemovedFile(script));
      if !removed {
        return Raised(OSError(script));
      }
    }
    outcome := pending;
    if staging in host.dirs || staging in host.files {
      var removed := host.RemoveTree(staging);
      if !removed {
        outcome := Raised(OSError(staging));
      }
    }
  }

  /** `create_package`: the same calls as `Package`, made on `host`. */
  method CreatePackage(host: Host, req: Request, w: World) returns (outcome: Outcome)
    modifies host
    ensures outcome == Package(req, old(host.State()), w).outcome
    ensures host.State() == Package(req, old(host.State()), w).trail.tree
    ensures host.trace == old(host.trace) + Package(req, old(host.State()), w).trail.steps
  {
    ghost var t0 := host.State();
    ghost var base := host.trace;
    var source: string;
    if req.sourceDirectory.None? {
      source := w.tempDir;
      host.MakeTempDir(AbsPath(w.cwd, source));
    } else {
      source := req.sourceDirectory.value;
    }
    var dir := AbsPath(w.cwd, source);
    if !IsDir(host.State(), w.cwd, source) {
      return Raised(SourceDirectoryNotFound(source));
    }
    var staging := dir + [StagingName];
    if staging in host.dirs || staging in host.files {
      var cleared := host.RemoveTree(staging);
      if !cleared {
        return Raised(OSError(staging));
      }
    }
    // try:
    var pending := RunTryBody(host, req, w, Cleared(req, t0, w), base);
    // finally:
    outcome := RunFinally(host, pending, dir, TryBody(req, w, Cleared(req, t0, w)), base);
  }

  // ---------------------------------------------------------------------
  // The directory check and the temporary directory

  /** A source directory that is not a directory stops the pipeline with
      `SourceDirectoryNotFound` carrying exactly that path, before any
      staging removal, provisioning or subprocess. */
  lemma MissingSourceDirectory(req: Request, t0: Tree, w: World)
    requires !SourceIsDir(req, t0, w)
    ensures Package(req, t0, w).outcome == Raised(SourceDirectoryNotFound(SourceOf(req, w)))
    ensures req.sourceDirectory.Some? ==> SourceOf(req, w) == req.sourceDirectory.value
    ensures Package(req, t0, w).trail == Prologue(req, t0, w)
    ensures forall s :: s in Package(req, t0, w).trail.steps ==> s.MadeTempDir?
  {
  }

  /** Without a source directory, a fresh temporary directory is made first
      and the directory check passes. `mkdtemp` returns the absolute,
      normalized path of the directory it made. */
  lemma TempDirectoryPassesCheck(req: Request, t0: Tree, w: World, made: Path)
    requires req.sourceDirectory.None?
    requires Normal(made) && w.tempDir == Render(made)
    ensures SourceOf(req, w) == w.tempDir && SourceDir(req, w) == made
    ensures Prologue(req, t0, w).steps == [MadeTempDir(made)]
    ensures SourceIsDir(req, t0, w)
    ensures !Package(req, t0, w).outcome.Raised? || !Package(req, t0, w).outcome.failure.SourceDirectoryNotFound?
  {
    RenderRoundTrip(w.cwd, made);
    assert Prologue(req, t0, w).tree.dirs == t0.dirs + {made};
    IsDirRendered(Prologue(req, t0, w).tree, w.cwd, made);
    CheckPassed(req, t0, w);
  }

  /** `os.path.isdir("")` is false: an empty source directory is refused
      even though it would normalize to the working directory. */
  lemma EmptySourceNotFound(req: Request, t0: Tree, w: World)
    requires req.sourceDirectory == Some("")
    ensures Package(req, t0, w).outcome == Raised(SourceDirectoryNotFound(""))
    ensures Package(req, t0, w).trail == Trail(t0, [])
  {
  }

  /** `m/../d` is refused when `m` is not a directory of the working
      directory, even where `d` is one: the operating system looks `m` up
      before it climbs back out of it. */
  lemma DotDotThroughMissing(req: Request, t0: Tree, w: World)
    requires req.sourceDirectory == Some("m/../d")
    requires w.cwd + ["m"] !in t0.dirs
    ensures Package(req, t0, w).outcome == Raised(SourceDirectoryNotFound("m/../d"))
    ensures Package(req, t0, w).trail == Trail(t0, [])
  {
    var s := "m/../d";
    assert s == "m" + "/" + (".." + "/" + "d");
    SplitAtSlash("m", ".." + "/" + "d");
    SplitAtSlash("..", "d");
    SplitWithoutSlash("m");
    SplitWithoutSlash("..");
    SplitWithoutSlash("d");
    assert Split(s) == ["m", "..", "d"];
    assert Origin(w.cwd, s) == w.cwd;
    assert Visit(w.cwd, "m") == w.cwd + ["m"];
    assert !ClimbsThroughDirs(t0, w.cwd + ["m"], ["..", "d"]);
    assert ["m", "..", "d"][1..] == ["..", "d"];
  }

  /** Past the directory check and the stale staging removal, the run is the
      `try` statement with its `finally` clause. */
  lemma PackageEntersTry(req: Request, t0: Tree, w: World)
    requires SourceIsDir(req, t0, w) && !StagingStuck(req, t0, w)
    ensures Package(req, t0, w) == Finally(TryBody(req, w, Cleared(req, t0, w)), SourceDir(req, w))
  {
  }

  /** The `try` statement with its `finally` clause only appends to the trail
      it starts from, and never raises `SourceDirectoryNotFound`. */
  lemma TryStatement(req: Request, w: World, pre: Trail, dir: Path)
    ensures var run := Finally(TryBody(req, w, pre), dir);
            pre.steps < run.trail.steps && run.trail.steps[|pre.steps|] == AskedRuntime(req.pythonVersion) &&
            !(run.outcome.Raised? && run.outcome.failure.SourceDirectoryNotFound?)
  {
    var body := TryBody(req, w, pre);
    TryBodyFailures(req, w, pre);
    TryBodyExtends(req, w, pre);
    FinallyExtends(body, dir);
    FinallyOutcome(body, dir);
    PrefixChain(pre.steps, body.trail.steps, Finally(body, dir).trail.steps, AskedRuntime(req.pythonVersion));
  }

  /** A trail extended by `s` and then extended again still has `s` right
      after the original. */
  lemma PrefixChain(a: seq<Step>, b: seq<Step>, c: seq<Step>, s: Step)
    requires |a| < |b| && b[..|a|] == a && b[|a|] == s
    requires |b| <= |c| && c[..|b|] == b
    ensures a < c && c[|a|] == s
  {
    assert c[..|a|] == b[..|a|];
  }

  /** Once the directory check passes, the run starts with the prologue's
      calls and never raises `SourceDirectoryNotFound`. */
  lemma CheckPassed(req: Request, t0: Tree, w: World)
    requires SourceIsDir(req, t0, w)
    ensures Prologue(req, t0, w).steps < Package(req, t0, w).trail.steps
    ensures !Package(req, t0, w).outcome.Raised? || !Package(req, t0, w).outcome.failure.SourceDirectoryNotFound?
  {
    ClearedHousekeeping(req, t0, w);
    if !StagingStuck(req, t0, w) {
      PackageEntersTry(req, t0, w);
      TryStatement(req, w, Cleared(req, t0, w), SourceDir(req, w));
    }
  }

  /** `Finally` either keeps the pending outcome or replaces it with the
      error of a failed removal. */
  lemma FinallyOutcome(body: Run, dir: Path)
    ensures var r := Finally(body, dir).outcome;
            r == body.outcome || (r.Raised? && r.failure.OSError?)
  {
  }

  /** The only exceptions the `try` body raises. */
  lemma TryBodyFailures(req: Request, w: World, tr: Trail)
    ensures var run := TryBody(req, w, tr);
            run.outcome.Raised? ==> run.outcome.failure.PythonNotAvailable? || run.outcome.failure.CalledProcessError? || run.outcome.failure.OSError?
  {
    if w.runtime.Installed? {
      var asked := tr.Then(AskedRuntime(req.pythonVersion));
      var root := AbsPath(w.cwd, Join(w.installsPath, w.runtime.version));
      BuildAndArchiveFailures(req, w, InterpreterRelPath(w, w.runtime.version, w.runtime.interpreter), asked.Then(CopiedTree(root, StagingPath(req, w))));
    }
  }

  lemma BuildAndArchiveFailures(req: Request, w: World, rel: Path, copied: Trail)
    ensures var run := BuildAndArchive(req, w, rel, copied);
            run.outcome.Raised? ==> run.outcome.failure.CalledProcessError? || run.outcome.failure.OSError?
  {
  }

  // ---------------------------------------------------------------------
  // Calls are logged as they are made

  /** The trail's filesystem is what its calls, made in order from `t0`,
      produce. */
  ghost predicate Replays(t0: Tree, tr: Trail) {
    tr.tree == Replay(t0, tr.steps)
  }

  lemma ThenReplays(t0: Tree, tr: Trail, s: Step)
    requires Replays(t0, tr)
    ensures Replays(t0, tr.Then(s))
  {
    var steps := tr.Then(s).steps;
    assert steps[..|steps| - 1] == tr.steps;
  }

  lemma FinallyReplays(t0: Tree, body: Run, dir: Path)
    requires Replays(t0, body.trail)
    ensures Replays(t0, Finally(body, dir).trail)
  {
    var script := dir + [StartupScriptName];
    var staging := dir + [StagingName];
    var tr := body.trail;
    if Exists(tr.tree, script) {
      ThenReplays(t0, tr, RemovedFile(script));
      tr := tr.Then(RemovedFile(script));
    }
    ThenReplays(t0, tr, RemovedTree(staging));
  }

  lemma BuildAndArchiveReplays(t0: Tree, req: Request, w: World, rel: Path, copied: Trail)
    requires Replays(t0, copied)
    ensures Replays(t0, BuildAndArchive(req, w, rel, copied).trail)
  {
    var source := SourceOf(req, w);
    var script := ScriptPath(req, w);
    var binFolder := BinFolder(source, rel);
    var build := RanBuild([req.buildCommand], source, BuildEnv(binFolder, w.inheritedPath));
    ThenReplays(t0, copied, build);
    var built := copied.Then(build);
    var write := WroteFile(script, StartupScript(RelPath(AbsPath(w.cwd, binFolder), SourceDir(req, w)), req.startupCommand));
    ThenReplays(t0, built, write);
    var written := built.Then(write);
    ThenReplays(t0, written, MadeExecutable(script));
    ThenReplays(t0, written.Then(MadeExecutable(script)), RanMakeself(MakeselfArgv(w, source, req.outputPath)));
  }

  lemma TryBodyReplays(t0: Tree, req: Request, w: World, tr: Trail)
    requires Replays(t0, tr)
    ensures Replays(t0, TryBody(req, w, tr).trail)
  {
    var asked := tr.Then(AskedRuntime(req.pythonVersion));
    ThenReplays(t0, tr, AskedRuntime(req.pythonVersion));
    match EnsurePython(req.pythonVersion, w.runtime)
    case Failure(_) =>
      assert TryBody(req, w, tr).trail == asked;
    case Success(found) =>
      var root := AbsPath(w.cwd, Join(w.installsPath, found.0));
      var copy := CopiedTree(root, StagingPath(req, w));
      var copied := asked.Then(copy);
      ThenReplays(t0, asked, copy);
      if Succeeds(asked.tree, copy) {
        var rel := InterpreterRelPath(w, found.0, found.1);
        assert TryBody(req, w, tr) == BuildAndArchive(req, w, rel, copied);
        BuildAndArchiveReplays(t0, req, w, rel, copied);
      } else {
        assert TryBody(req, w, tr).trail == copied;
      }
  }

  /** The filesystem `Package` ends with is exactly the effect of the calls it
      logs, replayed in order from the starting filesystem. */
  lemma PackageReplays(req: Request, t0: Tree, w: World)
    ensures Replays(t0, Package(req, t0, w).trail)
  {
    var start := Prologue(req, t0, w);
    if req.sourceDirectory.None? {
      ThenReplays(t0, Trail(t0, []), MadeTempDir(SourceDir(req, w)));
    }
    var staging := StagingPath(req, w);
    if Exists(start.tree, staging) {
      ThenReplays(t0, start, RemovedTree(staging));
    }
    TryBodyReplays(t0, req, w, Cleared(req, t0, w));
    FinallyReplays(t0, TryBody(req, w, Cleared(req, t0, w)), SourceDir(req, w));
  }

  // ---------------------------------------------------------------------
  // Cleanup on every exit

  /** Neither name that `finally` cleans up is taken by the wrong kind of
      entry: the startup script's name is not a directory and the staging
      name is not a regular file. */
  ghost predicate CleanNames(t: Tree, dir: Path) {
    (dir + [StartupScriptName]) !in t.dirs && (dir + [StagingName]) !in t.files
  }

  lemma TryBodyKeepsCleanNames(req: Request, w: World, tr: Trail)
    requires CleanNames(tr.tree, SourceDir(req, w))
    ensures CleanNames(TryBody(req, w, tr).trail.tree, SourceDir(req, w))
  {
    var dir := SourceDir(req, w);
    var script := dir + [StartupScriptName];
    var staging := dir + [StagingName];
    var asked := tr.Then(AskedRuntime(req.pythonVersion));
    assert asked.tree == tr.tree;
    if w.runtime.Installed? {
      var root := AbsPath(w.cwd, Join(w.installsPath, w.runtime.version));
      var copied := asked.Then(CopiedTree(root, staging));
      if Succeeds(asked.tree, CopiedTree(root, staging)) {
        assert script[|dir|] != staging[|dir|];
        assert !(staging <= script);
        assert copied.tree == TreeCopied(asked.tree, root, staging);
        assert CleanNames(copied.tree, dir);
        BuildAndArchiveKeepsCleanNames(req, w, InterpreterRelPath(w, w.runtime.version, w.runtime.interpreter), copied);
      }
    }
  }

  lemma BuildAndArchiveKeepsCleanNames(req: Request, w: World, rel: Path, copied: Trail)
    requires CleanNames(copied.tree, SourceDir(req, w))
    ensures CleanNames(BuildAndArchive(req, w, rel, copied).trail.tree, SourceDir(req, w))
  {
    var dir := SourceDir(req, w);
    assert (dir + [StartupScriptName])[|dir|] != (dir + [StagingName])[|dir|];
  }

  lemma FinallyCleans(body: Run, dir: Path)
    requires CleanNames(body.trail.tree, dir)
    ensures !Exists(Finally(body, dir).trail.tree, dir + [StartupScriptName])
    ensures !Exists(Finally(body, dir).trail.tree, dir + [StagingName])
  {
    var script := dir + [StartupScriptName];
    var staging := dir + [StagingName];
    var tr := body.trail;
    if Exists(tr.tree, script) {
      tr := tr.Then(RemovedFile(script));
    }
    assert !Exists(tr.tree, script) && staging !in tr.tree.files;
    if Exists(tr.tree, staging) {
      assert !(staging <= script) by { assert script[|dir|] != staging[|dir|]; }
    }
  }

  /** On every exit from the `try` statement, normal or by exception, neither
      the startup script nor the staging tree is left in the source
      directory, provided the names were not taken by the wrong kind of
      entry to begin with. */
  lemma CleanupOnEveryExit(req: Request, t0: Tree, w: World)
    requires SourceIsDir(req, t0, w)
    requires CleanNames(Prologue(req, t0, w).tree, SourceDir(req, w))
    ensures !Exists(Package(req, t0, w).trail.tree, ScriptPath(req, w))
    ensures !Exists(Package(req, t0, w).trail.tree, StagingPath(req, w))
  {
    var dir := SourceDir(req, w);
    var start := Prologue(req, t0, w);
    var staging := StagingPath(req, w);
    assert !(staging <= ScriptPath(req, w)) by { assert ScriptPath(req, w)[|dir|] != staging[|dir|]; }
    assert CleanNames(Cleared(req, t0, w).tree, dir);
    TryBodyKeepsCleanNames(req, w, Cleared(req, t0, w));
    FinallyCleans(TryBody(req, w, Cleared(req, t0, w)), dir);
  }

  /** A directory named `_packaged_startup.sh` defeats the cleanup: removing
      it in `finally` raises, and that exception replaces whatever the `try`
      body ended with, even a normal return. */
  lemma ScriptDirectoryDefeatsCleanup(req: Request, t0: Tree, w: World)
    requires SourceIsDir(req, t0, w)
    requires ScriptPath(req, w) in Prologue(req, t0, w).tree.dirs
    requires ScriptPath(req, w) !in Prologue(req, t0, w).tree.files
    requires StagingPath(req, w) !in Prologue(req, t0, w).tree.files
    ensures Package(req, t0, w).outcome == Raised(OSError(ScriptPath(req, w)))
    ensures ScriptPath(req, w) in Package(req, t0, w).trail.tree.dirs
  {
    var dir := SourceDir(req, w);
    var script := ScriptPath(req, w);
    var staging := StagingPath(req, w);
    assert !(staging <= script) by { assert script[|dir|] != staging[|dir|]; }
    var pre := Cleared(req, t0, w);
    assert script in pre.tree.dirs && script !in pre.tree.files;
    TryBodyKeepsDirs(req, w, pre, script);
    FinallyScriptDirectory(TryBody(req, w, pre), dir);
  }

  lemma FinallyScriptDirectory(body: Run, dir: Path)
    requires dir + [StartupScriptName] in body.trail.tree.dirs
    requires dir + [StartupScriptName] !in body.trail.tree.files
    ensures Finally(body, dir).outcome == Raised(OSError(dir + [StartupScriptName]))
    ensures dir + [StartupScriptName] in Finally(body, dir).trail.tree.dirs
  {
  }

  /** A directory outside the staging tree survives the `try` body and no
      file takes its name. */
  lemma TryBodyKeepsDirs(req: Request, w: World, tr: Trail, p: Path)
    requires p in tr.tree.dirs && p !in tr.tree.files && !(StagingPath(req, w) <= p)
    ensures p in TryBody(req, w, tr).trail.tree.dirs && p !in TryBody(req, w, tr).trail.tree.files
  {
    var asked := tr.Then(AskedRuntime(req.pythonVersion));
    if w.runtime.Installed? {
      var root := AbsPath(w.cwd, Join(w.installsPath, w.runtime.version));
      var copied := asked.Then(CopiedTree(root, StagingPath(req, w)));
      BuildAndArchiveKeepsDirs(req, w, InterpreterRelPath(w, w.runtime.version, w.runtime.interpreter), copied, p);
    }
  }

  lemma BuildAndArchiveKeepsDirs(req: Request, w: World, rel: Path, copied: Trail, p: Path)
    requires p in copied.tree.dirs && p !in copied.tree.files
    ensures p in BuildAndArchive(req, w, rel, copied).trail.tree.dirs
    ensures p !in BuildAndArchive(req, w, rel, copied).trail.tree.files
  {
  }

  /** A stale staging directory is removed right after the directory check,
      before the runtime is asked for; nothing below it survives that. */
  lemma StaleStagingRemovedFirst(req: Request, t0: Tree, w: World)
    requires SourceIsDir(req, t0, w)
    requires StagingPath(req, w) in Prologue(req, t0, w).tree.dirs
    ensures var steps := Package(req, t0, w).trail.steps;
            var n := |Prologue(req, t0, w).steps|;
            n + 1 < |steps| && steps[n] == RemovedTree(StagingPath(req, w)) &&
            steps[n + 1] == AskedRuntime(req.pythonVersion)
    ensures var cleared := Replay(t0, Package(req, t0, w).trail.steps[..|Prologue(req, t0, w).steps| + 1]);
            forall p :: Exists(cleared, p) ==> !(StagingPath(req, w) <= p)
  {
    var cleared := Cleared(req, t0, w);
    assert cleared.steps == Prologue(req, t0, w).steps + [RemovedTree(StagingPath(req, w))];
    PackageEntersTry(req, t0, w);
    TryStatement(req, w, cleared, SourceDir(req, w));
    ClearedHousekeeping(req, t0, w);
    assert Package(req, t0, w).trail.steps[..|cleared.steps|] == cleared.steps;
  }

  /** `Finally` only appends removals to the trail. */
  lemma FinallyExtends(body: Run, dir: Path)
    ensures var steps := Finally(body, dir).trail.steps;
            |body.trail.steps| <= |steps| && steps[..|body.trail.steps|] == body.trail.steps &&
            forall i :: |body.trail.steps| <= i < |steps| ==> steps[i].RemovedFile? || steps[i].RemovedTree?
  {
  }

  /** The `try` body starts by asking for the runtime and only appends. */
  lemma TryBodyExtends(req: Request, w: World, tr: Trail)
    ensures var steps := TryBody(req, w, tr).trail.steps;
            |tr.steps| < |steps| && steps[..|tr.steps|] == tr.steps && steps[|tr.steps|] == AskedRuntime(req.pythonVersion)
  {
    var asked := tr.Then(AskedRuntime(req.pythonVersion));
    if w.runtime.Installed? {
      var root := AbsPath(w.cwd, Join(w.installsPath, w.runtime.version));
      var copied := asked.Then(CopiedTree(root, StagingPath(req, w)));
      BuildAndArchiveExtends(req, w, InterpreterRelPath(w, w.runtime.version, w.runtime.interpreter), copied);
      var steps := TryBody(req, w, tr).trail.steps;
      assert copied.steps <= steps;
      assert steps[..|tr.steps|] == copied.steps[..|tr.steps|];
    }
  }

  lemma BuildAndArchiveExtends(req: Request, w: World, rel: Path, copied: Trail)
    ensures copied.steps <= BuildAndArchive(req, w, rel, copied).trail.steps
  {
  }

  // ---------------------------------------------------------------------
  // The order of the calls and their exact arguments

  /** Calls that only tidy up: `mkdtemp`, `rmtree` and `os.remove`. */
  predicate Housekeeping(s: Step) {
    s.MadeTempDir? || s.RemovedTree? || s.RemovedFile?
  }

  /** Whether two calls are calls of the same function. */
  predicate SameKind(a: Step, b: Step) {
    (a.AskedRuntime? && b.AskedRuntime?) || (a.RanBuild? && b.RanBuild?) ||
    (a.WroteFile? && b.WroteFile?) || (a.RanMakeself? && b.RanMakeself?) ||
    (a.CopiedTree? && b.CopiedTree?) || (a.MadeExecutable? && b.MadeExecutable?) ||
    (Housekeeping(a) && Housekeeping(b))
  }

  /** Every call of `call`'s kind in `steps` is exactly `call`. */
  predicate OnlyAs(steps: seq<Step>, call: Step) {
    forall k :: 0 <= k < |steps| && SameKind(steps[k], call) ==> steps[k] == call
  }

  /** makeself runs only right after the build, the writing of the startup
      script and its `chmod`, with `argv`; the build had succeeded, and at
      that moment the script is an executable file holding what was written. */
  ghost predicate ArchivedAfterScript(t0: Tree, steps: seq<Step>, buildOk: bool, script: Path, argv: seq<string>) {
    forall k :: 0 <= k < |steps| && steps[k].RanMakeself? ==>
      3 <= k && buildOk && steps[k] == RanMakeself(argv) &&
      steps[k - 3].RanBuild? && steps[k - 2].WroteFile? && steps[k - 2].path == script &&
      steps[k - 1] == MadeExecutable(script) &&
      script in Replay(t0, steps[..k]).files &&
      Replay(t0, steps[..k]).files[script] == File(steps[k - 2].text, true)
  }

  /** The calls the pipeline is bound to make once the runtime is known. */
  function ExpectedBuild(req: Request, w: World): Step
    requires w.runtime.Installed?
  {
    var source := SourceOf(req, w);
    var rel := InterpreterRelPath(w, w.runtime.version, w.runtime.interpreter);
    RanBuild([req.buildCommand], source, BuildEnv(BinFolder(source, rel), w.inheritedPath))
  }

  function ExpectedScript(req: Request, w: World): Step
    requires w.runtime.Installed?
  {
    var rel := InterpreterRelPath(w, w.runtime.version, w.runtime.interpreter);
    var binFolder := BinFolder(SourceOf(req, w), rel);
    WroteFile(ScriptPath(req, w), StartupScript(RelPath(AbsPath(w.cwd, binFolder), SourceDir(req, w)), req.startupCommand))
  }

  lemma OnlyAsThen(steps: seq<Step>, call: Step, s: Step)
    requires OnlyAs(steps, call) && (SameKind(s, call) ==> s == call)
    ensures OnlyAs(steps + [s], call)
  {
  }

  /** Appending housekeeping calls keeps both properties. */
  lemma HousekeepingExtends(t0: Tree, a: seq<Step>, b: seq<Step>, call: Step, buildOk: bool, script: Path, argv: seq<string>)
    requires a <= b && forall i :: |a| <= i < |b| ==> Housekeeping(b[i])
    requires !Housekeeping(call)
    ensures OnlyAs(a, call) ==> OnlyAs(b, call)
    ensures ArchivedAfterScript(t0, a, buildOk, script, argv) ==> ArchivedAfterScript(t0, b, buildOk, script, argv)
  {
    if ArchivedAfterScript(t0, a, buildOk, script, argv) {
      forall k | 0 <= k < |b| && b[k].RanMakeself?
        ensures 3 <= k && buildOk && b[k] == RanMakeself(argv) &&
          b[k - 3].RanBuild? && b[k - 2].WroteFile? && b[k - 2].path == script &&
          b[k - 1] == MadeExecutable(script) &&
          script in Replay(t0, b[..k]).files &&
          Replay(t0, b[..k]).files[script] == File(b[k - 2].text, true)
      {
        assert k < |a|;
        assert b[..k] == a[..k];
        assert a[k] == b[k] && a[k - 1] == b[k - 1] && a[k - 2] == b[k - 2] && a[k - 3] == b[k - 3];
      }
    }
  }

  /** The makeself property for a trail that ends with build, write, chmod
      and makeself. */
  lemma ArchivedAtEnd(t0: Tree, copied: Trail, build: Step, script: Path, text: string, argv: seq<string>)
    requires Replays(t0, copied) && build.RanBuild?
    requires forall i :: 0 <= i < |copied.steps| ==> !copied.steps[i].RanMakeself?
    requires script !in copied.tree.dirs
    ensures ArchivedAfterScript(t0, copied.Then(build).Then(WroteFile(script, text)).Then(MadeExecutable(script)).Then(RanMakeself(argv)).steps,
                                true, script, argv)
  {
    var built := copied.Then(build);
    var written := built.Then(WroteFile(script, text));
    var marked := written.Then(MadeExecutable(script));
    ThenReplays(t0, copied, build);
    ThenReplays(t0, built, WroteFile(script, text));
    ThenReplays(t0, written, MadeExecutable(script));
    ApplyCall(copied.tree, build);
    ApplyWroteFile(built.tree, script, text);
    ApplyMadeExecutable(written.tree, script);
    NoMakeselfThen(copied.steps, build);
    NoMakeselfThen(built.steps, WroteFile(script, text));
    NoMakeselfThen(written.steps, MadeExecutable(script));
    MakeselfAfterMarked(t0, marked, script, text, argv);
  }

  /** makeself appended to a trail that ends with the build, the write of
      the script and its `chmod`, and that left the script executable. */
  lemma MakeselfAfterMarked(t0: Tree, marked: Trail, script: Path, text: string, argv: seq<string>)
    requires Replays(t0, marked) && |marked.steps| >= 3
    requires forall i :: 0 <= i < |marked.steps| ==> !marked.steps[i].RanMakeself?
    requires marked.steps[|marked.steps| - 3].RanBuild?
    requires marked.steps[|marked.steps| - 2] == WroteFile(script, text)
    requires marked.steps[|marked.steps| - 1] == MadeExecutable(script)
    requires script in marked.tree.files && marked.tree.files[script] == File(text, true)
    ensures ArchivedAfterScript(t0, marked.steps + [RanMakeself(argv)], true, script, argv)
  {
    var steps := marked.steps + [RanMakeself(argv)];
    var n := |marked.steps|;
    LastMakeself(marked.steps, RanMakeself(argv));
    forall k | 0 <= k < |steps| && steps[k].RanMakeself?
      ensures 3 <= k && steps[k] == RanMakeself(argv) &&
        steps[k - 3].RanBuild? && steps[k - 2].WroteFile? && steps[k - 2].path == script &&
        steps[k - 1] == MadeExecutable(script) &&
        script in Replay(t0, steps[..k]).files &&
        Replay(t0, steps[..k]).files[script] == File(steps[k - 2].text, true)
    {
      assert k == n && steps[..k] == marked.steps;
      assert steps[k - 1] == marked.steps[n - 1] && steps[k - 2] == marked.steps[n - 2] && steps[k - 3] == marked.steps[n - 3];
    }
  }

  lemma NoMakeselfThen(a: seq<Step>, s: Step)
    requires forall i :: 0 <= i < |a| ==> !a[i].RanMakeself?
    requires !s.RanMakeself?
    ensures forall i :: 0 <= i < |a + [s]| ==> !(a + [s])[i].RanMakeself?
  {
    assert forall i :: 0 <= i < |a| ==> (a + [s])[i] == a[i];
  }

  /** A makeself call appended to a trail without one is its only one. */
  lemma LastMakeself(a: seq<Step>, s: Step)
    requires forall i :: 0 <= i < |a| ==> !a[i].RanMakeself?
    ensures (a + [s])[..|a|] == a
    ensures forall k :: 0 <= k < |a + [s]| && (a + [s])[k].RanMakeself? ==> k == |a|
  {
    assert forall i :: 0 <= i < |a| ==> (a + [s])[i] == a[i];
  }

  /** A trail without makeself calls satisfies the makeself property
      vacuously. */
  lemma NotArchived(t0: Tree, steps: seq<Step>, buildOk: bool, script: Path, argv: seq<string>)
    requires forall i :: 0 <= i < |steps| ==> !steps[i].RanMakeself?
    ensures ArchivedAfterScript(t0, steps, buildOk, script, argv)
  {
  }

  lemma BuildAndArchiveOrder(t0: Tree, req: Request, w: World, copied: Trail)
    requires w.runtime.Installed?
    requires Replays(t0, copied)
    requires forall i :: 0 <= i < |copied.steps| ==> !copied.steps[i].RanMakeself?
    ensures ArchivedAfterScript(t0, BuildAndArchive(req, w, InterpreterRelPath(w, w.runtime.version, w.runtime.interpreter), copied).trail.steps,
                                w.buildStatus == 0, ScriptPath(req, w), MakeselfArgv(w, SourceOf(req, w), req.outputPath))
  {
    var script := ScriptPath(req, w);
    var argv := MakeselfArgv(w, SourceOf(req, w), req.outputPath);
    var build := ExpectedBuild(req, w);
    var write := ExpectedScript(req, w);
    var steps := BuildAndArchive(req, w, InterpreterRelPath(w, w.runtime.version, w.runtime.interpreter), copied).trail.steps;
    if w.buildStatus == 0 && script !in copied.tree.dirs {
      BuildAndArchiveFull(req, w, copied);
      ArchivedAtEnd(t0, copied, build, script, write.text, argv);
    } else {
      BuildAndArchiveShort(req, w, copied);
      NoMakeselfShort(copied.steps, build, write, steps);
      NotArchived(t0, steps, w.buildStatus == 0, script, argv);
    }
  }

  /** Stopped after the build or after the write: no makeself call. */
  lemma NoMakeselfShort(a: seq<Step>, build: Step, write: Step, steps: seq<Step>)
    requires forall i :: 0 <= i < |a| ==> !a[i].RanMakeself?
    requires build.RanBuild? && write.WroteFile?
    requires steps == a + [build] || steps == a + [build] + [write]
    ensures forall i :: 0 <= i < |steps| ==> !steps[i].RanMakeself?
  {
    forall i | 0 <= i < |a|
      ensures steps[i] == a[i]
    {
    }
  }

  /** The calls `BuildAndArchive` appends: the build, then the write of the
      startup script, then its `chmod` and makeself, stopping early when the
      build or the write fails. */
  ghost predicate ArchiveShape(steps: seq<Step>, prefix: seq<Step>, build: Step, write: Step, script: Path, argv: seq<string>) {
    steps == prefix + [build] || steps == prefix + [build] + [write] ||
    steps == prefix + [build] + [write] + [MadeExecutable(script)] + [RanMakeself(argv)]
  }

  /** A successful build and a script path that is not a directory: all
      four calls are made. */
  lemma BuildAndArchiveFull(req: Request, w: World, copied: Trail)
    requires w.runtime.Installed? && w.buildStatus == 0 && ScriptPath(req, w) !in copied.tree.dirs
    ensures BuildAndArchive(req, w, InterpreterRelPath(w, w.runtime.version, w.runtime.interpreter), copied).trail.steps ==
              copied.steps + [ExpectedBuild(req, w)] + [ExpectedScript(req, w)] + [MadeExecutable(ScriptPath(req, w))] +
              [RanMakeself(MakeselfArgv(w, SourceOf(req, w), req.outputPath))]
  {
    ApplyCall(copied.tree, ExpectedBuild(req, w));
  }

  /** Otherwise it stops after the build or after the write. */
  lemma BuildAndArchiveShort(req: Request, w: World, copied: Trail)
    requires w.runtime.Installed? && !(w.buildStatus == 0 && ScriptPath(req, w) !in copied.tree.dirs)
    ensures var steps := BuildAndArchive(req, w, InterpreterRelPath(w, w.runtime.version, w.runtime.interpreter), copied).trail.steps;
            steps == copied.steps + [ExpectedBuild(req, w)] || steps == copied.steps + [ExpectedBuild(req, w)] + [ExpectedScript(req, w)]
  {
    ApplyCall(copied.tree, ExpectedBuild(req, w));
  }

  /** Only `call` itself, of its kind, in a trail of that shape. */
  lemma ShapeOnlyAs(steps: seq<Step>, prefix: seq<Step>, build: Step, write: Step, script: Path, argv: seq<string>, call: Step)
    requires ArchiveShape(steps, prefix, build, write, script, argv)
    requires build.RanBuild? && write.WroteFile? && (call == build || call == write)
    requires forall i :: 0 <= i < |prefix| ==> !SameKind(prefix[i], call)
    ensures OnlyAs(steps, call)
  {
    var built := prefix + [build];
    var written := built + [write];
    OnlyAsThen(prefix, call, build);
    OnlyAsThen(built, call, write);
    OnlyAsThen(written, call, MadeExecutable(script));
    OnlyAsThen(written + [MadeExecutable(script)], call, RanMakeself(argv));
  }

  /** The build, the script and makeself are the expected calls. */
  lemma BuildAndArchiveCalls(req: Request, w: World, copied: Trail, call: Step)
    requires w.runtime.Installed?
    requires call == ExpectedBuild(req, w) || call == ExpectedScript(req, w)
    requires forall i :: 0 <= i < |copied.steps| ==> !SameKind(copied.steps[i], call)
    ensures OnlyAs(BuildAndArchive(req, w, InterpreterRelPath(w, w.runtime.version, w.runtime.interpreter), copied).trail.steps, call)
  {
    if w.buildStatus == 0 && ScriptPath(req, w) !in copied.tree.dirs {
      BuildAndArchiveFull(req, w, copied);
    } else {
      BuildAndArchiveShort(req, w, copied);
    }
    ShapeOnlyAs(BuildAndArchive(req, w, InterpreterRelPath(w, w.runtime.version, w.runtime.interpreter), copied).trail.steps,
                copied.steps, ExpectedBuild(req, w), ExpectedScript(req, w), ScriptPath(req, w),
                MakeselfArgv(w, SourceOf(req, w), req.outputPath), call);
  }

  /** The trail up to the copy of the runtime, when one was found. */
  function Copied(req: Request, w: World, tr: Trail): Trail
    requires w.runtime.Installed?
  {
    var root := AbsPath(w.cwd, Join(w.installsPath, w.runtime.version));
    tr.Then(AskedRuntime(req.pythonVersion)).Then(CopiedTree(root, StagingPath(req, w)))
  }

  /** With a runtime found, the `try` body stops at a failed copy or goes on
      to the build. */
  lemma TryBodyInstalled(t0: Tree, req: Request, w: World, tr: Trail)
    requires w.runtime.Installed?
    ensures Replays(t0, tr) ==> Replays(t0, Copied(req, w, tr))
    ensures Copied(req, w, tr).steps == tr.steps + [AskedRuntime(req.pythonVersion)] + [CopiedTree(InstallRoot(w), StagingPath(req, w))]
    ensures TryBody(req, w, tr).trail == Copied(req, w, tr) ||
            TryBody(req, w, tr) == BuildAndArchive(req, w, InterpreterRelPath(w, w.runtime.version, w.runtime.interpreter), Copied(req, w, tr))
  {
    var asked := tr.Then(AskedRuntime(req.pythonVersion));
    var root := AbsPath(w.cwd, Join(w.installsPath, w.runtime.version));
    if Replays(t0, tr) {
      ThenReplays(t0, tr, AskedRuntime(req.pythonVersion));
      ThenReplays(t0, asked, CopiedTree(root, StagingPath(req, w)));
    }
  }

  lemma TryBodyOrder(t0: Tree, req: Request, w: World, tr: Trail)
    requires w.runtime.Installed?
    requires Replays(t0, tr)
    requires forall i :: 0 <= i < |tr.steps| ==> Housekeeping(tr.steps[i])
    ensures ArchivedAfterScript(t0, TryBody(req, w, tr).trail.steps, w.buildStatus == 0, ScriptPath(req, w),
                                MakeselfArgv(w, SourceOf(req, w), req.outputPath))
  {
    var copied := Copied(req, w, tr);
    var argv := MakeselfArgv(w, SourceOf(req, w), req.outputPath);
    TryBodyInstalled(t0, req, w, tr);
    OtherKinds(tr.steps, AskedRuntime(req.pythonVersion), CopiedTree(InstallRoot(w), StagingPath(req, w)), RanMakeself(argv));
    assert forall i :: 0 <= i < |copied.steps| ==> !copied.steps[i].RanMakeself? by {
      assert forall i :: 0 <= i < |copied.steps| ==> !SameKind(copied.steps[i], RanMakeself(argv));
    }
    BuildAndArchiveOrder(t0, req, w, copied);
    NotArchived(t0, copied.steps, w.buildStatus == 0, ScriptPath(req, w), argv);
  }

  /** Housekeeping calls, the provisioner's and the copy are of no other
      kind than their own. */
  lemma OtherKinds(a: seq<Step>, s1: Step, s2: Step, call: Step)
    requires forall i :: 0 <= i < |a| ==> Housekeeping(a[i])
    requires !Housekeeping(call) && !SameKind(s1, call) && !SameKind(s2, call)
    ensures forall i :: 0 <= i < |a + [s1] + [s2]| ==> !SameKind((a + [s1] + [s2])[i], call)
  {
    forall i | 0 <= i < |a + [s1] + [s2]|
      ensures !SameKind((a + [s1] + [s2])[i], call)
    {
      if i < |a| {
        assert (a + [s1] + [s2])[i] == a[i];
      }
    }
  }

  lemma TryBodyCalls(req: Request, w: World, tr: Trail, call: Step)
    requires w.runtime.Installed?
    requires forall i :: 0 <= i < |tr.steps| ==> Housekeeping(tr.steps[i])
    requires call == ExpectedBuild(req, w) || call == ExpectedScript(req, w)
    ensures OnlyAs(TryBody(req, w, tr).trail.steps, call)
  {
    var copied := Copied(req, w, tr);
    TryBodyInstalled(tr.tree, req, w, tr);
    OtherKinds(tr.steps, AskedRuntime(req.pythonVersion), CopiedTree(InstallRoot(w), StagingPath(req, w)), call);
    if TryBody(req, w, tr).trail != copied {
      BuildAndArchiveCalls(req, w, copied, call);
    }
  }

  /** makeself is called only after the build succeeded and the startup
      script was written and made executable, and always with
      `[MAKESELF_PATH, source, output, output, "./_packaged_startup.sh"]`. */
  lemma MakeselfAfterBuildAndScript(req: Request, t0: Tree, w: World)
    ensures ArchivedAfterScript(t0, Package(req, t0, w).trail.steps, w.buildStatus == 0, ScriptPath(req, w),
                                MakeselfArgv(w, SourceOf(req, w), req.outputPath))
  {
    if w.runtime.Installed? {
      PackageOrder(req, t0, w);
    } else {
      PackageWithoutRuntime(req, t0, w);
    }
  }

  /** The script makeself is told to run is given relative to the archive's
      root. */
  lemma MakeselfStartupArgument(w: World, source: string, outputPath: string)
    ensures MakeselfArgv(w, source, outputPath)[4] == "./_packaged_startup.sh"
    ensures MakeselfArgv(w, source, outputPath)[2] == MakeselfArgv(w, source, outputPath)[3] == outputPath
  {
  }

  /** The build and the startup script are exactly the ones the runtime's
      location determines. */
  lemma PackageCallsAsExpected(req: Request, t0: Tree, w: World)
    requires w.runtime.Installed?
    ensures OnlyAs(Package(req, t0, w).trail.steps, ExpectedBuild(req, w))
    ensures OnlyAs(Package(req, t0, w).trail.steps, ExpectedScript(req, w))
  {
    PackageCalls(req, t0, w, ExpectedBuild(req, w));
    PackageCalls(req, t0, w, ExpectedScript(req, w));
  }

  /** The housekeeping calls made before the `try` statement. */
  lemma ClearedHousekeeping(req: Request, t0: Tree, w: World)
    ensures Replays(t0, Cleared(req, t0, w)) && Replays(t0, Prologue(req, t0, w))
    ensures forall i :: 0 <= i < |Cleared(req, t0, w).steps| ==> Housekeeping(Cleared(req, t0, w).steps[i])
    ensures Prologue(req, t0, w).steps <= Cleared(req, t0, w).steps
  {
    var start := Prologue(req, t0, w);
    if req.sourceDirectory.None? {
      ThenReplays(t0, Trail(t0, []), MadeTempDir(SourceDir(req, w)));
    }
    if Exists(start.tree, StagingPath(req, w)) {
      ThenReplays(t0, start, RemovedTree(StagingPath(req, w)));
    }
  }

  /** Stopped by the directory check or by a stale staging entry that cannot
      be removed, Package has made housekeeping calls only. */
  lemma PackageStopsEarly(req: Request, t0: Tree, w: World)
    requires !SourceIsDir(req, t0, w) || StagingStuck(req, t0, w)
    ensures forall i :: 0 <= i < |Package(req, t0, w).trail.steps| ==> Housekeeping(Package(req, t0, w).trail.steps[i])
  {
    ClearedHousekeeping(req, t0, w);
    if !SourceIsDir(req, t0, w) {
      assert Package(req, t0, w).trail == Prologue(req, t0, w);
      HousekeepingPrefix(Prologue(req, t0, w).steps, Cleared(req, t0, w).steps);
    } else {
      assert Package(req, t0, w).trail == Cleared(req, t0, w);
    }
  }

  lemma HousekeepingPrefix(a: seq<Step>, b: seq<Step>)
    requires a <= b && forall i :: 0 <= i < |b| ==> Housekeeping(b[i])
    ensures forall i :: 0 <= i < |a| ==> Housekeeping(a[i])
  {
    assert forall i :: 0 <= i < |a| ==> a[i] == b[i];
  }

  /** Housekeeping, one call that is not makeself, then removals: no
      makeself call. */
  lemma NoMakeselfKept(a: seq<Step>, s: Step, c: seq<Step>)
    requires forall i :: 0 <= i < |a| ==> Housekeeping(a[i])
    requires !s.RanMakeself? && |a + [s]| <= |c| && c[..|a + [s]|] == a + [s]
    requires forall i :: |a + [s]| <= i < |c| ==> c[i].RemovedFile? || c[i].RemovedTree?
    ensures forall i :: 0 <= i < |c| ==> !c[i].RanMakeself?
  {
    forall i | 0 <= i < |a + [s]|
      ensures c[i] == (a + [s])[i]
    {
      assert c[..|a + [s]|][i] == c[i];
    }
  }

  /** Without a runtime the `try` body only asks for one. */
  lemma TryBodyWithoutRuntime(req: Request, w: World, tr: Trail)
    requires w.runtime.NotAvailable?
    ensures TryBody(req, w, tr).trail.steps == tr.steps + [AskedRuntime(req.pythonVersion)]
  {
  }

  /** Package either stops before the `try` statement, with housekeeping
      calls only, or is the `finally` clause run after the `try` body. */
  lemma PackageSplits(req: Request, t0: Tree, w: World)
    ensures var run := Package(req, t0, w);
            (forall i :: 0 <= i < |run.trail.steps| ==> Housekeeping(run.trail.steps[i])) ||
            run == Finally(TryBody(req, w, Cleared(req, t0, w)), SourceDir(req, w))
  {
    if SourceIsDir(req, t0, w) && !StagingStuck(req, t0, w) {
      PackageEntersTry(req, t0, w);
    } else {
      PackageStopsEarly(req, t0, w);
    }
  }

  lemma PackageWithoutRuntime(req: Request, t0: Tree, w: World)
    requires w.runtime.NotAvailable?
    ensures forall i :: 0 <= i < |Package(req, t0, w).trail.steps| ==> !Package(req, t0, w).trail.steps[i].RanMakeself?
  {
    if SourceIsDir(req, t0, w) && !StagingStuck(req, t0, w) {
      var pre := Cleared(req, t0, w);
      var body := TryBody(req, w, pre);
      PackageEntersTry(req, t0, w);
      ClearedHousekeeping(req, t0, w);
      TryBodyWithoutRuntime(req, w, pre);
      FinallyExtends(body, SourceDir(req, w));
      NoMakeselfKept(pre.steps, AskedRuntime(req.pythonVersion), Finally(body, SourceDir(req, w)).trail.steps);
    } else {
      PackageStopsEarly(req, t0, w);
    }
  }

  lemma PackageOrder(req: Request, t0: Tree, w: World)
    requires w.runtime.Installed?
    ensures ArchivedAfterScript(t0, Package(req, t0, w).trail.steps, w.buildStatus == 0, ScriptPath(req, w),
                                MakeselfArgv(w, SourceOf(req, w), req.outputPath))
  {
    var script := ScriptPath(req, w);
    var argv := MakeselfArgv(w, SourceOf(req, w), req.outputPath);
    var ok := w.buildStatus == 0;
    if SourceIsDir(req, t0, w) && !StagingStuck(req, t0, w) {
      var pre := Cleared(req, t0, w);
      var body := TryBody(req, w, pre);
      PackageEntersTry(req, t0, w);
      ClearedHousekeeping(req, t0, w);
      FinallyExtends(body, SourceDir(req, w));
      TryBodyOrder(t0, req, w, pre);
      HousekeepingExtends(t0, body.trail.steps, Finally(body, SourceDir(req, w)).trail.steps, ExpectedBuild(req, w), ok, script, argv);
    } else {
      PackageStopsEarly(req, t0, w);
      NotArchived(t0, Package(req, t0, w).trail.steps, ok, script, argv);
    }
  }

  lemma PackageCalls(req: Request, t0: Tree, w: World, call: Step)
    requires w.runtime.Installed?
    requires call == ExpectedBuild(req, w) || call == ExpectedScript(req, w)
    ensures OnlyAs(Package(req, t0, w).trail.steps, call)
  {
    if SourceIsDir(req, t0, w) && !StagingStuck(req, t0, w) {
      var pre := Cleared(req, t0, w);
      var body := TryBody(req, w, pre);
      PackageEntersTry(req, t0, w);
      ClearedHousekeeping(req, t0, w);
      FinallyExtends(body, SourceDir(req, w));
      TryBodyCalls(req, w, pre, call);
      HousekeepingExtends(t0, body.trail.steps, Finally(body, SourceDir(req, w)).trail.steps, call, true, [], []);
    } else {
      PackageStopsEarly(req, t0, w);
      HousekeepingExtends(t0, [], Package(req, t0, w).trail.steps, call, true, [], []);
    }
  }

  // ---------------------------------------------------------------------
  // Where the build and the startup script look for the interpreter

  /** Where the runtime is installed, and the interpreter inside it. */
  function InstallRoot(w: World): Path
    requires w.runtime.Installed?
  {
    AbsPath(w.cwd, Join(w.installsPath, w.runtime.version))
  }

  function InterpreterPath(w: World): Path
    requires w.runtime.Installed?
  {
    AbsPath(w.cwd, w.runtime.interpreter)
  }

  lemma NormalSlices(p: Path, i: nat)
    requires Normal(p) && i <= |p|
    ensures Normal(p[i..]) && Normal(Dirname(p[i..]))
  {
    assert forall j :: 0 <= j < |p| - i ==> p[i..][j] == p[i + j];
  }

  /** The bin folder string resolves to the staging directory followed by
      the interpreter's folder. */
  lemma BinFolderResolves(cwd: Path, source: string, rel: Path)
    requires Normal(Dirname(rel))
    ensures AbsPath(cwd, BinFolder(source, rel)) == AbsPath(cwd, source) + [StagingName] + Dirname(rel)
  {
    var staged := Join(source, StagingName);
    var d := Dirname(rel);
    assert Plain(StagingName);
    AbsPathJoinName(cwd, source, StagingName);
    if d == [] {
      assert JoinSegments(d) == "";
      AbsPathJoin(cwd, staged, "");
      assert Resolve(AbsPath(cwd, staged), [""]) == Resolve(AbsPath(cwd, staged), []);
    } else {
      assert Plain(d[0]);
      JoinSegmentsStart(d);
      AbsPathJoin(cwd, staged, JoinSegments(d));
      SplitJoinSegments(d);
      ResolvePlain(AbsPath(cwd, staged), d);
    }
  }

  /** The build's environment holds only `PATH`: the staged bin folder, the
      separator, then the inherited `PATH` (or nothing). When the interpreter
      lies below its install root, that folder is the staged copy of the
      interpreter's own directory. */
  lemma StagedInterpreterFirstOnPath(req: Request, w: World)
    requires w.runtime.Installed? && Normal(w.cwd)
    requires InstallRoot(w) < InterpreterPath(w)
    ensures var build := ExpectedBuild(req, w);
            var binFolder := BinFolder(SourceOf(req, w), InterpreterRelPath(w, w.runtime.version, w.runtime.interpreter));
            build.args == [req.buildCommand] && build.cwd == SourceOf(req, w) &&
            build.env.Keys == {"PATH"} &&
            build.env["PATH"] == binFolder + ":" + w.inheritedPath.GetOr("") &&
            AbsPath(w.cwd, binFolder) == Relocate(Dirname(InterpreterPath(w)), InstallRoot(w), StagingPath(req, w))
  {
    InterpreterBelowRoot(w);
    BinFolderResolves(w.cwd, SourceOf(req, w), InterpreterRelPath(w, w.runtime.version, w.runtime.interpreter));
    assert Dirname(InterpreterPath(w))[|InstallRoot(w)|..] == InterpreterFolder(w);
  }

  /** The interpreter's folder inside the install root. */
  function InterpreterFolder(w: World): Path
    requires w.runtime.Installed? && InstallRoot(w) <= InterpreterPath(w)
  {
    Dirname(InterpreterPath(w)[|InstallRoot(w)|..])
  }

  /** The bin folder, taken relative to the source directory, is
      `.packaged_python` followed by the interpreter's folder. */
  lemma BinFolderRelative(req: Request, w: World)
    requires w.runtime.Installed? && Normal(w.cwd)
    requires InstallRoot(w) < InterpreterPath(w)
    ensures var binFolder := BinFolder(SourceOf(req, w), InterpreterRelPath(w, w.runtime.version, w.runtime.interpreter));
            RelPath(AbsPath(w.cwd, binFolder), SourceDir(req, w)) == [StagingName] + InterpreterFolder(w)
    ensures Normal([StagingName] + InterpreterFolder(w))
  {
    InterpreterBelowRoot(w);
    StagedFolderRelative(w.cwd, SourceOf(req, w), InterpreterRelPath(w, w.runtime.version, w.runtime.interpreter), InterpreterFolder(w));
  }

  /** Relative to the source directory, the bin folder is the staging name
      followed by the folder part of the interpreter's relative path. */
  lemma StagedFolderRelative(cwd: Path, source: string, rel: Path, folder: Path)
    requires Dirname(rel) == folder && Normal(folder)
    ensures RelPath(AbsPath(cwd, BinFolder(source, rel)), AbsPath(cwd, source)) == [StagingName] + folder
  {
    BinFolderResolves(cwd, source, rel);
    assert AbsPath(cwd, source) + [StagingName] + folder == AbsPath(cwd, source) + ([StagingName] + folder);
    RelPathBelow(AbsPath(cwd, source), [StagingName] + folder);
  }

  /** Below its install root, the interpreter's relative path is the part
      after the root, made of plain names, and `.packaged_python` followed by
      its folder is too. */
  lemma InterpreterBelowRoot(w: World)
    requires w.runtime.Installed? && Normal(w.cwd)
    requires InstallRoot(w) < InterpreterPath(w)
    ensures InterpreterRelPath(w, w.runtime.version, w.runtime.interpreter) == InterpreterPath(w)[|InstallRoot(w)|..]
    ensures Dirname(InterpreterRelPath(w, w.runtime.version, w.runtime.interpreter)) == InterpreterFolder(w)
    ensures Normal(InterpreterFolder(w)) && Normal([StagingName] + InterpreterFolder(w))
    ensures Dirname(InterpreterPath(w)) == InstallRoot(w) + InterpreterFolder(w)
  {
    AbsPathNormal(w.cwd, w.runtime.interpreter);
    BelowRoot(InstallRoot(w), InterpreterPath(w));
  }

  /** A normal path strictly below `root`: relative to `root` it is the part
      after it, and that part's folder, alone or under `.packaged_python`,
      is made of plain names. */
  lemma BelowRoot(root: Path, interp: Path)
    requires Normal(interp) && root < interp
    ensures RelPath(interp, root) == interp[|root|..]
    ensures Normal(Dirname(interp[|root|..])) && Normal([StagingName] + Dirname(interp[|root|..]))
    ensures Dirname(interp) == root + Dirname(interp[|root|..])
  {
    var tail := interp[|root|..];
    assert interp == root + tail;
    NormalSlices(interp, |root|);
    RelPathBelow(root, tail);
    StagedNormal(Dirname(tail));
    DirnameAppend(root, tail);
  }

  lemma StagedNormal(folder: Path)
    requires Normal(folder)
    ensures Normal([StagingName] + folder)
  {
    assert Plain(StagingName);
    assert forall j :: 1 <= j < |[StagingName] + folder| ==> ([StagingName] + folder)[j] == folder[j - 1];
  }

  lemma DirnameAppend(root: Path, tail: Path)
    requires tail != []
    ensures Dirname(root + tail) == root + Dirname(tail)
  {
    assert (root + tail)[..|root + tail| - 1] == root + tail[..|tail| - 1];
  }

  /** The startup script puts `.packaged_python/<interpreter folder>` first
      on `PATH` and then runs the startup command. */
  lemma StartupScriptText(req: Request, w: World)
    requires w.runtime.Installed? && Normal(w.cwd)
    requires InstallRoot(w) < InterpreterPath(w)
    ensures ExpectedScript(req, w) ==
              WroteFile(ScriptPath(req, w), "PATH=" + JoinSegments([StagingName] + InterpreterFolder(w)) + ":$PATH\n" + req.startupCommand)
  {
    BinFolderRelative(req, w);
  }

  /** Resolved from whatever directory the archive is unpacked into, the
      script's `PATH` entry names the unpacked copy of the interpreter's
      directory. */
  lemma StartupEntryRelocates(w: World, unpacked: Path)
    requires w.runtime.Installed? && Normal(w.cwd)
    requires InstallRoot(w) < InterpreterPath(w)
    ensures AbsPath(unpacked, JoinSegments([StagingName] + InterpreterFolder(w))) ==
              Relocate(Dirname(InterpreterPath(w)), InstallRoot(w), unpacked + [StagingName])
  {
    InterpreterBelowRoot(w);
    RelativeResolves(unpacked, [StagingName] + InterpreterFolder(w));
    assert Dirname(InterpreterPath(w))[|InstallRoot(w)|..] == InterpreterFolder(w);
  }
}
