# packaged, modelled in Dafny

`packaged` turns a directory of Python source, a build command and a startup
command into one self-extracting executable that carries its own Python. This
project models the core of it and proves what that core promises:

- **`create_package`** (`src/packaged/__init__.py`). The pipeline:
  - make a temporary source directory when none is given, then check that the
    source directory is a directory;
  - remove a stale `.packaged_python`;
  - ask the provisioner (`yen`) for a Python and copy its install tree into
    `.packaged_python`;
  - run the build with `PATH` pointing at the staged interpreter first;
  - write `_packaged_startup.sh` and make it executable;
  - call `makeself.sh`;
  - in a `finally` clause, remove the script and the staging tree.

  It is modelled twice. `Packaged.Package` is a function from a request, a
  filesystem and the outside world's answers to an outcome plus the trail of
  calls made and the filesystem they leave. `Packaged.CreatePackage` is the
  same pipeline, step by step, as a method on a mutable `Environment.Host`. It
  is proved to make exactly the calls `Package` describes and to leave the same
  state.
- **`ensure_python`**: the provisioner's `NotAvailable` becomes
  `PythonNotAvailable`.
- **The configuration file** (`src/packaged/config.py`): where
  `packaged.toml` is looked for, and how its table becomes a `Config` or a
  `ConfigValidationError`.
- **`cli`** (`src/packaged/cli.py`): Windows refusal, the choice between the
  configuration file and the command-line arguments, a model of the argument
  parser, and the mapping of the pipeline's exceptions to exit codes.
- **`bubblesort_steps`** (`example/bubble_sort_curve.py`): the partial bubble
  sort, in place on an array.

Python's path functions (`os.path.join`, `abspath`, `relpath`, `dirname`) are
modelled in `Paths` on lists of segments. `os.path.isdir` and `os.path.isfile`
(`Environment.IsDir`, `Environment.IsFile`) follow the string the way the
operating system does. The empty string names nothing. Every `..` must climb
out of an existing directory, so `m/../d` fails when `m` is missing, even
though it normalizes to `d`. The filesystem in `Environment` is a
set of directories plus a map from file paths to contents and executable bit.
The provisioner's answer, the exit statuses of the build and of makeself, the
inherited `PATH`, the working directory, the install root, the module
directory and the name `mkdtemp` returns are all inputs (`Packaged.World`).

Where the code and the project's own description of it differ, the model
follows the code:

- An exception raised inside the `finally` clause (a failing `os.remove` or
  `shutil.rmtree`) replaces the exception that was pending, as Python's
  `try`/`finally` does. The original failure is not kept
  (`Packaged.FinallyOutcome`).
- Cleanup on every exit holds only when the two names are not already taken by
  the wrong kind of entry. If `_packaged_startup.sh` is a directory, removing it
  fails and the cleanup stops (`Packaged.ScriptDirectoryDefeatsCleanup`).
- `create_package` takes five parameters (src/packaged/__init__.py:33-39), and
  `python_version` has no default. The model follows this signature. Some tests
  do not match it:
  - tests/packaged_test.py:21-23 calls `create_package` with four arguments.
  - tests/cli_test.py:16 and :29-34 expect the command line to call it with
    four.
  - tests/end_to_end/packaged_test.py has its own `build_package` helper,
    which takes five parameters and passes all five on (lines 16-31). Its
    tests call that helper with four arguments (lines 49, 57-62 and 71-76).
    There the mismatch is with the helper, not with `create_package`.

## Model

| member | source | states |
|---|---|---|
| Packaged.EnsurePython | src/packaged/__init__.py:111-119 | fails exactly when the provisioner answers `NotAvailable`, then with `PythonNotAvailable` carrying the requested version; otherwise returns the provisioner's version and interpreter unchanged |
| Packaged.CreatePackage | src/packaged/__init__.py:33-108 | on a mutable host, returns `Package`'s outcome, leaves `Package`'s filesystem and appends exactly `Package`'s calls to the host's trace |
| Packaged.RunTryBody | src/packaged/__init__.py:54-61 | the `try` body on the host: asks for the runtime and copies it, with the same outcome, filesystem and calls as `TryBody` |
| Packaged.RunBuildAndArchive | src/packaged/__init__.py:63-102 | build, script, chmod and makeself on the host, with the same outcome, filesystem and calls as `BuildAndArchive` |
| Packaged.RunFinally | src/packaged/__init__.py:103-108 | the `finally` clause on the host, with the same outcome, filesystem and calls as `Finally` |
| Packaged.MissingSourceDirectory | src/packaged/__init__.py:44-45 | a source for which `isdir` is false (the empty string, a `..` out of a missing directory, or a place that is not a directory) raises `SourceDirectoryNotFound` with the given string, and nothing but `mkdtemp` has been called: no removal, provisioning or subprocess |
| Packaged.EmptySourceNotFound | src/packaged/__init__.py:44-45 | the source `""` is refused with `SourceDirectoryNotFound("")` and nothing is called, although it would normalize to the working directory |
| Packaged.DotDotThroughMissing | src/packaged/__init__.py:44-45 | the source `m/../d` is refused when `m` is not a directory of the working directory, whatever `d` is, and nothing is called |
| Packaged.SourceIsDir | src/packaged/__init__.py:44 | no contract: `os.path.isdir` of the source after the prologue; `MissingSourceDirectory`, `CheckPassed` and `TempDirectoryPassesCheck` are proved about it |
| Packaged.Prologue | src/packaged/__init__.py:41-42 | no contract: `mkdtemp` when no source directory is given, nothing otherwise; `TempDirectoryPassesCheck`, `ClearedHousekeeping` and `CheckPassed` are proved about it |
| Packaged.StagingStuck | src/packaged/__init__.py:50-52 | no contract: something exists at `.packaged_python` and `rmtree` cannot remove it; `PackageStopsEarly` and `PackageEntersTry` are proved about it |
| Packaged.Package | src/packaged/__init__.py:33-108 | no contract: the pipeline as a function of the request, the filesystem and the world; every `Packaged` lemma above and below is about it, with `CreatePackage` proved equal to it |
| Packaged.TryBody | src/packaged/__init__.py:54-61 | no contract: ask for the runtime, then copy it, then `BuildAndArchive`; `TryBodyFailures`, `TryBodyExtends`, `TryBodyOrder`, `TryBodyCalls`, `TryBodyReplays` and `TryBodyKeepsCleanNames` are proved about it |
| Packaged.BuildAndArchive | src/packaged/__init__.py:63-102 | no contract: build, script write, chmod, makeself; `BuildAndArchiveFull`, `BuildAndArchiveShort`, `BuildAndArchiveOrder` and `BuildAndArchiveFailures` are proved about it |
| Packaged.Finally | src/packaged/__init__.py:103-108 | no contract: remove the script if it exists, then the staging tree if it exists, a raise replacing the pending outcome; `FinallyOutcome`, `FinallyCleans`, `FinallyExtends` and `FinallyScriptDirectory` are proved about it |
| Packaged.BinFolder | src/packaged/__init__.py:64-66 | no contract: `join(join(source, ".packaged_python"), dirname(relative interpreter))`; `BinFolderResolves`, `BinFolderRelative` and `StagedInterpreterFirstOnPath` are proved about it |
| Packaged.BuildEnv | src/packaged/__init__.py:74-76 | no contract: the build's whole environment, `PATH` alone, set to the bin folder, `:`, then the inherited `PATH` or ""; `StagedInterpreterFirstOnPath` states it |
| Packaged.StartupScript | src/packaged/__init__.py:82-84 | no contract: the text of `_packaged_startup.sh`; `StartupScriptText` and `StartupEntryRelocates` are proved about it |
| Packaged.MakeselfArgv | src/packaged/__init__.py:89-102 | no contract: makeself's argument vector; `MakeselfStartupArgument` and `MakeselfAfterBuildAndScript` are proved about it |
| Packaged.TempDirectoryPassesCheck | src/packaged/__init__.py:41-45 | without a source directory, the absolute normal path `mkdtemp` returns is the source, it is made first and it passes the directory check |
| Packaged.CheckPassed | src/packaged/__init__.py:44-54 | once the directory check passes, the run extends the prologue and never raises `SourceDirectoryNotFound` |
| Packaged.StaleStagingRemovedFirst | src/packaged/__init__.py:50-56 | an existing directory `.packaged_python` is removed by the first call after the check, before the provisioner is asked, and nothing is left at or below it |
| Packaged.TryBodyFailures | src/packaged/__init__.py:54-102 | the `try` body raises only `PythonNotAvailable`, `CalledProcessError` or an `OSError` |
| Packaged.BuildAndArchiveFailures | src/packaged/__init__.py:71-102 | after the copy, only `CalledProcessError` or an `OSError` can be raised |
| Packaged.FinallyOutcome | src/packaged/__init__.py:103-108 | the `finally` clause keeps the pending outcome or replaces it with an `OSError` |
| Packaged.PackageReplays | src/packaged/__init__.py:33-108 | the filesystem `Package` ends with is exactly the effect of its recorded calls, made in order from the starting filesystem |
| Packaged.ThenReplays | src/packaged/__init__.py:33-108 | appending one call keeps the trail's filesystem equal to the replay of its calls |
| Packaged.FinallyReplays | src/packaged/__init__.py:103-108 | the `finally` clause keeps the trail's filesystem equal to the replay of its calls |
| Packaged.TryBodyReplays | src/packaged/__init__.py:54-61 | the `try` body keeps the trail's filesystem equal to the replay of its calls |
| Packaged.BuildAndArchiveReplays | src/packaged/__init__.py:63-102 | build to makeself keep the trail's filesystem equal to the replay of its calls |
| Packaged.CleanupOnEveryExit | src/packaged/__init__.py:54-108 | after any exit from the `try` statement, normal or by exception, neither the startup script nor the staging tree exists, provided neither name started out as the wrong kind of entry |
| Packaged.FinallyCleans | src/packaged/__init__.py:103-108 | the `finally` clause leaves neither name behind when neither is the wrong kind of entry |
| Packaged.TryBodyKeepsCleanNames | src/packaged/__init__.py:54-61 | the `try` body never makes the script path a directory or the staging path a file |
| Packaged.BuildAndArchiveKeepsCleanNames | src/packaged/__init__.py:63-102 | build to makeself never make the script path a directory or the staging path a file |
| Packaged.ScriptDirectoryDefeatsCleanup | src/packaged/__init__.py:105-106 | a directory named `_packaged_startup.sh` makes `create_package` raise `OSError` for that path, and the directory remains |
| Packaged.FinallyScriptDirectory | src/packaged/__init__.py:105-106 | `os.remove` on a directory raises and ends the `finally` clause with that error |
| Packaged.TryBodyKeepsDirs | src/packaged/__init__.py:54-61 | a directory outside the staging tree survives the `try` body and does not become a file |
| Packaged.BuildAndArchiveKeepsDirs | src/packaged/__init__.py:63-102 | a directory survives build to makeself and does not become a file |
| Packaged.FinallyExtends | src/packaged/__init__.py:103-108 | the `finally` clause only appends `os.remove` and `rmtree` calls |
| Packaged.TryBodyExtends | src/packaged/__init__.py:54-56 | the `try` body only appends calls, and the first is the request for the asked version |
| Packaged.BuildAndArchiveExtends | src/packaged/__init__.py:63-102 | build to makeself only append calls |
| Packaged.MakeselfAfterBuildAndScript | src/packaged/__init__.py:71-102 | on every input, makeself runs only after the build succeeded and the startup script was written and made executable, with the argument vector of `MakeselfArgv` |
| Packaged.PackageOrder | src/packaged/__init__.py:71-102 | the same order property, when a runtime is found |
| Packaged.TryBodyOrder | src/packaged/__init__.py:54-102 | the order property for the `try` body |
| Packaged.BuildAndArchiveOrder | src/packaged/__init__.py:71-102 | the order property for build to makeself |
| Packaged.BuildAndArchiveFull | src/packaged/__init__.py:71-102 | when the build succeeds and the script path is not a directory, exactly the expected build, script write, chmod and makeself calls are appended, in that order |
| Packaged.BuildAndArchiveShort | src/packaged/__init__.py:71-84 | otherwise only the build call, or the build and the script write, are appended |
| Packaged.ArchivedAtEnd | src/packaged/__init__.py:71-102 | build, write, chmod and makeself appended in that order satisfy the order property |
| Packaged.MakeselfAfterMarked | src/packaged/__init__.py:86-102 | a makeself call after a build, the script write and its chmod, with the script in place and executable, satisfies the order property |
| Packaged.NotArchived | src/packaged/__init__.py:89-102 | a trail without a makeself call satisfies the order property |
| Packaged.PackageWithoutRuntime | src/packaged/__init__.py:54-102 | with no runtime available, makeself is never called |
| Packaged.TryBodyWithoutRuntime | src/packaged/__init__.py:54-56 | with no runtime available, the `try` body makes only the request for the runtime |
| Packaged.MakeselfStartupArgument | src/packaged/__init__.py:89-102 | the label equals the output path, and the script argument is the relative `./_packaged_startup.sh` |
| Packaged.PackageCallsAsExpected | src/packaged/__init__.py:71-84 | every build call and every script write is exactly the expected one |
| Packaged.PackageCalls | src/packaged/__init__.py:71-84 | the same, for one expected call at a time |
| Packaged.TryBodyCalls | src/packaged/__init__.py:54-84 | the same, for the `try` body |
| Packaged.BuildAndArchiveCalls | src/packaged/__init__.py:71-84 | the same, for build to makeself |
| Packaged.OnlyAsThen | src/packaged/__init__.py:71-84 | appending a call that is not of the expected kind, or is the expected call, keeps "every such call is the expected one" |
| Packaged.HousekeepingExtends | src/packaged/__init__.py:41-52 | appending `mkdtemp`, `rmtree` or `os.remove` calls keeps both call properties |
| Packaged.TryBodyInstalled | src/packaged/__init__.py:56-61 | with a runtime found, the `try` body asks, copies, then stops or goes on to the build |
| Packaged.ClearedHousekeeping | src/packaged/__init__.py:41-52 | before the `try` statement only housekeeping calls are made, extending the prologue |
| Packaged.PackageSplits | src/packaged/__init__.py:44-108 | the run either stops before the `try` statement or is the `finally` clause applied to the `try` body |
| Packaged.PackageEntersTry | src/packaged/__init__.py:44-108 | once the directory check passes and the stale staging tree could be removed, the run is the `finally` clause applied to the `try` body |
| Packaged.PackageStopsEarly | src/packaged/__init__.py:41-52 | when the check fails or the stale staging tree cannot be removed, every call made is housekeeping |
| Packaged.TryStatement | src/packaged/__init__.py:54-108 | the `try` statement strictly extends the trail, its first call asks for the requested version, and it never raises `SourceDirectoryNotFound` |
| Packaged.StagedInterpreterFirstOnPath | src/packaged/__init__.py:57-78 | the build runs the build command as a shell command in the source directory, with an environment holding only `PATH`; that is the staged bin folder, `:`, then the inherited `PATH` or ""; the staged folder resolves to the interpreter's folder relocated from the install root into `.packaged_python` |
| Packaged.BinFolderResolves | src/packaged/__init__.py:64-66 | the bin folder string resolves to the staging directory followed by the interpreter's folder |
| Packaged.BinFolderRelative | src/packaged/__init__.py:67 | relative to the source directory, the bin folder is `.packaged_python` followed by the interpreter's folder inside its install root |
| Packaged.StagedFolderRelative | src/packaged/__init__.py:64-67 | for any relative interpreter path, the bin folder relative to the source is `.packaged_python` followed by its dirname |
| Packaged.InterpreterBelowRoot | src/packaged/__init__.py:57-58 | the interpreter's path relative to its install root is the part of it below the root, and its dirname is the interpreter's folder |
| Packaged.BelowRoot | src/packaged/__init__.py:57-58 | for a normal path below a root, `relpath` is the part below the root, and the path's dirname is the root followed by that part's dirname |
| Packaged.StartupScriptText | src/packaged/__init__.py:57-84 | the script written is `PATH=.packaged_python/<interpreter folder>:$PATH`, a newline, then the startup command |
| Packaged.StartupEntryRelocates | src/packaged/__init__.py:82-84 | resolved from any directory the archive is unpacked into, the script's `PATH` entry names the interpreter's folder inside the unpacked copy |
| Packaged.NormalSlices | src/packaged/__init__.py:57-66 | a tail of a normal path, and its dirname, are normal |
| Environment.TreeRemoved | src/packaged/__init__.py:51-52 | `rmtree` removes the root and everything below it and nothing else, and leaves other files unchanged |
| Environment.TreeCopied | src/packaged/__init__.py:61 | `copytree` keeps everything there was, adds only below the target, and changes no file outside the target |
| Environment.TreeCopiedCopies | src/packaged/__init__.py:61 | every directory and file below the source has its copy below the target, with the same contents and mode |
| Environment.RelocateInjective | src/packaged/__init__.py:61 | distinct paths below the source are copied to distinct places |
| Environment.ApplyCall | src/packaged/__init__.py:71-102 | the provisioner and the subprocesses leave the modelled filesystem alone |
| Environment.ApplyWroteFile | src/packaged/__init__.py:82-84 | opening a non-directory for writing leaves a file holding the text |
| Environment.ApplyMadeExecutable | src/packaged/__init__.py:86 | `chmod` sets a file executable and keeps its contents |
| Environment.Host.MakeTempDir | src/packaged/__init__.py:42 | the host makes the directory and records the call |
| Environment.Host.RemoveTree | src/packaged/__init__.py:51-52 | reports success exactly when the path is a directory, changes the host as `Apply` says and records the call |
| Environment.Host.CopyTree | src/packaged/__init__.py:61 | reports success exactly when the source is a directory and the target does not exist, changes the host as `Apply` says and records the call |
| Environment.Host.WriteFile | src/packaged/__init__.py:82-84 | fails exactly on a directory; otherwise the file holds the text and keeps its mode |
| Environment.Host.MakeExecutable | src/packaged/__init__.py:86 | fails exactly when the path does not exist; changes the host as `Apply` says |
| Environment.Host.RemoveFile | src/packaged/__init__.py:106 | fails exactly when the path is not a file; otherwise the file is gone |
| Environment.Host.Call | src/packaged/__init__.py:71-102 | a provisioner or subprocess call is recorded and changes nothing |
| Environment.Succeeds | src/packaged/__init__.py:51-106 | no contract: `rmtree` needs a directory, `copytree` a source directory and an absent target, `open(..., "w")` a non-directory, `chmod` an existing path, `os.remove` a file; the `Host` methods are proved to report exactly this |
| Environment.Apply | src/packaged/__init__.py:51-108 | no contract: what each call does to the filesystem, nothing when it raises; `ApplyCall`, `ApplyWroteFile`, `ApplyMadeExecutable`, `TreeRemoved` and `TreeCopied` are proved about it |
| Environment.Replay | src/packaged/__init__.py:33-108 | no contract: the calls applied in order; `PackageReplays` proves the pipeline's filesystem is the replay of its calls |
| Environment.ClimbsThroughDirs | src/packaged/__init__.py:44 | no contract: every directory a `..` climbs out of exists as a directory; `ClimbsWithoutDots` and `DotDotThroughMissing` are proved about it |
| Environment.IsDir | src/packaged/__init__.py:44 | no contract: `os.path.isdir`, false for `""`, with every `..` climbing out of a directory; `IsDirRendered` and `EmptySourceNotFound` are proved about it |
| Environment.IsFile | src/packaged/config.py:32-34 | no contract: `os.path.isfile`, looked up like `IsDir`; `ConfigFileAt` is proved about it |
| Environment.ClimbsWithoutDots | src/packaged/__init__.py:44 | a path with no `..` piece never fails the climbing part of the check |
| Environment.IsDirRendered | src/packaged/__init__.py:44 | for the absolute string of a normal path, `isdir` holds exactly when that path is a directory |
| Paths.Split | src/packaged/__init__.py:48-50 | splitting on `/` gives at least one piece |
| Paths.SplitNoSlash | src/packaged/__init__.py:48-50 | no piece of a split holds a `/` |
| Paths.SplitWithoutSlash | src/packaged/__init__.py:48-50 | a string without `/` splits into itself alone |
| Paths.SplitAtSlash | src/packaged/__init__.py:48-50 | splitting `a/b` gives the pieces of `a` followed by the pieces of `b` |
| Paths.SplitJoinSegments | src/packaged/__init__.py:83 | splitting a `/`-joined list of slash-free segments gives the list back |
| Paths.AbsPathJoin | src/packaged/__init__.py:48-57 | `abspath(join(a, b))` for a relative `b` is `b` walked from `abspath(a)` |
| Paths.AbsPathJoinName | src/packaged/__init__.py:48-50 | joining a plain name adds exactly that segment |
| Paths.AbsPathJoinDotName | src/packaged/config.py:29-34 | joining `./name` for a plain name adds exactly that segment |
| Paths.AbsPathJoinAfterSlash | src/packaged/__init__.py:48-57 | when `a` ends in `/`, `abspath(join(a, b))` for a relative `b` is `b` walked from `abspath(a)` |
| Paths.AbsPathJoinInsertSlash | src/packaged/__init__.py:48-57 | when `a` does not end in `/`, `join` inserts one and the same holds |
| Paths.ResolveAcrossSlash | src/packaged/__init__.py:48-50 | walking the pieces of `a/b` is walking those of `a`, then those of `b` |
| Paths.ResolveTrailingSlash | src/packaged/__init__.py:48-50 | a trailing `/` does not change where a path leads |
| Paths.AbsPath | src/packaged/config.py:51 | no contract: `os.path.abspath`, normalization against the working directory; `AbsPathNormal`, `AbsPathJoin` and `RenderRoundTrip` are proved about it |
| Paths.Render | src/packaged/config.py:51 | no contract: the string `abspath` returns for a path; `RenderRoundTrip` and `RenderSplit` are proved about it |
| Paths.Join | src/packaged/__init__.py:48-50 | no contract: two-argument `os.path.join`; `AbsPathJoin`, `AbsPathJoinName`, `AbsPathJoinDotName` and `JoinNoDots` are proved about it |
| Paths.RelPath | src/packaged/__init__.py:58 | no contract: `os.path.relpath`, climbing to the common prefix and descending; `RelPathRoundTrip` and `RelPathBelow` are proved about it |
| Paths.Dirname | src/packaged/__init__.py:65 | no contract: `os.path.dirname` of a relative path; `BelowRoot` and `StagedFolderRelative` are proved about it |
| Paths.RenderSplit | src/packaged/config.py:51 | splitting an absolute path's string gives "" for the root and then its segments, and no piece is `..` |
| Paths.JoinNoDots | src/packaged/config.py:34 | joining two strings without `..` pieces gives a non-empty string without `..` pieces |
| Paths.RenderRoundTrip | src/packaged/config.py:51 | the absolute path string produced by `abspath` resolves back to the same path from any directory |
| Paths.AbsPathNormal | src/packaged/config.py:51 | `abspath` yields a normal path |
| Paths.RelPathRoundTrip | src/packaged/__init__.py:57-67 | walking `relpath(target, base)` from `base` reaches `target` |
| Paths.RelPathBelow | src/packaged/__init__.py:57-67 | `relpath` of a path below the base is the part below it |
| Paths.RelativeResolves | src/packaged/__init__.py:83 | a relative path written out as a string resolves back to its segments from any directory |
| Paths.CommonPrefixLength | src/packaged/__init__.py:57-67 | the length of the longest common prefix of two paths |
| Paths.ResolveConcat | src/packaged/__init__.py:48-50 | walking two segment lists in turn is walking their concatenation |
| Paths.ResolvePlain | src/packaged/__init__.py:48-50 | walking plain segments appends them |
| Paths.ResolveDots | src/packaged/__init__.py:57-67 | walking `j` `..` segments drops `j` trailing segments |
| Paths.Dots | src/packaged/__init__.py:57-67 | `n` segments, each `..` |
| Paths.ResolveNormal | src/packaged/config.py:51 | walking any segments from a normal path gives a normal path |
| Configuration.ConfigFileLocation | src/packaged/config.py:29-34 | the file looked for, the directory joined with `./packaged.toml`, is the directory itself followed by `packaged.toml` |
| Configuration.ConfigFileExists | src/packaged/config.py:32-34 | no contract: `isfile(join(d, "./packaged.toml"))`; `ConfigFileAt` and `ConfigFileLocation` are proved about it |
| Configuration.ConfigFileAt | src/packaged/config.py:32-34 | for a directory string without `..`, such as any absolute path, the configuration file exists exactly when `packaged.toml` is a file directly in that directory |
| Configuration.ConfigNameNoDots | src/packaged/config.py:29 | `./packaged.toml` is relative and has no `..` piece |
| Configuration.ParseConfig | src/packaged/config.py:37-60 | succeeds exactly when all three required keys are present; the result has the directory made absolute and the three values from the table; otherwise the error names the first missing key, in the order output, build, startup |
| Configuration.OtherKeysIgnored | src/packaged/config.py:39-55 | adding or changing any other key, `source_directory` included, changes nothing |
| Configuration.ConfigSourceIsArgument | src/packaged/config.py:51 | the parsed source directory is the given directory, never a value read from the file, and it names that directory wherever it is resolved from |
| Cli.Scan | src/packaged/cli.py:51-72 | the positionals found are the earlier ones followed by tokens of the input, and an unknown option stays recorded |
| Cli.ParseArgs | src/packaged/cli.py:51-72 | succeeds exactly when the scan completes with no unknown option and three or four positionals; the positionals become output, build and startup in order, a fourth gives a source directory, and the version is the last one `--python-version` gave, otherwise "3.12"; a completed scan that fails is a usage error; a success saw no `-h` or `--help` |
| Cli.LooksLikeOption | src/packaged/cli.py:72 | no contract: argparse's test for an option token; `OptionsLookLikeOptions` and `NoDashPositional` are proved about it |
| Cli.ScanVersionOption | src/packaged/cli.py:66-71 | `--python-version V` sets the version to `V` and scanning goes on after it |
| Cli.ScanVersionAssignment | src/packaged/cli.py:66-71 | `--python-version=V` is read as that option and sets the version to `V` |
| Cli.VersionOptionCall | src/packaged/cli.py:66-82 | three plain arguments and `--python-version V` call `create_package` with no source directory, those three strings and `V` |
| Cli.VersionElevenCall | src/packaged/cli.py:66-82 | `./foo`, `pip install foo`, `python -m foo`, `--python-version`, `3.11` call `create_package` with version "3.11" |
| Cli.ScanHelpFirst | src/packaged/cli.py:51-72 | a scan that completes met no help option |
| Cli.ScanPlain | src/packaged/cli.py:51-72 | plain tokens are all taken as positionals, in order |
| Cli.ScanPositional | src/packaged/cli.py:51-72 | a token that is not an option is appended to the positionals, and the scan goes on with the rest |
| Cli.NoDashPositional | src/packaged/cli.py:51-72 | a token not starting with `-` is a positional |
| Cli.OptionsLookLikeOptions | src/packaged/cli.py:51-72 | `-h`, `--help` and `--python-version` are read as options |
| Cli.PositionalArguments | src/packaged/cli.py:52-72 | three plain arguments give no source directory and version "3.12"; a fourth is made absolute |
| Cli.Decide | src/packaged/cli.py:38-82 | Windows gives 2; with the configuration file, a missing key gives 3 and a valid table calls `create_package` with its values; its own early exits are only 2 or 3 |
| Cli.Finish | src/packaged/cli.py:75-90 | returns exactly on success, `SourceDirectoryNotFound` and `PythonNotAvailable`: 0 exactly on success, 4 for `SourceDirectoryNotFound`, 5 for `PythonNotAvailable`; any other exception propagates unchanged |
| Cli.UsesConfigFile | src/packaged/cli.py:42 | no contract: one argument naming a directory with a configuration file; `Decide`, `InvalidConfigExits3` and `ConfigBranchOnlyWithConfigFile` are proved about it |
| Cli.ConfigOf | src/packaged/cli.py:73 | no contract: `Config(**vars(args))` with `python_version` among the fields; `ThreeArgumentsCall` and `VersionOptionCall` are proved through it |
| Cli.RequestOf | src/packaged/cli.py:75-82 | no contract: the five arguments `create_package` is called with, taken from the configuration; `Decide` and `ExitCodesOfPackage` are proved through it |
| Cli.Run | src/packaged/cli.py:31-90 | a returned code is one of 0, 2, 3, 4, 5; an argparse exit is 0 or 2 |
| Cli.ExitCodesOfPackage | src/packaged/cli.py:75-90 | run against `create_package`, the exit code is 4 exactly when `isdir` of the source is false and 0 exactly when the package was built |
| Cli.CliSourceIsAbsolute | src/packaged/cli.py:59-77 | through `cli`, a source directory is always the absolute string of a normal path, so `isdir` of it is plain membership of that path |
| Cli.WindowsRefused | src/packaged/cli.py:38-40 | on Windows the result is 2, whatever the arguments, files and pipeline |
| Cli.InvalidConfigExits3 | src/packaged/cli.py:42-48 | a configuration missing a required key gives 3 and `create_package` is not called |
| Cli.ConfigBranchOnlyWithConfigFile | src/packaged/cli.py:42-73 | outside the configuration branch the table does not matter and any call comes from a successful argument parse |
| Cli.LoneArgumentWithoutConfig | src/packaged/cli.py:42-72 | one argument that is not a directory with a configuration file is a usage error (exit 2) |
| Cli.ThreeArgumentsCall | src/packaged/cli.py:52-82 | `./foo`, `pip install foo`, `python -m foo` call `create_package` with no source directory, those three strings and "3.12" (the test expects no version argument; see above) |
| Cli.FourArguments | src/packaged/cli.py:59-65 | a fourth argument `./name` becomes the absolute path of `name` in the working directory |
| Cli.DotName | src/packaged/cli.py:59-65 | the absolute path of `./name` is the working directory followed by `name` |
| Cli.FourArgumentsCall | src/packaged/cli.py:59-82 | `./bar …` `./mypackage` calls `create_package` with output `./bar` and the absolute path of `mypackage` |
| Cli.RenderEndsWithName | src/packaged/cli.py:62 | the absolute path of a name ends in `/` and that name |
| Cli.DecideAsWritten | src/packaged/cli.py:73-81 | as written, `cli` never calls `create_package`: it crashes exactly where the intended version would call it |
| Cli.AsWrittenNeverPackages | src/packaged/cli.py:73 | on the test's three arguments the as-written `cli` raises `TypeError`, while the intended one calls `create_package` |
| BubbleSortCurve.Passes | example/bubble_sort_curve.py:16-19 | with no `steps`, `len(data)` passes; a count that is zero or negative gives none; otherwise that many |
| BubbleSortCurve.BubblePass | example/bubble_sort_curve.py:20-22 | one pass is a permutation, touches nothing after `hi`, leaves the largest of the first `hi + 1` elements at `hi`, and changes nothing in a sorted list |
| BubbleSortCurve.SwapIfGreater | example/bubble_sort_curve.py:21-22 | the comparison and swap: a permutation that changes only positions `i` and `i + 1`, leaves the larger value at `i + 1`, and does nothing to an ordered pair |
| BubbleSortCurve.SortPasses | example/bubble_sort_curve.py:16-22 | the outer loop: after `p` passes, a permutation whose last `min(p, len)` elements are sorted and none smaller than an earlier element; a sorted list is unchanged |
| BubbleSortCurve.BubblesortSteps | example/bubble_sort_curve.py:10-22 | the result is a permutation of the input; its last `min(passes, len)` elements are sorted and none is smaller than an earlier element; with no `steps`, or `len - 1` of them, the whole list is sorted; a sorted list is unchanged |
| BubbleSortCurve.PassGrowsTail | example/bubble_sort_curve.py:19-22 | a pass that leaves the largest of the unsorted part at its end grows the sorted, partitioned tail by one |
| BubbleSortCurve.NextPass | example/bubble_sort_curve.py:19-22 | a pass that keeps the tail and leaves the largest of the unsorted part at its end takes the sorted tail from `min(it, len)` to `min(it + 1, len)` |
| BubbleSortCurve.SortedWhenTailCovers | example/bubble_sort_curve.py:16-22 | a sorted, partitioned tail starting at index 0 or 1 makes the whole list sorted |
| BubbleSortCurve.PrefixPermutedKeepsPartition | example/bubble_sort_curve.py:21-22 | reordering the unsorted part keeps it below the sorted tail |

Some helpers have no row because they only spell out paths.
`Packaged.SourceOf`, `SourceDir`, `StagingPath`, `ScriptPath` and
`InterpreterRelPath` are the path expressions of
src/packaged/__init__.py:41-58. `Paths.JoinSegments`, `Visit`, `Resolve`,
`Origin` and `RenderRelative` are the internals of Python's `posixpath`
(`"/".join`, `normpath`, the choice between the root and the working
directory, and `relpath`'s "." for an empty result).

## Left out

- The build command's own effects on the filesystem, for example `pip` installing into the staged runtime, are not modelled. The build and makeself are represented only by their exit statuses.
- What makeself produces, its archive format, and the contents of `makeself.sh`.
- How `yen` resolves and downloads a version, and where `PYTHON_INSTALLS_PATH` is. Its answer and the install root are inputs. `StartupScriptText`, `StagedInterpreterFirstOnPath`, `BinFolderRelative` and `StartupEntryRelocates` assume that the interpreter `yen` returns lies strictly below its install root (`InstallRoot(w) < InterpreterPath(w)`) and that the working directory is a normal path. The model does not force `yen` to answer that way.
- The file contents `copytree` copies are carried over unchanged, but not inspected. `chmod` is modelled only as the executable bit. The name `mkdtemp` picks is an input. `TempDirectoryPassesCheck` takes it to be the absolute string of a normal path, as `mkdtemp` returns. The model does not require that directory to be new and empty: `Prologue` applies `MadeTempDir` even where something already exists at that path.
- Symbolic links, permissions, and `os.path.normpath` keeping a leading `//`.
- Packaged.Package: after the directory check, the later paths (the staging tree, the script, the `exists` checks) are resolved lexically from the source string. A source whose `..` climbs out of a directory the pipeline itself removes, such as `d/.packaged_python/..`, is not modelled: the model keeps resolving it to `d` after `rmtree` has removed `d/.packaged_python`.
- `IsDir` and `IsFile` check the directories a `..` climbs out of and the place reached, not each named component on the way. This matches the operating system on a filesystem where every directory's parent is a directory; `Environment.Tree` does not enforce that.
- TOML decoding. The table is given already decoded, as strings. The configuration file vanishing or becoming unreadable between the existence check and the `open` is not modelled.
- The `print` in `error()` and its colour codes; `platform.system()` is an input; `cli()` defaulting to `sys.argv[1:]`.
- Cli.ParseArgs: models three positionals, an optional fourth, `--python-version V`, `--python-version=V`, `-h`/`--help` and unknown options. It does not model argparse's prefix abbreviations, `--`, negative-number tokens, or its grouping of interleaved optionals and positionals. It also does not model the precedence among several usage errors, since all of them exit with 2.
- Concurrent runs on the same source directory. The code takes no lock.
- `main()` of `example/bubble_sort_curve.py` (randomness, plotting), `example/mandelbrot/mandelbrot.py`, `src/packaged/__main__.py`, the test helpers in `tests/conftest.py` and `tests/end_to_end/test_packages/configtest/configtest.py`.
- BubbleSortCurve.BubblesortSteps: the list holds integers, whereas the source compares any values that support `>`.

## Findings

| source | as written | input that shows it | evidently intended | confidence | as-written member | corrected member |
|---|---|---|---|---|---|---|
| src/packaged/cli.py:73,81 and src/packaged/config.py:21-26 | `Config` has four fields and no `python_version`. `Config(**vars(args))` passes `python_version` (a `TypeError`), and `config.python_version` is read from a parsed configuration (an `AttributeError`). So `cli` never reaches `create_package`. | `cli(["./foo", "pip install foo", "python -m foo"])`, the first command-line test | `Config` carries `python_version`, defaulting to "3.12" for a configuration file, and it is passed on to `create_package` | high, not executed | Cli.DecideAsWritten, Cli.AsWrittenNeverPackages | Configuration.ParseConfig, Cli.Decide, Cli.VersionOptionCall |
