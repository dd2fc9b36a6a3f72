/** The machine `create_package` acts on: a filesystem of directories and
    regular files, plus the calls it makes to the outside world (the runtime
    provisioner and two subprocesses). Every call is recorded as a `Step`;
    `Apply` says what a step does to the filesystem and `Succeeds` whether the
    call returns or raises. A call that raises leaves the filesystem as it was. */
module Environment {
  import opened Paths

  datatype File = File(content: string, executable: bool)

  datatype Tree = Tree(dirs: set<Path>, files: map<Path, File>)

  /** `os.path.exists` */
  predicate Exists(t: Tree, p: Path) {
    p in t.dirs || p in t.files
  }

  /** Every directory a ".." in `segs` climbs out of, walking from `acc`, is
      a directory of `t`: the operating system looks each component up in
      turn, so `m/../d` fails when `m` is missing or a file even though it
      normalizes to `d`. */
  predicate ClimbsThroughDirs(t: Tree, acc: Path, segs: seq<string>)
    decreases |segs|
  {
    segs == [] ||
    ((segs[0] == ".." ==> acc in t.dirs) && ClimbsThroughDirs(t, Visit(acc, segs[0]), segs[1..]))
  }

  /** `os.path.isdir(s)` with working directory `cwd`: the empty string names
      nothing, every ".." climbs out of a directory, and the place reached is
      a directory. Intermediate named components are not looked up again: in a
      tree where every directory's parent is a directory, the place reached
      being a directory already implies it. */
  predicate IsDir(t: Tree, cwd: Path, s: string) {
    s != "" && ClimbsThroughDirs(t, Origin(cwd, s), Split(s)) && AbsPath(cwd, s) in t.dirs
  }

  /** `os.path.isfile(s)`, looked up the same way as `IsDir`. */
  predicate IsFile(t: Tree, cwd: Path, s: string) {
    s != "" && ClimbsThroughDirs(t, Origin(cwd, s), Split(s)) && AbsPath(cwd, s) in t.files
  }

  lemma {:induction false} ClimbsWithoutDots(t: Tree, acc: Path, segs: seq<string>)
    requires NoDots(segs)
    ensures ClimbsThroughDirs(t, acc, segs)
    decreases |segs|
  {
    if segs != [] {
      ClimbsWithoutDots(t, Visit(acc, segs[0]), segs[1..]);
    }
  }

  /** For an absolute path in normal form, the string `abspath` returns, the
      check is exactly membership: this is the only form `cli` passes on. */
  lemma IsDirRendered(t: Tree, cwd: Path, p: Path)
    requires Normal(p)
    ensures IsDir(t, cwd, Render(p)) <==> p in t.dirs
  {
    RenderRoundTrip(cwd, p);
    RenderSplit(p);
    ClimbsWithoutDots(t, [], Split(Render(p)));
  }

  /** `shutil.rmtree(root)` on a directory: `root` and everything below it go. */
  function TreeRemoved(t: Tree, root: Path): (r: Tree)
    ensures forall p :: Exists(r, p) <==> Exists(t, p) && !(root <= p)
    ensures forall p :: p in r.files ==> p in t.files && r.files[p] == t.files[p]
    ensures forall p :: p in r.dirs ==> p in t.dirs
  {
    Tree(set p | p in t.dirs && !(root <= p),
         map p | p in t.files && !(root <= p) :: t.files[p])
  }

  /** The place `p` (below `source`) is copied to below `target`. */
  function Relocate(p: Path, source: Path, target: Path): Path
    requires source <= p
  {
    target + p[|source|..]
  }

  lemma RelocateInjective(source: Path, target: Path)
    ensures forall p, q {:trigger Relocate(p, source, target), Relocate(q, source, target)} ::
              source <= p && source <= q && Relocate(p, source, target) == Relocate(q, source, target) ==> p == q
  {
    forall p, q | source <= p && source <= q && Relocate(p, source, target) == Relocate(q, source, target)
      ensures p == q
    {
      assert p[|source|..] == Relocate(p, source, target)[|target|..];
      assert q[|source|..] == Relocate(q, source, target)[|target|..];
      assert p == source + p[|source|..];
      assert q == source + q[|source|..];
    }
  }

  /** `shutil.copytree(source, target)`: `target` becomes a directory holding a
      copy of every directory and file below `source` (permission bits
      included); nothing that was there before is lost, and everything new
      lies below `target` (`TreeCopiedCopies` says what arrives there). */
  function TreeCopied(t: Tree, source: Path, target: Path): (r: Tree)
    ensures t.dirs <= r.dirs && t.files.Keys <= r.files.Keys
    ensures forall q :: q in r.dirs ==> q in t.dirs || target <= q
    ensures forall q :: q in r.files && !(target < q) ==> q in t.files && r.files[q] == t.files[q]
  {
    RelocateInjective(source, target);
    var copiedDirs := set p | p in t.dirs && source <= p :: Relocate(p, source, target);
    var copiedFiles := map p | p in t.files && source < p :: Relocate(p, source, target) := t.files[p];
    Tree(t.dirs + copiedDirs, t.files + copiedFiles)
  }

  /** Every directory and every file below `source` has its copy below
      `target`, with the same contents and mode. */
  lemma TreeCopiedCopies(t: Tree, source: Path, target: Path, p: Path)
    requires source <= p
    ensures p in t.dirs ==> Relocate(p, source, target) in TreeCopied(t, source, target).dirs
    ensures p in t.files && p != source ==>
              var r := TreeCopied(t, source, target);
              Relocate(p, source, target) in r.files && r.files[Relocate(p, source, target)] == t.files[p]
  {
    RelocateInjective(source, target);
  }

  /** The calls `create_package` makes, in the order it makes them. */
  datatype Step =
    | MadeTempDir(path: Path)                       // tempfile.mkdtemp()
    | RemovedTree(path: Path)                       // shutil.rmtree(path)
    | CopiedTree(source: Path, target: Path)        // shutil.copytree(source, target)
    | WroteFile(path: Path, text: string)           // open(path, "w") and write
    | MadeExecutable(path: Path)                    // os.chmod(path, 0o777)
    | RemovedFile(path: Path)                       // os.remove(path)
    | AskedRuntime(version: string)                 // yen.ensure_python(version)
    | RanBuild(args: seq<string>, cwd: string, env: map<string, string>)
                                                    // subprocess.check_call(args, shell=True, env=env, cwd=cwd)
    | RanMakeself(argv: seq<string>)                // subprocess.check_call(argv)

  /** Whether a filesystem call returns normally on `t` (the outcome of the
      provisioner and of the subprocesses is decided by the outside world). */
  predicate Succeeds(t: Tree, s: Step) {
    match s
    case RemovedTree(p) => p in t.dirs
    case CopiedTree(source, target) => source in t.dirs && !Exists(t, target)
    case WroteFile(p, _) => p !in t.dirs
    case MadeExecutable(p) => Exists(t, p)
    case RemovedFile(p) => p in t.files
    case _ => true
  }

  /** What a call does to the filesystem. */
  function Apply(t: Tree, s: Step): Tree {
    if !Succeeds(t, s) then t
    else match s
      case MadeTempDir(p) => Tree(t.dirs + {p}, t.files)
      case RemovedTree(p) => TreeRemoved(t, p)
      case CopiedTree(source, target) => TreeCopied(t, source, target)
      case WroteFile(p, text) =>
        // opening with "w" truncates an existing file and keeps its mode
        Tree(t.dirs, t.files[p := File(text, p in t.files && t.files[p].executable)])
      case MadeExecutable(p) =>
        if p in t.files then Tree(t.dirs, t.files[p := t.files[p].(executable := true)]) else t
      case RemovedFile(p) => Tree(t.dirs, t.files - {p})
      case _ => t
  }

  /** Calls to the provisioner and to subprocesses leave the filesystem alone. */
  lemma ApplyCall(t: Tree, s: Step)
    requires s.AskedRuntime? || s.RanBuild? || s.RanMakeself?
    ensures Apply(t, s) == t
  {
  }

  /** Writing a file that is not a directory leaves it holding the text. */
  lemma ApplyWroteFile(t: Tree, p: Path, text: string)
    requires p !in t.dirs
    ensures p in Apply(t, WroteFile(p, text)).files
    ensures Apply(t, WroteFile(p, text)).files[p].content == text
  {
  }

  /** `chmod` on a file sets it executable and keeps its contents. */
  lemma ApplyMadeExecutable(t: Tree, p: Path)
    requires p in t.files
    ensures p in Apply(t, MadeExecutable(p)).files
    ensures Apply(t, MadeExecutable(p)).files[p] == File(t.files[p].content, true)
  {
  }

  /** The filesystem after the calls `steps`, made in order, starting from `t`. */
  function Replay(t: Tree, steps: seq<Step>): Tree
    decreases |steps|
  {
    if steps == [] then t else Apply(Replay(t, steps[..|steps| - 1]), steps[|steps| - 1])
  }

  /** The host as a mutable object: its directories and files change in place,
      and `trace` keeps the calls made so far. */
  class Host {
    var dirs: set<Path>
    var files: map<Path, File>
    ghost var trace: seq<Step>

    function State(): Tree
      reads this
    {
      Tree(dirs, files)
    }

    constructor (t: Tree)
      ensures State() == t && trace == []
    {
      dirs := t.dirs;
      files := t.files;
      trace := [];
    }

    method MakeTempDir(p: Path)
      modifies this
      ensures State() == Apply(old(State()), MadeTempDir(p))
      ensures trace == old(trace) + [MadeTempDir(p)]
    {
      dirs := dirs + {p};
      trace := trace + [MadeTempDir(p)];
    }

    method RemoveTree(p: Path) returns (ok: bool)
      modifies this
      ensures ok == Succeeds(old(State()), RemovedTree(p))
      ensures State() == Apply(old(State()), RemovedTree(p))
      ensures trace == old(trace) + [RemovedTree(p)]
    {
      ok := p in dirs;
      if ok {
        var r := TreeRemoved(State(), p);
        dirs, files := r.dirs, r.files;
      }
      trace := trace + [RemovedTree(p)];
    }

    method CopyTree(source: Path, target: Path) returns (ok: bool)
      modifies this
      ensures ok == Succeeds(old(State()), CopiedTree(source, target))
      ensures State() == Apply(old(State()), CopiedTree(source, target))
      ensures trace == old(trace) + [CopiedTree(source, target)]
    {
      ok := source in dirs && target !in dirs && target !in files;
      if ok {
        var r := TreeCopied(State(), source, target);
        dirs, files := r.dirs, r.files;
      }
      trace := trace + [CopiedTree(source, target)];
    }

    method WriteFile(p: Path, text: string) returns (ok: bool)
      modifies this
      ensures ok == Succeeds(old(State()), WroteFile(p, text))
      ensures State() == Apply(old(State()), WroteFile(p, text))
      ensures trace == old(trace) + [WroteFile(p, text)]
    {
      ok := p !in dirs;
      if ok {
        var keep := p in files && files[p].executable;
        files := files[p := File(text, keep)];
      }
      trace := trace + [WroteFile(p, text)];
    }

    method MakeExecutable(p: Path) returns (ok: bool)
      modifies this
      ensures ok == Succeeds(old(State()), MadeExecutable(p))
      ensures State() == Apply(old(State()), MadeExecutable(p))
      ensures trace == old(trace) + [MadeExecutable(p)]
    {
      ok := p in dirs || p in files;
      if p in files {
        files := files[p := files[p].(executable := true)];
      }
      trace := trace + [MadeExecutable(p)];
    }

    method RemoveFile(p: Path) returns (ok: bool)
      modifies this
      ensures ok == Succeeds(old(State()), RemovedFile(p))
      ensures State() == Apply(old(State()), RemovedFile(p))
      ensures trace == old(trace) + [RemovedFile(p)]
    {
      ok := p in files;
      if ok {
        files := files - {p};
      }
      trace := trace + [RemovedFile(p)];
    }

    /** A call to the provisioner or a subprocess: recorded, the filesystem
        untouched (what the build itself writes is not modelled). */
    method Call(s: Step)
      requires s.AskedRuntime? || s.RanBuild? || s.RanMakeself?
      modifies this
      ensures State() == old(State()) && State() == Apply(old(State()), s)
      ensures trace == old(trace) + [s]
    {
      trace := trace + [s];
    }
  }
}
