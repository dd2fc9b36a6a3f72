/** POSIX path arithmetic as the pipeline uses it through Python's `os.path`:
    splitting on '/', `abspath` (lexical normalization against a working
    directory), `join`, `dirname` and `relpath`.

    A resolved path is a list of segments below the root "/": `["a", "b"]` is
    "/a/b" and `[]` is "/". Strings stay strings wherever Python keeps them
    (a source directory as typed, the PATH entry given to the build); `AbsPath`
    turns such a string into the place it names after lexical normalization.
    That is where the operating system arrives too, provided the empty string
    is not used and every ".." climbs out of an existing directory, which is
    what `Environment.IsDir` checks. */
module Paths {

  type Path = seq<string>

  /** A segment that normalization keeps unchanged. */
  predicate Plain(seg: string) {
    seg != "" && seg != "." && seg != ".." && '/' !in seg
  }

  /** A path in normal form: every segment is plain. */
  predicate Normal(p: Path) {
    forall i :: 0 <= i < |p| ==> Plain(p[i])
  }

  predicate NoSlash(segs: seq<string>) {
    forall i :: 0 <= i < |segs| ==> '/' !in segs[i]
  }

  /** `s.split("/")`: always at least one piece (`SplitNoSlash`: none holds a '/'). */
  function Split(s: string): (r: seq<string>)
    ensures |r| >= 1
    decreases |s|
  {
    if s == [] then [""]
    else if s[0] == '/' then [""] + Split(s[1..])
    else
      var rest := Split(s[1..]);
      [[s[0]] + rest[0]] + rest[1..]
  }

  /** `"/".join(segs)` */
  function JoinSegments(segs: seq<string>): string
    decreases |segs|
  {
    if |segs| == 0 then ""
    else if |segs| == 1 then segs[0]
    else segs[0] + "/" + JoinSegments(segs[1..])
  }

  /** One segment of `normpath` on an absolute path: "" and "." vanish, ".."
      climbs one level and never above the root, anything else descends. */
  function Visit(acc: Path, seg: string): Path {
    if seg == "" || seg == "." then acc
    else if seg == ".." then (if acc == [] then [] else acc[..|acc| - 1])
    else acc + [seg]
  }

  /** Walks `segs` from the directory `acc`. */
  function Resolve(acc: Path, segs: seq<string>): Path
    decreases |segs|
  {
    if segs == [] then acc else Resolve(Visit(acc, segs[0]), segs[1..])
  }

  /** Where resolving `s` starts: the root for an absolute string, the
      working directory otherwise. */
  function Origin(cwd: Path, s: string): Path {
    if |s| > 0 && s[0] == '/' then [] else cwd
  }

  /** `os.path.abspath(s)` with working directory `cwd`. */
  function AbsPath(cwd: Path, s: string): Path {
    Resolve(Origin(cwd, s), Split(s))
  }

  /** The string spelling of an absolute path. */
  function Render(p: Path): string {
    "/" + JoinSegments(p)
  }

  /** The string `os.path.relpath` returns for a relative segment list. */
  function RenderRelative(segs: seq<string>): string {
    if segs == [] then "." else JoinSegments(segs)
  }

  /** `os.path.join(a, b)` for two arguments. */
  function Join(a: string, b: string): string {
    if |b| > 0 && b[0] == '/' then b
    else if a == "" || a[|a| - 1] == '/' then a + b
    else a + "/" + b
  }

  /** `os.path.dirname` of a relative path produced by `relpath`: every
      segment but the last ("" when there is only one). */
  function Dirname(segs: seq<string>): seq<string> {
    if segs == [] then [] else segs[..|segs| - 1]
  }

  function Dots(n: nat): (r: seq<string>)
    ensures |r| == n && forall i :: 0 <= i < n ==> r[i] == ".."
  {
    seq(n, _ => "..")
  }

  /** Length of the longest common prefix, segment by segment. */
  function CommonPrefixLength(a: Path, b: Path): (c: nat)
    ensures c <= |a| && c <= |b|
    ensures a[..c] == b[..c]
    ensures c < |a| && c < |b| ==> a[c] != b[c]
    decreases |a|
  {
    if a == [] || b == [] || a[0] != b[0] then 0
    else 1 + CommonPrefixLength(a[1..], b[1..])
  }

  /** `os.path.relpath(target, base)` on resolved paths: climb out of `base`
      to the common prefix, then descend to `target`. `[]` stands for ".". */
  function RelPath(target: Path, base: Path): Path {
    var c := CommonPrefixLength(target, base);
    Dots(|base| - c) + target[c..]
  }

  // ---------------------------------------------------------------------
  // Splitting and joining strings

  lemma {:induction false} SplitWithoutSlash(s: string)
    requires '/' !in s
    ensures Split(s) == [s]
    decreases |s|
  {
    if s != [] {
      SplitWithoutSlash(s[1..]);
      assert [s[0]] + s[1..] == s;
    }
  }

  /** One step of `Split`: a leading '/' starts a new piece, any other
      character joins the first piece of the rest. */
  lemma SplitCons(c: char, t: string)
    ensures c == '/' ==> Split([c] + t) == [""] + Split(t)
    ensures c != '/' ==> Split([c] + t) == [[c] + Split(t)[0]] + Split(t)[1..]
  {
    assert ([c] + t)[0] == c && ([c] + t)[1..] == t;
  }

  /** The list algebra behind `SplitAtSlash`, kept apart from `Split`. */
  lemma PiecesAppend(c: char, h: seq<string>, y: seq<string>)
    requires |h| >= 1
    ensures [""] + (h + y) == ([""] + h) + y
    ensures [[c] + (h + y)[0]] + (h + y)[1..] == ([[c] + h[0]] + h[1..]) + y
  {
    assert (h + y)[0] == h[0];
    assert (h + y)[1..] == h[1..] + y;
  }

  lemma {:induction false} SplitAtSlash(a: string, b: string)
    ensures Split(a + "/" + b) == Split(a) + Split(b)
    decreases |a|
  {
    if a == [] {
      assert a + "/" + b == ['/'] + b;
      SplitCons('/', b);
    } else {
      var t := a[1..];
      assert a == [a[0]] + t;
      assert a + "/" + b == [a[0]] + (t + "/" + b);
      SplitAtSlash(t, b);
      SplitCons(a[0], t);
      SplitCons(a[0], t + "/" + b);
      PiecesAppend(a[0], Split(t), Split(b));
    }
  }

  /** No piece of `s.split("/")` holds a '/'. */
  lemma {:induction false} SplitNoSlash(s: string)
    ensures NoSlash(Split(s))
    decreases |s|
  {
    if s != [] {
      SplitNoSlash(s[1..]);
      if s[0] != '/' {
        var rest := Split(s[1..]);
        assert forall i :: 1 <= i < |Split(s)| ==> Split(s)[i] == rest[i];
        assert '/' !in [s[0]] + rest[0];
      }
    }
  }

  /** `"/".join` followed by `split("/")` gives the segments back. */
  lemma {:induction false} SplitJoinSegments(segs: seq<string>)
    requires |segs| >= 1 && NoSlash(segs)
    ensures Split(JoinSegments(segs)) == segs
    decreases |segs|
  {
    if |segs| == 1 {
      SplitWithoutSlash(segs[0]);
    } else {
      SplitWithoutSlash(segs[0]);
      SplitJoinSegments(segs[1..]);
      SplitAtSlash(segs[0], JoinSegments(segs[1..]));
      assert [segs[0]] + segs[1..] == segs;
    }
  }

  /** No piece is "..": such a string never climbs out of a directory. */
  predicate NoDots(segs: seq<string>) {
    forall i :: 0 <= i < |segs| ==> segs[i] != ".."
  }

  lemma NoDotsAppend(x: seq<string>, y: seq<string>)
    ensures NoDots(x + y) <==> NoDots(x) && NoDots(y)
  {
    assert forall i :: 0 <= i < |x| ==> (x + y)[i] == x[i];
    assert forall i :: 0 <= i < |y| ==> (x + y)[|x| + i] == y[i];
  }

  /** Joining a relative string without ".." onto one without ".." gives a
      non-empty string without "..". */
  lemma JoinNoDots(a: string, b: string)
    requires b != "" && b[0] != '/' && NoDots(Split(a)) && NoDots(Split(b))
    ensures Join(a, b) != "" && NoDots(Split(Join(a, b)))
  {
    if a == "" {
      assert Join(a, b) == b;
    } else if a[|a| - 1] == '/' {
      var a' := a[..|a| - 1];
      assert a == a' + "/" + "";
      SplitAtSlash(a', "");
      NoDotsAppend(Split(a'), Split(""));
      assert Join(a, b) == a' + "/" + b;
      SplitAtSlash(a', b);
      NoDotsAppend(Split(a'), Split(b));
    } else {
      assert Join(a, b) == a + "/" + b;
      SplitAtSlash(a, b);
      NoDotsAppend(Split(a), Split(b));
    }
  }

  lemma {:induction false} JoinSegmentsStart(segs: seq<string>)
    requires |segs| >= 1 && segs[0] != ""
    ensures |JoinSegments(segs)| > 0 && JoinSegments(segs)[0] == segs[0][0]
  {
  }

  // ---------------------------------------------------------------------
  // Normalization

  lemma {:induction false} ResolveConcat(acc: Path, x: seq<string>, y: seq<string>)
    ensures Resolve(acc, x + y) == Resolve(Resolve(acc, x), y)
    decreases |x|
  {
    if x == [] {
      assert x + y == y;
    } else {
      assert (x + y)[0] == x[0];
      assert (x + y)[1..] == x[1..] + y;
      ResolveConcat(Visit(acc, x[0]), x[1..], y);
    }
  }

  /** Plain segments are simply appended. */
  lemma {:induction false} ResolvePlain(acc: Path, y: seq<string>)
    requires Normal(y)
    ensures Resolve(acc, y) == acc + y
    decreases |y|
  {
    if y != [] {
      ResolvePlain(acc + [y[0]], y[1..]);
      assert acc + [y[0]] + y[1..] == acc + y;
    }
  }

  /** `j` ".." segments climb `j` levels. */
  lemma {:induction false} ResolveDots(acc: Path, j: nat)
    requires j <= |acc|
    ensures Resolve(acc, Dots(j)) == acc[..|acc| - j]
    decreases j
  {
    if j > 0 {
      assert Dots(j)[0] == "..";
      assert Dots(j)[1..] == Dots(j - 1);
      ResolveDots(acc[..|acc| - 1], j - 1);
      assert acc[..|acc| - 1][..|acc| - 1 - (j - 1)] == acc[..|acc| - j];
    }
  }

  lemma {:induction false} ResolveNormal(acc: Path, segs: seq<string>)
    requires Normal(acc) && NoSlash(segs)
    ensures Normal(Resolve(acc, segs))
    decreases |segs|
  {
    if segs != [] {
      ResolveNormal(Visit(acc, segs[0]), segs[1..]);
    }
  }

  /** `abspath` always yields a normal path when the working directory is one. */
  lemma AbsPathNormal(cwd: Path, s: string)
    requires Normal(cwd)
    ensures Normal(AbsPath(cwd, s))
  {
    SplitNoSlash(s);
    ResolveNormal(Origin(cwd, s), Split(s));
  }

  /** The pieces of an absolute path's string: a leading "" for the root,
      then the segments ("" alone for the root itself). */
  lemma RenderSplit(p: Path)
    requires Normal(p)
    ensures Split(Render(p)) == if p == [] then ["", ""] else [""] + p
    ensures NoDots(Split(Render(p)))
  {
    var s := Render(p);
    assert s == "" + "/" + JoinSegments(p);
    SplitAtSlash("", JoinSegments(p));
    if p != [] {
      SplitJoinSegments(p);
    }
  }

  /** Rendering a normal path and resolving the string again is the identity,
      whatever the working directory. */
  lemma RenderRoundTrip(cwd: Path, p: Path)
    requires Normal(p)
    ensures AbsPath(cwd, Render(p)) == p
  {
    var s := Render(p);
    RenderSplit(p);
    assert |s| > 0 && s[0] == '/';
    if p == [] {
      var pieces := ["", ""];
      assert pieces[1..] == [""];
      assert Resolve([], pieces) == Resolve([], [""]) == Resolve([], []);
    } else {
      assert ([""] + p)[1..] == p;
      ResolvePlain([], p);
    }
  }

  /** Resolving across a '/' resolves the left part first. */
  lemma ResolveAcrossSlash(from: Path, a: string, b: string)
    ensures Resolve(from, Split(a + "/" + b)) == Resolve(Resolve(from, Split(a)), Split(b))
  {
    SplitAtSlash(a, b);
    ResolveConcat(from, Split(a), Split(b));
  }

  /** A trailing '/' changes nothing once resolved. */
  lemma ResolveTrailingSlash(from: Path, a: string)
    ensures Resolve(from, Split(a + "/")) == Resolve(from, Split(a))
  {
    assert a + "/" == a + "/" + "";
    ResolveAcrossSlash(from, a, "");
    assert Resolve(Resolve(from, Split(a)), [""]) == Resolve(Resolve(from, Split(a)), []);
  }

  /** A string ending with '/' is its own prefix followed by that '/'. */
  lemma TrailingSlashSplits(cwd: Path, a: string, b: string)
    requires |a| > 0 && a[|a| - 1] == '/' && !(|b| > 0 && b[0] == '/')
    ensures a == a[..|a| - 1] + "/"
    ensures Join(a, b) == a[..|a| - 1] + "/" + b
    ensures Origin(cwd, a[..|a| - 1] + "/" + b) == Origin(cwd, a)
  {
    var a' := a[..|a| - 1];
    assert a == a' + "/";
    assert (a' + "/" + b)[0] == a[0];
  }

  /** `join` when `a` ends with a '/': the separator is already there. */
  lemma AbsPathJoinAfterSlash(cwd: Path, a: string, b: string)
    requires |a| > 0 && a[|a| - 1] == '/' && !(|b| > 0 && b[0] == '/')
    ensures AbsPath(cwd, Join(a, b)) == Resolve(AbsPath(cwd, a), Split(b))
  {
    var a' := a[..|a| - 1];
    var from := Origin(cwd, a);
    TrailingSlashSplits(cwd, a, b);
    ResolveAcrossSlash(from, a', b);
    ResolveTrailingSlash(from, a');
  }

  /** `join` when `a` does not end with a '/': one is inserted. */
  lemma AbsPathJoinInsertSlash(cwd: Path, a: string, b: string)
    requires |a| > 0 && a[|a| - 1] != '/' && !(|b| > 0 && b[0] == '/')
    ensures AbsPath(cwd, Join(a, b)) == Resolve(AbsPath(cwd, a), Split(b))
  {
    var from := Origin(cwd, a);
    assert Join(a, b) == a + "/" + b;
    assert Origin(cwd, a + "/" + b) == from;
    ResolveAcrossSlash(from, a, b);
  }

  /** `abspath(join(a, b))` walks `b` from `abspath(a)` when `b` is relative. */
  lemma AbsPathJoin(cwd: Path, a: string, b: string)
    requires !(|b| > 0 && b[0] == '/')
    ensures AbsPath(cwd, Join(a, b)) == Resolve(AbsPath(cwd, a), Split(b))
  {
    if a == "" {
      assert Join(a, b) == b;
      assert Resolve(cwd, Split(a)) == Resolve(cwd, []);
    } else if a[|a| - 1] == '/' {
      AbsPathJoinAfterSlash(cwd, a, b);
    } else {
      AbsPathJoinInsertSlash(cwd, a, b);
    }
  }

  /** Joining a plain name and resolving descends into that name. */
  lemma AbsPathJoinName(cwd: Path, a: string, name: string)
    requires Plain(name)
    ensures AbsPath(cwd, Join(a, name)) == AbsPath(cwd, a) + [name]
  {
    AbsPathJoin(cwd, a, name);
    SplitWithoutSlash(name);
    ResolvePlain(AbsPath(cwd, a), [name]);
  }

  /** Joining `./name` onto a path names `name` directly inside it. */
  lemma AbsPathJoinDotName(cwd: Path, a: string, name: string)
    requires Plain(name)
    ensures AbsPath(cwd, Join(a, "./" + name)) == AbsPath(cwd, a) + [name]
  {
    var b := "./" + name;
    assert b == "." + "/" + name;
    SplitAtSlash(".", name);
    SplitWithoutSlash(".");
    SplitWithoutSlash(name);
    AbsPathJoin(cwd, a, b);
    assert Resolve(AbsPath(cwd, a), [".", name]) == Resolve(AbsPath(cwd, a), [name]);
    ResolvePlain(AbsPath(cwd, a), [name]);
  }

  /** A relative path printed by `relpath` still leads to the same place under
      any directory it is resolved from. */
  lemma RelativeResolves(dir: Path, segs: seq<string>)
    requires Normal(segs)
    ensures AbsPath(dir, RenderRelative(segs)) == dir + segs
  {
    if segs == [] {
      SplitWithoutSlash(".");
      assert Resolve(dir, ["."]) == Resolve(dir, []);
    } else {
      JoinSegmentsStart(segs);
      SplitJoinSegments(segs);
      ResolvePlain(dir, segs);
    }
  }

  // ---------------------------------------------------------------------
  // relpath

  /** Walking the relative path from its base arrives at the target. */
  lemma RelPathRoundTrip(target: Path, base: Path)
    requires Normal(target)
    ensures Resolve(base, RelPath(target, base)) == target
  {
    var c := CommonPrefixLength(target, base);
    ResolveConcat(base, Dots(|base| - c), target[c..]);
    ResolveDots(base, |base| - c);
    assert base[..|base| - (|base| - c)] == base[..c];
    assert Normal(target[c..]);
    ResolvePlain(base[..c], target[c..]);
    assert base[..c] + target[c..] == target[..c] + target[c..] == target;
  }

  /** A target below the base is reached without climbing: the relative path
      is exactly the part below the base. */
  lemma RelPathBelow(base: Path, tail: Path)
    ensures RelPath(base + tail, base) == tail
  {
    var c := CommonPrefixLength(base + tail, base);
    assert forall i :: 0 <= i < |base| ==> (base + tail)[i] == base[i];
    assert c == |base|;
    assert (base + tail)[|base|..] == tail;
  }
}
