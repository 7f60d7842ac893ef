/**
  Path resolution over the ramfs index (kernel/src/fs/path.rs:68-194). The reference walks a tree of
  component lists; the kernel works on bytes and indices.
 */
module PathWalk {
  import opened Base
  import opened Paths

  datatype Fs = Fs(files: seq<Path>, dirs: seq<Path>)
  datatype Node = FileNode(file: nat) | DirNode(dir: nat)
  datatype PathError = Empty | NotFound | NotDirectory | NameTooLong | InvalidBase
  datatype Resolved = Found(absolute: Path, node: Node, requiresDirectory: bool) | Failed(error: PathError)

  /** The index of a mounted archive: canonical, without duplicates, closed under parents. */
  ghost predicate FsOk(fs: Fs) {
    && [SLASH] in fs.dirs
    && (forall p :: p in fs.dirs || p in fs.files ==> Canonical(p))
    && (forall cs :: ParentListed(fs, cs))
    && (forall p :: p in fs.files ==> p !in fs.dirs)
    && (forall i, j :: 0 <= i < j < |fs.dirs| ==> fs.dirs[i] != fs.dirs[j])
    && (forall i, j :: 0 <= i < j < |fs.files| ==> fs.files[i] != fs.files[j])
  }

  /** The parent of a listed path is a listed directory. */
  predicate ParentListed(fs: Fs, cs: seq<Path>) {
    cs != [] && Names(cs) && (Join(cs) in fs.dirs || Join(cs) in fs.files) ==> Join(cs[..|cs| - 1]) in fs.dirs
  }

  /** First position of a path in a list. */
  function Lookup(paths: seq<Path>, p: Path): (r: Option<nat>)
    ensures r.None? <==> p !in paths
    ensures r.Some? ==> r.value < |paths| && paths[r.value] == p
  {
    if paths == [] then None
    else if paths[0] == p then Some(0)
    else
      match Lookup(paths[1..], p)
      case None => None
      case Some(i) => Some(i + 1)
  }

  lemma LookupUnique(paths: seq<Path>, i: nat)
    requires i < |paths| && forall a, b :: 0 <= a < b < |paths| ==> paths[a] != paths[b]
    ensures Lookup(paths, paths[i]) == Some(i)
  {
    var j := Lookup(paths, paths[i]).value;
  }

  // ----- the reference walk -----

  datatype Walked = At(cs: seq<Path>, isDir: bool) | Lost(error: PathError)

  function Up(cs: seq<Path>): seq<Path> {
    if cs == [] then [] else cs[..|cs| - 1]
  }

  /** One component after the other, each looked up before the next is handled. */
  function Walk(fs: Fs, cs: seq<Path>, isDir: bool, comps: seq<Path>): Walked
    decreases |comps|
  {
    if comps == [] then At(cs, isDir)
    else if comps[0] == [] then Walk(fs, cs, isDir, comps[1..])
    else if !isDir then Lost(NotDirectory)
    else if comps[0] == [DOT] then Walk(fs, cs, isDir, comps[1..])
    else if comps[0] == [DOT, DOT] then Walk(fs, Up(cs), true, comps[1..])
    else
      var next := cs + [comps[0]];
      if |Join(next)| > PATH_MAX then Lost(NameTooLong)
      else if Join(next) in fs.dirs then Walk(fs, next, true, comps[1..])
      else if Join(next) in fs.files then Walk(fs, next, false, comps[1..])
      else Lost(NotFound)
  }

  function LastNonEmpty(comps: seq<Path>): Path {
    if comps == [] then []
    else if comps[|comps| - 1] != [] then comps[|comps| - 1]
    else LastNonEmpty(comps[..|comps| - 1])
  }

  /** Trailing syntax that asks for a directory. */
  predicate RequiresDirectory(input: Path) {
    input != [] &&
    (input[|input| - 1] == SLASH || LastNonEmpty(Split(input)) == [DOT] || LastNonEmpty(Split(input)) == [DOT, DOT])
  }

  /** Resolution by component lists. */
  function Resolve(fs: Fs, cwd: seq<Path>, input: Path): Walked {
    if input == [] then Lost(Empty)
    else
      var start := if input[0] == SLASH then [] else cwd;
      if |Join(start)| > PATH_MAX then Lost(NameTooLong)
      else
        match Walk(fs, start, true, Split(input))
        case Lost(error) => Lost(error)
        case At(cs, isDir) => if RequiresDirectory(input) && !isDir then Lost(NotDirectory) else At(cs, isDir)
  }

  /** A place in the tree: the list of names leads to an existing node of that kind. */
  predicate IsPlace(fs: Fs, cs: seq<Path>, isDir: bool) {
    Names(cs) && |Join(cs)| <= PATH_MAX && (if isDir then Join(cs) in fs.dirs else Join(cs) in fs.files)
  }

  lemma ParentPlace(fs: Fs, cs: seq<Path>, isDir: bool)
    requires FsOk(fs) && IsPlace(fs, cs, isDir) && cs != []
    ensures IsPlace(fs, Up(cs), true)
  {
    hide FsOk, Join, IsName;
    ParentFact(fs, cs);
    ParentShorter(cs);
  }

  lemma ParentShorter(cs: seq<Path>)
    requires Names(cs) && cs != []
    ensures |Join(Up(cs))| <= |Join(cs)|
  {
    assert IsName(cs[|cs| - 1]) && cs == Up(cs) + [cs[|cs| - 1]];
    JoinStep(Up(cs), cs[|cs| - 1]);
  }

  lemma ParentFact(fs: Fs, cs: seq<Path>)
    requires FsOk(fs)
    ensures ParentListed(fs, cs)
  {
  }

  lemma UpPlace(fs: Fs, cs: seq<Path>)
    requires FsOk(fs) && IsPlace(fs, cs, true)
    ensures IsPlace(fs, Up(cs), true)
  {
    if cs != [] { ParentPlace(fs, cs, true); }
  }

  /** A walk never leaves the tree and only fails for what the components ask. */
  lemma {:induction false} WalkPlace(fs: Fs, cs: seq<Path>, isDir: bool, comps: seq<Path>)
    requires FsOk(fs) && IsPlace(fs, cs, isDir) && forall i :: 0 <= i < |comps| ==> SLASH !in comps[i]
    ensures match Walk(fs, cs, isDir, comps)
      case At(cs', isDir') => IsPlace(fs, cs', isDir')
      case Lost(error) => error.NotFound? || error.NotDirectory? || error.NameTooLong?
    decreases |comps|
  {
    if comps != [] {
      var c, rest := comps[0], comps[1..];
      if c == [] || c == [DOT] {
        WalkPlace(fs, cs, isDir, rest);
      } else if isDir && c == [DOT, DOT] {
        UpPlace(fs, cs);
        WalkPlace(fs, Up(cs), true, rest);
      } else if isDir && |Join(cs + [c])| <= PATH_MAX {
        assert Names(cs + [c]);
        if Join(cs + [c]) in fs.dirs {
          WalkPlace(fs, cs + [c], true, rest);
        } else if Join(cs + [c]) in fs.files {
          WalkPlace(fs, cs + [c], false, rest);
        }
      }
    }
  }

  /** A successful resolution gives a canonical path within the limit that names an existing node;
      a failing one never blames the base. */
  lemma ResolvePlace(fs: Fs, cwd: seq<Path>, input: Path)
    requires FsOk(fs) && Names(cwd) && Join(cwd) in fs.dirs
    ensures match Resolve(fs, cwd, input)
      case At(cs, isDir) => IsPlace(fs, cs, isDir)
      case Lost(error) => !error.InvalidBase?
  {
    SplitNoSlash(input);
    if input != [] {
      var start := if input[0] == SLASH then [] else cwd;
      assert Join([]) == [SLASH];
      if |Join(start)| <= PATH_MAX { WalkPlace(fs, start, true, Split(input)); }
    }
  }

  // ----- idempotence -----

  /** Walking down along the names of an existing place ends at that place. */
  lemma {:induction false} WalkDown(fs: Fs, cs: seq<Path>, isDir: bool, n: nat)
    requires FsOk(fs) && IsPlace(fs, cs, isDir) && n <= |cs|
    ensures IsPlace(fs, cs[..n], if n == |cs| then isDir else true)
    ensures Walk(fs, cs[..n], if n == |cs| then isDir else true, cs[n..]) == At(cs, isDir)
    decreases |cs| - n
  {
    hide FsOk, Join, IsName;
    PrefixPlace(fs, cs, isDir, n);
    if n == |cs| {
      assert cs[..n] == cs && cs[n..] == [];
    } else {
      PrefixPlace(fs, cs, isDir, n + 1);
      WalkDown(fs, cs, isDir, n + 1);
      assert cs[..n + 1] == cs[..n] + [cs[n]] && cs[n..][1..] == cs[n + 1..];
      WalkName(fs, cs[..n], cs[n..], if n + 1 == |cs| then isDir else true);
    }
  }

  /** One name down. */
  lemma WalkName(fs: Fs, cs: seq<Path>, comps: seq<Path>, isDir: bool)
    requires FsOk(fs) && comps != [] && IsName(comps[0]) && IsPlace(fs, cs + [comps[0]], isDir)
    ensures Walk(fs, cs, true, comps) == Walk(fs, cs + [comps[0]], isDir, comps[1..])
  {
  }

  /** Every prefix of an existing place is a directory. */
  lemma {:induction false} PrefixPlace(fs: Fs, cs: seq<Path>, isDir: bool, n: nat)
    requires FsOk(fs) && IsPlace(fs, cs, isDir) && n <= |cs|
    ensures IsPlace(fs, cs[..n], if n == |cs| then isDir else true)
    decreases |cs| - n
  {
    hide FsOk, Join, IsName;
    if n == |cs| {
      assert cs[..n] == cs;
    } else {
      PrefixPlace(fs, cs, isDir, n + 1);
      var longer := cs[..n + 1];
      assert Up(longer) == cs[..n];
      ParentPlace(fs, longer, if n + 1 == |cs| then isDir else true);
    }
  }

  /** Resolving a result again, from any directory, gives the same path and the same kind of node. */
  lemma ResolveIdempotent(fs: Fs, cwd: seq<Path>, cs: seq<Path>, isDir: bool)
    requires FsOk(fs) && IsPlace(fs, cs, isDir)
    ensures Resolve(fs, cwd, Join(cs)) == At(cs, isDir)
  {
    WalkDown(fs, cs, isDir, 0);
    assert cs[..0] == [] && cs[0..] == cs;
    if cs == [] {
      RootSplit();
      var comps: seq<Path> := [[], []];
      assert comps[1..] == [[]] && comps[1..][1..] == [];
      RootIsDir(fs, isDir);
    } else {
      JoinSize(cs);
      SplitJoinAll(cs);
      assert ([[]] + cs)[1..] == cs;
      LastOfJoin(cs);
    }
  }

  lemma RootSplit()
    ensures Split([SLASH]) == [[], []]
  {
    assert [SLASH][1..] == [];
  }

  lemma RootIsDir(fs: Fs, isDir: bool)
    requires FsOk(fs) && IsPlace(fs, [], isDir)
    ensures isDir
  {
  }

  lemma LastOfJoin(cs: seq<Path>)
    requires cs != [] && Names(cs)
    ensures !RequiresDirectory(Join(cs))
  {
    var last := cs[|cs| - 1];
    assert IsName(last);
    SplitJoinAll(cs);
    assert ([[]] + cs)[|[[]] + cs| - 1] == last;
    assert Join(cs)[|Join(cs)| - 1] == last[|last| - 1];
  }

  /** Hence what resolution returns is stable: resolving it again from anywhere changes nothing. */
  lemma ResolvedStable(fs: Fs, cwd: seq<Path>, input: Path, elsewhere: seq<Path>)
    requires FsOk(fs) && Names(cwd) && Join(cwd) in fs.dirs && Resolve(fs, cwd, input).At?
    ensures Resolve(fs, elsewhere, Join(Resolve(fs, cwd, input).cs)) == Resolve(fs, cwd, input)
  {
    ResolvePlace(fs, cwd, input);
    var w := Resolve(fs, cwd, input);
    ResolveIdempotent(fs, elsewhere, w.cs, w.isDir);
  }
}
