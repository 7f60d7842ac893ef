/**
  Building the mounted index from canonical paths (kernel/src/fs/ramfs.rs:83-164, 387-486). What comes
  out is exactly the given files, the given directories and every directory above one of them.
 */
module RamfsIndex {
  import opened Base
  import opened Paths
  import opened PathOrder
  import opened PathWalk
  import opened PathImpl

  datatype Entry = Entry(name: Path, isDir: bool, ino: nat)
  datatype Mount = Mounted(fs: Fs, entries: seq<seq<Entry>>) | DuplicatePath

  /** p is a directory on the way to q: q continues with a slash where p ends. */
  predicate Above(p: Path, q: Path) {
    0 < |p| < |q| && q[|p|] == SLASH && q[..|p|] == p
  }

  ghost predicate AllCanonical(paths: seq<Path>) {
    forall p :: p in paths ==> Canonical(p)
  }

  /** The directories that must exist. */
  ghost predicate Listed(files: seq<Path>, dirs: seq<Path>, p: Path) {
    p == [SLASH] || p in dirs || exists q :: (q in files || q in dirs) && Above(p, q)
  }

  /** What an archive must satisfy to be mounted. */
  ghost predicate Mountable(files: seq<Path>, dirs: seq<Path>) {
    Distinct(files) && Distinct(dirs) && forall f :: f in files ==> !Listed(files, dirs, f)
  }

  function PathKey(p: Path): Path { p }
  function NameKey(e: Entry): Path { e.name }

  predicate ValidAbsolute(p: Path) {
    p != [] && p[0] == SLASH && (|p| > 1 ==> p[|p| - 1] != SLASH)
  }

  lemma CanonicalValid(p: Path)
    requires Canonical(p)
    ensures ValidAbsolute(p)
  {
    var cs :| Names(cs) && p == Join(cs);
    JoinSize(cs);
    if cs != [] {
      var last := cs[|cs| - 1];
      assert IsName(last) && p[|p| - 1] == last[|last| - 1];
    }
  }

  /** A directory above a canonical path is canonical. */
  lemma {:induction false} AboveCanonical(p: Path, cs: seq<Path>)
    requires Names(cs) && cs != [] && Above(p, Join(cs))
    ensures Canonical(p)
    decreases |cs|
  {
    hide Join, JoinAll, Above;
    var front := cs[..|cs| - 1];
    AboveLast(p, cs);
    if p == Join(front) {
      assert Names(front);
    } else {
      AboveCanonical(p, front);
    }
  }

  /** What lies above a path is its parent or lies above its parent. */
  lemma AboveLast(p: Path, cs: seq<Path>)
    requires Names(cs) && cs != [] && Above(p, Join(cs))
    ensures
      var front := cs[..|cs| - 1];
      front != [] && (p == Join(front) || Above(p, Join(front)))
  {
    var front, last := cs[..|cs| - 1], cs[|cs| - 1];
    var q, f := Join(cs), JoinAll(front);
    assert q == f + [SLASH] + last && IsName(last) && (front == [] ==> f == []);
    assert SLASH !in last;
    hide JoinAll, IsName;
    forall k | |f| < k < |q| ensures q[k] != SLASH { assert q[k] == last[k - |f| - 1]; }
    assert |p| <= |f|;
    assert f[..|p|] == q[..|p|] && (|p| < |f| ==> f[|p|] == q[|p|]);
  }

  /** The parent of a place is the root or above it. */
  lemma ParentAbove(cs: seq<Path>)
    requires Names(cs) && cs != []
    ensures Join(cs[..|cs| - 1]) == [SLASH] || Above(Join(cs[..|cs| - 1]), Join(cs))
  {
    var front, last := cs[..|cs| - 1], cs[|cs| - 1];
    assert Join(cs) == JoinAll(front) + [SLASH] + last;
    if front != [] { JoinSize(front); }
  }

  lemma AboveTransitive(p: Path, q: Path, r: Path)
    requires Above(p, q) && Above(q, r)
    ensures Above(p, r)
  {
    assert r[..|p|] == r[..|q|][..|p|] && r[|p|] == r[..|q|][|p|];
  }

  /** The listed directories with the files make a closed index. */
  lemma ClosedIndex(files: seq<Path>, dirs: seq<Path>, fs: Fs)
    requires AllCanonical(files) && AllCanonical(dirs)
    requires Distinct(fs.files) && Distinct(fs.dirs)
    requires forall p :: p in fs.files <==> p in files
    requires forall p :: p in fs.dirs <==> Listed(files, dirs, p)
    requires forall f :: f in files ==> !Listed(files, dirs, f)
    ensures FsOk(fs)
  {
    forall p | p in fs.dirs || p in fs.files ensures Canonical(p) { ListedCanonical(files, dirs, p); }
    forall cs ensures ParentListed(fs, cs) {
      if cs != [] && Names(cs) && (Join(cs) in fs.dirs || Join(cs) in fs.files) { ParentIsListed(files, dirs, cs); }
    }
  }

  lemma ListedCanonical(files: seq<Path>, dirs: seq<Path>, p: Path)
    requires AllCanonical(files) && AllCanonical(dirs) && (p in files || Listed(files, dirs, p))
    ensures Canonical(p)
  {
    if p == [SLASH] {
      var none: seq<Path> := [];
      assert Names(none) && Join(none) == p;
    } else if p !in dirs && p !in files {
      var q :| (q in files || q in dirs) && Above(p, q);
      var cs :| Names(cs) && q == Join(cs);
      AboveCanonical(p, cs);
    }
  }

  lemma ParentIsListed(files: seq<Path>, dirs: seq<Path>, cs: seq<Path>)
    requires Names(cs) && cs != [] && (Join(cs) in files || Listed(files, dirs, Join(cs)))
    ensures Listed(files, dirs, Join(cs[..|cs| - 1]))
  {
    var p, parent := Join(cs), Join(cs[..|cs| - 1]);
    ParentAbove(cs);
    JoinSize(cs);
    if parent != [SLASH] && p !in files && p !in dirs {
      var q :| (q in files || q in dirs) && Above(p, q);
      AboveTransitive(parent, p, q);
    }
  }

  // ----- construction -----

  /** Every prefix that ends before a slash, found by a cursor. */
  method PushParentDirs(dirs: seq<Path>, path: Path) returns (r: seq<Path>)
    requires ValidAbsolute(path)
    ensures forall p :: p in r <==> p in dirs || p == [SLASH] || Above(p, path)
  {
    r := dirs + [[SLASH]];
    var cursor := 1;
    while cursor < |path|
      invariant 1 <= cursor <= |path|
      invariant forall p :: p in r <==> p in dirs || p == [SLASH] || (Above(p, path) && |p| < cursor)
    {
      ghost var before := r;
      if path[cursor] == SLASH { r := r + [path[..cursor]]; }
      forall p ensures p in r <==> p in dirs || p == [SLASH] || (Above(p, path) && |p| < cursor + 1) {
        assert p in r <==> p in before || (path[cursor] == SLASH && p == path[..cursor]);
      }
      cursor := cursor + 1;
    }
  }

  /** Whether two neighbours have the same key. */
  method HasNeighbours(keys: seq<Path>) returns (found: bool)
    ensures found <==> exists i :: 0 < i < |keys| && keys[i - 1] == keys[i]
  {
    var i := 1;
    while i < |keys|
      invariant 1 <= i && (i <= |keys| || |keys| == 0) && forall k :: 0 < k < i && k < |keys| ==> keys[k - 1] != keys[k]
    {
      if keys[i - 1] == keys[i] { return true; }
      i := i + 1;
    }
    found := false;
  }

  /** On sorted paths the neighbour test decides whether the list has duplicates. */
  method RejectDuplicates(paths: seq<Path>) returns (sorted: seq<Path>, distinct: bool)
    ensures sorted == Sort(paths, PathKey) && multiset(sorted) == multiset(paths) && Ordered(sorted)
    ensures distinct <==> Distinct(paths)
    ensures distinct <==> Distinct(sorted)
  {
    sorted := Sort(paths, PathKey);
    SortOk(paths, PathKey);
    assert Keys(sorted, PathKey) == sorted;
    PermutedDistinct(sorted, paths);
    var found := HasNeighbours(sorted);
    if !found { NeighboursSuffice(sorted); }
    distinct := !found;
  }

  method HasConflict(files: seq<Path>, dirs: seq<Path>) returns (found: bool)
    ensures found <==> exists f :: f in files && f in dirs
  {
    var i := 0;
    while i < |files|
      invariant i <= |files| && forall k :: 0 <= k < i ==> files[k] !in dirs
    {
      if files[i] in dirs { return true; }
      i := i + 1;
    }
    found := false;
  }

  /** Mounting canonical paths succeeds exactly when no path is given twice and no file is also a
      directory, and then gives a closed index of exactly the listed paths. */
  method MountIndex(files: seq<Path>, dirs: seq<Path>) returns (r: Mount)
    requires AllCanonical(files) && AllCanonical(dirs)
    ensures r.Mounted? <==> Mountable(files, dirs)
    ensures r.Mounted? ==> FsOk(r.fs) && Ordered(r.fs.files) && Ordered(r.fs.dirs)
    ensures r.Mounted? ==> multiset(r.fs.files) == multiset(files)
    ensures r.Mounted? ==> forall p :: p in r.fs.dirs <==> Listed(files, dirs, p)
    ensures r.Mounted? ==> EntriesOk(r.fs, r.entries)
  {
    hide FsOk, Canonical, EntriesOk, Above, ValidAbsolute;
    var sortedFiles, ok := RejectDuplicates(files);
    if !ok { return DuplicatePath; }
    var sortedDirs, ok' := RejectDuplicates(dirs);
    if !ok' { return DuplicatePath; }
    var paths := CollectDirs(sortedFiles, sortedDirs, files, dirs);
    SortOk(paths, PathKey);
    var sorted := Sort(paths, PathKey);
    assert Keys(sorted, PathKey) == sorted;
    DedupOk(sorted);
    var index := Dedup(sorted);
    forall p ensures p in index <==> Listed(files, dirs, p) { SameMembers(sorted, paths, p); }
    forall p ensures p in sortedFiles <==> p in files { SameMembers(sortedFiles, files, p); }
    var conflict := HasConflict(sortedFiles, index);
    if conflict {
      var f :| f in sortedFiles && f in index;
      assert Listed(files, dirs, f);
      return DuplicatePath;
    }
    forall f | f in files ensures !Listed(files, dirs, f) { assert f in sortedFiles; }
    var fs := Fs(sortedFiles, index);
    ClosedIndex(files, dirs, fs);
    var entries := PopulateDirEntries(fs);
    r := Mounted(fs, entries);
  }

  /** The root, the explicit directories and what lies above any given path. */
  method CollectDirs(sortedFiles: seq<Path>, sortedDirs: seq<Path>, ghost files: seq<Path>, ghost dirs: seq<Path>)
    returns (r: seq<Path>)
    requires AllCanonical(files) && AllCanonical(dirs)
    requires multiset(sortedFiles) == multiset(files) && multiset(sortedDirs) == multiset(dirs)
    ensures forall p :: p in r <==> Listed(files, dirs, p)
  {
    hide Canonical, Above, ValidAbsolute;
    r := [[SLASH]];
    var i := 0;
    while i < |sortedDirs|
      invariant i <= |sortedDirs| && forall p :: p in r <==> Listed([], sortedDirs[..i], p)
    {
      var dir := sortedDirs[i];
      SameMembers(sortedDirs, dirs, dir);
      CanonicalValid(dir);
      ghost var before := r;
      r := PushParentDirs(r, dir);
      r := r + [dir];
      forall p ensures p in r <==> Listed([], sortedDirs[..i + 1], p) { OneMoreDir(sortedDirs, i, p); }
      i := i + 1;
    }
    assert sortedDirs[..i] == sortedDirs && sortedFiles[..0] == [];
    var k := 0;
    while k < |sortedFiles|
      invariant k <= |sortedFiles| && forall p :: p in r <==> Listed(sortedFiles[..k], sortedDirs, p)
    {
      var file := sortedFiles[k];
      SameMembers(sortedFiles, files, file);
      CanonicalValid(file);
      r := PushParentDirs(r, file);
      forall p
        ensures p in r <==> Listed(sortedFiles[..k + 1], sortedDirs, p)
      {
        OneMoreFile(sortedFiles, sortedDirs, k, p);
      }
      k := k + 1;
    }
    assert sortedFiles[..k] == sortedFiles;
    forall p ensures Listed(sortedFiles, sortedDirs, p) <==> Listed(files, dirs, p) {
      ListedPermuted(sortedFiles, sortedDirs, files, dirs, p);
    }
  }

  lemma OneMoreDir(dirs: seq<Path>, i: nat, p: Path)
    requires i < |dirs|
    ensures Listed([], dirs[..i + 1], p) <==> Listed([], dirs[..i], p) || Above(p, dirs[i]) || p == dirs[i]
  {
    assert dirs[..i + 1] == dirs[..i] + [dirs[i]];
  }

  lemma OneMoreFile(files: seq<Path>, dirs: seq<Path>, k: nat, p: Path)
    requires k < |files|
    ensures Listed(files[..k + 1], dirs, p) <==> Listed(files[..k], dirs, p) || Above(p, files[k])
  {
    assert files[..k + 1] == files[..k] + [files[k]];
  }

  lemma ListedPermuted(files: seq<Path>, dirs: seq<Path>, files': seq<Path>, dirs': seq<Path>, p: Path)
    requires multiset(files) == multiset(files') && multiset(dirs) == multiset(dirs')
    ensures Listed(files, dirs, p) <==> Listed(files', dirs', p)
  {
    forall q ensures (q in files <==> q in files') && (q in dirs <==> q in dirs') {
      SameMembers(files, files', q);
      SameMembers(dirs, dirs', q);
    }
  }

  // ----- directory entries -----

  const DIR_INO: nat := 0x8000_0000

  /** e is the entry, in the directory of cs, of one of the first files or directories. */
  ghost predicate ChildOf(fs: Fs, files: nat, dirs: nat, cs: seq<Path>, e: Entry)
    requires files <= |fs.files| && dirs <= |fs.dirs|
  {
    && IsName(e.name)
    && (if e.isDir then DIR_INO <= e.ino < DIR_INO + dirs && fs.dirs[e.ino - DIR_INO] == Join(cs + [e.name])
        else 1 <= e.ino < 1 + files && fs.files[e.ino - 1] == Join(cs + [e.name]))
  }

  ghost predicate IsDirAt(fs: Fs, d: nat, cs: seq<Path>) {
    d < |fs.dirs| && Names(cs) && fs.dirs[d] == Join(cs)
  }

  /** A list holds each of these entries once, and no other. */
  ghost predicate Lists(fs: Fs, files: nat, dirs: nat, cs: seq<Path>, list: seq<Entry>)
    requires files <= |fs.files| && dirs <= |fs.dirs|
  {
    (forall e :: e in list <==> ChildOf(fs, files, dirs, cs, e)) && Distinct(Keys(list, NameKey))
  }

  ghost predicate Filled(fs: Fs, files: nat, dirs: nat, entries: seq<seq<Entry>>)
    requires files <= |fs.files| && dirs <= |fs.dirs|
  {
    |entries| == |fs.dirs| && forall d: nat, cs :: IsDirAt(fs, d, cs) ==> Lists(fs, files, dirs, cs, entries[d])
  }

  /** Each directory lists each of its children once, in name order. */
  ghost predicate EntriesOk(fs: Fs, entries: seq<seq<Entry>>) {
    && Filled(fs, |fs.files|, |fs.dirs|, entries)
    && (forall d :: 0 <= d < |entries| ==> Ordered(Keys(entries[d], NameKey)))
  }

  /** The directory index and the name of a path: its last slash separates them. */
  method FindParent(fs: Fs, path: Path, ghost cs: seq<Path>) returns (d: nat, name: Path)
    requires FsOk(fs) && Names(cs) && cs != [] && path == Join(cs) && (path in fs.dirs || path in fs.files)
    ensures IsDirAt(fs, d, Up(cs)) && name == cs[|cs| - 1]
  {
    JoinHasSlash(cs);
    var slash := LastSlashOf(path);
    assert slash.Some?;
    LastSlashIs(cs, slash.value);
    assert ParentListed(fs, cs);
    var parent := if slash.value == 0 then [SLASH] else path[..slash.value];
    var found := LookupPath(fs.dirs, parent);
    d, name := found.value, path[slash.value + 1..];
  }

  method PopulateDirEntries(fs: Fs) returns (entries: seq<seq<Entry>>)
    requires FsOk(fs)
    ensures EntriesOk(fs, entries)
  {
    hide FsOk, ChildOf, IsDirAt, Filled;
    entries := seq(|fs.dirs|, i => []);
    NothingYet(fs);
    var i := 0;
    while i < |fs.files|
      invariant i <= |fs.files| && |entries| == |fs.dirs| && Filled(fs, i, 0, entries)
    {
      ghost var cs := NamesOf(fs, fs.files[i]);
      FileBelowRoot(fs, fs.files[i], cs);
      var d, name := FindParent(fs, fs.files[i], cs);
      FileAdded(fs, i, entries, d, cs);
      entries := entries[d := entries[d] + [Entry(name, false, 1 + i)]];
      i := i + 1;
    }
    var k := 0;
    while k < |fs.dirs|
      invariant k <= |fs.dirs| && |entries| == |fs.dirs| && Filled(fs, |fs.files|, k, entries)
    {
      ghost var cs := NamesOf(fs, fs.dirs[k]);
      if fs.dirs[k] == [SLASH] {
        RootSkipped(fs, k, entries);
      } else {
        assert cs != [];
        var d, name := FindParent(fs, fs.dirs[k], cs);
        DirAdded(fs, k, entries, d, cs);
        entries := entries[d := entries[d] + [Entry(name, true, DIR_INO + k)]];
      }
      k := k + 1;
    }
    entries := SortEntries(fs, entries);
  }

  /** Sorting by name; the duplicate test that follows never fires. */
  method SortEntries(fs: Fs, entries: seq<seq<Entry>>) returns (sorted: seq<seq<Entry>>)
    requires FsOk(fs) && Filled(fs, |fs.files|, |fs.dirs|, entries)
    ensures EntriesOk(fs, sorted)
  {
    hide FsOk, ChildOf, IsDirAt;
    sorted := entries;
    var d := 0;
    while d < |sorted|
      invariant d <= |sorted| && Filled(fs, |fs.files|, |fs.dirs|, sorted)
      invariant forall k :: 0 <= k < d ==> Ordered(Keys(sorted[k], NameKey))
    {
      SortedLists(fs, sorted, d);
      var list := Sort(sorted[d], NameKey);
      var duplicate := HasNeighbours(Keys(list, NameKey));
      assert !duplicate;
      sorted := sorted[d := list];
      d := d + 1;
    }
  }

  ghost function NamesOf(fs: Fs, p: Path): (cs: seq<Path>)
    requires FsOk(fs) && (p in fs.files || p in fs.dirs)
    ensures Names(cs) && p == Join(cs)
  {
    assert Canonical(p);
    var cs :| Names(cs) && p == Join(cs);
    cs
  }

  lemma FileBelowRoot(fs: Fs, p: Path, cs: seq<Path>)
    requires FsOk(fs) && p in fs.files && p == Join(cs)
    ensures cs != []
  {
  }

  lemma NothingYet(fs: Fs)
    ensures Filled(fs, 0, 0, seq(|fs.dirs|, i => []))
  {
  }

  /** Joining one name more is the path of exactly one directory and name. */
  lemma JoinedName(cs: seq<Path>, parent: seq<Path>, name: Path)
    requires Names(cs) && Names(parent) && IsName(name)
    ensures Join(parent + [name]) == Join(cs) <==> cs != [] && parent == Up(cs) && name == cs[|cs| - 1]
  {
    var longer := parent + [name];
    assert Names(longer);
    if Join(longer) == Join(cs) { JoinInjective(longer, cs); }
    if cs != [] { assert cs == Up(cs) + [cs[|cs| - 1]]; }
  }

  lemma FileAdded(fs: Fs, i: nat, entries: seq<seq<Entry>>, d: nat, cs: seq<Path>)
    requires FsOk(fs) && i < |fs.files| && Filled(fs, i, 0, entries)
    requires Names(cs) && cs != [] && fs.files[i] == Join(cs) && IsDirAt(fs, d, Up(cs))
    ensures Filled(fs, i + 1, 0, entries[d := entries[d] + [Entry(cs[|cs| - 1], false, 1 + i)]])
  {
    hide FsOk, Join, IsName;
    var e := Entry(cs[|cs| - 1], false, 1 + i);
    forall d': nat, parent | IsDirAt(fs, d', parent)
      ensures Lists(fs, i + 1, 0, parent, if d' == d then entries[d] + [e] else entries[d'])
    {
      SameDir(fs, d, d', Up(cs), parent);
      forall x ensures ChildOf(fs, i + 1, 0, parent, x) <==> ChildOf(fs, i, 0, parent, x) || (x == e && d' == d) {
        if IsName(x.name) && !x.isDir && x.ino == 1 + i { JoinedName(cs, parent, x.name); }
        JoinedName(cs, parent, cs[|cs| - 1]);
      }
      if d' == d {
        forall x | x in entries[d] ensures x.name != e.name {
          FreshFile(fs, i, parent, x);
          JoinedName(cs, parent, cs[|cs| - 1]);
        }
        Appended(entries[d], e);
      }
    }
  }

  /** A path belongs to one index, and an index to one list of names. */
  lemma SameDir(fs: Fs, d: nat, d': nat, cs: seq<Path>, cs': seq<Path>)
    requires FsOk(fs) && IsDirAt(fs, d, cs) && IsDirAt(fs, d', cs')
    ensures d == d' <==> cs == cs'
  {
    if d == d' { JoinInjective(cs, cs'); }
  }

  lemma FreshFile(fs: Fs, i: nat, parent: seq<Path>, x: Entry)
    requires FsOk(fs) && i < |fs.files| && ChildOf(fs, i, 0, parent, x)
    ensures fs.files[i] != Join(parent + [x.name])
  {
  }

  lemma FreshDir(fs: Fs, k: nat, parent: seq<Path>, x: Entry)
    requires FsOk(fs) && k < |fs.dirs| && ChildOf(fs, |fs.files|, k, parent, x)
    ensures fs.dirs[k] != Join(parent + [x.name])
  {
    if !x.isDir { assert fs.files[x.ino - 1] in fs.files; }
  }

  lemma Appended(list: seq<Entry>, e: Entry)
    requires Distinct(Keys(list, NameKey)) && forall x :: x in list ==> x.name != e.name
    ensures Distinct(Keys(list + [e], NameKey)) && forall x :: x in list + [e] <==> x in list || x == e
  {
    assert Keys(list + [e], NameKey) == Keys(list, NameKey) + [e.name];
  }

  lemma DirAdded(fs: Fs, k: nat, entries: seq<seq<Entry>>, d: nat, cs: seq<Path>)
    requires FsOk(fs) && k < |fs.dirs| && Filled(fs, |fs.files|, k, entries)
    requires Names(cs) && cs != [] && fs.dirs[k] == Join(cs) && IsDirAt(fs, d, Up(cs))
    ensures Filled(fs, |fs.files|, k + 1, entries[d := entries[d] + [Entry(cs[|cs| - 1], true, DIR_INO + k)]])
  {
    hide FsOk, Join, IsName;
    var e, n := Entry(cs[|cs| - 1], true, DIR_INO + k), |fs.files|;
    forall d': nat, parent | IsDirAt(fs, d', parent)
      ensures Lists(fs, n, k + 1, parent, if d' == d then entries[d] + [e] else entries[d'])
    {
      SameDir(fs, d, d', Up(cs), parent);
      forall x ensures ChildOf(fs, n, k + 1, parent, x) <==> ChildOf(fs, n, k, parent, x) || (x == e && d' == d) {
        if IsName(x.name) && x.isDir && x.ino == DIR_INO + k { JoinedName(cs, parent, x.name); }
        JoinedName(cs, parent, cs[|cs| - 1]);
      }
      if d' == d {
        forall x | x in entries[d] ensures x.name != e.name {
          FreshDir(fs, k, parent, x);
          JoinedName(cs, parent, cs[|cs| - 1]);
        }
        Appended(entries[d], e);
      }
    }
  }

  lemma RootSkipped(fs: Fs, k: nat, entries: seq<seq<Entry>>)
    requires k < |fs.dirs| && fs.dirs[k] == [SLASH] && Filled(fs, |fs.files|, k, entries)
    ensures Filled(fs, |fs.files|, k + 1, entries)
  {
    hide IsName;
    forall d: nat, parent | IsDirAt(fs, d, parent) ensures Lists(fs, |fs.files|, k + 1, parent, entries[d]) {
      forall x ensures ChildOf(fs, |fs.files|, k + 1, parent, x) <==> ChildOf(fs, |fs.files|, k, parent, x) {
        if IsName(x.name) { JoinedName([], parent, x.name); }
      }
    }
  }

  /** Sorting one directory changes no membership and keeps names apart. */
  lemma SortedLists(fs: Fs, entries: seq<seq<Entry>>, d: nat)
    requires FsOk(fs) && Filled(fs, |fs.files|, |fs.dirs|, entries) && d < |entries|
    ensures Filled(fs, |fs.files|, |fs.dirs|, entries[d := Sort(entries[d], NameKey)])
    ensures Ordered(Keys(Sort(entries[d], NameKey), NameKey)) && Distinct(Keys(Sort(entries[d], NameKey), NameKey))
  {
    hide FsOk, ChildOf, Sort, Ordered;
    var list, sorted := entries[d], Sort(entries[d], NameKey);
    SortOk(list, NameKey);
    assert fs.dirs[d] in fs.dirs;
    var cs := NamesOf(fs, fs.dirs[d]);
    assert IsDirAt(fs, d, cs);
    assert Lists(fs, |fs.files|, |fs.dirs|, cs, list);
    NamesApart(list, sorted);
    forall x ensures x in sorted <==> x in list { SameMembers(sorted, list, x); }
  }

  lemma NamesApart(list: seq<Entry>, sorted: seq<Entry>)
    requires multiset(list) == multiset(sorted) && Distinct(Keys(list, NameKey))
    ensures Distinct(Keys(sorted, NameKey))
  {
    var keys := Keys(list, NameKey);
    assert Distinct(list) by { assert forall i, j :: 0 <= i < j < |list| ==> keys[i] != keys[j]; }
    PermutedDistinct(list, sorted);
    forall i, j | 0 <= i < j < |sorted| ensures Keys(sorted, NameKey)[i] != Keys(sorted, NameKey)[j] {
      SameMembers(list, sorted, sorted[i]);
      SameMembers(list, sorted, sorted[j]);
      var a :| 0 <= a < |list| && list[a] == sorted[i];
      var b :| 0 <= b < |list| && list[b] == sorted[j];
      assert a != b;
      assert keys[a] != keys[b];
    }
  }
}
