/** The read-only file tree derived from the entries of an archive that stores files only. */
module ZipAssets {
  import opened Options
  import opened Seqs

  /** A cleaned path as its components; the root is empty. */
  type Path = seq<string>

  /** `path` is None where the cleaned name is not a valid path. */
  datatype Entry = Entry(isDir: bool, path: Option<Path>)

  predicate IsFile(e: Entry) {
    !e.isDir && e.path.Some? && e.path.value != []
  }

  /** The file paths of the archive. */
  function FilePaths(entries: seq<Entry>): (r: set<Path>)
    ensures forall p :: p in r <==> p != [] && exists i :: 0 <= i < |entries| && !entries[i].isDir && entries[i].path == Some(p)
  {
    set i | 0 <= i < |entries| && IsFile(entries[i]) :: entries[i].path.value
  }

  predicate Below(dir: Path, p: Path) {
    |dir| < |p| && p[..|dir|] == dir
  }

  /** `child` names something directly below `dir` on the way to a file. */
  ghost predicate HasChild(files: set<Path>, dir: Path, child: string) {
    exists f :: f in files && OnTheWay(f, dir, child)
  }

  predicate OnTheWay(f: Path, dir: Path, child: string) {
    Below(dir, f) && f[|dir|] == child
  }

  /** The directory table of some files: the root, and every proper beginning of a file path, each with
      exactly the names that come next. */
  ghost predicate Derived(files: set<Path>, dirs: map<Path, set<string>>) {
    && (forall d :: d in dirs <==> d == [] || exists f :: f in files && Below(d, f))
    && (forall d, c :: d in dirs ==> (c in dirs[d] <==> HasChild(files, d, c)))
  }

  // ----- building the tables -----

  function WithChild(dirs: map<Path, set<string>>, dir: Path, child: string): map<Path, set<string>> {
    dirs[dir := (if dir in dirs then dirs[dir] else {}) + {child}]
  }

  /** What one file adds to its parent directory and to those above it, down to depth `n`. */
  ghost predicate Added(before: map<Path, set<string>>, dirs: map<Path, set<string>>, f: Path, n: nat) {
    && (forall d :: d in dirs <==> d in before || (Below(d, f) && n <= |d|))
    && (forall d, c :: d in dirs ==>
          (c in dirs[d] <==> (d in before && c in before[d]) || (n <= |d| && OnTheWay(f, d, c))))
  }

  lemma AddedStep(before: map<Path, set<string>>, dirs: map<Path, set<string>>, f: Path, n: nat)
    requires 0 < n <= |f| && Added(before, dirs, f, n)
    ensures Added(before, WithChild(dirs, f[..n - 1], f[n - 1]), f, n - 1)
  {
    var next := WithChild(dirs, f[..n - 1], f[n - 1]);
    forall d ensures d in next <==> d in before || (Below(d, f) && n - 1 <= |d|) {
      assert d == f[..n - 1] <==> |d| == n - 1 && Below(d, f);
    }
    forall d, c | d in next
      ensures c in next[d] <==> (d in before && c in before[d]) || (n - 1 <= |d| && OnTheWay(f, d, c))
    {
      assert d == f[..n - 1] <==> |d| == n - 1 && Below(d, f);
    }
  }

  lemma AddedDerived(files: set<Path>, before: map<Path, set<string>>, dirs: map<Path, set<string>>, f: Path)
    requires Derived(files, before) && Added(before, dirs, f, 0)
    ensures Derived(files + {f}, dirs)
  {
    forall d ensures d in dirs <==> d == [] || exists g :: g in files + {f} && Below(d, g) {
      assert f in files + {f};
    }
    forall d, c | d in dirs ensures c in dirs[d] <==> HasChild(files + {f}, d, c) {
      assert f in files + {f};
      if d in before {
        assert c in before[d] <==> HasChild(files, d, c);
      }
      assert d !in before ==> forall g :: g in files ==> !OnTheWay(g, d, c);
    }
  }

  class ZipAssetFS {
    var files: map<Path, nat>
    var dirs: map<Path, set<string>>

    ghost predicate Valid(entries: seq<Entry>)
      reads this
    {
      && files.Keys == FilePaths(entries)
      && Latest(entries, files)
      && Derived(files.Keys, dirs)
    }

    /** Later entries of the same name replace earlier ones. */
    constructor (entries: seq<Entry>)
      ensures Valid(entries)
    {
      files, dirs := map[], map[[] := {}];
      new;
      for i := 0 to |entries|
        invariant Valid(entries[..i])
      {
        AddEntry(entries, i);
      }
      assert entries[..|entries|] == entries;
    }

    method AddEntry(entries: seq<Entry>, i: nat)
      requires i < |entries| && Valid(entries[..i])
      modifies this
      ensures Valid(entries[..i + 1])
    {
      FilesSoFar(entries, i);
      ghost var before := files;
      if IsFile(entries[i]) {
        var name := entries[i].path.value;
        AddFile(name);
        files := files[name := i];
      }
      LatestEntries(entries, i, before, files);
    }

    /** The file in its parent directory, and then the chain of directories above. */
    method AddFile(name: Path)
      requires name != []
      requires Derived(files.Keys, dirs)
      modifies this`dirs
      ensures Derived(files.Keys + {name}, dirs)
    {
      ghost var before := dirs;
      var n: nat := |name|;
      assert Added(before, dirs, name, n);
      while n > 0
        invariant n <= |name| && Added(before, dirs, name, n)
      {
        AddedStep(before, dirs, name, n);
        dirs := WithChild(dirs, name[..n - 1], name[n - 1]);
        n := n - 1;
      }
      AddedDerived(files.Keys, before, dirs, name);
    }
  }

  /** Every path leads to the last entry of that name. */
  ghost predicate Latest(entries: seq<Entry>, files: map<Path, nat>) {
    && (forall p :: p in files ==> files[p] < |entries| && IsFile(entries[files[p]]) && entries[files[p]].path.value == p)
    && (forall p, i :: p in files && files[p] < i < |entries| && IsFile(entries[i]) ==> entries[i].path.value != p)
  }

  lemma LatestEntries(entries: seq<Entry>, i: nat, before: map<Path, nat>, files: map<Path, nat>)
    requires i < |entries| && Latest(entries[..i], before)
    requires files == if IsFile(entries[i]) then before[entries[i].path.value := i] else before
    ensures Latest(entries[..i + 1], files)
  {
    assert forall k :: 0 <= k < i ==> entries[..i][k] == entries[..i + 1][k];
    assert entries[..i + 1][i] == entries[i];
  }

  lemma FilesSoFar(entries: seq<Entry>, i: nat)
    requires i < |entries|
    ensures FilePaths(entries[..i + 1]) == FilePaths(entries[..i]) + if IsFile(entries[i]) then {entries[i].path.value} else {}
  {
    var a, b := entries[..i], entries[..i + 1];
    assert forall k :: 0 <= k < i ==> a[k] == b[k];
    assert b[i] == entries[i];
    forall p ensures p in FilePaths(b) <==> p in FilePaths(a) || (IsFile(entries[i]) && p == entries[i].path.value) {
      if p in FilePaths(a) {
        var k :| 0 <= k < i && IsFile(a[k]) && a[k].path.value == p;
        assert IsFile(b[k]) && b[k].path.value == p;
      }
      if IsFile(entries[i]) && p == entries[i].path.value {
        assert IsFile(b[i]) && b[i].path.value == p;
      }
    }
  }

  // ----- walking -----

  /** Listings of directories: every name once, in some order. */
  ghost predicate Lists(list: set<string> -> seq<string>) {
    forall s :: NoDup(list(s)) && Elems(list(s)) == s
  }

  /** The files that a walk from directory `dir` visits, `depth` levels down. A name that is a file is
      a file, whatever lies below it. */
  function Walk(files: set<Path>, dirs: map<Path, set<string>>, list: set<string> -> seq<string>, dir: Path, depth: nat): seq<Path>
    decreases depth, 1, 0
  {
    if dir !in dirs then [] else WalkNames(files, dirs, list, dir, list(dirs[dir]), depth)
  }

  function WalkNames(files: set<Path>, dirs: map<Path, set<string>>, list: set<string> -> seq<string>, dir: Path,
                     names: seq<string>, depth: nat): seq<Path>
    decreases depth, 0, |names|
  {
    if names == [] then []
    else
      var child := dir + [names[|names| - 1]];
      WalkNames(files, dirs, list, dir, names[..|names| - 1], depth)
      + (if child in files then [child] else if depth == 0 then [] else Walk(files, dirs, list, child, depth - 1))
  }

  /** Reachable from `dir`: no file stands between. */
  ghost predicate Open(files: set<Path>, dir: Path, f: Path) {
    f in files && Below(dir, f) && forall k :: |dir| < k < |f| ==> f[..k] !in files
  }

  ghost predicate Shallow(files: set<Path>, dir: Path, depth: nat) {
    forall f :: f in files && Below(dir, f) ==> |f| <= |dir| + 1 + depth
  }

  ghost predicate ExactlyOpen(files: set<Path>, dir: Path, names: seq<string>, r: seq<Path>) {
    NoDup(r) && forall f :: f in r <==> Open(files, dir, f) && f[|dir|] in names
  }

  lemma OpenBelow(files: set<Path>, dir: Path, c: string, f: Path)
    requires Below(dir, f) && f[|dir|] == c
    ensures dir + [c] in files ==> (Open(files, dir, f) <==> f == dir + [c])
    ensures dir + [c] !in files ==> (Open(files, dir, f) <==> Open(files, dir + [c], f))
  {
    assert f[..|dir| + 1] == dir + [c];
    if |f| == |dir| + 1 {
      assert f == dir + [c];
    }
  }

  /** One name of a directory: the file itself, or what lies open below it. */
  lemma OneName(files: set<Path>, dir: Path, c: string, below: seq<Path>)
    requires if dir + [c] in files then below == [dir + [c]]
             else NoDup(below) && forall f :: f in below <==> Open(files, dir + [c], f)
    ensures ExactlyOpen(files, dir, [c], below)
  {
    forall f ensures f in below <==> Open(files, dir, f) && f[|dir|] in [c] {
      if Below(dir, f) && f[|dir|] == c {
        OpenBelow(files, dir, c, f);
      }
      if f in below {
        BelowChild(dir, c, f);
      }
    }
    if dir + [c] in files {
      NoDupSnoc([], dir + [c]);
      assert [] + [dir + [c]] == [dir + [c]];
    }
  }

  lemma BelowChild(dir: Path, c: string, f: Path)
    ensures f == dir + [c] || Below(dir + [c], f) ==> Below(dir, f) && f[|dir|] == c
  {
    if Below(dir + [c], f) {
      assert f[..|dir|] == f[..|dir| + 1][..|dir|];
      assert f[|dir|] == f[..|dir| + 1][|dir|];
    }
  }

  lemma JoinNames(files: set<Path>, dir: Path, names: seq<string>, c: string, a: seq<Path>, b: seq<Path>)
    requires ExactlyOpen(files, dir, names, a) && ExactlyOpen(files, dir, [c], b) && c !in names
    ensures ExactlyOpen(files, dir, names + [c], a + b)
  {
    NoDupConcat(a, b);
  }

  lemma ShallowChild(files: set<Path>, dir: Path, c: string, depth: nat)
    requires Shallow(files, dir, depth)
    ensures depth > 0 ==> Shallow(files, dir + [c], depth - 1)
    ensures depth == 0 ==> forall f :: f in files ==> !Below(dir + [c], f)
  {
    forall f | f in files && Below(dir + [c], f) ensures Below(dir, f) && |f| >= |dir| + 2 {
      BelowChild(dir, c, f);
    }
  }

  lemma {:induction false} WalkNamesOpen(files: set<Path>, dirs: map<Path, set<string>>, list: set<string> -> seq<string>, dir: Path,
                      names: seq<string>, depth: nat)
    requires Derived(files, dirs) && Lists(list) && Shallow(files, dir, depth) && NoDup(names)
    ensures ExactlyOpen(files, dir, names, WalkNames(files, dirs, list, dir, names, depth))
    decreases depth, 0, |names|
  {
    if names != [] {
      var front, c := names[..|names| - 1], names[|names| - 1];
      assert names == front + [c];
      NoDupParts(front, [c]);
      WalkNamesOpen(files, dirs, list, dir, front, depth);
      ShallowChild(files, dir, c, depth);
      if dir + [c] !in files && depth > 0 {
        WalkOpen(files, dirs, list, dir + [c], depth - 1);
      }
      var below := if dir + [c] in files then [dir + [c]] else if depth == 0 then [] else Walk(files, dirs, list, dir + [c], depth - 1);
      OneName(files, dir, c, below);
      JoinNames(files, dir, front, c, WalkNames(files, dirs, list, dir, front, depth), below);
    }
  }

  /** A walk visits exactly the files with no other file in between, each once. */
  lemma {:induction false} WalkOpen(files: set<Path>, dirs: map<Path, set<string>>, list: set<string> -> seq<string>, dir: Path, depth: nat)
    requires Derived(files, dirs) && Lists(list) && Shallow(files, dir, depth)
    ensures var r := Walk(files, dirs, list, dir, depth); NoDup(r) && forall f :: f in r <==> Open(files, dir, f)
    decreases depth, 1, 0
  {
    if dir in dirs {
      var names := list(dirs[dir]);
      WalkNamesOpen(files, dirs, list, dir, names, depth);
      forall f | Open(files, dir, f) ensures f[|dir|] in names {
        assert OnTheWay(f, dir, f[|dir|]) && HasChild(files, dir, f[|dir|]);
        assert f[|dir|] in Elems(names);
      }
    }
  }

  /** No file stands on the way to another. */
  ghost predicate NoFileBelowFile(files: set<Path>) {
    forall f, g :: f in files && g in files ==> !Below(f, g)
  }

  /** The walk from the root reaches every file, each once, exactly when no file path is a proper
      beginning of another. */
  lemma WalkReachesAllIff(files: set<Path>, dirs: map<Path, set<string>>, list: set<string> -> seq<string>, depth: nat)
    requires Derived(files, dirs) && Lists(list) && Shallow(files, [], depth) && [] !in files
    ensures NoDup(Walk(files, dirs, list, [], depth))
    ensures Elems(Walk(files, dirs, list, [], depth)) == files <==> NoFileBelowFile(files)
  {
    WalkOpen(files, dirs, list, [], depth);
    if NoFileBelowFile(files) {
      forall f | f in files ensures Open(files, [], f) {
        forall k | 0 < k < |f| ensures f[..k] !in files {
          assert Below(f[..k], f);
        }
      }
    }
    if f, g :| f in files && g in files && Below(f, g) {
      assert f == g[..|f|] && f != [];
      assert !Open(files, [], g);
    }
  }

  /** A depth that no path of the archive exceeds. */
  function Deepest(entries: seq<Entry>): (r: nat)
    ensures forall i :: 0 <= i < |entries| && IsFile(entries[i]) ==> |entries[i].path.value| <= r
  {
    if entries == [] then 0
    else
      var r, last := Deepest(entries[..|entries| - 1]), entries[|entries| - 1];
      if IsFile(last) && |last.path.value| > r then |last.path.value| else r
  }

  /** From an archive to the files that a walk of its tree visits: those with no other file on the way,
      each once; they are all files of the archive exactly when no path is a proper beginning of another. */
  method WalkArchive(entries: seq<Entry>, list: set<string> -> seq<string>) returns (visited: seq<Path>)
    requires Lists(list)
    ensures NoDup(visited) && forall f :: f in visited <==> Open(FilePaths(entries), [], f)
    ensures Elems(visited) == FilePaths(entries) <==> NoFileBelowFile(FilePaths(entries))
  {
    var za := new ZipAssetFS(entries);
    visited := Walk(za.files.Keys, za.dirs, list, [], Deepest(entries));
    WalkOpen(za.files.Keys, za.dirs, list, [], Deepest(entries));
    WalkReachesAllIff(za.files.Keys, za.dirs, list, Deepest(entries));
  }

  // ----- reading a directory in pages -----

  datatype Page = Page(names: seq<string>, eof: bool)

  class ZipAssetDir {
    const children: seq<string>
    var offset: nat

    constructor (names: seq<string>)
      ensures children == names && offset == 0
    {
      children, offset := names, 0;
    }

    method ReadDir(count: int) returns (p: Page)
      requires offset <= |children|
      modifies this
      ensures (p, offset) == NextPage(children, old(offset), count)
    {
      var remaining := children[offset..];
      if count <= 0 {
        offset := |children|;
        return Page(remaining, false);
      }
      if |remaining| == 0 {
        return Page([], true);
      }
      var n := if count > |remaining| then |remaining| else count;
      assert children[offset..offset + n] == remaining[..n];
      offset := offset + n;
      p := Page(remaining[..n], false);
    }
  }

  function NextPage(children: seq<string>, offset: nat, count: int): (r: (Page, nat))
    requires offset <= |children|
    ensures offset <= r.1 <= |children|
  {
    var left := |children| - offset;
    if count <= 0 then (Page(children[offset..], false), |children|)
    else if left == 0 then (Page([], true), offset)
    else
      var n := if count > left then left else count;
      (Page(children[offset..offset + n], false), offset + n)
  }

  /** One page: asking for a positive number gives that many names, or what is left, and reports the end only
      when nothing is left; asking for none gives all that is left. */
  lemma PageExactly(children: seq<string>, offset: nat, count: int)
    requires offset <= |children|
    ensures var (p, next) := NextPage(children, offset, count);
            && offset <= next <= |children| && p.names == children[offset..next]
            && (count <= 0 ==> next == |children| && !p.eof)
            && (count > 0 ==> next - offset == (if count < |children| - offset then count else |children| - offset))
            && (count > 0 ==> (p.eof <==> offset == |children|))
  {
  }

  /** What calls with these counts give together, and where they leave the directory. */
  function ReadPages(children: seq<string>, offset: nat, counts: seq<int>): (r: (seq<string>, nat))
    requires offset <= |children|
    ensures r.1 <= |children|
    decreases |counts|
  {
    if counts == [] then ([], offset)
    else
      var (p, next) := NextPage(children, offset, counts[0]);
      var (more, end) := ReadPages(children, next, counts[1..]);
      (p.names + more, end)
  }

  /** Pages of any sizes put together are the listing as far as it has been read. */
  lemma {:induction false} PagesConcatenate(children: seq<string>, offset: nat, counts: seq<int>)
    requires offset <= |children|
    ensures var (names, end) := ReadPages(children, offset, counts); offset <= end && names == children[offset..end]
    decreases |counts|
  {
    if counts != [] {
      var (p, next) := NextPage(children, offset, counts[0]);
      PagesConcatenate(children, next, counts[1..]);
    }
  }

  /** Asking for at least one name at a time, often enough, reads everything, and only then does a page
      report the end. */
  lemma {:induction false} PagesReachEnd(children: seq<string>, offset: nat, counts: seq<int>, next: int)
    requires offset <= |children| && (forall i :: 0 <= i < |counts| ==> counts[i] > 0) && next > 0
    ensures var end := ReadPages(children, offset, counts).1;
            && (|counts| >= |children| - offset ==> end == |children|)
            && (NextPage(children, end, next).0.eof <==> end == |children|)
    decreases |counts|
  {
    if counts != [] {
      PagesReachEnd(children, NextPage(children, offset, counts[0]).1, counts[1..], next);
    }
  }
}
