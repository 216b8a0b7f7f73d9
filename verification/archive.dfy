/**
 * The pretest step: every `.hrx` archive under the spec root is flattened
 * into its files, each file is given a destination under the fixture root,
 * and the files of all archives are collected in archive order. Parsing the
 * archive text and writing the files are outside the model; an archive is
 * its parsed tree.
 */
module Archive {
  import opened Wrappers
  import opened Paths

  /** A parsed archive entry: a directory with its named entries in declaration order, or a file. */
  datatype Entry = Dir(entries: seq<(string, Entry)>) | File(body: string)

  /** A file taken out of an archive: its path and its body. */
  datatype Extracted = Extracted(path: Path, body: string)

  /** An archive found by the glob, with the path it was found at. */
  datatype SourceArchive = SourceArchive(archive: Entry, archivePath: Path)

  /** Where the fixtures are written. */
  const DestSpecPath: Path := ["test", "fixtures", "sass-spec"]

  /**
   * The files below `e`, which sits at `at` inside its archive: depth first,
   * in declaration order, directories contributing only their files.
   */
  function FilesOf(e: Entry, at: Path): seq<Extracted>
    decreases e, 1
  {
    match e
    case File(body) => [Extracted(at, body)]
    case Dir(entries) => FilesBefore(e, at, |entries|)
  }

  /** The files below the first `n` entries of the directory `d`. */
  function FilesBefore(d: Entry, at: Path, n: nat): seq<Extracted>
    requires d.Dir? && n <= |d.entries|
    decreases d, 0, n
  {
    if n == 0 then []
    else FilesBefore(d, at, n - 1) + FilesOf(d.entries[n - 1].1, at + [d.entries[n - 1].0])
  }

  /**
   * `extractHrxDir(dir)`: walks the entries of `dir`, pushing each file and
   * appending the files of each subdirectory. `at` is the path of `dir`
   * inside its archive; the files carry their full path from the archive root.
   */
  method ExtractHrxDir(dir: Entry, at: Path) returns (files: seq<Extracted>)
    requires dir.Dir?
    ensures files == FilesOf(dir, at)
    decreases dir
  {
    files := [];
    for i := 0 to |dir.entries|
      invariant files == FilesBefore(dir, at, i)
    {
      var (name, entry) := dir.entries[i];
      if entry.Dir? {
        var inner := ExtractHrxDir(entry, at + [name]);
        files := files + inner;
      } else {
        files := files + [Extracted(at + [name], entry.body)];
      }
    }
  }

  // ---------------------------------------------------------------------
  // What the walk emits

  /** The number of file leaves below `e`. */
  function Leaves(e: Entry): nat
    decreases e, 1
  {
    match e
    case File(_) => 1
    case Dir(entries) => LeavesBefore(e, |entries|)
  }

  function LeavesBefore(d: Entry, n: nat): nat
    requires d.Dir? && n <= |d.entries|
    decreases d, 0, n
  {
    if n == 0 then 0 else LeavesBefore(d, n - 1) + Leaves(d.entries[n - 1].1)
  }

  /** Every file leaf is emitted once: as many files come out as there are leaves. */
  lemma {:induction false} FilesCount(e: Entry, at: Path)
    ensures |FilesOf(e, at)| == Leaves(e)
    decreases e, 1
  {
    if e.Dir? {
      FilesCountBefore(e, at, |e.entries|);
    }
  }

  lemma {:induction false} FilesCountBefore(d: Entry, at: Path, n: nat)
    requires d.Dir? && n <= |d.entries|
    ensures |FilesBefore(d, at, n)| == LeavesBefore(d, n)
    decreases d, 0, n
  {
    if n > 0 {
      FilesCountBefore(d, at, n - 1);
      FilesCount(d.entries[n - 1].1, at + [d.entries[n - 1].0]);
    }
  }

  /** The entry a directory holds under `name`, if any. */
  function Child(entries: seq<(string, Entry)>, name: string): (r: Option<Entry>)
    ensures r.Some? <==> exists j :: 0 <= j < |entries| && entries[j].0 == name
    ensures r.Some? ==> exists j :: 0 <= j < |entries| && entries[j] == (name, r.value)
  {
    if entries == [] then None
    else if entries[0].0 == name then Some(entries[0].1)
    else
      var r := Child(entries[1..], name);
      assert forall j :: 0 <= j < |entries| - 1 ==> entries[1..][j] == entries[j + 1];
      r
  }

  /** The entry at path `p` below `e`. */
  function Lookup(e: Entry, p: Path): Option<Entry>
    decreases |p|
  {
    if p == [] then Some(e)
    else if e.File? then None
    else
      match Child(e.entries, p[0])
      case None => None
      case Some(c) => Lookup(c, p[1..])
  }

  /** No directory holds two entries of the same name, as the archive format requires. */
  predicate WellFormed(e: Entry)
    decreases e, 1
  {
    e.Dir? ==> WellFormedBefore(e, |e.entries|)
  }

  predicate WellFormedBefore(d: Entry, n: nat)
    requires d.Dir? && n <= |d.entries|
    decreases d, 0, n
  {
    n > 0 ==>
      && WellFormedBefore(d, n - 1)
      && WellFormed(d.entries[n - 1].1)
      && d.entries[n - 1].0 !in NamesBefore(d, n - 1)
  }

  /** The names of the first `n` entries of `d`. */
  function NamesBefore(d: Entry, n: nat): (r: set<string>)
    requires d.Dir? && n <= |d.entries|
    ensures forall j :: 0 <= j < n ==> d.entries[j].0 in r
  {
    if n == 0 then {} else NamesBefore(d, n - 1) + {d.entries[n - 1].0}
  }

  /** Every emitted path lies below `at`. */
  lemma {:induction false} FilesBelow(e: Entry, at: Path)
    ensures forall k :: 0 <= k < |FilesOf(e, at)| ==>
      |at| <= |FilesOf(e, at)[k].path| && FilesOf(e, at)[k].path[..|at|] == at
    ensures e.Dir? ==> forall k :: 0 <= k < |FilesOf(e, at)| ==> |at| < |FilesOf(e, at)[k].path|
    decreases e, 1
  {
    if e.Dir? {
      assert FilesOf(e, at) == FilesBefore(e, at, |e.entries|);
      FilesBelowBefore(e, at, |e.entries|);
    }
  }

  /** Every path in `fs` continues `at` with one of `names`. */
  predicate Under(fs: seq<Extracted>, at: Path, names: set<string>) {
    forall k :: 0 <= k < |fs| ==> |at| < |fs[k].path| && fs[k].path[..|at|] == at && fs[k].path[|at|] in names
  }

  /** The files of the first `n` entries lie below `at`, under one of those entries' names. */
  lemma {:induction false} FilesBelowBefore(d: Entry, at: Path, n: nat)
    requires d.Dir? && n <= |d.entries|
    ensures Under(FilesBefore(d, at, n), at, NamesBefore(d, n))
    decreases d, 0, n
  {
    if n > 0 {
      var front := FilesBefore(d, at, n - 1);
      var (name, entry) := d.entries[n - 1];
      var back := FilesOf(entry, at + [name]);
      var fs := front + back;
      FilesBelowBefore(d, at, n - 1);
      FilesBelow(entry, at + [name]);
      assert FilesBefore(d, at, n) == fs;
      assert NamesBefore(d, n) == NamesBefore(d, n - 1) + {name};
      forall k | 0 <= k < |fs|
        ensures |at| < |fs[k].path| && fs[k].path[..|at|] == at && fs[k].path[|at|] in NamesBefore(d, n)
      {
        if k < |front| {
          assert fs[k] == front[k];
        } else {
          assert fs[k] == back[k - |front|];
          assert |at + [name]| <= |back[k - |front|].path|;
          PathBelowStep(fs[k].path, at, name);
        }
      }
    }
  }

  /** A path below `at + [name]` is below `at`, with `name` next. */
  lemma PathBelowStep(p: Path, at: Path, name: string)
    requires |at| + 1 <= |p| && p[..|at + [name]|] == at + [name]
    ensures p[..|at|] == at && p[|at|] == name && p[|at|..] == [name] + p[|at + [name]|..]
  {
    assert p[..|at|] == p[..|at| + 1][..|at|];
    assert p[|at|..] == [p[|at|]] + p[|at| + 1..];
  }

  /** Sound: every emitted file is a file of the tree, found at its path with its body. */
  lemma {:induction false} FilesSound(e: Entry, at: Path, k: nat)
    requires WellFormed(e) && k < |FilesOf(e, at)|
    ensures var f := FilesOf(e, at)[k];
      |at| <= |f.path| && f.path[..|at|] == at && Lookup(e, f.path[|at|..]) == Some(File(f.body))
    decreases e, 1
  {
    FilesBelow(e, at);
    if e.Dir? {
      FilesSoundBefore(e, at, |e.entries|, k);
    }
  }

  lemma {:induction false} FilesSoundBefore(d: Entry, at: Path, n: nat, k: nat)
    requires d.Dir? && n <= |d.entries| && WellFormedBefore(d, n) && k < |FilesBefore(d, at, n)|
    ensures var f := FilesBefore(d, at, n)[k];
      |at| < |f.path| && f.path[..|at|] == at && Lookup(d, f.path[|at|..]) == Some(File(f.body))
    decreases d, 0, n
  {
    var front := FilesBefore(d, at, n - 1);
    var (name, entry) := d.entries[n - 1];
    var back := FilesOf(entry, at + [name]);
    assert FilesBefore(d, at, n) == front + back;
    if k < |front| {
      FilesSoundBefore(d, at, n - 1, k);
      assert FilesBefore(d, at, n)[k] == front[k];
    } else {
      var f := back[k - |front|];
      assert FilesBefore(d, at, n)[k] == f;
      FilesSound(entry, at + [name], k - |front|);
      PathBelowStep(f.path, at, name);
      ChildFound(d, n - 1);
      LookupStep(d, n - 1, f.path[|at|..]);
    }
  }

  /** Looking up a path that starts with the name of entry `j` continues in entry `j`. */
  lemma LookupStep(d: Entry, j: nat, q: Path)
    requires d.Dir? && j < |d.entries| && Child(d.entries, d.entries[j].0) == Some(d.entries[j].1)
    requires q != [] && q[0] == d.entries[j].0
    ensures Lookup(d, q) == Lookup(d.entries[j].1, q[1..])
  {
  }

  /** In a well-formed directory, the name of entry `j` finds entry `j`. */
  lemma ChildFound(d: Entry, j: nat)
    requires d.Dir? && j < |d.entries| && WellFormedBefore(d, j + 1)
    ensures Child(d.entries, d.entries[j].0) == Some(d.entries[j].1)
  {
    var name := d.entries[j].0;
    ChildFirst(d.entries, j);
    forall i | 0 <= i < j ensures d.entries[i].0 != name {
      assert d.entries[i].0 in NamesBefore(d, j);
    }
  }

  /** `Child` returns the first entry carrying the name. */
  lemma {:induction false} ChildFirst(entries: seq<(string, Entry)>, j: nat)
    requires j < |entries| && forall i :: 0 <= i < j ==> entries[i].0 != entries[j].0
    ensures Child(entries, entries[j].0) == Some(entries[j].1)
  {
    if j > 0 {
      var tail := entries[1..];
      assert tail[j - 1] == entries[j];
      ChildFirst(tail, j - 1);
    }
  }

  /** Complete: every file of the tree is emitted, at its path, with its body. */
  lemma {:induction false} FilesComplete(e: Entry, at: Path, p: Path, body: string)
    requires Lookup(e, p) == Some(File(body))
    ensures Extracted(at + p, body) in FilesOf(e, at)
    decreases e, 1
  {
    if p == [] {
      assert at + p == at;
    } else {
      var c := Child(e.entries, p[0]).value;
      var j :| 0 <= j < |e.entries| && e.entries[j] == (p[0], c);
      FilesComplete(c, at + [p[0]], p[1..], body);
      assert at + [p[0]] + p[1..] == at + p;
      FilesBeforeHas(e, at, |e.entries|, j);
    }
  }

  /** The files of entry `j` are among those of the first `n` entries, for `j < n`. */
  lemma {:induction false} FilesBeforeHas(d: Entry, at: Path, n: nat, j: nat)
    requires d.Dir? && j < n <= |d.entries|
    ensures multiset(FilesOf(d.entries[j].1, at + [d.entries[j].0])) <= multiset(FilesBefore(d, at, n))
    decreases n
  {
    if j < n - 1 {
      FilesBeforeHas(d, at, n - 1, j);
    }
  }

  /** No two files in `fs` share a path. */
  predicate DistinctPaths(fs: seq<Extracted>) {
    forall k, l :: 0 <= k < l < |fs| ==> fs[k].path != fs[l].path
  }

  /** Distinct files get distinct paths when no directory repeats a name. */
  lemma {:induction false} FilesDistinct(e: Entry, at: Path)
    requires WellFormed(e)
    ensures DistinctPaths(FilesOf(e, at))
    decreases e, 1
  {
    if e.Dir? {
      assert FilesOf(e, at) == FilesBefore(e, at, |e.entries|);
      FilesDistinctBefore(e, at, |e.entries|);
    }
  }

  lemma {:induction false} FilesDistinctBefore(d: Entry, at: Path, n: nat)
    requires d.Dir? && n <= |d.entries| && WellFormedBefore(d, n)
    ensures DistinctPaths(FilesBefore(d, at, n))
    decreases d, 0, n
  {
    if n > 0 {
      var front := FilesBefore(d, at, n - 1);
      var (name, entry) := d.entries[n - 1];
      var back := FilesOf(entry, at + [name]);
      FilesDistinctBefore(d, at, n - 1);
      FilesDistinct(entry, at + [name]);
      FilesBelowBefore(d, at, n - 1);
      FilesBelow(entry, at + [name]);
      var fs := front + back;
      assert FilesBefore(d, at, n) == fs;
      forall k, l | 0 <= k < l < |fs| ensures fs[k].path != fs[l].path {
        if k < |front| && l >= |front| {
          assert fs[k] == front[k] && fs[l] == back[l - |front|];
          assert Under(front, at, NamesBefore(d, n - 1));
          PathBelowStep(fs[l].path, at, name);
          assert fs[k].path[|at|] in NamesBefore(d, n - 1);
        } else if l < |front| {
          assert fs[k] == front[k] && fs[l] == front[l];
          assert DistinctPaths(front);
        } else {
          assert fs[k] == back[k - |front|] && fs[l] == back[l - |front|];
          assert DistinctPaths(back);
        }
      }
    }
  }

  /**
   * Depth first in declaration order: the files of a directory whose entries
   * are `a` followed by `b` are those of `a` followed by those of `b`, so each
   * subdirectory's files sit together at its position among its siblings.
   */
  lemma DirConcat(a: seq<(string, Entry)>, b: seq<(string, Entry)>, at: Path)
    ensures FilesOf(Dir(a + b), at) == FilesOf(Dir(a), at) + FilesOf(Dir(b), at)
  {
    FilesBeforeConcat(a, b, at, |b|);
  }

  lemma {:induction false} FilesBeforeConcat(a: seq<(string, Entry)>, b: seq<(string, Entry)>, at: Path, n: nat)
    requires n <= |b|
    ensures FilesBefore(Dir(a + b), at, |a| + n) == FilesOf(Dir(a), at) + FilesBefore(Dir(b), at, n)
  {
    if n == 0 {
      FilesBeforeSame(Dir(a + b), Dir(a), at, |a|);
    } else {
      FilesBeforeConcat(a, b, at, n - 1);
      assert (a + b)[|a| + n - 1] == b[n - 1];
    }
  }

  /** The files of the first `n` entries depend on those entries only. */
  lemma {:induction false} FilesBeforeSame(d: Entry, d': Entry, at: Path, n: nat)
    requires d.Dir? && d'.Dir? && n <= |d.entries| && n <= |d'.entries| && d.entries[..n] == d'.entries[..n]
    ensures FilesBefore(d, at, n) == FilesBefore(d', at, n)
  {
    if n > 0 {
      assert d.entries[..n - 1] == d.entries[..n][..n - 1];
      assert d'.entries[..n - 1] == d'.entries[..n][..n - 1];
      assert d.entries[n - 1] == d.entries[..n][n - 1];
      assert d'.entries[n - 1] == d'.entries[..n][n - 1];
      FilesBeforeSame(d, d', at, n - 1);
    }
  }

  // ---------------------------------------------------------------------
  // Destination paths

  /** `basename(name, '.hrx')`: the name without a trailing `.hrx`, unless that is all it is. */
  function StripHrx(name: string): (r: string)
    ensures |name| > 4 && name[|name| - 4..] == ".hrx" ==> r + ".hrx" == name && r != ""
    ensures !(|name| > 4 && name[|name| - 4..] == ".hrx") ==> r == name
  {
    if |name| > 4 && name[|name| - 4..] == ".hrx" then name[..|name| - 4] else name
  }

  /** `join(dirname(archivePath), basename(archivePath, '.hrx'))`: the folder the archive stands for. */
  function ArchiveFolder(archivePath: Path): (r: Path)
    ensures archivePath == [] ==> r == []
    ensures archivePath != [] ==>
      |r| == |archivePath| && r[..|r| - 1] == archivePath[..|archivePath| - 1] &&
      r[|r| - 1] == StripHrx(archivePath[|archivePath| - 1])
  {
    if archivePath == [] then []
    else archivePath[..|archivePath| - 1] + [StripHrx(archivePath[|archivePath| - 1])]
  }

  /** `src` occurs in `p` at index `i`. */
  predicate OccursAtPath(p: Path, src: Path, i: nat) {
    i + |src| <= |p| && p[i..i + |src|] == src
  }

  /** `p.replace(src, dst)`: the first occurrence of `src`, if any, replaced by `dst`. */
  function ReplaceFirst(p: Path, src: Path, dst: Path): Path
    decreases |p|
  {
    if OccursAtPath(p, src, 0) then dst + p[|src|..]
    else if p == [] then p
    else [p[0]] + ReplaceFirst(p[1..], src, dst)
  }

  /** Replacing at the first occurrence `i` keeps what is before and after it. */
  lemma {:induction false} ReplaceFirstAt(p: Path, src: Path, dst: Path, i: nat)
    requires OccursAtPath(p, src, i) && forall j: nat :: j < i ==> !OccursAtPath(p, src, j)
    ensures ReplaceFirst(p, src, dst) == p[..i] + dst + p[i + |src|..]
  {
    if i > 0 {
      var tail := p[1..];
      assert !OccursAtPath(p, src, 0) && p != [];
      assert ReplaceFirst(p, src, dst) == [p[0]] + ReplaceFirst(tail, src, dst);
      forall j: nat | j < i - 1 ensures !OccursAtPath(tail, src, j) {
        OccursShift(p, src, j);
      }
      OccursShift(p, src, i - 1);
      ReplaceFirstAt(tail, src, dst, i - 1);
      assert [p[0]] + tail[..i - 1] == p[..i];
      assert tail[i - 1 + |src|..] == p[i + |src|..];
    }
  }

  /** An occurrence in the tail is an occurrence one further on in the whole. */
  lemma OccursShift(p: Path, src: Path, j: nat)
    requires p != []
    ensures OccursAtPath(p[1..], src, j) <==> OccursAtPath(p, src, j + 1)
  {
    if j + |src| <= |p| - 1 {
      assert p[1..][j..j + |src|] == p[j + 1..j + 1 + |src|];
    }
  }

  /** Without an occurrence, the path is unchanged. */
  lemma {:induction false} ReplaceFirstAbsent(p: Path, src: Path, dst: Path)
    requires forall j: nat :: j <= |p| ==> !OccursAtPath(p, src, j)
    ensures ReplaceFirst(p, src, dst) == p
    decreases |p|
  {
    if p != [] {
      assert !OccursAtPath(p, src, 0);
      var tail := p[1..];
      forall j: nat | j <= |tail| ensures !OccursAtPath(tail, src, j) {
        OccursShift(p, src, j);
      }
      ReplaceFirstAbsent(tail, src, dst);
      assert [p[0]] + tail == p;
    }
  }

  /** The destination of the file at `inner` in the archive at `archivePath`. */
  function Destination(srcRoot: Path, archivePath: Path, inner: Path): Path {
    ReplaceFirst(ArchiveFolder(archivePath) + inner, srcRoot, DestSpecPath)
  }

  /**
   * For an archive the glob found below the spec root, the destination is the
   * same place below the fixture root: the archive's folders, the archive's
   * name without `.hrx`, then the file's path inside the archive.
   */
  lemma DestinationBelowRoot(srcRoot: Path, rel: Path, name: string, inner: Path)
    ensures Destination(srcRoot, srcRoot + rel + [name], inner) == DestSpecPath + rel + [StripHrx(name)] + inner
  {
    var archivePath := srcRoot + rel + [name];
    var joined := ArchiveFolder(archivePath) + inner;
    assert ArchiveFolder(archivePath) == srcRoot + rel + [StripHrx(name)];
    assert joined == srcRoot + (rel + [StripHrx(name)] + inner);
    assert joined[..|srcRoot|] == srcRoot;
    ReplaceFirstAt(joined, srcRoot, DestSpecPath, 0);
    assert joined[|srcRoot|..] == rel + [StripHrx(name)] + inner;
  }

  /** `extractHrxDir(archive).map(...)`: each file of one archive, moved to its destination with its body. */
  function MapFiles(srcRoot: Path, a: SourceArchive): (r: seq<Extracted>)
    requires a.archive.Dir?
    ensures |r| == Leaves(a.archive) == |FilesOf(a.archive, [])|
    ensures forall k :: 0 <= k < |r| ==>
      r[k].body == FilesOf(a.archive, [])[k].body &&
      r[k].path == Destination(srcRoot, a.archivePath, FilesOf(a.archive, [])[k].path)
  {
    FilesCount(a.archive, []);
    var files := FilesOf(a.archive, []);
    seq(|files|, k requires 0 <= k < |files| => Extracted(Destination(srcRoot, a.archivePath, files[k].path), files[k].body))
  }

  /** Every archive is a parsed tree rooted at a directory. */
  predicate AllDirs(archives: seq<SourceArchive>) {
    forall i :: 0 <= i < |archives| ==> archives[i].archive.Dir?
  }

  /** `archives.reduce((prev, a) => prev.concat(files of a), [])`. */
  function ExtractAll(srcRoot: Path, archives: seq<SourceArchive>): seq<Extracted>
    requires AllDirs(archives)
  {
    if archives == [] then []
    else ExtractAll(srcRoot, archives[..|archives| - 1]) + MapFiles(srcRoot, archives[|archives| - 1])
  }

  /** The file count of all archives together. */
  function LeavesAll(archives: seq<SourceArchive>): nat {
    if archives == [] then 0 else LeavesAll(archives[..|archives| - 1]) + Leaves(archives[|archives| - 1].archive)
  }

  /** The collected list holds each archive's files, in archive order. */
  lemma {:induction false} ExtractAllAppend(srcRoot: Path, a: seq<SourceArchive>, b: seq<SourceArchive>)
    requires AllDirs(a) && AllDirs(b)
    ensures AllDirs(a + b)
    ensures ExtractAll(srcRoot, a + b) == ExtractAll(srcRoot, a) + ExtractAll(srcRoot, b)
    decreases |b|
  {
    assert AllDirs(a + b) by {
      forall i | 0 <= i < |a + b| ensures (a + b)[i].archive.Dir? {
        if i >= |a| { assert (a + b)[i] == b[i - |a|]; }
      }
    }
    if b == [] {
      assert a + b == a;
    } else {
      var front, last := b[..|b| - 1], b[|b| - 1];
      var m := MapFiles(srcRoot, last);
      assert AllDirs(front);
      assert ExtractAll(srcRoot, a + front) == ExtractAll(srcRoot, a) + ExtractAll(srcRoot, front) by {
        ExtractAllAppend(srcRoot, a, front);
      }
      assert (a + b)[..|a + b| - 1] == a + front && (a + b)[|a + b| - 1] == last;
      assert ExtractAll(srcRoot, a + b) == ExtractAll(srcRoot, a + front) + m;
      assert ExtractAll(srcRoot, b) == ExtractAll(srcRoot, front) + m;
    }
  }

  /** Nothing is lost or added: as many files are written as the archives hold. */
  lemma {:induction false} ExtractAllCount(srcRoot: Path, archives: seq<SourceArchive>)
    requires AllDirs(archives)
    ensures |ExtractAll(srcRoot, archives)| == LeavesAll(archives)
  {
    if archives != [] {
      ExtractAllCount(srcRoot, archives[..|archives| - 1]);
    }
  }

  /** The example archive: `a/b.txt` holding `hello`. */
  const ExampleArchive: Entry := Dir([("a", Dir([("b.txt", File("hello"))]))])

  lemma ExampleFiles()
    ensures FilesOf(ExampleArchive, []) == [Extracted(["a", "b.txt"], "hello")]
  {
    var inner := Dir([("b.txt", File("hello"))]);
    var file := [Extracted(["a", "b.txt"], "hello")];
    assert ["a"] + ["b.txt"] == ["a", "b.txt"];
    assert FilesOf(File("hello"), ["a"] + ["b.txt"]) == file;
    assert FilesBefore(inner, ["a"], 1) == FilesBefore(inner, ["a"], 0) + file;
    assert FilesOf(inner, ["a"]) == file;
    var root: Path := [];
    assert root + ["a"] == ["a"];
    assert FilesBefore(ExampleArchive, root, 1) == FilesBefore(ExampleArchive, root, 0) + FilesOf(inner, root + ["a"]);
  }

  lemma ExampleDestination(srcRoot: Path)
    ensures Destination(srcRoot, srcRoot + ["spec", "foo.hrx"], ["a", "b.txt"]) ==
      DestSpecPath + ["spec", "foo", "a", "b.txt"]
  {
    assert StripHrx("foo.hrx") == "foo";
    assert srcRoot + ["spec", "foo.hrx"] == srcRoot + ["spec"] + ["foo.hrx"];
    DestinationBelowRoot(srcRoot, ["spec"], "foo.hrx", ["a", "b.txt"]);
    assert DestSpecPath + ["spec"] + ["foo"] + ["a", "b.txt"] == DestSpecPath + ["spec", "foo", "a", "b.txt"];
  }

  /**
   * An archive at `spec/foo.hrx` below the spec root holding `a/b.txt` with
   * body `hello` yields exactly one file, `spec/foo/a/b.txt` below the
   * fixture root, with that body.
   */
  lemma ExtractExample(srcRoot: Path)
    ensures ExtractAll(srcRoot, [SourceArchive(ExampleArchive, srcRoot + ["spec", "foo.hrx"])]) ==
      [Extracted(DestSpecPath + ["spec", "foo", "a", "b.txt"], "hello")]
  {
    var archives := [SourceArchive(ExampleArchive, srcRoot + ["spec", "foo.hrx"])];
    ExampleFiles();
    ExampleDestination(srcRoot);
    assert archives[..0] == [];
    var r := MapFiles(srcRoot, archives[0]);
    assert |r| == 1 && r[0] == Extracted(DestSpecPath + ["spec", "foo", "a", "b.txt"], "hello");
  }
}
