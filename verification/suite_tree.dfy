/**
 * `executeSuite`: the fixture inputs found under the spec folder become a tree
 * of suites. A suite keeps the inputs that sit one folder below it as its own
 * tests and hands the rest, grouped by their next path segment, to child
 * suites, each of which starts from a copy of its parent's options.
 */
module SuiteTree {
  import opened Wrappers
  import opened Paths
  import opened Options

  datatype Suite = Suite(name: string, folder: Path, tests: seq<Path>, suites: seq<Suite>, options: Config)

  predicate IsInputName(seg: string) {
    seg == "input.scss" || seg == "input.sass"
  }

  /** The input lies in a fixture folder directly inside the suite folder (of `depth` segments). */
  predicate IsDirect(p: Path, depth: nat) {
    depth + 1 < |p| && IsInputName(p[depth + 1])
  }

  /**
   * What the corpus is assumed to hold below a suite folder of `depth`
   * segments: every path reaches past the folder's child and names an input
   * file. The input glob would also deliver an `input.scss` lying directly in
   * the spec folder, on which `executeSuite` recurses without end; the corpus
   * is assumed to have none.
   */
  predicate Buildable(tests: seq<Path>, depth: nat) {
    forall i :: 0 <= i < |tests| ==> depth + 2 <= |tests[i]| && IsInputName(tests[i][|tests[i]| - 1])
  }

  /** Every path has a segment at index `depth`. */
  predicate Deep(xs: seq<Path>, depth: nat) {
    forall i :: 0 <= i < |xs| ==> depth < |xs[i]|
  }

  /** The inputs the filter pushes onto the suite's own tests, in order. */
  function Direct(tests: seq<Path>, depth: nat): seq<Path> {
    if tests == [] then []
    else
      var last := tests[|tests| - 1];
      Direct(tests[..|tests| - 1], depth) + (if IsDirect(last, depth) then [last] else [])
  }

  /** The inputs the filter keeps for the child suites, in order. */
  function Nested(tests: seq<Path>, depth: nat): seq<Path> {
    if tests == [] then []
    else
      var last := tests[|tests| - 1];
      Nested(tests[..|tests| - 1], depth) + (if IsDirect(last, depth) then [] else [last])
  }

  /** The runs concatenated in order. */
  function Flatten(runs: seq<seq<Path>>): seq<Path> {
    if runs == [] then [] else Flatten(runs[..|runs| - 1]) + runs[|runs| - 1]
  }

  /** A nonempty run whose paths all have segment `depth`, and agree on it. */
  predicate SameSegment(run: seq<Path>, depth: nat) {
    && run != [] && depth < |run[0]|
    && (forall i :: 0 <= i < |run| ==> depth < |run[i]| && run[i][depth] == run[0][depth])
  }

  /** Runs of agreeing paths, no two neighbours agreeing with each other. */
  ghost predicate MaximalRuns(runs: seq<seq<Path>>, depth: nat) {
    && (forall k :: 0 <= k < |runs| ==> SameSegment(runs[k], depth))
    && (forall k, l :: 0 <= k < l < |runs| && l == k + 1 ==> runs[k][0][depth] != runs[l][0][depth])
  }

  /** The current run is nonempty and its first path has segment `depth`. */
  predicate LastRunOk(runs: seq<seq<Path>>, depth: nat) {
    runs != [] ==> runs[|runs| - 1] != [] && depth < |runs[|runs| - 1][0]|
  }

  /**
   * One step of the grouping loop: the next path joins the current run when
   * it agrees with the run's first path on segment `depth`, and starts a new
   * run otherwise.
   */
  function Extend(runs: seq<seq<Path>>, p: Path, depth: nat): (r: seq<seq<Path>>)
    requires LastRunOk(runs, depth) && depth < |p|
    ensures r != [] && LastRunOk(r, depth)
  {
    if runs != [] && runs[|runs| - 1][0][depth] == p[depth] then
      runs[..|runs| - 1] + [runs[|runs| - 1] + [p]]
    else
      runs + [[p]]
  }

  lemma ExtendKeepsRuns(runs: seq<seq<Path>>, p: Path, depth: nat)
    requires MaximalRuns(runs, depth) && depth < |p|
    ensures MaximalRuns(Extend(runs, p, depth), depth)
    ensures Flatten(Extend(runs, p, depth)) == Flatten(runs) + [p]
  {
    var r := Extend(runs, p, depth);
    if runs != [] && runs[|runs| - 1][0][depth] == p[depth] {
      var n := |runs|;
      var run := runs[n - 1] + [p];
      assert r[..n - 1] == runs[..n - 1] && r[n - 1] == run;
      assert SameSegment(run, depth) by {
        assert SameSegment(runs[n - 1], depth);
        assert forall i :: 0 <= i < |run| ==> run[i] == (if i < |runs[n - 1]| then runs[n - 1][i] else p);
      }
      assert Flatten(runs) == Flatten(runs[..n - 1]) + runs[n - 1];
    } else {
      assert r[..|runs|] == runs;
    }
  }

  /**
   * The grouping loop's cut: maximal runs of consecutive inputs that agree on
   * segment `depth`. Inputs that are not adjacent form separate runs even
   * when their segments agree.
   */
  function Runs(xs: seq<Path>, depth: nat): (runs: seq<seq<Path>>)
    requires Deep(xs, depth)
    ensures LastRunOk(runs, depth)
  {
    if xs == [] then []
    else Extend(Runs(xs[..|xs| - 1], depth), xs[|xs| - 1], depth)
  }

  /** The runs hold all the inputs, in order, and are maximal. */
  lemma {:induction false} RunsProps(xs: seq<Path>, depth: nat)
    requires Deep(xs, depth)
    ensures Flatten(Runs(xs, depth)) == xs
    ensures MaximalRuns(Runs(xs, depth), depth)
  {
    if xs != [] {
      var front := xs[..|xs| - 1];
      var last := xs[|xs| - 1];
      RunsProps(front, depth);
      var init := Runs(front, depth);
      assert Runs(xs, depth) == Extend(init, last, depth);
      ExtendKeepsRuns(init, last, depth);
      assert front + [last] == xs;
    }
  }

  /** The runs a suite of `depth` segments may hand to its children. */
  predicate ChildRuns(runs: seq<seq<Path>>, depth: nat) {
    forall k :: 0 <= k < |runs| ==> SameSegment(runs[k], depth) && Buildable(runs[k], depth + 1)
  }

  /** Extending keeps every run buildable one level down. */
  lemma ExtendKeepsBuildable(runs: seq<seq<Path>>, p: Path, depth: nat)
    requires MaximalRuns(runs, depth) && depth < |p|
    requires forall k :: 0 <= k < |runs| ==> Buildable(runs[k], depth + 1)
    requires depth + 3 <= |p| && IsInputName(p[|p| - 1])
    ensures forall k :: 0 <= k < |Extend(runs, p, depth)| ==> Buildable(Extend(runs, p, depth)[k], depth + 1)
  {
    var r := Extend(runs, p, depth);
    if runs != [] && runs[|runs| - 1][0][depth] == p[depth] {
      var n := |runs|;
      var run := runs[n - 1] + [p];
      assert r[..n - 1] == runs[..n - 1] && r[n - 1] == run;
      assert Buildable(run, depth + 1) by {
        assert Buildable(runs[n - 1], depth + 1);
        assert forall i :: 0 <= i < |run| ==> run[i] == (if i < |runs[n - 1]| then runs[n - 1][i] else p);
      }
    } else {
      assert r[..|runs|] == runs && r[|runs|] == [p];
    }
  }

  /** Inputs below a suite's children group into runs the children can be built from. */
  lemma {:induction false} RunsOfBuildable(xs: seq<Path>, depth: nat)
    requires Buildable(xs, depth + 1)
    ensures Deep(xs, depth) && ChildRuns(Runs(xs, depth), depth)
  {
    if xs != [] {
      var front := xs[..|xs| - 1];
      var last := xs[|xs| - 1];
      assert Buildable(front, depth + 1);
      RunsOfBuildable(front, depth);
      RunsProps(front, depth);
      RunsProps(xs, depth);
      ExtendKeepsBuildable(Runs(front, depth), last, depth);
    }
  }

  /** The longest path among `xs`. */
  function MaxLen(xs: seq<Path>): (n: nat)
    ensures forall i :: 0 <= i < |xs| ==> |xs[i]| <= n
    ensures xs != [] ==> exists i :: 0 <= i < |xs| && |xs[i]| == n
  {
    if xs == [] then 0
    else
      var m := MaxLen(xs[..|xs| - 1]);
      var p := xs[|xs| - 1];
      if |p| > m then |p| else m
  }

  /** How many folder levels the recursion can still descend. */
  function Height(tests: seq<Path>, depth: nat): nat {
    if MaxLen(tests) > depth then MaxLen(tests) - depth else 0
  }

  /** The inputs kept for the children lie deeper than the suite's own and are no longer than the longest input. */
  lemma {:induction false} NestedBuildable(tests: seq<Path>, depth: nat)
    requires Buildable(tests, depth)
    ensures Buildable(Nested(tests, depth), depth + 1)
    ensures forall i :: 0 <= i < |Nested(tests, depth)| ==> |Nested(tests, depth)[i]| <= MaxLen(tests)
  {
    if tests != [] {
      var front := tests[..|tests| - 1];
      assert Buildable(front, depth);
      NestedBuildable(front, depth);
      assert MaxLen(front) <= MaxLen(tests);
    }
  }

  /** The runs handed to the children are buildable and have no more height than the suite. */
  lemma NestedRuns(tests: seq<Path>, depth: nat)
    requires Buildable(tests, depth)
    ensures Buildable(Nested(tests, depth), depth + 1)
    ensures Height(Nested(tests, depth), depth) <= Height(tests, depth)
    ensures ChildRuns(Runs(Nested(tests, depth), depth), depth)
    ensures Height(Flatten(Runs(Nested(tests, depth), depth)), depth) <= Height(tests, depth)
  {
    var rest := Nested(tests, depth);
    NestedBuildable(tests, depth);
    RunsOfBuildable(rest, depth);
    RunsProps(rest, depth);
  }

  /** Each child has less left to descend than the suite that makes it. */
  lemma ChildHeight(runs: seq<seq<Path>>, depth: nat)
    requires runs != [] && ChildRuns(runs, depth)
    ensures Height(Flatten(runs[..|runs| - 1]), depth) <= Height(Flatten(runs), depth)
    ensures Height(runs[|runs| - 1], depth + 1) < Height(Flatten(runs), depth)
  {
    var front := Flatten(runs[..|runs| - 1]);
    var last := runs[|runs| - 1];
    assert Flatten(runs) == front + last;
    MaxLenAppend(front, last);
    assert Buildable(last, depth + 1);
    assert depth + 3 <= |last[0]| <= MaxLen(last);
  }

  /** The longest path of a concatenation is the longer of the two longest. */
  lemma MaxLenAppend(a: seq<Path>, b: seq<Path>)
    ensures MaxLen(a) <= MaxLen(a + b) && MaxLen(b) <= MaxLen(a + b)
  {
    var ab := a + b;
    assert forall i :: 0 <= i < |a| ==> a[i] == ab[i];
    assert forall i :: 0 <= i < |b| ==> b[i] == ab[|a| + i];
  }

  /**
   * The suite's options: its folder's `options.yml`, when there is one, merged
   * onto a copy of the parent's. When the reader rejects the document, the
   * fallback reads the options path of a `testCase` that does not exist in
   * this scope, so the build fails whatever the document says.
   */
  function SuiteOptions(yaml: map<Path, YamlDoc>, folder: Path, inherited: Config): (r: Result<Config, Failure>)
    ensures folder + ["options.yml"] !in yaml ==> r == Ok(inherited)
    ensures r.Err? <==> folder + ["options.yml"] in yaml && yaml[folder + ["options.yml"]].Malformed?
    ensures r.Ok? && folder + ["options.yml"] in yaml ==> r.value == Merge(inherited, yaml[folder + ["options.yml"]].config)
  {
    var file := folder + ["options.yml"];
    if file !in yaml then Ok(inherited)
    else
      match yaml[file]
      case Parsed(doc) => Ok(Merge(inherited, doc))
      case Malformed(_) => Err(UndefinedTestCase(file))
  }

  /**
   * The suite's options as the fallback evidently means them: a rejected
   * document is looked at again from the suite's own `options.yml`, the way
   * `initialize` treats a case's, so the duplicate `:todo` pattern marks the
   * suite and only any other rejected document throws.
   */
  function SuiteOptionsIntended(yaml: map<Path, YamlDoc>, folder: Path, inherited: Config): (r: Result<Config, Failure>)
    ensures folder + ["options.yml"] !in yaml ==> r == Ok(inherited)
    ensures r.Err? <==> folder + ["options.yml"] in yaml && yaml[folder + ["options.yml"]] == Malformed(false)
    ensures r.Err? ==> r.error == YamlError(folder + ["options.yml"])
    ensures folder + ["options.yml"] in yaml && yaml[folder + ["options.yml"]].Parsed? ==>
      r == SuiteOptions(yaml, folder, inherited) && r == Ok(Merge(inherited, yaml[folder + ["options.yml"]].config))
    ensures folder + ["options.yml"] in yaml && yaml[folder + ["options.yml"]] == Malformed(true) ==>
      r == Ok(Merge(inherited, TodoFallback))
  {
    var file := folder + ["options.yml"];
    if file !in yaml then Ok(inherited)
    else
      match yaml[file]
      case Parsed(doc) => Ok(Merge(inherited, doc))
      case Malformed(todoFallback) =>
        if todoFallback then Ok(Merge(inherited, TodoFallback)) else Err(YamlError(file))
  }

  /**
   * With the fallback repaired, a suite whose `options.yml` has the duplicate
   * `:todo` key is marked todo, unless the parent's `:todo` is a list that
   * `some(impl)` throws on.
   */
  lemma SuiteFallbackMarksTodo(yaml: map<Path, YamlDoc>, folder: Path, inherited: Config)
    requires folder + ["options.yml"] in yaml && yaml[folder + ["options.yml"]] == Malformed(true)
    requires ":todo" in inherited && inherited[":todo"].List? ==> SomeImpl(inherited[":todo"].items, ":todo").Ok?
    ensures SuiteOptionsIntended(yaml, folder, inherited).Ok?
    ensures MarksImpl(SuiteOptionsIntended(yaml, folder, inherited).value, ":todo")
  {
    var r := Merge(inherited, TodoFallback);
    var mark := Str(ImplName);
    assert NamesImpl(mark) by {
      assert ImplName[0..] == ImplName;
      assert OccursAt(ImplName, ImplName, 0);
    }
    if ":todo" in inherited && inherited[":todo"].List? {
      var items := inherited[":todo"].items;
      if SomeImpl(items, ":todo") == Ok(true) {
        MergeKeepsMark(inherited, TodoFallback, ":todo");
      } else {
        var found := SomeImpl(items, ":todo");
        assert found.Ok? && found.value != true;
        assert found == Ok(false);
        var merged := items + [mark];
        assert r[":todo"] == List(merged);
        assert merged[|items|] == mark;
        assert StringsBefore(merged, |items|) by {
          assert StringsBefore(items, |items|);
          forall i | 0 <= i < |items| ensures merged[i].Str? {
            assert merged[i] == items[i];
          }
        }
      }
    } else {
      var items := [mark];
      assert r[":todo"] == List(items);
      assert StringsBefore(items, 0);
    }
  }

  /**
   * The fallback as written throws for exactly the document it was written
   * for: a suite `options.yml` with the duplicate `:todo` key fails the whole
   * build, where the repaired fallback marks the suite todo.
   */
  lemma UndefinedTestCaseFallback(folder: Path)
    ensures var yaml := map[folder + ["options.yml"] := Malformed(true)];
      && SuiteOptions(yaml, folder, map[]) == Err(UndefinedTestCase(folder + ["options.yml"]))
      && SuiteOptionsIntended(yaml, folder, map[]).Ok?
      && MarksImpl(SuiteOptionsIntended(yaml, folder, map[]).value, ":todo")
  {
    SuiteFallbackMarksTodo(map[folder + ["options.yml"] := Malformed(true)], folder, map[]);
  }

  /**
   * The suite `executeSuite` builds for `folder` from `tests`: its options,
   * the inputs one folder below it as its own tests, and one child per run
   * of the remaining inputs.
   */
  function BuildSuite(yaml: map<Path, YamlDoc>, name: string, folder: Path, inherited: Config, tests: seq<Path>)
    : Result<Suite, Failure>
    requires Buildable(tests, |folder|)
    decreases Height(tests, |folder|), 1, 0
  {
    var options :- SuiteOptions(yaml, folder, inherited);
    NestedRuns(tests, |folder|);
    var suites :- BuildChildren(yaml, folder, options, Runs(Nested(tests, |folder|), |folder|));
    Ok(Suite(name, folder, Direct(tests, |folder|), suites, options))
  }

  /** The children for `runs`, in order; the first failure is the result. */
  function BuildChildren(yaml: map<Path, YamlDoc>, folder: Path, options: Config, runs: seq<seq<Path>>)
    : Result<seq<Suite>, Failure>
    requires ChildRuns(runs, |folder|)
    decreases Height(Flatten(runs), |folder|), 0, |runs|
  {
    if runs == [] then Ok([])
    else
      ChildHeight(runs, |folder|);
      var done :- BuildChildren(yaml, folder, options, runs[..|runs| - 1]);
      var run := runs[|runs| - 1];
      var name := run[0][|folder|];
      var child :- BuildSuite(yaml, name, folder + [name], options, run);
      Ok(done + [child])
  }

  /** A run cut from the inputs kept for the children has less left to descend than the suite. */
  lemma SliceHeight(rest: seq<Path>, a: nat, b: nat, depth: nat)
    requires a < b <= |rest| && Buildable(rest, depth + 1)
    ensures Buildable(rest[a..b], depth + 1)
    ensures Height(rest[a..b], depth + 1) < Height(rest, depth)
  {
    var run := rest[a..b];
    assert forall i :: 0 <= i < |run| ==> run[i] == rest[a + i];
    assert depth + 3 <= |run[0]| <= MaxLen(run);
  }

  /** Once a child fails, the children after it change nothing. */
  lemma {:induction false} BuildChildrenStopsAtFailure(yaml: map<Path, YamlDoc>, folder: Path, options: Config,
                                                       runs: seq<seq<Path>>, n: nat)
    requires ChildRuns(runs, |folder|) && n <= |runs|
    requires BuildChildren(yaml, folder, options, runs[..n]).Err?
    ensures BuildChildren(yaml, folder, options, runs) == BuildChildren(yaml, folder, options, runs[..n])
    decreases |runs|
  {
    if n < |runs| {
      assert runs[..|runs| - 1][..n] == runs[..n];
      BuildChildrenStopsAtFailure(yaml, folder, options, runs[..|runs| - 1], n);
    } else {
      assert runs[..n] == runs;
    }
  }

  /** One step of the grouping loop is one step of `Runs`. */
  lemma RunsStep(xs: seq<Path>, j: nat, depth: nat)
    requires Deep(xs, depth)
    requires j < |xs|
    ensures Runs(xs[..j + 1], depth) == Extend(Runs(xs[..j], depth), xs[j], depth)
  {
    assert xs[..j + 1][..j] == xs[..j] && xs[..j + 1][j] == xs[j];
  }

  /** `BuildSuite` once the suite's options are known. */
  lemma BuildSuiteUnfold(yaml: map<Path, YamlDoc>, name: string, folder: Path, inherited: Config, tests: seq<Path>,
                         options: Config)
    requires Buildable(tests, |folder|) && SuiteOptions(yaml, folder, inherited) == Ok(options)
    ensures var rest := Nested(tests, |folder|);
      && Buildable(rest, |folder| + 1)
      && Height(rest, |folder|) <= Height(tests, |folder|)
      && (rest == [] ==> BuildSuite(yaml, name, folder, inherited, tests) == Ok(Suite(name, folder, Direct(tests, |folder|), [], options)))
      && ChildRuns(Runs(rest, |folder|), |folder|)
      && BuildSuite(yaml, name, folder, inherited, tests) ==
           (var suites :- BuildChildren(yaml, folder, options, Runs(rest, |folder|));
            Ok(Suite(name, folder, Direct(tests, |folder|), suites, options)))
  {
    NestedRuns(tests, |folder|);
  }

  /** `tests.filter(...)`: pushes the suite's own tests and keeps the others, both in order. */
  method FilterOwnTests(tests: seq<Path>, depth: nat) returns (own: seq<Path>, rest: seq<Path>)
    ensures own == Direct(tests, depth) && rest == Nested(tests, depth)
  {
    own, rest := [], [];
    var i := 0;
    while i < |tests|
      invariant 0 <= i <= |tests|
      invariant own == Direct(tests[..i], depth) && rest == Nested(tests[..i], depth)
    {
      assert tests[..i + 1][..i] == tests[..i];
      if IsDirect(tests[i], depth) {
        own := own + [tests[i]];
      } else {
        rest := rest + [tests[i]];
      }
      i := i + 1;
    }
    assert tests[..|tests|] == tests;
  }

  /**
   * `executeSuite(suite, tests)` for the suite `{name, folder, options: inherited}`:
   * reads the folder's options, filters out the suite's own tests and builds
   * the children from the others.
   */
  method ExecuteSuite(yaml: map<Path, YamlDoc>, name: string, folder: Path, inherited: Config, tests: seq<Path>)
    returns (r: Result<Suite, Failure>)
    requires Buildable(tests, |folder|)
    ensures r == BuildSuite(yaml, name, folder, inherited, tests)
    decreases Height(tests, |folder|), 2
  {
    var options := inherited;
    var optionsFile := folder + ["options.yml"];
    if optionsFile in yaml {
      match yaml[optionsFile]
      case Parsed(doc) =>
        options := Merge(options, doc);
      case Malformed(_) =>
        return Err(UndefinedTestCase(optionsFile));
    }
    var own, rest := FilterOwnTests(tests, |folder|);
    BuildSuiteUnfold(yaml, name, folder, inherited, tests, options);
    var suites: seq<Suite> := [];
    if |rest| != 0 {
      var children := ExecuteChildren(yaml, folder, options, rest);
      if children.Err? {
        return Err(children.error);
      }
      suites := children.value;
    }
    r := Ok(Suite(name, folder, own, suites, options));
  }

  /**
   * The grouping loop's state after `j` inputs: the current run starts at
   * `start`, and the runs closed before it are `done`.
   */
  predicate Grouped(rest: seq<Path>, depth: nat, j: nat, start: nat, done: seq<seq<Path>>)
    requires Buildable(rest, depth + 1)
  {
    && start <= j <= |rest| && start < |rest|
    && (forall k :: start <= k < j ==> rest[k][depth] == rest[start][depth])
    && (j == 0 ==> done == [] && start == 0)
    && (0 < j ==> start < j && Runs(rest[..j], depth) == done + [rest[start..j]])
    && ChildRuns(done, depth)
  }

  lemma GroupStart(rest: seq<Path>, depth: nat)
    requires rest != [] && Buildable(rest, depth + 1)
    ensures Grouped(rest, depth, 0, 0, [])
  {
  }

  /** The next input agrees with the current run: the run grows. */
  lemma GroupAdvance(rest: seq<Path>, depth: nat, j: nat, start: nat, done: seq<seq<Path>>)
    requires Buildable(rest, depth + 1) && Grouped(rest, depth, j, start, done)
    requires j < |rest| && rest[j][depth] == rest[start][depth]
    ensures Grouped(rest, depth, j + 1, start, done)
  {
    if 0 < j {
      RunsGrow(rest, depth, j, start, done);
    } else {
      RunsStep(rest, 0, depth);
      assert rest[..0] == [];
      assert rest[..1] == rest[0..1] == [rest[0]];
    }
  }

  lemma RunsGrow(rest: seq<Path>, depth: nat, j: nat, start: nat, done: seq<seq<Path>>)
    requires Deep(rest, depth)
    requires start < j < |rest| && SameSegment(rest[start..j], depth) && rest[j][depth] == rest[start][depth]
    requires Runs(rest[..j], depth) == done + [rest[start..j]]
    ensures Runs(rest[..j + 1], depth) == done + [rest[start..j + 1]]
  {
    RunsStep(rest, j, depth);
    ExtendMerges(done, rest[start..j], rest[j], depth);
    assert rest[start..j] + [rest[j]] == rest[start..j + 1];
  }

  lemma ExtendMerges(done: seq<seq<Path>>, cur: seq<Path>, p: Path, depth: nat)
    requires SameSegment(cur, depth) && depth < |p| && cur[0][depth] == p[depth]
    ensures Extend(done + [cur], p, depth) == done + [cur + [p]]
  {
    var runs := done + [cur];
    assert runs[|runs| - 1] == cur && runs[..|runs| - 1] == done;
  }

  lemma ExtendOpens(done: seq<seq<Path>>, cur: seq<Path>, p: Path, depth: nat)
    requires SameSegment(cur, depth) && depth < |p| && cur[0][depth] != p[depth]
    ensures Extend(done + [cur], p, depth) == (done + [cur]) + [[p]]
  {
    var runs := done + [cur];
    assert runs[|runs| - 1] == cur;
  }

  /** The next input disagrees with the current run: the run is closed and a new one starts. */
  lemma GroupCut(rest: seq<Path>, depth: nat, j: nat, start: nat, done: seq<seq<Path>>)
    requires Buildable(rest, depth + 1) && Grouped(rest, depth, j, start, done)
    requires j < |rest| && rest[j][depth] != rest[start][depth]
    ensures Grouped(rest, depth, j + 1, j, done + [rest[start..j]])
  {
    var run := rest[start..j];
    CutRunFacts(rest, depth, j, start, done);
    RunsStep(rest, j, depth);
    ExtendOpens(done, run, rest[j], depth);
    assert rest[j..j + 1] == [rest[j]];
  }

  lemma CutRunFacts(rest: seq<Path>, depth: nat, j: nat, start: nat, done: seq<seq<Path>>)
    requires Buildable(rest, depth + 1) && Grouped(rest, depth, j, start, done)
    requires j < |rest| && rest[j][depth] != rest[start][depth]
    ensures start < j
    ensures SameSegment(rest[start..j], depth) && Buildable(rest[start..j], depth + 1)
    ensures ChildRuns(done + [rest[start..j]], depth)
    ensures rest[j - 1][depth] != rest[j][depth]
  {
    var run := rest[start..j];
    assert forall i :: 0 <= i < |run| ==> run[i] == rest[start + i];
    var closed := done + [run];
    assert closed[..|done|] == done && closed[|done|] == run;
  }

  /** When the inputs are exhausted the closed runs and the last one are all the runs. */
  lemma GroupFinish(rest: seq<Path>, depth: nat, start: nat, done: seq<seq<Path>>)
    requires Buildable(rest, depth + 1) && Grouped(rest, depth, |rest|, start, done)
    ensures Runs(rest, depth) == done + [rest[start..|rest|]]
  {
    assert rest[..|rest|] == rest;
  }

  /**
   * The runs the grouping loop closes from its state on: `j` inputs seen, the
   * current run starting at `start`, the runs in `done` closed.
   */
  ghost function GroupFrom(rest: seq<Path>, depth: nat, j: nat, start: nat, done: seq<seq<Path>>): seq<seq<Path>>
    requires Deep(rest, depth) && start <= j <= |rest| && start < |rest|
    decreases |rest| - j
  {
    if j == |rest| then done + [rest[start..|rest|]]
    else if rest[j][depth] != rest[start][depth] then GroupFrom(rest, depth, j + 1, j, done + [rest[start..j]])
    else GroupFrom(rest, depth, j + 1, start, done)
  }

  /** From any state of the grouping loop, the runs it closes are the runs of the inputs. */
  lemma {:induction false} GroupFromRuns(rest: seq<Path>, depth: nat, j: nat, start: nat, done: seq<seq<Path>>)
    requires Buildable(rest, depth + 1) && Grouped(rest, depth, j, start, done)
    ensures Deep(rest, depth) && GroupFrom(rest, depth, j, start, done) == Runs(rest, depth)
    decreases |rest| - j
  {
    assert Deep(rest, depth);
    if j == |rest| {
      FinishStep(rest, depth, start, done);
    } else {
      var start', done' := NextState(rest, depth, j, start, done);
      GroupFromRuns(rest, depth, j + 1, start', done');
    }
  }

  /** The last step of the loop. */
  lemma FinishStep(rest: seq<Path>, depth: nat, start: nat, done: seq<seq<Path>>)
    requires Buildable(rest, depth + 1) && Grouped(rest, depth, |rest|, start, done)
    ensures Deep(rest, depth) && GroupFrom(rest, depth, |rest|, start, done) == Runs(rest, depth)
  {
    assert Deep(rest, depth);
    GroupFinish(rest, depth, start, done);
  }

  /** One step of the loop: the state after input `j`, which closes the same runs. */
  lemma NextState(rest: seq<Path>, depth: nat, j: nat, start: nat, done: seq<seq<Path>>)
    returns (start': nat, done': seq<seq<Path>>)
    requires Buildable(rest, depth + 1) && Grouped(rest, depth, j, start, done) && j < |rest|
    ensures Deep(rest, depth) && Grouped(rest, depth, j + 1, start', done')
    ensures GroupFrom(rest, depth, j, start, done) == GroupFrom(rest, depth, j + 1, start', done')
  {
    assert Deep(rest, depth);
    if rest[j][depth] != rest[start][depth] {
      GroupCut(rest, depth, j, start, done);
      start', done' := j, done + [rest[start..j]];
    } else {
      GroupAdvance(rest, depth, j, start, done);
      start', done' := start, done;
    }
  }

  /** An input that agrees with the current run leaves the runs to close unchanged. */
  lemma GroupFromSame(rest: seq<Path>, depth: nat, j: nat, start: nat, done: seq<seq<Path>>)
    requires Deep(rest, depth) && start <= j < |rest| && rest[j][depth] == rest[start][depth]
    ensures GroupFrom(rest, depth, j, start, done) == GroupFrom(rest, depth, j + 1, start, done)
  {
  }

  /** The runs closed so far are a prefix of the runs closed in the end. */
  lemma {:induction false} GroupFromKeepsDone(rest: seq<Path>, depth: nat, j: nat, start: nat, done: seq<seq<Path>>)
    requires Deep(rest, depth) && start <= j <= |rest| && start < |rest|
    ensures |done| < |GroupFrom(rest, depth, j, start, done)|
    ensures GroupFrom(rest, depth, j, start, done)[..|done|] == done
    decreases |rest| - j
  {
    var r := GroupFrom(rest, depth, j, start, done);
    if j < |rest| {
      if rest[j][depth] != rest[start][depth] {
        var closed := done + [rest[start..j]];
        GroupFromKeepsDone(rest, depth, j + 1, j, closed);
        assert r[..|closed|][..|done|] == r[..|done|];
        assert closed[..|done|] == done;
      } else {
        GroupFromKeepsDone(rest, depth, j + 1, start, done);
      }
    }
  }

  /** The children built from a prefix of the runs whose first runs all succeed. */
  lemma ChildRunsPrefix(runs: seq<seq<Path>>, n: nat, depth: nat)
    requires ChildRuns(runs, depth) && n <= |runs|
    ensures ChildRuns(runs[..n], depth)
  {
  }

  /**
   * Closing a run: a child that fails is the failure of the whole grouping;
   * a child that succeeds is appended to the children, and a new run starts at `j`.
   */
  lemma CloseCut(yaml: map<Path, YamlDoc>, folder: Path, options: Config, rest: seq<Path>, j: nat, start: nat,
                 done: seq<seq<Path>>, suites: seq<Suite>, child: Result<Suite, Failure>)
    requires Deep(rest, |folder|) && start < j < |rest| && rest[j][|folder|] != rest[start][|folder|]
    requires ChildRuns(Runs(rest, |folder|), |folder|)
    requires GroupFrom(rest, |folder|, j, start, done) == Runs(rest, |folder|)
    requires ChildRuns(done, |folder|) && BuildChildren(yaml, folder, options, done) == Ok(suites)
    requires Buildable(rest[start..j], |folder| + 1)
    requires child == BuildSuite(yaml, rest[start][|folder|], folder + [rest[start][|folder|]], options, rest[start..j])
    ensures child.Err? ==> BuildChildren(yaml, folder, options, Runs(rest, |folder|)) == Err(child.error)
    ensures child.Ok? ==> GroupFrom(rest, |folder|, j + 1, j, done + [rest[start..j]]) == Runs(rest, |folder|)
    ensures child.Ok? ==> ChildRuns(done + [rest[start..j]], |folder|)
    ensures child.Ok? ==> BuildChildren(yaml, folder, options, done + [rest[start..j]]) == Ok(suites + [child.value])
  {
    var depth := |folder|;
    var runs := Runs(rest, depth);
    var closed := done + [rest[start..j]];
    GroupFromKeepsDone(rest, depth, j + 1, j, closed);
    assert runs[..|closed|] == closed;
    ChildRunsPrefix(runs, |closed|, depth);
    assert closed[|done|] == rest[start..j] && closed[..|done|] == done;
    assert rest[start..j][0] == rest[start];
    if child.Err? {
      BuildChildrenStopsAtFailure(yaml, folder, options, runs, |closed|);
    }
  }

  /** The child for the last run completes the grouping. */
  lemma LastRun(yaml: map<Path, YamlDoc>, folder: Path, options: Config, rest: seq<Path>, start: nat,
                done: seq<seq<Path>>, suites: seq<Suite>, name: string, child: Result<Suite, Failure>)
    requires Deep(rest, |folder|) && start < |rest| && name == rest[start][|folder|]
    requires ChildRuns(Runs(rest, |folder|), |folder|)
    requires GroupFrom(rest, |folder|, |rest|, start, done) == Runs(rest, |folder|)
    requires ChildRuns(done, |folder|) && BuildChildren(yaml, folder, options, done) == Ok(suites)
    requires Buildable(rest[start..|rest|], |folder| + 1)
    requires child == BuildSuite(yaml, name, folder + [name], options, rest[start..|rest|])
    ensures BuildChildren(yaml, folder, options, Runs(rest, |folder|)) ==
      (if child.Err? then Err(child.error) else Ok(suites + [child.value]))
  {
    var runs := Runs(rest, |folder|);
    assert runs[..|done|] == done && runs[|done|] == rest[start..|rest|];
    assert rest[start..|rest|][0] == rest[start];
  }

  /**
   * The grouping loop of `executeSuite`: walks the inputs kept for the
   * children, closes a child suite whenever segment `|folder|` changes and
   * once more at the end; each child is built from a copy of `options`.
   */
  method ExecuteChildren(yaml: map<Path, YamlDoc>, folder: Path, options: Config, rest: seq<Path>)
    returns (r: Result<seq<Suite>, Failure>)
    requires rest != [] && Buildable(rest, |folder| + 1)
    ensures ChildRuns(Runs(rest, |folder|), |folder|)
    ensures r == BuildChildren(yaml, folder, options, Runs(rest, |folder|))
    decreases Height(rest, |folder|), 1
  {
    var suites: seq<Suite> := [];
    var prevSuite := rest[0][|folder|];
    var suiteName := "";
    var prevSuiteStart := 0;
    ghost var done: seq<seq<Path>> := [];
    RunsOfBuildable(rest, |folder|);
    GroupStart(rest, |folder|);
    GroupFromRuns(rest, |folder|, 0, 0, []);
    var j := 0;
    while j < |rest|
      invariant prevSuiteStart <= j <= |rest| && prevSuiteStart < |rest|
      invariant prevSuite == rest[prevSuiteStart][|folder|] && (0 < j ==> suiteName == prevSuite)
      invariant GroupFrom(rest, |folder|, j, prevSuiteStart, done) == Runs(rest, |folder|)
      invariant ChildRuns(done, |folder|) && BuildChildren(yaml, folder, options, done) == Ok(suites)
    {
      suiteName := rest[j][|folder|];
      if suiteName != prevSuite {
        var child := ExecuteRun(yaml, folder, options, rest, prevSuite, prevSuiteStart, j);
        CloseCut(yaml, folder, options, rest, j, prevSuiteStart, done, suites, child);
        if child.Err? {
          return Err(child.error);
        }
        suites := suites + [child.value];
        done := done + [rest[prevSuiteStart..j]];
        prevSuite := suiteName;
        prevSuiteStart := j;
      } else {
        GroupFromSame(rest, |folder|, j, prevSuiteStart, done);
      }
      j := j + 1;
    }
    var child := ExecuteRun(yaml, folder, options, rest, suiteName, prevSuiteStart, |rest|);
    LastRun(yaml, folder, options, rest, prevSuiteStart, done, suites, suiteName, child);
    if child.Err? {
      return Err(child.error);
    }
    r := Ok(suites + [child.value]);
  }

  /**
   * One `executeSuite` call of the grouping loop: the child suite named by
   * segment `|folder|` of the run `rest[start..end]`, built under a copy of
   * `options`.
   */
  method ExecuteRun(yaml: map<Path, YamlDoc>, folder: Path, options: Config, rest: seq<Path>,
                    name: string, start: nat, end: nat)
    returns (child: Result<Suite, Failure>)
    requires Buildable(rest, |folder| + 1) && start < end <= |rest| && name == rest[start][|folder|]
    ensures Buildable(rest[start..end], |folder| + 1)
    ensures child == BuildSuite(yaml, name, folder + [name], options, rest[start..end])
    decreases Height(rest, |folder|), 0
  {
    SliceHeight(rest, start, end, |folder|);
    child := ExecuteSuite(yaml, name, folder + [name], options, rest[start..end]);
  }
}
