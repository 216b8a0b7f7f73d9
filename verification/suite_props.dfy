/**
 * What `executeSuite` promises about the tree it builds, and the order in
 * which `runSuites` hands the inputs to `runTest`.
 */
module SuiteProps {
  import opened Wrappers
  import opened Paths
  import opened Options
  import opened SuiteTree

  /** The filter keeps the order of the inputs: it distributes over concatenation. */
  lemma {:induction false} FilterConcat(a: seq<Path>, b: seq<Path>, depth: nat)
    ensures Direct(a + b, depth) == Direct(a, depth) + Direct(b, depth)
    ensures Nested(a + b, depth) == Nested(a, depth) + Nested(b, depth)
    decreases |b|
  {
    if b == [] {
      assert a + b == a;
    } else {
      var front := b[..|b| - 1];
      FilterConcat(a, front, depth);
      assert (a + b)[..|a + b| - 1] == a + front;
      assert (a + b)[|a + b| - 1] == b[|b| - 1];
    }
  }

  /**
   * Every input lands in exactly one of the two lists: together they hold
   * the inputs, each as often as it occurs.
   */
  lemma {:induction false} FilterPartition(tests: seq<Path>, depth: nat)
    ensures multiset(Direct(tests, depth)) + multiset(Nested(tests, depth)) == multiset(tests)
  {
    if tests != [] {
      var front := tests[..|tests| - 1];
      var last := tests[|tests| - 1];
      FilterPartition(front, depth);
      assert front + [last] == tests;
      assert multiset(tests) == multiset(front) + multiset{last};
    }
  }

  /** The suite's own tests are exactly the inputs directly inside one of its fixture folders. */
  lemma {:induction false} DirectAreDirect(tests: seq<Path>, depth: nat)
    ensures forall i :: 0 <= i < |Direct(tests, depth)| ==> IsDirect(Direct(tests, depth)[i], depth)
  {
    if tests != [] {
      var front := tests[..|tests| - 1];
      DirectAreDirect(front, depth);
    }
  }

  /** The inputs kept for the children are exactly the others. */
  lemma {:induction false} NestedAreNested(tests: seq<Path>, depth: nat)
    ensures forall i :: 0 <= i < |Nested(tests, depth)| ==> !IsDirect(Nested(tests, depth)[i], depth)
  {
    if tests != [] {
      var front := tests[..|tests| - 1];
      NestedAreNested(front, depth);
    }
  }

  /** The order in which `runSuites` registers the inputs: a suite's own tests, then each child's, depth first. */
  function Registered(s: Suite): seq<Path>
    decreases s, 1
  {
    s.tests + RegisteredAll(s.suites)
  }

  function RegisteredAll(ss: seq<Suite>): seq<Path>
    decreases ss, 0
  {
    if ss == [] then [] else RegisteredAll(ss[..|ss| - 1]) + Registered(ss[|ss| - 1])
  }

  /** A built suite is named and placed as asked, and holds the children built from its runs. */
  lemma BuildSuiteNames(yaml: map<Path, YamlDoc>, name: string, folder: Path, inherited: Config, tests: seq<Path>,
                        s: Suite)
    requires Buildable(tests, |folder|) && BuildSuite(yaml, name, folder, inherited, tests) == Ok(s)
    ensures s.name == name && s.folder == folder && s.tests == Direct(tests, |folder|)
    ensures SuiteOptions(yaml, folder, inherited) == Ok(s.options)
    ensures Buildable(Nested(tests, |folder|), |folder| + 1) && Deep(Nested(tests, |folder|), |folder|)
    ensures ChildRuns(Runs(Nested(tests, |folder|), |folder|), |folder|)
    ensures BuildChildren(yaml, folder, s.options, Runs(Nested(tests, |folder|), |folder|)) == Ok(s.suites)
  {
    BuildSuiteUnfold(yaml, name, folder, inherited, tests, SuiteOptions(yaml, folder, inherited).value);
    RunsOfBuildable(Nested(tests, |folder|), |folder|);
  }

  /** Children that were all built: those of the runs before the last, then the last run's. */
  lemma BuildChildrenSnoc(yaml: map<Path, YamlDoc>, folder: Path, options: Config, runs: seq<seq<Path>>, cs: seq<Suite>)
    requires runs != [] && ChildRuns(runs, |folder|) && BuildChildren(yaml, folder, options, runs) == Ok(cs)
    ensures ChildRuns(runs[..|runs| - 1], |folder|) && Buildable(runs[|runs| - 1], |folder| + 1)
    ensures cs != []
    ensures BuildChildren(yaml, folder, options, runs[..|runs| - 1]) == Ok(cs[..|cs| - 1])
    ensures var name := runs[|runs| - 1][0][|folder|];
      BuildSuite(yaml, name, folder + [name], options, runs[|runs| - 1]) == Ok(cs[|cs| - 1])
  {
    var front := runs[..|runs| - 1];
    assert ChildRuns(front, |folder|);
    var done := BuildChildren(yaml, folder, options, front).value;
    var last := runs[|runs| - 1];
    var child := BuildSuite(yaml, last[0][|folder|], folder + [last[0][|folder|]], options, last).value;
    assert cs == done + [child];
    assert cs[..|cs| - 1] == done;
  }

  /** The children built from `runs` are one per run. */
  lemma {:induction false} BuildChildrenCount(yaml: map<Path, YamlDoc>, folder: Path, options: Config,
                                              runs: seq<seq<Path>>, cs: seq<Suite>)
    requires ChildRuns(runs, |folder|) && BuildChildren(yaml, folder, options, runs) == Ok(cs)
    ensures |cs| == |runs|
    decreases |runs|
  {
    if runs != [] {
      BuildChildrenSnoc(yaml, folder, options, runs, cs);
      BuildChildrenCount(yaml, folder, options, runs[..|runs| - 1], cs[..|cs| - 1]);
    }
  }

  /** Child `k` is the suite built for run `k`, named by its segment, from the parent's options. */
  lemma {:induction false} BuildChildrenAt(yaml: map<Path, YamlDoc>, folder: Path, options: Config,
                                           runs: seq<seq<Path>>, cs: seq<Suite>, k: nat)
    requires ChildRuns(runs, |folder|) && BuildChildren(yaml, folder, options, runs) == Ok(cs) && k < |runs|
    ensures k < |cs| && Buildable(runs[k], |folder| + 1)
    ensures BuildSuite(yaml, runs[k][0][|folder|], folder + [runs[k][0][|folder|]], options, runs[k]) == Ok(cs[k])
    decreases |runs|
  {
    BuildChildrenCount(yaml, folder, options, runs, cs);
    BuildChildrenSnoc(yaml, folder, options, runs, cs);
    if k < |runs| - 1 {
      BuildChildrenAt(yaml, folder, options, runs[..|runs| - 1], cs[..|cs| - 1], k);
    }
  }

  /**
   * The children of a built suite correspond one to one, in order, to the
   * maximal runs of equal segment `|folder|` in the inputs kept for them:
   * the runs concatenate back to those inputs, each child is named by its
   * run's segment and lives in the parent folder plus that segment, and two
   * neighbouring children never share a name.
   */
  lemma BuildSuiteChildren(yaml: map<Path, YamlDoc>, name: string, folder: Path, inherited: Config, tests: seq<Path>,
                           s: Suite)
    requires Buildable(tests, |folder|) && BuildSuite(yaml, name, folder, inherited, tests) == Ok(s)
    ensures Deep(Nested(tests, |folder|), |folder|)
    ensures var runs := Runs(Nested(tests, |folder|), |folder|);
      && Flatten(runs) == Nested(tests, |folder|)
      && |s.suites| == |runs|
      && (forall k :: 0 <= k < |runs| ==> runs[k] != [] && |folder| < |runs[k][0]| && s.suites[k].name == runs[k][0][|folder|])
      && (forall k :: 0 <= k < |s.suites| ==> s.suites[k].folder == folder + [s.suites[k].name])
      && (forall k, l :: 0 <= k < l < |s.suites| && l == k + 1 ==> s.suites[k].name != s.suites[l].name)
  {
    var rest := Nested(tests, |folder|);
    BuildSuiteNames(yaml, name, folder, inherited, tests, s);
    var runs := Runs(rest, |folder|);
    RunsProps(rest, |folder|);
    BuildChildrenCount(yaml, folder, s.options, runs, s.suites);
    forall k | 0 <= k < |runs|
      ensures s.suites[k].name == runs[k][0][|folder|] && s.suites[k].folder == folder + [s.suites[k].name]
    {
      var child := runs[k][0][|folder|];
      BuildChildrenAt(yaml, folder, s.options, runs, s.suites, k);
      BuildSuiteNames(yaml, child, folder + [child], s.options, runs[k], s.suites[k]);
    }
  }

  /** Each child of a built suite starts from a copy of the suite's merged options. */
  lemma BuildSuiteChildOptions(yaml: map<Path, YamlDoc>, name: string, folder: Path, inherited: Config,
                               tests: seq<Path>, s: Suite, k: nat)
    requires Buildable(tests, |folder|) && BuildSuite(yaml, name, folder, inherited, tests) == Ok(s)
    requires k < |s.suites|
    ensures SuiteOptions(yaml, s.suites[k].folder, s.options) == Ok(s.suites[k].options)
  {
    var rest := Nested(tests, |folder|);
    BuildSuiteNames(yaml, name, folder, inherited, tests, s);
    var runs := Runs(rest, |folder|);
    BuildChildrenCount(yaml, folder, s.options, runs, s.suites);
    BuildChildrenAt(yaml, folder, s.options, runs, s.suites, k);
    var child := runs[k][0][|folder|];
    BuildSuiteNames(yaml, child, folder + [child], s.options, runs[k], s.suites[k]);
  }

  /**
   * Every input becomes exactly one registered test: the inputs `runSuites`
   * registers for a built suite are a permutation of the inputs it was built from.
   */
  lemma {:induction false} BuildSuiteRegisters(yaml: map<Path, YamlDoc>, name: string, folder: Path, inherited: Config, tests: seq<Path>,
                            s: Suite)
    requires Buildable(tests, |folder|) && BuildSuite(yaml, name, folder, inherited, tests) == Ok(s)
    ensures multiset(Registered(s)) == multiset(tests)
    decreases Height(tests, |folder|), 1, 0
  {
    var rest := Nested(tests, |folder|);
    BuildSuiteNames(yaml, name, folder, inherited, tests, s);
    NestedRuns(tests, |folder|);
    var runs := Runs(rest, |folder|);
    BuildChildrenRegisters(yaml, folder, s.options, runs, s.suites);
    RunsProps(rest, |folder|);
    FilterPartition(tests, |folder|);
  }

  lemma {:induction false} BuildChildrenRegisters(yaml: map<Path, YamlDoc>, folder: Path, options: Config, runs: seq<seq<Path>>,
                               cs: seq<Suite>)
    requires ChildRuns(runs, |folder|) && BuildChildren(yaml, folder, options, runs) == Ok(cs)
    ensures multiset(RegisteredAll(cs)) == multiset(Flatten(runs))
    decreases Height(Flatten(runs), |folder|), 0, |runs|
  {
    if runs != [] {
      var front, last := runs[..|runs| - 1], runs[|runs| - 1];
      var name := last[0][|folder|];
      BuildChildrenSnoc(yaml, folder, options, runs, cs);
      ChildHeight(runs, |folder|);
      var cfront, clast := cs[..|cs| - 1], cs[|cs| - 1];
      assert multiset(RegisteredAll(cfront)) == multiset(Flatten(front)) by {
        BuildChildrenRegisters(yaml, folder, options, front, cfront);
      }
      assert multiset(Registered(clast)) == multiset(last) by {
        BuildSuiteRegisters(yaml, name, folder + [name], options, last, clast);
      }
      RegistersSnoc(cs, runs);
    }
  }

  lemma RegistersSnoc(cs: seq<Suite>, runs: seq<seq<Path>>)
    requires cs != [] && runs != []
    requires multiset(RegisteredAll(cs[..|cs| - 1])) == multiset(Flatten(runs[..|runs| - 1]))
    requires multiset(Registered(cs[|cs| - 1])) == multiset(runs[|runs| - 1])
    ensures multiset(RegisteredAll(cs)) == multiset(Flatten(runs))
  {
  }

  /** The suite and every suite below it mark the implementation under `key`. */
  predicate EveryMarked(s: Suite, key: string)
    decreases s
  {
    MarksImpl(s.options, key) && forall k :: 0 <= k < |s.suites| ==> EveryMarked(s.suites[k], key)
  }

  /**
   * A mark the parent passes down survives every `options.yml` below it: a
   * folder marked `:todo` for this implementation marks its whole subtree.
   */
  lemma MarkedSnoc(cs: seq<Suite>, front: seq<Suite>, key: string)
    requires cs != [] && front == cs[..|cs| - 1] && EveryMarked(cs[|cs| - 1], key)
    requires forall k :: 0 <= k < |front| ==> EveryMarked(front[k], key)
    ensures forall k :: 0 <= k < |cs| ==> EveryMarked(cs[k], key)
  {
    forall k | 0 <= k < |cs| ensures EveryMarked(cs[k], key) {
      if k < |front| {
        assert cs[k] == front[k];
      }
    }
  }

  lemma {:induction false} BuildSuiteKeepsMark(yaml: map<Path, YamlDoc>, name: string, folder: Path, inherited: Config, tests: seq<Path>,
                            s: Suite, key: string)
    requires Buildable(tests, |folder|) && BuildSuite(yaml, name, folder, inherited, tests) == Ok(s)
    requires MarksImpl(inherited, key)
    ensures EveryMarked(s, key)
    decreases Height(tests, |folder|), 1, 0
  {
    var file := folder + ["options.yml"];
    BuildSuiteNames(yaml, name, folder, inherited, tests, s);
    if file in yaml {
      MergeKeepsMark(inherited, yaml[file].config, key);
    }
    NestedRuns(tests, |folder|);
    BuildChildrenKeepsMark(yaml, folder, s.options, Runs(Nested(tests, |folder|), |folder|), s.suites, key);
  }

  lemma {:induction false} BuildChildrenKeepsMark(yaml: map<Path, YamlDoc>, folder: Path, options: Config, runs: seq<seq<Path>>,
                               cs: seq<Suite>, key: string)
    requires ChildRuns(runs, |folder|) && BuildChildren(yaml, folder, options, runs) == Ok(cs)
    requires MarksImpl(options, key)
    ensures forall k :: 0 <= k < |cs| ==> EveryMarked(cs[k], key)
    decreases Height(Flatten(runs), |folder|), 0, |runs|
  {
    if runs != [] {
      var front, last := runs[..|runs| - 1], runs[|runs| - 1];
      var name := last[0][|folder|];
      BuildChildrenSnoc(yaml, folder, options, runs, cs);
      ChildHeight(runs, |folder|);
      var cfront, clast := cs[..|cs| - 1], cs[|cs| - 1];
      assert forall k :: 0 <= k < |cfront| ==> EveryMarked(cfront[k], key) by {
        BuildChildrenKeepsMark(yaml, folder, options, front, cfront, key);
      }
      assert EveryMarked(clast, key) by {
        BuildSuiteKeepsMark(yaml, name, folder + [name], options, last, clast, key);
      }
      MarkedSnoc(cs, cfront, key);
    }
  }

  /** Three inputs under `spec`: two in fixture folders below `spec/a`, one directly in `spec/b`. */
  const ExampleAX: Path := ["spec", "a", "x", "input.scss"]
  const ExampleAY: Path := ["spec", "a", "y", "input.scss"]
  const ExampleB: Path := ["spec", "b", "input.scss"]

  lemma ExampleFilterRoot()
    ensures Direct([ExampleAX, ExampleAY, ExampleB], 1) == [ExampleB]
    ensures Nested([ExampleAX, ExampleAY, ExampleB], 1) == [ExampleAX, ExampleAY]
  {
    assert !IsDirect(ExampleAX, 1) && !IsDirect(ExampleAY, 1) && IsDirect(ExampleB, 1);
    assert [ExampleAX][..0] == [];
    assert Direct([ExampleAX], 1) == [] && Nested([ExampleAX], 1) == [ExampleAX];
    assert [ExampleAX, ExampleAY][..1] == [ExampleAX];
    assert Direct([ExampleAX, ExampleAY], 1) == [] && Nested([ExampleAX, ExampleAY], 1) == [ExampleAX, ExampleAY];
    assert [ExampleAX, ExampleAY, ExampleB][..2] == [ExampleAX, ExampleAY];
  }

  lemma ExampleFilterChild()
    ensures Direct([ExampleAX, ExampleAY], 2) == [ExampleAX, ExampleAY]
    ensures Nested([ExampleAX, ExampleAY], 2) == []
  {
    assert IsDirect(ExampleAX, 2) && IsDirect(ExampleAY, 2);
    assert [ExampleAX][..0] == [];
    assert Direct([ExampleAX], 2) == [ExampleAX] && Nested([ExampleAX], 2) == [];
    assert [ExampleAX, ExampleAY][..1] == [ExampleAX];
  }

  lemma ExampleRuns()
    ensures Runs([ExampleAX, ExampleAY], 1) == [[ExampleAX, ExampleAY]]
  {
    assert [ExampleAX][..0] == [];
    assert Runs([ExampleAX], 1) == Extend([], ExampleAX, 1) == [[ExampleAX]];
    assert [ExampleAX, ExampleAY][..1] == [ExampleAX];
    assert ExampleAX[1] == ExampleAY[1];
    assert [[ExampleAX]][..0] == [] && [ExampleAX] + [ExampleAY] == [ExampleAX, ExampleAY];
    assert Runs([ExampleAX, ExampleAY], 1) == Extend([[ExampleAX]], ExampleAY, 1);
  }

  /** The child `a` of the example: its two inputs are its own tests. */
  lemma ExampleChild()
    ensures BuildSuite(map[], "a", ["spec", "a"], map[], [ExampleAX, ExampleAY]) ==
      Ok(Suite("a", ["spec", "a"], [ExampleAX, ExampleAY], [], map[]))
  {
    ExampleFilterChild();
    BuildSuiteUnfold(map[], "a", ["spec", "a"], map[], [ExampleAX, ExampleAY], map[]);
  }

  /** The root's one run builds the one child `a`. */
  lemma ExampleRootChildren()
    ensures ChildRuns([[ExampleAX, ExampleAY]], 1)
    ensures BuildChildren(map[], ["spec"], map[], [[ExampleAX, ExampleAY]]) ==
      Ok([Suite("a", ["spec", "a"], [ExampleAX, ExampleAY], [], map[])])
  {
    var run := [ExampleAX, ExampleAY];
    var runs: seq<seq<Path>> := [run];
    var none: seq<Suite> := [];
    var child := Suite("a", ["spec", "a"], run, [], map[]);
    ExampleChild();
    assert runs[..0] == [] && run[0][1] == "a" && ["spec"] + ["a"] == ["spec", "a"] && none + [child] == [child];
  }

  /**
   * The tree for the example: `spec/b/input.scss` is the root suite's own
   * test, and the two inputs under `spec/a` form one child `a` whose own
   * tests they are; the folders `x` and `y` get no suite of their own.
   */
  lemma NestingExample()
    ensures BuildSuite(map[], "spec", ["spec"], map[], [ExampleAX, ExampleAY, ExampleB]) ==
      Ok(Suite("spec", ["spec"], [ExampleB], [Suite("a", ["spec", "a"], [ExampleAX, ExampleAY], [], map[])], map[]))
  {
    ExampleFilterRoot();
    ExampleRuns();
    ExampleRootChildren();
    BuildSuiteUnfold(map[], "spec", ["spec"], map[], [ExampleAX, ExampleAY, ExampleB], map[]);
  }

  const ExampleBX: Path := ["spec", "b", "x", "input.scss"]

  lemma ExampleUnsortedNested()
    ensures Nested([ExampleAX, ExampleBX, ExampleAY], 1) == [ExampleAX, ExampleBX, ExampleAY]
  {
    assert !IsDirect(ExampleAX, 1) && !IsDirect(ExampleBX, 1) && !IsDirect(ExampleAY, 1);
    assert [ExampleAX][..0] == [] && [ExampleAX, ExampleBX][..1] == [ExampleAX];
    assert [ExampleAX, ExampleBX, ExampleAY][..2] == [ExampleAX, ExampleBX];
    assert Nested([ExampleAX], 1) == [ExampleAX];
    assert Nested([ExampleAX, ExampleBX], 1) == [ExampleAX, ExampleBX];
  }

  lemma ExampleUnsortedRuns()
    ensures Runs([ExampleAX, ExampleBX, ExampleAY], 1) == [[ExampleAX], [ExampleBX], [ExampleAY]]
  {
    var none: seq<seq<Path>> := [];
    var one, two := [[ExampleAX]], [[ExampleAX], [ExampleBX]];
    assert [ExampleAX][..0] == [] && [ExampleAX, ExampleBX][..1] == [ExampleAX];
    assert [ExampleAX, ExampleBX, ExampleAY][..2] == [ExampleAX, ExampleBX];
    assert Extend(none, ExampleAX, 1) == one;
    assert Runs([ExampleAX], 1) == one;
    assert ExampleAX[1] == "a" && ExampleBX[1] == "b" && ExampleAY[1] == "a";
    assert Extend(one, ExampleBX, 1) == one + [[ExampleBX]] == two;
    assert Runs([ExampleAX, ExampleBX], 1) == two;
    assert Extend(two, ExampleAY, 1) == two + [[ExampleAY]];
  }

  /** No `options.yml` in the tree is rejected by the reader. */
  predicate NoRejected(yaml: map<Path, YamlDoc>) {
    forall file :: file in yaml ==> yaml[file].Parsed?
  }

  /**
   * The build throws only on a rejected `options.yml`: when every document
   * parses, `executeSuite` returns a suite for any inputs.
   */
  lemma {:induction false} BuildSuiteSucceeds(yaml: map<Path, YamlDoc>, name: string, folder: Path, inherited: Config,
                                              tests: seq<Path>)
    requires Buildable(tests, |folder|) && NoRejected(yaml)
    ensures BuildSuite(yaml, name, folder, inherited, tests).Ok?
    decreases Height(tests, |folder|), 1, 0
  {
    var options := SuiteOptions(yaml, folder, inherited);
    assert options.Ok?;
    NestedRuns(tests, |folder|);
    BuildChildrenSucceeds(yaml, folder, options.value, Runs(Nested(tests, |folder|), |folder|));
  }

  lemma {:induction false} BuildChildrenSucceeds(yaml: map<Path, YamlDoc>, folder: Path, options: Config,
                                                 runs: seq<seq<Path>>)
    requires ChildRuns(runs, |folder|) && NoRejected(yaml)
    ensures BuildChildren(yaml, folder, options, runs).Ok?
    decreases Height(Flatten(runs), |folder|), 0, |runs|
  {
    if runs != [] {
      ChildHeight(runs, |folder|);
      var front, last := runs[..|runs| - 1], runs[|runs| - 1];
      var name := last[0][|folder|];
      assert BuildChildren(yaml, folder, options, front).Ok? by {
        BuildChildrenSucceeds(yaml, folder, options, front);
      }
      assert BuildSuite(yaml, name, folder + [name], options, last).Ok? by {
        BuildSuiteSucceeds(yaml, name, folder + [name], options, last);
      }
    }
  }

  /**
   * Grouping only merges neighbours: inputs listed as `spec/a/x`, `spec/b/x`,
   * `spec/a/y` build, and give three children named `a`, `b` and `a`, in that order.
   */
  lemma UnsortedExample()
    ensures var r := BuildSuite(map[], "spec", ["spec"], map[], [ExampleAX, ExampleBX, ExampleAY]);
      && r.Ok?
      && |r.value.suites| == 3
      && r.value.suites[0].name == "a" && r.value.suites[1].name == "b" && r.value.suites[2].name == "a"
  {
    var tests := [ExampleAX, ExampleBX, ExampleAY];
    var empty: map<Path, YamlDoc> := map[];
    BuildSuiteSucceeds(empty, "spec", ["spec"], map[], tests);
    var s := BuildSuite(empty, "spec", ["spec"], map[], tests).value;
    ExampleUnsortedNested();
    ExampleUnsortedRuns();
    BuildSuiteChildren(empty, "spec", ["spec"], map[], tests, s);
  }
}
