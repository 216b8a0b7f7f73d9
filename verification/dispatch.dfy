/**
 * `runTest`: the skip checks a case goes through before it is handed to the
 * compiler, and how the compiler's answer is judged. The compiler itself is
 * outside the model; its answer is a parameter.
 */
module Dispatch {
  import opened Wrappers
  import opened Paths
  import opened Options
  import opened Normalize
  import opened Fixture

  /** The version of Sass the harness claims to implement. */
  const Version := 3.6

  datatype SkipReason =
    | MarkedTodo          // 'Test marked with TODO'
    | MarkedOnly          // 'Tests marked for only: ...'
    | IgnoredFor          // 'Tests ignored for: ...'
    | NewerVersionsOnly   // 'Tests marked for newer Sass versions only'
    | OlderVersionsOnly   // 'Tests marked for older Sass versions only'

  /** What happens to a case: skipped for a reason, or compiled with these options. */
  datatype Decision =
    | Skip(reason: SkipReason)
    | Render(file: Path, includePaths: seq<Path>, precision: real, outputStyle: string)

  /** `v && v.some(impl)` for `test.only` and `test.ignoreFor`: only arrays have `some`. */
  function ListedImpl(v: Value, key: string): (r: Result<bool, Failure>)
    ensures !Truthy(v) ==> r == Ok(false)
    ensures r == Ok(true) <==> v.List? && SomeImpl(v.items, key) == Ok(true)
    ensures v.List? ==> r == SomeImpl(v.items, key)
    ensures Truthy(v) && !v.List? ==> r == Err(NotAFunction(key, "some"))
  {
    if !Truthy(v) then Ok(false)
    else if v.List? then SomeImpl(v.items, key)
    else Err(NotAFunction(key, "some"))
  }

  /** The version gate: the case is meant for the harness's version. */
  predicate InVersionRange(c: FixtureCase) {
    c.startVersion <= Version <= c.endVersion
  }

  /** Neither the todo marks nor the `only_on` and `ignore_for` lists stop the case. */
  predicate ReachesVersionGate(c: FixtureCase) {
    !c.todo && !c.warningTodo &&
    ListedImpl(c.only, ":only_on") == Ok(false) && ListedImpl(c.ignoreFor, ":ignore_for") == Ok(false)
  }

  /**
   * The skip chain as written: todo, then `only_on`, then `ignore_for`, then
   * the version range (newer-only tested before older-only); the compiler is
   * called only when nothing applies. A list check that throws ends the chain
   * with its error. Note the `only_on` check skips a case whose list DOES name
   * the implementation.
   */
  function RunTest(c: FixtureCase): (r: Result<Decision, Failure>)
    ensures r == Ok(Skip(MarkedTodo)) <==> c.todo || c.warningTodo
    ensures r == Ok(Skip(MarkedOnly)) <==>
      !c.todo && !c.warningTodo && ListedImpl(c.only, ":only_on") == Ok(true)
    ensures r == Ok(Skip(IgnoredFor)) <==>
      !c.todo && !c.warningTodo && ListedImpl(c.only, ":only_on") == Ok(false) &&
      ListedImpl(c.ignoreFor, ":ignore_for") == Ok(true)
    ensures r == Ok(Skip(NewerVersionsOnly)) <==> ReachesVersionGate(c) && Version < c.startVersion
    ensures r == Ok(Skip(OlderVersionsOnly)) <==>
      ReachesVersionGate(c) && c.startVersion <= Version && Version > c.endVersion
    ensures r.Ok? && r.value.Render? <==> ReachesVersionGate(c) && InVersionRange(c)
    ensures r.Ok? && r.value.Render? ==>
      r.value == Render(c.inputPath, c.includePaths, c.precision, c.outputStyle)
    ensures r.Err? <==>
      !c.todo && !c.warningTodo &&
      (ListedImpl(c.only, ":only_on").Err? ||
       (ListedImpl(c.only, ":only_on") == Ok(false) && ListedImpl(c.ignoreFor, ":ignore_for").Err?))
    ensures r.Err? && ListedImpl(c.only, ":only_on").Err? ==> r.error == ListedImpl(c.only, ":only_on").error
    ensures r.Err? && ListedImpl(c.only, ":only_on").Ok? ==> r.error == ListedImpl(c.ignoreFor, ":ignore_for").error
  {
    if c.todo || c.warningTodo then Ok(Skip(MarkedTodo))
    else
      var onlyHit :- ListedImpl(c.only, ":only_on");
      if onlyHit then Ok(Skip(MarkedOnly))
      else
        var ignoreHit :- ListedImpl(c.ignoreFor, ":ignore_for");
        if ignoreHit then Ok(Skip(IgnoredFor))
        else if Version < c.startVersion then Ok(Skip(NewerVersionsOnly))
        else if Version > c.endVersion then Ok(Skip(OlderVersionsOnly))
        else Ok(Render(c.inputPath, c.includePaths, c.precision, c.outputStyle))
  }

  /**
   * The skip chain as its messages say it is meant: `only_on` restricts a case
   * to the implementations it lists, so a list that does not name this
   * implementation skips the case; an empty list names none and skips it too.
   */
  function RunTestIntended(c: FixtureCase): (r: Result<Decision, Failure>)
    ensures r == Ok(Skip(MarkedOnly)) <==>
      !c.todo && !c.warningTodo && Truthy(c.only) && c.only.List? && SomeImpl(c.only.items, ":only_on") == Ok(false)
    ensures r.Ok? && r.value.Render? ==>
      (!Truthy(c.only) || (c.only.List? && SomeImpl(c.only.items, ":only_on") == Ok(true)))
  {
    if c.todo || c.warningTodo then Ok(Skip(MarkedTodo))
    else
      var onlyHit :- ListedImpl(c.only, ":only_on");
      if Truthy(c.only) && !onlyHit then Ok(Skip(MarkedOnly))
      else
        var ignoreHit :- ListedImpl(c.ignoreFor, ":ignore_for");
        if ignoreHit then Ok(Skip(IgnoredFor))
        else if Version < c.startVersion then Ok(Skip(NewerVersionsOnly))
        else if Version > c.endVersion then Ok(Skip(OlderVersionsOnly))
        else Ok(Render(c.inputPath, c.includePaths, c.precision, c.outputStyle))
  }

  /** The two chains differ exactly on cases that `only_on` lists, in opposite directions. */
  lemma OnlyOnInverted(c: FixtureCase)
    requires !c.todo && !c.warningTodo && c.ignoreFor == Scalar(Bool(false)) && InVersionRange(c)
    ensures c.only == List([Str("dart-sass")]) ==>
      RunTest(c).Ok? && RunTest(c).value.Render? && RunTestIntended(c) == Ok(Skip(MarkedOnly))
    ensures c.only == List([Str("libsass")]) ==>
      RunTest(c) == Ok(Skip(MarkedOnly)) && RunTestIntended(c).Ok? && RunTestIntended(c).value.Render?
  {
    if c.only == List([Str("dart-sass")]) {
      assert !Contains("dart-sass", ImplName) by {
        forall i: nat | i <= |"dart-sass"| ensures !OccursAt("dart-sass", ImplName, i) {
          if i + |ImplName| <= |"dart-sass"| {
            assert i <= 2 && "dart-sass"[i] != 'l';
            assert "dart-sass"[i..i + |ImplName|][0] == "dart-sass"[i];
          }
        }
      }
      assert SomeImpl([Str("dart-sass")], ":only_on") == Ok(false);
    }
    if c.only == List([Str("libsass")]) {
      assert OccursAt("libsass", ImplName, 0);
      assert SomeImpl([Str("libsass")], ":only_on") == Ok(true);
    }
  }

  /**
   * The version gate at version 3.6: a case for 3.0 to 3.5 is too old, one for
   * 3.0 to 99 runs, and an empty range 4.0 to 3.0 reports the newer-only skip,
   * which is tested first.
   */
  lemma VersionGateExamples(c: FixtureCase)
    requires !c.todo && !c.warningTodo && c.only == Scalar(Bool(false)) && c.ignoreFor == Scalar(Bool(false))
    ensures c.startVersion == 3.0 && c.endVersion == 3.5 ==> RunTest(c) == Ok(Skip(OlderVersionsOnly))
    ensures c.startVersion == 3.0 && c.endVersion == 99.0 ==> RunTest(c).Ok? && RunTest(c).value.Render?
    ensures c.startVersion == 4.0 && c.endVersion == 3.0 ==> RunTest(c) == Ok(Skip(NewerVersionsOnly))
  {
  }

  /** What the compiler answered: CSS, or an error with its formatted message. */
  datatype Outcome = Css(css: string) | CompileError(formatted: string)

  /**
   * The callback's verdict, given the texts of the files that exist. A case
   * that should fail passes when the first line of the compiler's message is
   * the first line of the error file; otherwise the whitespace-free CSS must
   * equal the whitespace-free expected output. Reading a missing file, or
   * `error.formatted` on a success and `result.css` on a failure, throws, and
   * the case fails.
   */
  predicate Passes(c: FixtureCase, files: map<Path, string>, outcome: Outcome) {
    if c.shouldFail then
      && outcome.CompileError?
      && c.errorPath.Some? && c.errorPath.value in files
      && FirstLine(outcome.formatted) == FirstLine(files[c.errorPath.value])
    else if c.expectedPath in files then
      outcome.Css? && SameCss(outcome.css, files[c.expectedPath])
    else
      true
  }

  /** Expected CSS that differs from the output only in whitespace passes. */
  lemma PassesDespiteSpacing(c: FixtureCase, files: map<Path, string>, css: string, w: string, rest: string)
    requires !c.shouldFail && c.expectedPath in files && files[c.expectedPath] == css + w + rest
    requires forall i :: 0 <= i < |w| ==> IsWhitespace(w[i])
    ensures Passes(c, files, Css(css + rest))
  {
    NormalizeIgnoresWhitespace(css, w, rest);
  }

  /** An expected error passes on its first line alone. */
  lemma PassesOnFirstLine(c: FixtureCase, files: map<Path, string>, line: string, rest1: string, rest2: string)
    requires c.shouldFail && c.errorPath.Some? && c.errorPath.value in files
    requires '\n' !in line && files[c.errorPath.value] == line + "\n" + rest1
    ensures Passes(c, files, CompileError(line + "\n" + rest2))
  {
    FirstLineOfLine(line, rest1);
    FirstLineOfLine(line, rest2);
  }
}
