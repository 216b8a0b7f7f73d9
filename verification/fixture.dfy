/**
 * One test case: `initialize` derives a case's paths, options and flags from
 * its input path, the options of the suite it belongs to and what exists in
 * its folder.
 */
module Fixture {
  import opened Wrappers
  import opened Paths
  import opened Options
  import opened Override

  datatype FixtureCase = FixtureCase(
    folder: Path,
    name: string,
    inputPath: Path,
    expectedPath: Path,
    errorPath: Option<Path>,
    warningPath: Path,
    optionsPath: Path,
    includePaths: seq<Path>,
    precision: real,
    outputStyle: string,
    todo: bool,
    only: Value,
    ignoreFor: Value,
    warningTodo: bool,
    startVersion: real,
    endVersion: real,
    options: Config,
    shouldFail: bool,
    verifyWarning: bool)

  const DefaultPrecision := 10.0
  const DefaultStartVersion := 0.0
  const DefaultEndVersion := 99.0

  /**
   * The options a case runs with: the case folder's `options.yml`, when there
   * is one, merged onto a copy of the suite's options. A document the reader
   * rejects is replaced by `{':todo': ['libsass']}` when its text matches the
   * duplicate-key pattern, and rethrown otherwise.
   */
  function CaseOptions(fs: FileSystem, optionsPath: Path, inherited: Config): (r: Result<Config, Failure>)
    ensures optionsPath !in fs.yaml ==> r == Ok(inherited)
    ensures r.Err? <==> optionsPath in fs.yaml && fs.yaml[optionsPath] == Malformed(false)
    ensures r.Err? ==> r.error == YamlError(optionsPath)
    ensures r.Ok? ==> inherited.Keys <= r.value.Keys
    ensures optionsPath in fs.yaml && fs.yaml[optionsPath].Parsed? ==>
      r == Ok(Merge(inherited, fs.yaml[optionsPath].config))
    ensures optionsPath in fs.yaml && fs.yaml[optionsPath] == Malformed(true) ==>
      r == Ok(Merge(inherited, TodoFallback))
  {
    if optionsPath !in fs.yaml then Ok(inherited)
    else
      match fs.yaml[optionsPath]
      case Parsed(doc) => Ok(Merge(inherited, doc))
      case Malformed(todoFallback) =>
        if todoFallback then Ok(Merge(inherited, TodoFallback)) else Err(YamlError(optionsPath))
  }

  /** `initialize(inputCss, options)`. */
  function Initialize(fs: FileSystem, specRoot: Path, inputCss: Path, inherited: Config): (r: Result<FixtureCase, Failure>)
    requires |inputCss| >= 2
    ensures r.Err? <==>
      (var options := CaseOptions(fs, Parent(inputCss) + ["options.yml"], inherited);
       options.Err? || OutputStyle(options.value).Err? ||
       ListFlag(options.value, ":todo").Err? || ListFlag(options.value, ":warning_todo").Err?)
    ensures r.Ok? ==> var c := r.value;
      && c.inputPath == inputCss
      && c.folder + [inputCss[|inputCss| - 1]] == inputCss
      && c.name == inputCss[|inputCss| - 2]
      && c.optionsPath == c.folder + ["options.yml"]
      && c.includePaths == [c.folder, c.folder + ["sub"], specRoot]
      && CaseOptions(fs, c.optionsPath, inherited) == Ok(c.options)
      // expectation files: the -libsass variant when it exists
      && (c.folder + ["output-libsass.css"] in fs.present ==> c.expectedPath == c.folder + ["output-libsass.css"])
      && (c.folder + ["output-libsass.css"] !in fs.present ==> c.expectedPath == c.folder + ["output.css"])
      && (c.folder + ["warning-libsass"] in fs.present ==> c.warningPath == c.folder + ["warning-libsass"])
      && (c.folder + ["warning-libsass"] !in fs.present ==> c.warningPath == c.folder + ["warning"])
      && (c.shouldFail <==> c.expectedPath !in fs.present)
      && (c.errorPath.Some? <==> c.shouldFail)
      && (c.shouldFail && c.folder + ["error-libsass"] in fs.present ==> c.errorPath == Some(c.folder + ["error-libsass"]))
      && (c.shouldFail && c.folder + ["error-libsass"] !in fs.present ==> c.errorPath == Some(c.folder + ["error"]))
      && (c.verifyWarning <==> c.warningPath in fs.present && c.warningPath !in fs.dirs)
      // values read from the options
      && c.precision == NumberOr(c.options, ":precision", DefaultPrecision)
      && c.startVersion == NumberOr(c.options, ":start_version", DefaultStartVersion)
      && c.endVersion == NumberOr(c.options, ":end_version", DefaultEndVersion)
      && OutputStyle(c.options) == Ok(c.outputStyle)
      && (c.todo <==> MarksImpl(c.options, ":todo"))
      && (c.warningTodo <==> MarksImpl(c.options, ":warning_todo"))
      && c.only == ValueOrFalse(c.options, ":only_on")
      && c.ignoreFor == ValueOrFalse(c.options, ":ignore_for")
  {
    var folder := Parent(inputCss);
    var optionsPath := folder + ["options.yml"];
    var options :- CaseOptions(fs, optionsPath, inherited);
    var outputStyle :- OutputStyle(options);
    var todo :- ListFlag(options, ":todo");
    var warningTodo :- ListFlag(options, ":warning_todo");
    var expectedPath := Resolve(fs.present, folder, "output.css");
    var warningPath := Resolve(fs.present, folder, "warning");
    var shouldFail := expectedPath !in fs.present;
    OutputCssVariant();
    DotlessVariants();
    Ok(FixtureCase(
      folder := folder,
      name := inputCss[|inputCss| - 2],
      inputPath := inputCss,
      expectedPath := expectedPath,
      errorPath := if shouldFail then Some(Resolve(fs.present, folder, "error")) else None,
      warningPath := warningPath,
      optionsPath := optionsPath,
      includePaths := [folder, folder + ["sub"], specRoot],
      precision := NumberOr(options, ":precision", DefaultPrecision),
      outputStyle := outputStyle,
      todo := todo,
      only := ValueOrFalse(options, ":only_on"),
      ignoreFor := ValueOrFalse(options, ":ignore_for"),
      warningTodo := warningTodo,
      startVersion := NumberOr(options, ":start_version", DefaultStartVersion),
      endVersion := NumberOr(options, ":end_version", DefaultEndVersion),
      options := options,
      shouldFail := shouldFail,
      verifyWarning := warningPath in fs.present && warningPath !in fs.dirs))
  }

  /** A case with no options anywhere gets every default. */
  lemma InitializeDefaults(fs: FileSystem, specRoot: Path, inputCss: Path)
    requires |inputCss| >= 2 && Parent(inputCss) + ["options.yml"] !in fs.yaml
    ensures var r := Initialize(fs, specRoot, inputCss, map[]);
      && r.Ok?
      && r.value.precision == 10.0 && r.value.startVersion == 0.0 && r.value.endVersion == 99.0
      && r.value.outputStyle == "nested"
      && !r.value.todo && !r.value.warningTodo
      && !Truthy(r.value.only) && !Truthy(r.value.ignoreFor)
  {
  }

  /** A suite marked todo for this implementation marks every case in it, whatever the case's own options say. */
  lemma InitializeKeepsTodo(fs: FileSystem, specRoot: Path, inputCss: Path, inherited: Config)
    requires |inputCss| >= 2 && MarksImpl(inherited, ":todo")
    ensures var r := Initialize(fs, specRoot, inputCss, inherited);
      r.Ok? ==> r.value.todo
  {
    var optionsPath := Parent(inputCss) + ["options.yml"];
    if optionsPath in fs.yaml {
      match fs.yaml[optionsPath]
      case Parsed(doc) => MergeKeepsMark(inherited, doc, ":todo");
      case Malformed(_) => MergeKeepsMark(inherited, TodoFallback, ":todo");
    }
  }
}
