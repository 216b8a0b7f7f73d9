# node-sass spec harness, modelled in Dafny

This project models the data-shaping core of node-sass's conformance-test
harness for the sass-spec corpus:

- **The suite tree** (`test/spec.js`, `executeSuite`, `runSuites`). The
  harness starts from the flat list of `input.scss` paths that the glob finds
  under the spec folder. It builds a tree of suites from that list. A suite
  keeps as its own tests the inputs whose fixture folder sits directly inside
  it. It splits the other inputs into maximal runs of neighbours that share
  their next path segment, and builds one child suite per run.
- **The options cascade** (`customizer` with lodash `mergeWith`). Each suite
  starts from a copy of its parent's options and merges its own `options.yml`
  onto them. A parent's array values are extended by the child's, never
  replaced.
- **One test case** (`initialize`, `getImplSpecificFileFactory`). From an input
  path, the cascaded options and the files present in the folder, the harness
  derives the case's paths, flags and numbers. A `-libsass` variant of an
  expectation file takes precedence over the canonical file when it exists.
- **The dispatch** (`runTest`). A case goes through a chain of skip checks:
  todo, `only_on`, `ignore_for`, then the version range. Only then is it
  compiled. The compiler's answer is judged by whitespace-free comparison
  (`normalize`), or, for an expected error, by the error's first line.
- **The pretest step** (`scripts/pretest.js`). Every `.hrx` archive of the
  corpus is flattened depth first into its files (`extractHrxDir`). Each file
  gets a destination below `test/fixtures/sass-spec`. The files of all
  archives are then collected in archive order.

Modules:

| module | file | models |
|---|---|---|
| `Wrappers` | wrappers.dfy | `Option` and `Result` |
| `Paths` | paths.dfy | paths as segment sequences; substring occurrence |
| `Options` | options.dfy | option values, the cascade, the reads `initialize` makes |
| `Override` | override.dfy | `getImplSpecificFileFactory` |
| `Fixture` | fixture.dfy | `initialize` |
| `Normalize` | normalize.dfy | `normalize` and the first-line comparison |
| `Dispatch` | dispatch.dfy | `runTest`'s skip chain and verdict |
| `SuiteTree` | suite_tree.dfy | `executeSuite`: the spec functions and the imperative methods |
| `SuiteProps` | suite_props.dfy | what the built tree promises, and `runSuites`' order |
| `Archive` | archive.dfy | `scripts/pretest.js` |

A path is the sequence of its `/`-separated segments, which is what
`split('/')` returns. `folder + '/' + name` appends a segment, and
`join(p, '..')` drops the last one. The folder depth used by `executeSuite`
(`suite.folder.split('/').length`) is the length of the suite's folder path.

`executeSuite` changes state step by step, so it is modelled as imperative
Dafny:

- SuiteTree.FilterOwnTests is the filter loop.
- SuiteTree.ExecuteChildren is the grouping loop.
- SuiteTree.ExecuteRun is one recursive `executeSuite` call for one run.
- SuiteTree.ExecuteSuite is the whole function.

Each method is proved equal to the recursive specification
`SuiteTree.BuildSuite` / `SuiteTree.BuildChildren`. The suite objects are
created fresh for each call, filled during that call only and never shared.
So `Suite` is a datatype value returned by the method, not a class.
`extractHrxDir`'s loop is the method `Archive.ExtractHrxDir`, which is proved
equal to `Archive.FilesOf`. The `map` and the `reduce` around it are pure
expressions and are modelled as functions.

### How the tree comes out

- Grouping is by the first segment below the suite's folder, and an input
  one folder below the suite is the suite's own test (test/spec.js:172-219).
  So `[spec/a/x/input.scss, spec/a/y/input.scss, spec/b/input.scss]` gives the
  root the test `spec/b/input.scss` and one child `a`. That child holds the
  other two as its own tests, with no children of its own
  (`SuiteProps.NestingExample`).
- Grouping merges only neighbouring inputs. Unsorted inputs such as
  `a/x, b/x, a/y` give children `a`, `b`, `a` (`SuiteProps.UnsortedExample`).
- When the folder's `options.yml` cannot be read, `executeSuite`'s fallback
  reads `testCase.optionsPath`. `testCase` is not defined in that function
  (test/spec.js:162), so the fallback always throws. The model returns
  `UndefinedTestCase` (see Findings).

## Model

| member | source | states |
|---|---|---|
| Paths.Parent | test/spec.js:48 | `join(p, '..')` is the path without its last segment, so appending that segment gives `p` back |
| Options.Merge | test/spec.js:147-151 | the merged options have the keys of both documents. Under a key where the parent holds an array, the result is the parent's entries followed by the child's entries (or by its one scalar). Any other key the child has takes the child's value. Keys only the parent has pass through |
| Options.MergeOntoEmpty | test/spec.js:139-145 | the root suite starts from `{}`, so merging its document gives exactly that document |
| Options.MergeKeepsListPrefix | test/spec.js:147-151 | a parent array survives any merge as a prefix of the merged array |
| Options.SomeImpl | test/spec.js:14 | `some(impl)` is true exactly when an entry containing `libsass` comes before any non-string entry. It is false exactly when all entries are strings and none contains it. Otherwise `match` on a non-string throws |
| Options.SomeImplKeepsMark | test/spec.js:147-151 | once an array names the implementation, appending entries (the cascade's concat) keeps it named |
| Options.MergeKeepsMark | test/spec.js:147-151 | a `:todo`-style mark on the parent survives any child document |
| Options.ListFlag | test/spec.js:79-82 | `todo` / `warningTodo`: false when the key is absent or null. For an array, exactly the answer of `some(impl)`: true when it marks the implementation, false when it is all strings without the mark (`[dart-sass]`), and the TypeError of a non-string entry reached first. A non-array value throws (`some` is not a function) |
| Options.Truthy | test/spec.js:78-110 | JavaScript truthiness of an option value: arrays are truthy; `null`, `false`, `0` and `''` are falsy, used by the `?:` at line 78 and the `&&` tests at lines 80-81 and 103-105 |
| Options.ValueOrFalse | test/spec.js:80-81 | `only` / `ignoreFor`: the value itself when present and not null, otherwise `false` |
| Options.NumberOr | test/spec.js:77-84 | `parseFloat(x) \|\| d`: a non-zero number option is taken, and anything else gives the default |
| Options.FirstIndex | test/spec.js:78 | the index of the first occurrence, with none before it |
| Options.RemoveFirst | test/spec.js:78 | `replace(':', '')` with a string pattern removes only the first `:`, and leaves a string without one unchanged |
| Options.OutputStyle | test/spec.js:78 | `nested` when the option is absent or falsy. The first `:` is removed from a string value. Any other truthy value throws |
| Override.Split | test/spec.js:28 | `split` always yields at least one token |
| Override.JoinSplit | test/spec.js:28 | joining the tokens of `split(sep)` with `sep` gives the text back |
| Override.ConcatSplit | test/spec.js:28-30 | joining the tokens with `''` gives the text with every separator removed |
| Override.SplitAtFirst | test/spec.js:28-29 | the first token is the text before the first `.`, and the rest are the tokens of what follows |
| Override.ImplSpecificName | test/spec.js:27-33 | with a dot: the text before the first dot, then `-libsass.`, then the rest without dots. Without a dot: the name followed by `-libsass` |
| Override.ImplSpecificNameDiffers | test/spec.js:27-33 | the variant name never equals the canonical name |
| Override.ImplSpecificNameOf | test/spec.js:27-30 | a name `base.ext` with one dot becomes `base-libsass.ext` |
| Override.OutputCssVariant | test/spec.js:53 | `output.css` becomes `output-libsass.css` |
| Override.DotlessVariants | test/spec.js:55 | `warning` and `error` become `warning-libsass` and `error-libsass` |
| Override.Resolve | test/spec.js:35-41 | the variant in the folder when it exists, otherwise the canonical file in the folder |
| Fixture.CaseOptions | test/spec.js:56-71 | a case's options. With no `options.yml` in the folder, the suite's options. With a parsed document, that document merged onto a copy of the suite's options. With a rejected document that matches the duplicate-`:todo` pattern, `{':todo': ['libsass']}` merged onto them. With a rejected document that does not match, a throw with the reader's error. Every key of the suite's options is kept |
| Fixture.Initialize | test/spec.js:45-95 | fails exactly when reading the options or one of the reads that can throw fails. Otherwise it states every field: folder, name, options path, include paths, the `-libsass`-preferring expectation files, `shouldFail` iff no expected output, the error path only when failing, `verifyWarning` iff the warning exists and is no directory, and the numbers and flags read from the cascaded options |
| Fixture.InitializeDefaults | test/spec.js:77-84 | a case without any options gets precision 10, versions 0 to 99, style `nested`, and no flags |
| Fixture.InitializeKeepsTodo | test/spec.js:57-79 | a suite marked todo for libsass marks every case in it, whatever the case's own `options.yml` says |
| Normalize.Normalize | test/spec.js:17-20 | `str.replace(/\s+/g, '')`: the text with every character of JavaScript's `\s` class removed, the rest in order. The lemmas below pin it down |
| Normalize.NormalizeRemovesWhitespace | test/spec.js:17-20 | the normal form has no whitespace and is no longer than the text |
| Normalize.NormalizeKeepsClean | test/spec.js:17-20 | text without whitespace is its own normal form |
| Normalize.NormalizeIdempotent | test/spec.js:17-20 | normalizing twice is normalizing once |
| Normalize.NormalizeConcat | test/spec.js:17-20 | normalizing distributes over concatenation |
| Normalize.NormalizeIgnoresWhitespace | test/spec.js:17-20 | inserting whitespace anywhere does not change the normal form |
| Normalize.AllWhitespaceNormalizesToEmpty | test/spec.js:17-20 | text made only of whitespace normalizes to the empty string |
| Normalize.SameCssSeesValues | test/spec.js:125-131 | two whitespace-free outputs that differ never compare equal |
| Normalize.FirstLine | test/spec.js:121-122 | `split('\n')[0]` is the prefix before the first line break and holds no line break |
| Normalize.FirstLineOfLine | test/spec.js:118-124 | a message's first line is the text before its first line break, whatever follows |
| Dispatch.ListedImpl | test/spec.js:103-106 | `v && v.some(impl)`: false for a falsy value, exactly the answer of `some(impl)` for an array (including its false and its TypeError), and a throw for any other truthy value |
| Dispatch.RunTest | test/spec.js:97-111 | the skip chain as written, each outcome with its exact condition: todo exactly when a todo flag is set; `only_on` skips exactly when its list names libsass; then `ignore_for`; then newer-only when 3.6 is below the start version, checked before older-only when 3.6 is above the end version; compiled exactly when no check applies, with the case's file, include paths, precision and style. It throws exactly when the `only_on` check throws, or the `ignore_for` check is reached and throws, and with that check's error |
| Dispatch.RunTestIntended | test/spec.js:103-104 | corrected chain: `only_on` skips exactly when a list is given that does not name libsass, so a compiled case is never restricted to other implementations |
| Dispatch.OnlyOnInverted | test/spec.js:103-104 | a case restricted to `dart-sass` is compiled by the code as written but skipped by the corrected chain. A case restricted to `libsass` is the other way round |
| Dispatch.VersionGateExamples | test/spec.js:107-110 | at version 3.6, a case for versions 3.0 to 3.5 is skipped as older-only, the same case up to 99 is compiled, and an empty range 4.0 to 3.0 is skipped as newer-only because that check comes first |
| Dispatch.Passes | test/spec.js:117-134 | the callback's verdict: an expected error needs a compile error whose first line is the error file's first line; otherwise, when the expected CSS exists, the compiled CSS must equal it after `normalize`. The two lemmas below state what it accepts |
| Dispatch.PassesDespiteSpacing | test/spec.js:125-131 | output that differs from the expected CSS only by inserted whitespace passes |
| Dispatch.PassesOnFirstLine | test/spec.js:118-124 | an expected error passes when the first lines agree, whatever the lines after them say |
| SuiteTree.SuiteOptions | test/spec.js:155-170 | the inherited options when there is no `options.yml`, a throw when it cannot be read, otherwise the document merged onto the inherited options |
| SuiteTree.SuiteOptionsIntended | test/spec.js:160-168 | corrected fallback: a parsed document gives what the code gives (the document merged onto the inherited options). A rejected document matching the duplicate-`:todo` pattern gives `{':todo': ['libsass']}` merged onto them. Only a rejected document that does not match throws |
| SuiteTree.SuiteFallbackMarksTodo | test/spec.js:160-168 | with the corrected fallback, a suite whose `options.yml` has the duplicate `:todo` key is marked todo. This holds whatever the parent's `:todo` is (absent, a scalar, a list with or without `libsass`), except a list on which `some(impl)` throws |
| SuiteTree.UndefinedTestCaseFallback | test/spec.js:160-168 | for that document the code as written fails the build, while the corrected fallback marks the suite todo |
| SuiteTree.Direct | test/spec.js:173-182 | the inputs the filter pushes onto the suite's own tests, in input order (their properties: `SuiteProps.DirectAreDirect`, `SuiteProps.FilterPartition`) |
| SuiteTree.Nested | test/spec.js:173-182 | the inputs the filter returns for the children, in input order (`SuiteProps.NestedAreNested`) |
| SuiteTree.BuildSuite | test/spec.js:153-222 | the suite `executeSuite` returns, defined recursively. `SuiteTree.ExecuteSuite` is proved equal to it, and the SuiteProps lemmas state its properties |
| SuiteTree.BuildChildren | test/spec.js:184-219 | the children built for the runs in order, the first failure being the result (`SuiteTree.BuildChildrenStopsAtFailure`, `SuiteProps.BuildChildrenAt`) |
| SuiteTree.Extend | test/spec.js:188-205 | one loop step yields a nonempty run list whose last run is well formed |
| SuiteTree.ExtendKeepsRuns | test/spec.js:188-205 | one loop step appends the input to the runs and keeps them maximal: each run agrees on the segment, and neighbours differ |
| SuiteTree.Runs | test/spec.js:184-219 | the grouping leaves the last run well formed |
| SuiteTree.RunsProps | test/spec.js:184-219 | the runs concatenate back to the inputs in order, every run agrees on the segment, and neighbouring runs differ on it |
| SuiteTree.BuildChildrenStopsAtFailure | test/spec.js:191-202 | once building a child throws, the children after it change nothing: the first failure is the result |
| SuiteTree.FilterOwnTests | test/spec.js:172-182 | the filter loop pushes exactly the inputs whose fixture folder sits directly in the suite, and keeps the others, both in order |
| SuiteTree.ExecuteSuite | test/spec.js:153-222 | `executeSuite` returns the suite `BuildSuite` specifies, or the error it specifies |
| SuiteTree.GroupFromRuns | test/spec.js:184-219 | the grouping loop's state at any step determines the runs it will produce from there |
| SuiteTree.ExecuteChildren | test/spec.js:184-219 | the grouping loop returns one child per maximal run, in order, or the first child's failure |
| SuiteTree.ExecuteRun | test/spec.js:208-218 | the recursive call for one run builds the suite specified for that run, named by its segment, in the folder extended by it |
| SuiteProps.FilterConcat | test/spec.js:172-182 | the filter keeps the order: it distributes over concatenation of the inputs |
| SuiteProps.FilterPartition | test/spec.js:172-182 | own tests and remaining inputs together are the inputs, counted with multiplicity |
| SuiteProps.DirectAreDirect | test/spec.js:172-182 | every own test has its fixture folder directly in the suite |
| SuiteProps.NestedAreNested | test/spec.js:172-182 | no remaining input has its fixture folder directly in the suite |
| SuiteProps.BuildSuiteNames | test/spec.js:153-222 | a built suite has the name and folder it was given, its own tests are the filtered inputs, its options are the cascade, and its children are those built from the runs |
| SuiteProps.BuildChildrenCount | test/spec.js:184-219 | one child per run |
| SuiteProps.BuildChildrenAt | test/spec.js:191-202 | child `k` is the suite built for run `k`, named by its segment, from the parent's options |
| SuiteProps.BuildSuiteChildren | test/spec.js:184-219 | the children match the maximal runs one to one, in order: the runs concatenate back to the remaining inputs; each child is named by its run's segment and lives in the parent folder plus that name; neighbouring children never share a name |
| SuiteProps.BuildSuiteChildOptions | test/spec.js:196-199 | every child's options are its own `options.yml` merged onto a copy of the parent's merged options |
| SuiteProps.Registered | test/spec.js:224-234 | the order in which `runSuites` registers the inputs: the suite's own tests, then each child's, depth first (`SuiteProps.BuildSuiteRegisters`) |
| SuiteProps.BuildSuiteRegisters | test/spec.js:224-234 | the inputs `runSuites` registers, own tests first and then each child depth first, are a permutation of the inputs the suite was built from: each input becomes exactly one test |
| SuiteProps.BuildChildrenRegisters | test/spec.js:229-231 | the children together register exactly the inputs of all their runs |
| SuiteProps.BuildSuiteKeepsMark | test/spec.js:155-170 | a todo mark passed down to a suite holds in that suite and in every suite below it |
| SuiteProps.BuildChildrenKeepsMark | test/spec.js:194-199 | a mark on the parent's options holds in every child subtree |
| SuiteProps.NestingExample | test/spec.js:172-219 | `spec/a/x`, `spec/a/y`, `spec/b` give root test `spec/b` and one child `a` holding the other two as its own tests |
| SuiteProps.UnsortedExample | test/spec.js:184-219 | inputs `a/x`, `b/x`, `a/y` build, and give three children named `a`, `b`, `a` |
| SuiteProps.BuildSuiteSucceeds | test/spec.js:153-222 | the build throws only on a rejected `options.yml`: when every document parses, `executeSuite` returns a suite |
| SuiteProps.BuildChildrenSucceeds | test/spec.js:184-219 | when every document parses, every run yields its child |
| Archive.FilesOf | scripts/pretest.js:36-48 | the files `extractHrxDir` returns, defined recursively: a directory's entries in order, each file as itself and each subdirectory spliced in by its own files. The lemmas below state its properties |
| Archive.ExtractHrxDir | scripts/pretest.js:36-48 | the walk returns exactly the files `FilesOf` specifies: depth first, in declaration order, with their full paths |
| Archive.FilesCount | scripts/pretest.js:38-44 | as many files come out as the tree has file leaves |
| Archive.Child | scripts/pretest.js:39 | the entry found under a name exists exactly when some entry has that name, and is one of them |
| Archive.FilesBelow | scripts/pretest.js:36-48 | every emitted path lies below the directory being walked |
| Archive.FilesSound | scripts/pretest.js:38-44 | every emitted item is a file of the tree: looking up its path finds a file with its body, so no directory is emitted |
| Archive.FilesComplete | scripts/pretest.js:38-44 | every file of the tree is emitted, at its path, with its body |
| Archive.FilesDistinct | scripts/pretest.js:36-48 | when no directory repeats a name, no two emitted files share a path |
| Archive.DirConcat | scripts/pretest.js:38-44 | the files of a directory whose entries are `a` then `b` are those of `a` followed by those of `b`, so a subdirectory's files sit together at its position |
| Archive.StripHrx | scripts/pretest.js:55 | `basename(name, '.hrx')` drops a trailing `.hrx` unless the name is nothing but that, and otherwise keeps the name |
| Archive.ArchiveFolder | scripts/pretest.js:53-56 | the archive's folders followed by its stripped name |
| Archive.ReplaceFirst | scripts/pretest.js:57 | `replace(src, dst)` on segment sequences: the first occurrence of `src`, if any, replaced by `dst` (`Archive.ReplaceFirstAt`, `Archive.ReplaceFirstAbsent`) |
| Archive.ReplaceFirstAt | scripts/pretest.js:57 | `replace(src, dst)` replaces the first occurrence only and keeps what surrounds it |
| Archive.ReplaceFirstAbsent | scripts/pretest.js:57 | with no occurrence the path is unchanged |
| Archive.Destination | scripts/pretest.js:53-57 | a file's destination: the archive's folder, then the file's inner path, with the first occurrence of the source root replaced by `test/fixtures/sass-spec` (`Archive.DestinationBelowRoot`) |
| Archive.DestinationBelowRoot | scripts/pretest.js:53-57 | for an archive found below the spec root, a file's destination is the same place below `test/fixtures/sass-spec`: the archive's folders, its name without `.hrx`, then the file's inner path |
| Archive.MapFiles | scripts/pretest.js:52-60 | one output per file of the archive. Each keeps its body unchanged and gets the destination of its inner path |
| Archive.ExtractAll | scripts/pretest.js:50-65 | the `reduce`: each archive's mapped files appended in archive order (`Archive.ExtractAllAppend`, `Archive.ExtractAllCount`) |
| Archive.ExtractAllAppend | scripts/pretest.js:50-65 | the collected list is the concatenation of each archive's files in archive order: collecting `a + b` is collecting `a`, then `b` |
| Archive.ExtractAllCount | scripts/pretest.js:50-65 | as many files are collected as the archives hold |
| Archive.ExtractExample | scripts/pretest.js:50-65 | an archive `spec/foo.hrx` holding `a/b.txt` = `hello` yields exactly one file, `test/fixtures/sass-spec/spec/foo/a/b.txt` with body `hello` |

## Left out

- File-system access is not modelled: the globs, `existsSync`, `statSync`, `readFileSync`, `copy`, `mkdirSync`, `outputFile` and `createReadStream`. What exists, which paths are directories, and the parsed `options.yml` documents are inputs (`Options.FileSystem`, the `yaml` map). The glob's output is the input list.
- SuiteTree.ExecuteSuite: requires `SuiteTree.Buildable`, an assumption about the corpus: every input path ends in an input file name, and no `input.scss` sits directly in the spec folder. The glob `specPath + '/**/input.scss'` (test/spec.js:22) would also match `<spec>/input.scss`, because `**` matches zero folders. On such a path the source does not terminate. The filter keeps the path, since the segment it tests is `undefined` (test/spec.js:173-182). Grouping then builds a child named `input.scss` holding it, and below that children named `undefined`, each recursing on the same path until the stack overflows (test/spec.js:184-219). The model leaves that non-termination out.
- YAML parsing is not modelled. A document is either parsed (a flat map from option keys to scalars or arrays of scalars) or rejected. For a rejected document, whether its raw text matches the duplicate-`:todo` regular expression is a boolean input.
- Archive text parsing (`node-hrx`) is not modelled. An archive is its parsed tree (`Archive.Entry`), and `innerFile.path` is computed during the walk. The library's iteration order over a directory's entries is taken to be declaration order. Plain JavaScript objects list integer-like keys first, and that ordering is not modelled.
- Archive.Destination: `path.join` normalizes (`.`, `..`, repeated separators) and uses `\` on Windows. Paths here are segment sequences that need no normalization. The string `replace` is modelled as a replacement of the first occurrence of the source root's segments, so an occurrence that starts inside a segment is not modelled. For the archives the glob finds under the source root, the first occurrence is the prefix either way.
- The compiler (`sass.render`), mocha (`describe`, `it`, `this.skip`, `done`) and `assert.equal` are not modelled. A case's decision (`Dispatch.Decision`) and the compiler's answer (`Dispatch.Outcome`) are values. The skip messages are not modelled, except through the `SkipReason` they stand for.
- Dispatch.Passes: the removal of a `DEPRECATION WARNING` paragraph from the expected error text (a regular expression at test/spec.js:119) is not modelled. The expected error is compared as read.
- Options.NumberOr: `parseFloat` of a string option is not modelled. Only numeric YAML values are read as numbers, and a string gives the default as if it were `NaN`.
- Nested YAML mappings and lodash's deep merge of nested objects are not modelled. Option values are scalars or arrays of scalars, which is all the harness reads.
- `impl` is modelled as "the entry contains `libsass`". For a string, this is exactly when `/(sass\/)?libsass.*/g` matches it.
- Concurrency is not modelled: `Promise.all` over the archives and the writes, and the asynchronous `copy(...).then`. The model handles the archives in glob order, which is the order `reduce` sees them in.
- The grouping loop and the recursive call for one run are separate methods (`SuiteTree.ExecuteChildren`, `SuiteTree.ExecuteRun`), and the filter is a method of its own (`SuiteTree.FilterOwnTests`). In the source they are the loops and calls inside one `executeSuite` function.
- The `map` and the `reduce` of the pretest step (`Archive.MapFiles`, `Archive.ExtractAll`) are functions over `Archive.FilesOf`, the specification that `Archive.ExtractHrxDir` is proved equal to. They call the specification because a function cannot call a method.

## Findings

The suite tree and the dispatch follow the code as written (`SuiteTree.SuiteOptions`, `Dispatch.RunTest`), so the model shows what the harness does. Each corrected definition stands next to the one it corrects, with the intended property proved about it.

| source | as written | input that shows it | evidently intended | confidence | as-written member | corrected member |
|---|---|---|---|---|---|---|
| test/spec.js:103-104 | `test.only && test.only.some(impl)` skips the case when its `:only_on` list names libsass | a case with `:only_on: [libsass]` is skipped by libsass itself, while a case with `:only_on: [dart-sass]` is compiled | skip when an `:only_on` list is given and does not name libsass. An empty list `[]` is truthy and names no implementation, so it skips too | not executed | Dispatch.OnlyOnInverted | Dispatch.RunTestIntended |
| test/spec.js:162 | the fallback for a suite `options.yml` the reader rejects reads `testCase.optionsPath`, and `testCase` is not defined in `executeSuite` | a suite folder whose `options.yml` repeats the `:todo` key with a `- libsass` item: the build throws a ReferenceError | read the suite's own `optionsFile` and mark the suite todo, as `initialize` does for a case | not executed | SuiteTree.UndefinedTestCaseFallback | SuiteTree.SuiteOptionsIntended |
