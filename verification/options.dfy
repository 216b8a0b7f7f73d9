/**
 * Test options: the flat maps read from `options.yml` files, the way a parent
 * folder's options cascade into a child's (lodash `mergeWith` with the
 * harness's `customizer`), and the reads `initialize` and `runTest` make of
 * them, including the JavaScript type errors those reads can raise.
 */
module Options {
  import opened Wrappers
  import opened Paths

  /** A YAML scalar as the YAML reader returns it. */
  datatype Scalar = Null | Bool(b: bool) | Num(x: real) | Str(s: string)

  /** An option value: a scalar, or a YAML sequence of scalars (a JavaScript array). */
  datatype Value = Scalar(scalar: Scalar) | List(items: seq<Scalar>)

  /** Options keyed as in the documents, e.g. ":todo", ":precision". */
  type Config = map<string, Value>

  /** What reading one `options.yml` yields. */
  datatype YamlDoc =
    | Parsed(config: Config)
      /** The reader threw. `todoFallback` says whether the raw text matches the
          duplicate-key pattern `:todo:` followed by a `- libsass` item. */
    | Malformed(todoFallback: bool)

  /**
   * The part of the fixture tree the harness probes: the paths that exist,
   * which of them are directories, and the documents of the `options.yml`
   * files that exist. The keys of `yaml` stand for `exists(optionsPath)`: an
   * `options.yml` is read when it has a document and is taken as absent when
   * it has none, whether or not it is also listed in `present`, which is
   * consulted only for the expectation files.
   */
  datatype FileSystem = FileSystem(present: set<Path>, dirs: set<Path>, yaml: map<Path, YamlDoc>)

  /** The exceptions the modelled code can throw. */
  datatype Failure =
    | YamlError(file: Path)
      /** The fallback in `executeSuite` reads `testCase`, which is not defined there. */
    | UndefinedTestCase(file: Path)
      /** A method (`replace`, `some`, `match`) called on a value that has none. */
    | NotAFunction(key: string, call: string)

  const ImplName := "libsass"

  /** The options substituted for a document that matches the duplicate `:todo` key pattern. */
  const TodoFallback: Config := map[":todo" := List([Str(ImplName)])]

  /*
   * The cascade: `mergeWith(Object.assign({}, parent), child, customizer)`.
   */

  /** `objValue.concat(srcValue)`: an array argument is spread, anything else is appended as one element. */
  function Concat(items: seq<Scalar>, v: Value): seq<Scalar> {
    match v
    case List(more) => items + more
    case Scalar(s) => items + [s]
  }

  /** The value `mergeWith` stores under `k` when the child document has `k`. */
  function MergeValue(parent: Config, k: string, v: Value): Value {
    if k in parent && parent[k].List? then List(Concat(parent[k].items, v)) else v
  }

  /**
   * Merges a child document onto a copy of the parent's options: a key whose
   * parent value is an array gets the parent array followed by the child's
   * value(s), duplicates kept; any other key the child has takes the child's
   * value; keys only the parent has pass through.
   */
  function Merge(parent: Config, child: Config): (r: Config)
    ensures r.Keys == parent.Keys + child.Keys
    ensures forall k :: k in child && k in parent && parent[k].List? ==>
      r[k].List? && r[k].items == parent[k].items + (if child[k].List? then child[k].items else [child[k].scalar])
    ensures forall k :: k in child && !(k in parent && parent[k].List?) ==> r[k] == child[k]
    ensures forall k :: k in parent && k !in child ==> r[k] == parent[k]
  {
    map k | k in parent.Keys + child.Keys :: if k in child then MergeValue(parent, k, child[k]) else parent[k]
  }

  /** The root suite starts from `{}`, so its options are its own document. */
  lemma MergeOntoEmpty(child: Config)
    ensures Merge(map[], child) == child
  {
  }

  /** Merging never drops or reorders what a parent array holds. */
  lemma MergeKeepsListPrefix(parent: Config, child: Config, k: string)
    requires k in parent && parent[k].List?
    ensures var r := Merge(parent, child);
      k in r && r[k].List? && |parent[k].items| <= |r[k].items| &&
      r[k].items[..|parent[k].items|] == parent[k].items
  {
  }

  /*
   * Reading options.
   */

  /** JavaScript truthiness of a value (NaN is not a value of this model). */
  predicate Truthy(v: Value) {
    match v
    case List(_) => true
    case Scalar(s) =>
      match s
      case Null => false
      case Bool(b) => b
      case Num(x) => x != 0.0
      case Str(t) => t != ""
  }

  /** `impl(entry)`: `/(sass\/)?libsass.* /g` matches exactly when "libsass" occurs in the entry. */
  predicate NamesImpl(e: Scalar) {
    e.Str? && Contains(e.s, ImplName)
  }

  /** The first `n` entries are strings. */
  predicate StringsBefore(items: seq<Scalar>, n: int) {
    forall i :: 0 <= i < n && i < |items| ==> items[i].Str?
  }

  /**
   * `items.some(impl)`: scans in order and stops at the first entry naming
   * the implementation; `impl` calls `entry.match`, which throws on an entry
   * that is not a string.
   */
  function SomeImpl(items: seq<Scalar>, key: string): (r: Result<bool, Failure>)
    ensures r == Ok(true) <==> exists i :: 0 <= i < |items| && NamesImpl(items[i]) && StringsBefore(items, i)
    ensures r == Ok(false) <==> StringsBefore(items, |items|) && forall i :: 0 <= i < |items| ==> !NamesImpl(items[i])
    ensures r.Err? ==> r.error == NotAFunction(key, "match")
  {
    if items == [] then Ok(false)
    else if !items[0].Str? then Err(NotAFunction(key, "match"))
    else if Contains(items[0].s, ImplName) then Ok(true)
    else
      var tail := items[1..];
      var r := SomeImpl(tail, key);
      assert forall i :: 0 <= i < |tail| ==> tail[i] == items[i + 1];
      assert (exists i :: 0 <= i < |items| && NamesImpl(items[i]) && StringsBefore(items, i)) ==>
        exists j :: 0 <= j < |tail| && NamesImpl(tail[j]) && StringsBefore(tail, j) by {
        if exists i :: 0 <= i < |items| && NamesImpl(items[i]) && StringsBefore(items, i) {
          var i :| 0 <= i < |items| && NamesImpl(items[i]) && StringsBefore(items, i);
          assert i != 0 && NamesImpl(tail[i - 1]) && StringsBefore(tail, i - 1);
        }
      }
      assert r == Ok(true) ==> exists i :: 0 <= i < |items| && NamesImpl(items[i]) && StringsBefore(items, i) by {
        if r == Ok(true) {
          var j :| 0 <= j < |tail| && NamesImpl(tail[j]) && StringsBefore(tail, j);
          assert NamesImpl(items[j + 1]) && StringsBefore(items, j + 1);
        }
      }
      r
  }

  /** Once an array names the implementation, appending entries keeps it so. */
  lemma {:induction false} SomeImplKeepsMark(items: seq<Scalar>, more: seq<Scalar>, key: string)
    requires SomeImpl(items, key) == Ok(true)
    ensures SomeImpl(items + more, key) == Ok(true)
  {
    assert items != [];
    if !Contains(items[0].s, ImplName) {
      SomeImplKeepsMark(items[1..], more, key);
      assert (items + more)[1..] == items[1..] + more;
    }
  }

  /** The options mark the implementation under `key`: an array with an entry naming it, reached before any non-string. */
  predicate MarksImpl(options: Config, key: string) {
    key in options && options[key].List? && SomeImpl(options[key].items, key) == Ok(true)
  }

  /** A mark on the parent survives any child document: a marked folder marks everything below it. */
  lemma MergeKeepsMark(parent: Config, child: Config, key: string)
    requires MarksImpl(parent, key)
    ensures MarksImpl(Merge(parent, child), key)
  {
    var r := Merge(parent, child);
    if key in child {
      SomeImplKeepsMark(parent[key].items, r[key].items[|parent[key].items|..], key);
      assert parent[key].items + r[key].items[|parent[key].items|..] == r[key].items;
    }
  }

  /**
   * `options[key] !== undefined && options[key] !== null && options[key].some(impl)`
   * (`todo`, `warningTodo`): `.some` exists on arrays only.
   */
  function ListFlag(options: Config, key: string): (r: Result<bool, Failure>)
    ensures key !in options || options[key] == Scalar(Null) ==> r == Ok(false)
    ensures r == Ok(true) <==> MarksImpl(options, key)
    ensures key in options && options[key].List? ==> r == SomeImpl(options[key].items, key)
    ensures key in options && !options[key].List? && options[key] != Scalar(Null) ==> r == Err(NotAFunction(key, "some"))
  {
    if key !in options || options[key] == Scalar(Null) then Ok(false)
    else if options[key].List? then SomeImpl(options[key].items, key)
    else Err(NotAFunction(key, "some"))
  }

  /** `options[key] !== undefined && options[key] !== null && options[key]` (`only`, `ignoreFor`). */
  function ValueOrFalse(options: Config, key: string): (r: Value)
    ensures key in options && options[key] != Scalar(Null) ==> r == options[key]
    ensures key !in options || options[key] == Scalar(Null) ==> r == Scalar(Bool(false)) && !Truthy(r)
  {
    if key in options && options[key] != Scalar(Null) then options[key] else Scalar(Bool(false))
  }

  /** `parseFloat(options[key]) || d`: a non-zero number, else the default. */
  function NumberOr(options: Config, key: string, d: real): (r: real)
    ensures r == d || (r != 0.0 && key in options && options[key] == Scalar(Num(r)))
    ensures key !in options || options[key] == Scalar(Num(0.0)) ==> r == d
    ensures key in options && options[key].Scalar? && options[key].scalar.Num? && options[key].scalar.x != 0.0 ==>
      r == options[key].scalar.x
  {
    if key in options && options[key].Scalar? && options[key].scalar.Num? && options[key].scalar.x != 0.0
    then options[key].scalar.x
    else d
  }

  /** The index of the first `c` in `s`. */
  function FirstIndex(s: string, c: char): (i: nat)
    requires c in s
    ensures i < |s| && s[i] == c && c !in s[..i]
  {
    if s[0] == c then 0
    else
      var i := 1 + FirstIndex(s[1..], c);
      assert s[..i] == [s[0]] + s[1..][..i - 1];
      i
  }

  /** `s.replace(c, '')` with a one-character string pattern: removes the first `c` only. */
  function RemoveFirst(s: string, c: char): (r: string)
    ensures c !in s ==> r == s
    ensures c in s ==> r == s[..FirstIndex(s, c)] + s[FirstIndex(s, c) + 1..]
  {
    if s == [] then s
    else if s[0] == c then s[1..]
    else
      var r := [s[0]] + RemoveFirst(s[1..], c);
      assert c in s ==> r == s[..FirstIndex(s, c)] + s[FirstIndex(s, c) + 1..] by {
        if c in s {
          var i := FirstIndex(s, c);
          assert c in s[1..] && FirstIndex(s[1..], c) == i - 1;
          assert s[..i] == [s[0]] + s[1..][..i - 1];
          assert s[1..][i..] == s[i + 1..];
        }
      }
      r
  }

  /**
   * `options[':output_style'] ? options[':output_style'].replace(':', '') : 'nested'`:
   * a truthy value that is not a string has no `replace`.
   */
  function OutputStyle(options: Config): (r: Result<string, Failure>)
    ensures ":output_style" !in options || !Truthy(options[":output_style"]) ==> r == Ok("nested")
    ensures r.Ok? && ":output_style" in options && Truthy(options[":output_style"]) ==>
      options[":output_style"].Scalar? && options[":output_style"].scalar.Str? &&
      r.value == RemoveFirst(options[":output_style"].scalar.s, ':')
    ensures r.Err? <==> (":output_style" in options && Truthy(options[":output_style"]) &&
      !(options[":output_style"].Scalar? && options[":output_style"].scalar.Str?))
  {
    if ":output_style" !in options || !Truthy(options[":output_style"]) then Ok("nested")
    else
      match options[":output_style"]
      case Scalar(Str(s)) => Ok(RemoveFirst(s, ':'))
      case _ => Err(NotAFunction(":output_style", "replace"))
  }
}
