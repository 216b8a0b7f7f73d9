/**
 * Implementation-specific expectation files: `getImplSpecificFileFactory`
 * turns a canonical file name into its `-libsass` variant and prefers that
 * variant when it exists in the fixture folder.
 */
module Override {
  import opened Paths
  import opened Options

  /** `s.split(sep)` for a one-character separator. */
  function Split(s: string, sep: char): (r: seq<string>)
    ensures |r| >= 1
  {
    if s == [] then [""]
    else
      var t := Split(s[1..], sep);
      if s[0] == sep then [""] + t else [[s[0]] + t[0]] + t[1..]
  }

  /** `tokens.join(sep)`. */
  function JoinWith(tokens: seq<string>, sep: string): string {
    if tokens == [] then ""
    else if |tokens| == 1 then tokens[0]
    else tokens[0] + sep + JoinWith(tokens[1..], sep)
  }

  /** `tokens.join('')`. */
  function JoinEmpty(tokens: seq<string>): string {
    if tokens == [] then "" else tokens[0] + JoinEmpty(tokens[1..])
  }

  /** `s` with every `c` removed. */
  function Without(s: string, c: char): (r: string)
    ensures c !in r
  {
    if s == [] then ""
    else if s[0] == c then Without(s[1..], c)
    else [s[0]] + Without(s[1..], c)
  }

  /** Splitting loses nothing: joining the tokens with the separator gives the text back. */
  lemma {:induction false} JoinSplit(s: string, sep: char)
    ensures JoinWith(Split(s, sep), [sep]) == s
  {
    if s != [] {
      var t := Split(s[1..], sep);
      JoinSplit(s[1..], sep);
      if s[0] == sep {
        assert Split(s, sep) == [""] + t;
        assert JoinWith([""] + t, [sep]) == "" + [sep] + JoinWith(t, [sep]) by {
          assert ([""] + t)[1..] == t;
        }
        assert s == [sep] + s[1..];
      } else {
        var u := [[s[0]] + t[0]] + t[1..];
        assert Split(s, sep) == u;
        if |t| == 1 {
          assert JoinWith(t, [sep]) == t[0];
        } else {
          assert JoinWith(t, [sep]) == t[0] + [sep] + JoinWith(t[1..], [sep]);
          assert u[1..] == t[1..];
        }
        assert s == [s[0]] + s[1..];
      }
    }
  }

  /** Joining the tokens without a separator removes every separator. */
  lemma {:induction false} ConcatSplit(s: string, sep: char)
    ensures JoinEmpty(Split(s, sep)) == Without(s, sep)
  {
    if s != [] {
      var t := Split(s[1..], sep);
      ConcatSplit(s[1..], sep);
      if s[0] == sep {
        assert ([""] + t)[1..] == t;
      } else {
        var u := [[s[0]] + t[0]] + t[1..];
        assert u[1..] == t[1..];
        assert JoinEmpty(t) == t[0] + JoinEmpty(t[1..]);
      }
    }
  }

  /** Splitting at the first separator: the first token is the text before it. */
  lemma {:induction false} SplitAtFirst(s: string, sep: char)
    requires sep in s
    ensures Split(s, sep) == [s[..FirstIndex(s, sep)]] + Split(s[FirstIndex(s, sep) + 1..], sep)
  {
    if s[0] != sep {
      SplitAtFirst(s[1..], sep);
      var i := FirstIndex(s, sep);
      assert FirstIndex(s[1..], sep) == i - 1;
      assert s[1..][i..] == s[i + 1..];
      assert [s[0]] + s[1..][..i - 1] == s[..i];
    }
  }

  /** A name with no separator splits into itself. */
  lemma {:induction false} SplitWithoutSeparator(s: string, sep: char)
    requires sep !in s
    ensures Split(s, sep) == [s]
  {
    if s != [] {
      SplitWithoutSeparator(s[1..], sep);
      assert s[0] != sep && [s[0]] + s[1..] == s;
    }
  }

  /**
   * The implementation-specific name: `-libsass.` is spliced in after the
   * first `.`-separated token and the tokens are joined with no separator,
   * so the text before the first `.` is kept, `-libsass.` follows, and the
   * rest loses its dots (`output.css` gives `output-libsass.css`); a name
   * without a dot gets `-libsass` appended (`warning` gives `warning-libsass`).
   */
  function ImplSpecificName(fileName: string): (r: string)
    ensures '.' !in fileName ==> r == fileName + "-libsass"
    ensures '.' in fileName ==>
      var i := FirstIndex(fileName, '.');
      r == fileName[..i] + "-libsass." + Without(fileName[i + 1..], '.')
  {
    if '.' in fileName then
      var tokens := Split(fileName, '.');
      var r := JoinEmpty(tokens[..1] + ["-libsass."] + tokens[1..]);
      SplitAtFirst(fileName, '.');
      ConcatSplit(fileName[FirstIndex(fileName, '.') + 1..], '.');
      assert r == tokens[0] + "-libsass." + JoinEmpty(tokens[1..]) by {
        var spliced := tokens[..1] + ["-libsass."] + tokens[1..];
        assert spliced[0] == tokens[0] && spliced[1..][0] == "-libsass.";
        assert spliced[1..][1..] == tokens[1..];
        assert JoinEmpty(spliced) == tokens[0] + JoinEmpty(spliced[1..]);
        assert JoinEmpty(spliced[1..]) == "-libsass." + JoinEmpty(tokens[1..]);
      }
      r
    else
      fileName + "-libsass"
  }

  /** The variant is never the canonical name itself. */
  lemma ImplSpecificNameDiffers(fileName: string)
    ensures ImplSpecificName(fileName) != fileName
  {
    var r := ImplSpecificName(fileName);
    if '.' in fileName {
      var i := FirstIndex(fileName, '.');
      assert r[i] == '-' && fileName[i] == '.';
    } else {
      assert |r| > |fileName|;
    }
  }

  /** `FirstIndex` finds the first occurrence wherever it is. */
  lemma {:induction false} FirstIndexAt(s: string, c: char, i: nat)
    requires i < |s| && s[i] == c && c !in s[..i]
    ensures FirstIndex(s, c) == i
  {
    if i > 0 {
      assert s[..i][0] == s[0];
      var front, tail := s[..i], s[1..][..i - 1];
      assert forall k :: 0 <= k < |tail| ==> tail[k] == front[k + 1];
      FirstIndexAt(s[1..], c, i - 1);
    }
  }

  lemma {:induction false} WithoutAbsent(s: string, c: char)
    requires c !in s
    ensures Without(s, c) == s
  {
    if s != [] {
      WithoutAbsent(s[1..], c);
      assert [s[0]] + s[1..] == s;
    }
  }

  /** A name with one dot, `base.ext`, becomes `base-libsass.ext`. */
  lemma ImplSpecificNameOf(base: string, ext: string)
    requires '.' !in base && '.' !in ext
    ensures ImplSpecificName(base + "." + ext) == base + "-libsass." + ext
  {
    var name := base + "." + ext;
    assert name[..|base|] == base && name[|base|] == '.' && name[|base| + 1..] == ext;
    FirstIndexAt(name, '.', |base|);
    WithoutAbsent(ext, '.');
  }

  /** The expected-output variant. */
  lemma OutputCssVariant()
    ensures ImplSpecificName("output.css") == "output-libsass.css"
  {
    var name, variant := "output" + "." + "css", "output" + "-libsass." + "css";
    assert ImplSpecificName(name) == variant by {
      ImplSpecificNameOf("output", "css");
    }
    assert name == "output.css";
    assert variant == "output-libsass.css";
  }

  /** The warning and error variants. */
  lemma DotlessVariants()
    ensures ImplSpecificName("warning") == "warning-libsass"
    ensures ImplSpecificName("error") == "error-libsass"
  {
  }

  /**
   * `getImplSpecificFileFactory(folder)(fileName)`: the variant in `folder` when
   * it exists, otherwise the canonical file in `folder`, which need not exist.
   */
  function Resolve(present: set<Path>, folder: Path, fileName: string): (p: Path)
    ensures folder + [ImplSpecificName(fileName)] in present ==> p == folder + [ImplSpecificName(fileName)]
    ensures folder + [ImplSpecificName(fileName)] !in present ==> p == folder + [fileName]
    ensures p[..|folder|] == folder && |p| == |folder| + 1
  {
    var variant := folder + [ImplSpecificName(fileName)];
    if variant in present then variant else folder + [fileName]
  }
}
