/**
 * The loose comparison of compiled CSS: `normalize` deletes every run of
 * whitespace (`str.replace(/\s+/g, '')`), and an expected error is compared
 * on its first line only.
 */
module Normalize {

  /** JavaScript's `\s`: the ASCII and Unicode space characters and line terminators. */
  predicate IsWhitespace(c: char) {
    c == ' ' || c == '\t' || c == '\n' || c == '\r' || c == '\U{000B}' || c == '\U{000C}' ||
    c == '\U{00A0}' || c == '\U{1680}' || ('\U{2000}' <= c <= '\U{200A}') ||
    c == '\U{2028}' || c == '\U{2029}' || c == '\U{202F}' || c == '\U{205F}' ||
    c == '\U{3000}' || c == '\U{FEFF}'
  }

  predicate NoWhitespace(s: string) {
    forall i :: 0 <= i < |s| ==> !IsWhitespace(s[i])
  }

  /** `normalize(str)`: the characters of `s` that are not whitespace, in order. */
  function Normalize(s: string): string {
    if s == [] then []
    else if IsWhitespace(s[0]) then Normalize(s[1..])
    else [s[0]] + Normalize(s[1..])
  }

  /** The normal form holds no whitespace and is no longer than the text. */
  lemma {:induction false} NormalizeRemovesWhitespace(s: string)
    ensures NoWhitespace(Normalize(s)) && |Normalize(s)| <= |s|
  {
    if s != [] {
      NormalizeRemovesWhitespace(s[1..]);
    }
  }

  /** A string without whitespace is left as it is. */
  lemma {:induction false} NormalizeKeepsClean(s: string)
    requires NoWhitespace(s)
    ensures Normalize(s) == s
  {
    if s != [] {
      NormalizeKeepsClean(s[1..]);
    }
  }

  /** Normalizing twice is normalizing once. */
  lemma NormalizeIdempotent(s: string)
    ensures Normalize(Normalize(s)) == Normalize(s)
  {
    NormalizeRemovesWhitespace(s);
    NormalizeKeepsClean(Normalize(s));
  }

  /** Normalizing distributes over concatenation. */
  lemma {:induction false} NormalizeConcat(a: string, b: string)
    ensures Normalize(a + b) == Normalize(a) + Normalize(b)
  {
    if a == [] {
      assert a + b == b;
    } else {
      NormalizeConcat(a[1..], b);
      assert (a + b)[0] == a[0] && (a + b)[1..] == a[1..] + b;
      if IsWhitespace(a[0]) {
        assert Normalize(a + b) == Normalize(a[1..] + b);
      } else {
        assert Normalize(a + b) == [a[0]] + Normalize(a[1..] + b);
      }
    }
  }

  /** Inserting whitespace anywhere never changes the normal form. */
  lemma NormalizeIgnoresWhitespace(a: string, w: string, b: string)
    requires forall i :: 0 <= i < |w| ==> IsWhitespace(w[i])
    ensures Normalize(a + w + b) == Normalize(a + b)
  {
    NormalizeConcat(a + w, b);
    NormalizeConcat(a, w);
    NormalizeConcat(a, b);
    AllWhitespaceNormalizesToEmpty(w);
  }

  lemma {:induction false} AllWhitespaceNormalizesToEmpty(w: string)
    requires forall i :: 0 <= i < |w| ==> IsWhitespace(w[i])
    ensures Normalize(w) == []
  {
    if w != [] {
      AllWhitespaceNormalizesToEmpty(w[1..]);
    }
  }

  /** The success check: compiled and expected CSS agree once whitespace is gone. */
  predicate SameCss(actual: string, expected: string) {
    Normalize(actual) == Normalize(expected)
  }

  /** `s.split('\n')[0]`: the text before the first line break. */
  function FirstLine(s: string): (r: string)
    ensures '\n' !in r
    ensures |r| <= |s| && r == s[..|r|]
    ensures |r| < |s| ==> s[|r|] == '\n'
  {
    if s == [] || s[0] == '\n' then [] else [s[0]] + FirstLine(s[1..])
  }

  /** Two errors compare equal when their first lines agree, whatever follows them. */
  lemma {:induction false} FirstLineOfLine(line: string, rest: string)
    requires '\n' !in line
    ensures FirstLine(line + "\n" + rest) == line
  {
    if line != [] {
      FirstLineOfLine(line[1..], rest);
      assert (line + "\n" + rest)[1..] == line[1..] + "\n" + rest;
    }
  }

  /** The loose comparison still sees every change that is not whitespace. */
  lemma SameCssSeesValues(actual: string, expected: string)
    requires NoWhitespace(actual) && NoWhitespace(expected) && actual != expected
    ensures !SameCss(actual, expected)
  {
    NormalizeKeepsClean(actual);
    NormalizeKeepsClean(expected);
  }
}
