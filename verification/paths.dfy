/**
 * File-system paths. A path is the sequence of its '/'-separated segments,
 * that is, what `p.split('/')` returns; `folder + '/' + name` appends a
 * segment and `join(p, '..')` drops the last one.
 */
module Paths {

  type Path = seq<string>

  /** `join(p, '..')`: the folder that holds the last segment of `p`. */
  function Parent(p: Path): (r: Path)
    requires p != []
    ensures |r| == |p| - 1 && r + [p[|p| - 1]] == p
  {
    p[..|p| - 1]
  }

  /** `t` occurs in `s` starting at index `i`. */
  predicate OccursAt(s: string, t: string, i: nat) {
    i + |t| <= |s| && s[i..i + |t|] == t
  }

  /** `t` occurs somewhere in `s`. */
  predicate Contains(s: string, t: string) {
    exists i: nat :: i <= |s| && OccursAt(s, t, i)
  }
}
