/**
  Slash-separated path operations of Go's `path` and `path/filepath` packages
  (on Unix the two agree). `Base`, `Ext` and `TrimSuffix` follow Go for every
  input. `Dir` and `Join` follow Go for paths already in clean form (no empty,
  `.` or `..` element, no trailing slash) joined with one element that has no
  slash; Go's `Clean` is not part of this model.
 */
module Paths {

  /** The index of the last `c` in `s`, or -1 when there is none. */
  function LastIndex(s: string, c: char): (i: int)
    ensures -1 <= i < |s|
    ensures i >= 0 ==> s[i] == c
    ensures forall k :: i < k < |s| ==> s[k] != c
    decreases |s|
  {
    if s == [] then -1
    else if s[|s| - 1] == c then |s| - 1
    else LastIndex(s[..|s| - 1], c)
  }

  /** The last `c` of `p + [c] + q` is the one after `p` when `q` has none. */
  lemma {:induction false} LastIndexAfter(p: string, c: char, q: string)
    requires c !in q
    ensures LastIndex(p + [c] + q, c) == |p|
    decreases |q|
  {
    var s := p + [c] + q;
    if q != [] {
      assert s[|s| - 1] == q[|q| - 1];
      assert s[..|s| - 1] == p + [c] + q[..|q| - 1];
      LastIndexAfter(p, c, q[..|q| - 1]);
    }
  }

  function TrimTrailingSlashes(p: string): string
    decreases |p|
  {
    if p != [] && p[|p| - 1] == '/' then TrimTrailingSlashes(p[..|p| - 1]) else p
  }

  /** `filepath.Base`: the last element, trailing slashes ignored; "." for "". */
  function Base(p: string): string
  {
    if p == "" then "."
    else
      var t := TrimTrailingSlashes(p);
      if t == "" then "/" else t[LastIndex(t, '/') + 1..]
  }

  /** `filepath.Ext`: the suffix from the last '.' of the last element, or "". */
  function Ext(p: string): string
    decreases |p|
  {
    if p == [] || p[|p| - 1] == '/' then ""
    else if p[|p| - 1] == '.' then "."
    else
      var e := Ext(p[..|p| - 1]);
      if e == "" then "" else e + [p[|p| - 1]]
  }

  /** `strings.TrimSuffix`. */
  function TrimSuffix(s: string, suffix: string): string
  {
    if |suffix| <= |s| && s[|s| - |suffix|..] == suffix then s[..|s| - |suffix|] else s
  }

  /** The file name without its extension, as the merge command derives it. */
  function Stem(p: string): string
  {
    TrimSuffix(Base(p), Ext(p))
  }

  /** `path.Dir` of a clean path: everything before the last slash. */
  function Dir(p: string): string
  {
    var i := LastIndex(p, '/');
    if i < 0 then "." else if i == 0 then "/" else p[..i]
  }

  /** `path.Join(dir, elem)` for a clean `dir` and an `elem` without a slash. */
  function Join(dir: string, elem: string): string
  {
    if elem == "" then dir
    else if dir == "" || dir == "." then elem
    else if dir == "/" then "/" + elem
    else dir + "/" + elem
  }
}
