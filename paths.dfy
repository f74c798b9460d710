/** The POSIX `os.path` functions the pipeline uses to name its inputs and
    outputs: `basename`, `dirname`, `splitext` and `join`. */
module Paths {
  import opened Text

  /** `s.rfind(c)`: the last index holding `c`, or -1. */
  function LastIndexOf(s: string, c: char): (r: int)
    ensures -1 <= r < |s|
    ensures r >= 0 ==> s[r] == c
    ensures forall j :: r < j < |s| ==> s[j] != c
    decreases |s|
  {
    if s == [] then -1
    else if s[|s| - 1] == c then |s| - 1
    else LastIndexOf(s[..|s| - 1], c)
  }

  /** `os.path.basename`: everything after the last slash. */
  function Basename(p: string): (b: string)
    ensures '/' !in b
    ensures EndsWith(p, b)
    ensures '/' !in p ==> b == p
  {
    p[LastIndexOf(p, '/') + 1..]
  }

  function RStripSlashes(s: string): (t: string)
    ensures StartsWith(s, t)
    ensures t == [] || t[|t| - 1] != '/'
  {
    if s != [] && s[|s| - 1] == '/' then RStripSlashes(s[..|s| - 1]) else s
  }

  predicate AllSlashes(s: string) { forall i :: 0 <= i < |s| ==> s[i] == '/' }

  /** `os.path.dirname`: everything before the last slash, with trailing
      slashes removed unless the head is made only of slashes. */
  function Dirname(p: string): (d: string)
    ensures StartsWith(p, d)
    ensures '/' !in p ==> d == ""
  {
    var head := p[..LastIndexOf(p, '/') + 1];
    if head != [] && !AllSlashes(head) then RStripSlashes(head) else head
  }

  /** Whether `p[from..to]` holds a character other than '.'. */
  predicate HasNonDot(p: string, from: int, to: int)
    requires 0 <= from && to <= |p|
  {
    exists k :: from <= k < to && p[k] != '.'
  }

  /** `os.path.splitext`: the extension starts at the last dot of the last
      path component, unless that component is only dots up to it. */
  function SplitExt(p: string): (r: (string, string))
    ensures r.0 + r.1 == p
    ensures r.1 == [] || (r.1[0] == '.' && '/' !in r.1 && '.' !in r.1[1..])
  {
    var sep := LastIndexOf(p, '/');
    var dot := LastIndexOf(p, '.');
    if dot > sep && HasNonDot(p, sep + 1, dot) then
      assert forall j :: dot < j < |p| ==> p[j] != '/' && p[j] != '.';
      (p[..dot], p[dot..])
    else (p, "")
  }

  function Stem(p: string): string { SplitExt(p).0 }

  /** `os.path.join(a, b)` for two components. */
  function PathJoin(a: string, b: string): (r: string)
    ensures EndsWith(r, b)
  {
    if StartsWith(b, "/") then b
    else if a == [] || a[|a| - 1] == '/' then a + b
    else a + "/" + b
  }
}
