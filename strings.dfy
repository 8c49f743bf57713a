/**
 * The JavaScript string operations the proxy relies on, over `seq<char>`:
 * `startsWith`, `indexOf`/`replace` with a string pattern (first occurrence
 * only), `includes`, `trim`, ASCII case folding (what a regular expression's
 * `i` flag does for the ASCII patterns used here) and header-value joining.
 */
module Strings {
  import opened Wrappers

  /** `s.startsWith(p)`. */
  predicate StartsWith(s: string, p: string) {
    |p| <= |s| && s[..|p|] == p
  }

  /** Starting with a string that starts with `p` means starting with `p`. */
  lemma StartsWithTransitive(s: string, q: string, p: string)
    requires StartsWith(s, q) && StartsWith(q, p)
    ensures StartsWith(s, p)
  {
    assert s[..|p|] == q[..|p|];
  }

  /** Concatenation regroups freely. */
  lemma ConcatAssoc(a: string, b: string, c: string)
    ensures a + (b + c) == a + b + c
  {
  }

  /** `p` occurs in `s` starting at index `i`. */
  predicate OccursAt(s: string, p: string, i: nat) {
    i + |p| <= |s| && s[i..i + |p|] == p
  }

  /** A prefix of `p + u` is `p`. */
  lemma StartsWithConcat(p: string, u: string)
    ensures StartsWith(p + u, p)
  {
    assert (p + u)[..|p|] == p;
  }

  /** A string that starts with `p + q` starts with `p`. */
  lemma StartsWithLonger(s: string, p: string, q: string)
    requires StartsWith(s, p + q)
    ensures StartsWith(s, p)
  {
    assert s[..|p|] == (p + q)[..|p|];
  }

  /** `s.indexOf(p)`: the first position at which `p` occurs, if any. */
  function IndexOf(s: string, p: string): (r: Option<nat>)
    ensures r.Some? ==> OccursAt(s, p, r.value)
    ensures r.Some? ==> forall j: nat :: j < r.value ==> !OccursAt(s, p, j)
    ensures r.None? ==> forall j: nat :: !OccursAt(s, p, j)
    decreases |s|
  {
    if |s| < |p| then None
    else if s[..|p|] == p then Some(0)
    else
      var rest := IndexOf(s[1..], p);
      ShiftOccurrence(s, p);
      match rest
      case None => None
      case Some(k) => Some(k + 1)
  }

  /** An occurrence one position into `s` is an occurrence in `s[1..]`. */
  lemma ShiftOccurrence(s: string, p: string)
    requires |s| > 0
    ensures forall j: nat :: 0 < j ==> (OccursAt(s, p, j) <==> OccursAt(s[1..], p, j - 1))
  {
    forall j: nat | 0 < j
      ensures OccursAt(s, p, j) <==> OccursAt(s[1..], p, j - 1)
    {
      if j + |p| <= |s| {
        assert s[1..][j - 1..j - 1 + |p|] == s[j..j + |p|];
      }
    }
  }

  /** The length of the leading run of characters other than `c`. */
  function RunBefore(s: string, c: char): (k: nat)
    ensures k <= |s|
    ensures forall i :: 0 <= i < k ==> s[i] != c
    ensures k < |s| ==> s[k] == c
  {
    if s == [] || s[0] == c then 0 else 1 + RunBefore(s[1..], c)
  }

  /** Dropping a prefix of `x` from `x + y`. */
  lemma DropConcat(x: string, y: string, k: nat)
    requires k <= |x|
    ensures (x + y)[k..] == x[k..] + y
  {
    assert forall i :: 0 <= i < |x| - k + |y| ==> (x + y)[k..][i] == (x[k..] + y)[i];
  }

  /** The run before `c` in `x + y` is all of `x` when `x` holds no `c` and `y` is empty or starts with `c`. */
  lemma RunBeforeConcat(x: string, y: string, c: char)
    requires forall i :: 0 <= i < |x| ==> x[i] != c
    requires y == [] || y[0] == c
    ensures RunBefore(x + y, c) == |x|
  {
    if y != [] {
      assert (x + y)[|x|] == c;
    }
  }

  /** `s.includes(p)`. */
  predicate Includes(s: string, p: string) {
    IndexOf(s, p).Some?
  }

  /** `s.replace(p, rep)` with a string pattern: only the first occurrence is replaced. */
  function ReplaceFirst(s: string, p: string, rep: string): string {
    match IndexOf(s, p)
    case None => s
    case Some(i) => s[..i] + rep + s[i + |p|..]
  }

  /** Removing the first occurrence of `p` from `p + u` gives back `u`. */
  lemma ReplaceFirstAtStart(p: string, u: string)
    ensures ReplaceFirst(p + u, p, "") == u
  {
    assert (p + u)[..|p|] == p;
    assert IndexOf(p + u, p) == Some(0);
    assert (p + u)[|p|..] == u;
  }

  /** ASCII lower-casing of one character. */
  function LowerChar(c: char): char {
    if 'A' <= c <= 'Z' then (c as int + 32) as char else c
  }

  /** ASCII lower-casing of a string, character by character. */
  function Lower(s: string): (r: string)
    ensures |r| == |s|
    ensures forall i :: 0 <= i < |s| ==> r[i] == LowerChar(s[i])
  {
    seq(|s|, i requires 0 <= i < |s| => LowerChar(s[i]))
  }

  /** `s` holds no ASCII capital letter. */
  predicate IsLowerCase(s: string) {
    forall i :: 0 <= i < |s| ==> !('A' <= s[i] <= 'Z')
  }

  /** Lower-casing leaves a lower-case string alone. */
  lemma LowerOfLowerCase(s: string)
    requires IsLowerCase(s)
    ensures Lower(s) == s
  {
    assert forall i :: 0 <= i < |s| ==> Lower(s)[i] == s[i];
  }

  /** Lower-casing commutes with taking a slice. */
  lemma LowerSlice(s: string, i: nat, j: nat)
    requires i <= j <= |s|
    ensures Lower(s)[i..j] == Lower(s[i..j])
  {
    var a, b := Lower(s)[i..j], Lower(s[i..j]);
    assert |a| == |b| == j - i;
    forall k | 0 <= k < j - i
      ensures a[k] == b[k]
    {
      assert a[k] == Lower(s)[i + k] == LowerChar(s[i + k]);
      assert b[k] == LowerChar(s[i..j][k]);
    }
  }

  /** `p` (written in lower case) occurs in `s` at `i`, ignoring ASCII case. */
  predicate OccursAtIgnoreCase(s: string, p: string, i: nat) {
    i + |p| <= |s| && Lower(s[i..i + |p|]) == p
  }

  /** The first case-insensitive occurrence of the lower-case pattern `p`. */
  function IndexOfIgnoreCase(s: string, p: string): (r: Option<nat>)
    ensures r.Some? ==> OccursAtIgnoreCase(s, p, r.value)
    ensures r.Some? ==> forall j: nat :: j < r.value ==> !OccursAtIgnoreCase(s, p, j)
    ensures r.None? ==> forall j: nat :: !OccursAtIgnoreCase(s, p, j)
  {
    var r := IndexOf(Lower(s), p);
    forall j: nat | j + |p| <= |s|
      ensures OccursAt(Lower(s), p, j) <==> OccursAtIgnoreCase(s, p, j)
    {
      LowerSlice(s, j, j + |p|);
    }
    r
  }

  /** The white space and line terminators that `String.prototype.trim` removes. */
  predicate IsJsSpace(c: char) {
    || c == '\t' || c == '\n' || c == '\U{000B}' || c == '\U{000C}' || c == '\r' || c == ' '
    || c == '\U{00A0}' || c == '\U{1680}' || ('\U{2000}' <= c <= '\U{200A}')
    || c == '\U{2028}' || c == '\U{2029}' || c == '\U{202F}' || c == '\U{205F}'
    || c == '\U{3000}' || c == '\U{FEFF}'
  }

  /** Drops the leading white space of `s`. */
  function TrimStart(s: string): (r: string)
    ensures |r| <= |s| && r == s[|s| - |r|..]
    ensures forall i :: 0 <= i < |s| - |r| ==> IsJsSpace(s[i])
    ensures r == [] || !IsJsSpace(r[0])
  {
    if s != [] && IsJsSpace(s[0]) then TrimStart(s[1..]) else s
  }

  /** Drops the trailing white space of `s`. */
  function TrimEnd(s: string): (r: string)
    ensures |r| <= |s| && r == s[..|r|]
    ensures forall i :: |r| <= i < |s| ==> IsJsSpace(s[i])
    ensures r == [] || !IsJsSpace(r[|r| - 1])
  {
    if s != [] && IsJsSpace(s[|s| - 1]) then TrimEnd(s[..|s| - 1]) else s
  }

  /** `s.trim()`. */
  function Trim(s: string): string {
    TrimEnd(TrimStart(s))
  }

  /** `values.join(sep)`. */
  function Join(values: seq<string>, sep: string): string {
    if values == [] then ""
    else if |values| == 1 then values[0]
    else values[0] + sep + Join(values[1..], sep)
  }
}
