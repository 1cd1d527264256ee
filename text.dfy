/**
 * The JavaScript string primitives the services rely on: `trim`, `indexOf`,
 * `includes`, `startsWith`, `lastIndexOf`, ASCII case mapping and the decimal
 * rendering of a number.  Strings are sequences of Unicode scalar values.
 */
module Text {

  /** The characters JavaScript's `trim` removes and its regular-expression `\s` matches
      (WhiteSpace and LineTerminator of ECMA-262). */
  predicate IsSpace(c: char) {
    || c == '\t' || c == '\n' || c == '\U{B}' || c == '\U{C}' || c == '\r' || c == ' '
    || c == '\U{A0}' || c == '\U{1680}' || ('\U{2000}' <= c <= '\U{200A}')
    || c == '\U{2028}' || c == '\U{2029}' || c == '\U{202F}' || c == '\U{205F}'
    || c == '\U{3000}' || c == '\U{FEFF}'
  }

  predicate AllSpace(s: string) {
    forall i :: 0 <= i < |s| ==> IsSpace(s[i])
  }

  /** `s.trimStart()`: drops the longest all-space prefix. */
  function TrimStart(s: string): (r: string)
    ensures |r| <= |s|
  {
    if s != [] && IsSpace(s[0]) then TrimStart(s[1..]) else s
  }

  lemma {:induction false} TrimStartSpec(s: string)
    ensures var r := TrimStart(s);
            r == s[|s| - |r|..] && AllSpace(s[..|s| - |r|]) && (r == [] || !IsSpace(r[0]))
  {
    if s != [] && IsSpace(s[0]) {
      TrimStartSpec(s[1..]);
      var r := TrimStart(s);
      assert s[1..][..|s| - 1 - |r|] == s[1..|s| - |r|];
    }
  }

  /** `s.trimEnd()`: drops the longest all-space suffix. */
  function TrimEnd(s: string): (r: string)
    ensures |r| <= |s|
  {
    if s != [] && IsSpace(s[|s| - 1]) then TrimEnd(s[..|s| - 1]) else s
  }

  lemma {:induction false} TrimEndSpec(s: string)
    ensures var r := TrimEnd(s);
            r == s[..|r|] && AllSpace(s[|r|..]) && (r == [] || !IsSpace(r[|r| - 1]))
  {
    if s != [] && IsSpace(s[|s| - 1]) {
      TrimEndSpec(s[..|s| - 1]);
      var r := TrimEnd(s);
      assert s[|r|..] == s[..|s| - 1][|r|..] + [s[|s| - 1]];
    }
  }

  /** `s.trim()`. */
  function Trim(s: string): (r: string)
    ensures |r| <= |s|
  {
    TrimEnd(TrimStart(s))
  }

  /** What `trim` keeps: the slice between the longest all-space prefix and the longest all-space
      suffix, which starts and ends with a non-space character when it is not empty. */
  lemma TrimSlice(s: string) returns (a: nat, b: nat)
    ensures a <= b <= |s| && Trim(s) == s[a..b]
    ensures AllSpace(s[..a]) && AllSpace(s[b..])
    ensures a < b ==> !IsSpace(s[a]) && !IsSpace(s[b - 1])
  {
    var t := TrimStart(s);
    TrimStartSpec(s);
    TrimEndSpec(t);
    a := |s| - |t|;
    b := a + |TrimEnd(t)|;
    assert TrimEnd(t) == t[..b - a];
    assert t[b - a..] == s[b..];
  }

  /** A string is blank (`!s.trim()` holds in JavaScript) exactly when every character is a space. */
  lemma BlankIffAllSpace(s: string)
    ensures Trim(s) == [] <==> AllSpace(s)
  {
    var a, b := TrimSlice(s);
    if Trim(s) == [] {
      forall i | 0 <= i < |s| ensures IsSpace(s[i]) {
        if i < a {
          assert s[..a][i] == s[i];
        } else {
          assert s[b..][i - b] == s[i];
        }
      }
    } else if a < b {
      assert s[a] == s[a..b][0];
    }
  }

  /** Appending to a non-blank string keeps it non-blank. */
  lemma NonBlankAppend(a: string, b: string)
    requires Trim(a) != []
    ensures Trim(a + b) != []
  {
    BlankIffAllSpace(a);
    var i :| 0 <= i < |a| && !IsSpace(a[i]);
    assert (a + b)[i] == a[i];
    BlankIffAllSpace(a + b);
  }

  /** `pat` occurs in `s` starting at index `i`. */
  predicate OccursAt(s: string, pat: string, i: int) {
    0 <= i && i + |pat| <= |s| && s[i..i + |pat|] == pat
  }

  /** `s.indexOf(pat, from)`: the first occurrence at or after `from`, or -1. */
  function IndexOf(s: string, pat: string, from: nat): (r: int)
    ensures r == -1 || (from <= r && OccursAt(s, pat, r))
    ensures forall k :: from <= k && (r == -1 || k < r) ==> !OccursAt(s, pat, k)
    decreases |s| - from
  {
    if from + |pat| > |s| then -1
    else if OccursAt(s, pat, from) then from
    else IndexOf(s, pat, from + 1)
  }

  /** `indexOf` lands on the first occurrence at or after `from`. */
  lemma IndexOfIs(s: string, pat: string, from: nat, i: nat)
    requires from <= i && OccursAt(s, pat, i)
    requires forall k :: from <= k < i ==> !OccursAt(s, pat, k)
    ensures IndexOf(s, pat, from) == i
  {
  }

  /** `s.includes(pat)`. */
  predicate Contains(s: string, pat: string) {
    exists k :: 0 <= k <= |s| - |pat| && OccursAt(s, pat, k)
  }

  lemma ContainsIffIndexOf(s: string, pat: string)
    ensures Contains(s, pat) <==> IndexOf(s, pat, 0) >= 0
  {
  }

  /** `s.startsWith(p)`. */
  predicate StartsWith(s: string, p: string) {
    |p| <= |s| && s[..|p|] == p
  }

  /** An occurrence inside a slice is an occurrence in the whole string. */
  lemma OccursInSlice(s: string, a: nat, b: nat, pat: string, k: int)
    requires a <= b <= |s|
    requires OccursAt(s[a..b], pat, k)
    ensures OccursAt(s, pat, a + k)
  {
    var w := s[a..b];
    forall i | 0 <= i < |pat| ensures s[a + k + i] == pat[i] {
      assert w[k..k + |pat|][i] == w[k + i] == s[a + k + i];
    }
    assert s[a + k..a + k + |pat|] == pat;
  }

  /** An occurrence in the second part of a concatenation, located from either side. */
  lemma OccursShift(a: string, b: string, pat: string, k: nat)
    ensures OccursAt(a + b, pat, |a| + k) <==> OccursAt(b, pat, k)
  {
    if k + |pat| <= |b| {
      assert (a + b)[|a| + k..|a| + k + |pat|] == b[k..k + |pat|];
    }
  }

  /** A string without occurrences of `pat` keeps none once trimmed. */
  lemma TrimKeepsAbsence(s: string, pat: string)
    requires !Contains(s, pat)
    ensures !Contains(Trim(s), pat)
  {
    var a, b := TrimSlice(s);
    if Contains(Trim(s), pat) {
      var k :| 0 <= k <= |Trim(s)| - |pat| && OccursAt(Trim(s), pat, k);
      OccursInSlice(s, a, b, pat, k);
      assert false;
    }
  }

  /** `s.lastIndexOf(c)` for one character. */
  function LastIndexOfChar(s: string, c: char): (r: int)
    ensures -1 <= r < |s|
    ensures r >= 0 ==> s[r] == c
    ensures forall k :: r < k < |s| ==> s[k] != c
  {
    if s == [] then -1
    else if s[|s| - 1] == c then |s| - 1
    else LastIndexOfChar(s[..|s| - 1], c)
  }

  /** ASCII case mapping: the only mapping JavaScript's case-insensitive patterns apply to ASCII pattern letters. */
  function LowerChar(c: char): char {
    if 'A' <= c <= 'Z' then (c as int + 32) as char else c
  }

  function UpperChar(c: char): char {
    if 'a' <= c <= 'z' then (c as int - 32) as char else c
  }

  function Lower(s: string): (r: string)
    ensures |r| == |s| && forall i :: 0 <= i < |s| ==> r[i] == LowerChar(s[i])
  {
    seq(|s|, i requires 0 <= i < |s| => LowerChar(s[i]))
  }

  /** `s` starts with `p`, comparing letters without regard to ASCII case (a `/i` pattern). */
  predicate StartsWithIgnoreCase(s: string, p: string) {
    |p| <= |s| && forall i :: 0 <= i < |p| ==> LowerChar(s[i]) == LowerChar(p[i])
  }

  /** `String(n)` for a natural number. */
  function NatToString(n: nat): (r: string)
    ensures |r| >= 1
    ensures forall i :: 0 <= i < |r| ==> '0' <= r[i] <= '9'
    ensures r[0] == '0' <==> n == 0
  {
    if n < 10 then [('0' as int + n) as char]
    else NatToString(n / 10) + [('0' as int + n % 10) as char]
  }

  /** The decimal rendering is injective: distinct numbers never share a string (ids made from
      distinct timestamps are distinct). */
  lemma {:induction false} NatToStringInjective(m: nat, n: nat)
    requires NatToString(m) == NatToString(n)
    ensures m == n
  {
    if m >= 10 && n >= 10 {
      var a, b := NatToString(m), NatToString(n);
      assert a[..|a| - 1] == NatToString(m / 10);
      assert b[..|b| - 1] == NatToString(n / 10);
      NatToStringInjective(m / 10, n / 10);
    }
  }
}
