/**
 * A global replace of `open[\s\S]*?close` by nothing: scanning left to right, a span starts at
 * the first place where `open` stands and a `close` follows somewhere after it, and ends at the
 * first such `close` (the lazy body); scanning resumes right after it.  `removeThinkTags` uses
 * it with `<think>`/`</think>`, the page analysis with `<!--`/`-->`.
 */
module Spans {
  import opened Text

  /** `s.replace(/open[\s\S]*?close/g, '')` for literal, non-empty `open` and `close`. */
  function RemoveSpans(s: string, open: string, close: string): (r: string)
    requires open != []
    ensures |r| <= |s|
    decreases |s|
  {
    if s == [] then []
    else if StartsWith(s, open) && IndexOf(s, close, |open|) != -1 then
      RemoveSpans(s[IndexOf(s, close, |open|) + |close|..], open, close)
    else [s[0]] + RemoveSpans(s[1..], open, close)
  }

  lemma StartsWithOccurs(s: string, p: string)
    ensures StartsWith(s, p) <==> OccursAt(s, p, 0)
  {
  }

  /** Without any occurrence, `indexOf` finds none. */
  lemma AbsentIndexOf(s: string, pat: string, from: nat)
    requires !Contains(s, pat)
    ensures IndexOf(s, pat, from) == -1
  {
  }

  /** An occurrence in the tail is an occurrence in the whole. */
  lemma ContainsTail(s: string, pat: string)
    requires s != [] && Contains(s[1..], pat)
    ensures Contains(s, pat)
  {
    var k :| 0 <= k <= |s[1..]| - |pat| && OccursAt(s[1..], pat, k);
    assert s == [s[0]] + s[1..];
    OccursShift([s[0]], s[1..], pat, k);
  }

  /** Text that holds no `close` has no span: it is left exactly as it is. */
  lemma {:induction false} RemoveSpansNoClose(s: string, open: string, close: string)
    requires open != [] && !Contains(s, close)
    ensures RemoveSpans(s, open, close) == s
    decreases |s|
  {
    if s != [] {
      AbsentIndexOf(s, close, |open|);
      if Contains(s[1..], close) {
        ContainsTail(s, close);
      }
      RemoveSpansNoClose(s[1..], open, close);
      assert s == [s[0]] + s[1..];
    }
  }

  /** Characters where no `open` stands are copied through unchanged. */
  lemma {:induction false} RemoveSpansSkip(s: string, open: string, close: string, p: nat)
    requires open != [] && p <= |s|
    requires forall k :: 0 <= k < p ==> !OccursAt(s, open, k)
    ensures RemoveSpans(s, open, close) == s[..p] + RemoveSpans(s[p..], open, close)
    decreases p
  {
    if p > 0 {
      StartsWithOccurs(s, open);
      var t := s[1..];
      forall k | 0 <= k < p - 1 ensures !OccursAt(t, open, k) {
        assert s == [s[0]] + t;
        OccursShift([s[0]], t, open, k);
      }
      RemoveSpansSkip(t, open, close, p - 1);
      assert t[p - 1..] == s[p..];
      assert s[..p] == [s[0]] + t[..p - 1];
    }
  }

  /** A span at the front is dropped up to the end of its first `close`. */
  lemma RemoveSpansAt(s: string, open: string, close: string, e: nat)
    requires open != [] && StartsWith(s, open)
    requires IndexOf(s, close, |open|) == e
    ensures e + |close| <= |s|
    ensures RemoveSpans(s, open, close) == RemoveSpans(s[e + |close|..], open, close)
  {
    var rest := s[e + |close|..];
    RemoveSpansFront(s, open, close, rest);
  }

  /** One step of `RemoveSpans` where a span starts at the front. */
  lemma RemoveSpansFront(s: string, open: string, close: string, rest: string)
    requires open != [] && s != [] && StartsWith(s, open) && IndexOf(s, close, |open|) >= 0
    requires rest == s[IndexOf(s, close, |open|) + |close|..]
    ensures RemoveSpans(s, open, close) == RemoveSpans(rest, open, close)
  {
  }
}
