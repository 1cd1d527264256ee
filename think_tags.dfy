/**
 * Splitting a model's accumulated reply into its reasoning (the text inside the first
 * `<think>` … `</think>` pair) and the visible answer.  The same rule appears twice in the
 * source, once beside each Ollama client; both copies are this one function.
 */
module ThinkTags {
  import opened Text

  const Open := "<think>"
  const Close := "</think>"

  datatype Split = Split(thinking: string, content: string)

  /** No closing tag can begin inside an opening tag: `</think>` needs `/` after its `<`, and
      `<think>` has no `<` after its first character. */
  lemma {:induction false} CloseNotInsideOpen(text: string, start: int, k: int)
    requires OccursAt(text, Open, start)
    requires start <= k < start + |Open|
    ensures !OccursAt(text, Close, k)
  {
    assert text[start..start + 7] == Open;
    assert text[k] == Open[k - start];
    if k == start && k + 8 <= |text| {
      assert text[k + 1] == Open[1];
      assert text[k..k + 8][1] == text[k + 1];
    } else if k + 8 <= |text| {
      assert text[k..k + 8][0] == text[k];
    }
  }

  /** `processThinkContent(text)`: with a `<think>` tag, the reasoning is what follows the first
      one, up to the first `</think>` after it when there is one; the answer is everything
      outside that span.  Both parts are trimmed. */
  function ProcessThinkContent(text: string): (r: Split)
    ensures |r.thinking| + |r.content| <= |text|
  {
    var start := IndexOf(text, Open, 0);
    if start == -1 then Split("", Trim(text))
    else
      var end := IndexOf(text, Close, start);
      if end != -1 then
        assert end >= start + 7 by {
          if end < start + 7 { CloseNotInsideOpen(text, start, end); }
        }
        Split(Trim(text[start + 7..end]), Trim(text[..start] + text[end + 8..]))
      else
        Split(Trim(text[start + 7..]), Trim(text[..start]))
  }

  /** No occurrence of `tag` in `s = a + tag + rest` lies wholly inside `a` or straddles the end
      of `a`, provided `a` has none of its own and `tag` repeats its first character nowhere. */
  lemma {:induction false} NoEarlierOccurrence(a: string, tag: string, rest: string, from: nat, k: int)
    requires |tag| > 0 && forall j :: 1 <= j < |tag| ==> tag[j] != tag[0]
    requires forall i :: from <= i && i + |tag| <= |a| ==> !OccursAt(a, tag, i)
    requires from <= k < |a|
    ensures !OccursAt(a + tag + rest, tag, k)
  {
    var s := a + tag + rest;
    if k + |tag| <= |a| {
      if OccursAt(s, tag, k) {
        forall j | 0 <= j < |tag| ensures a[k + j] == tag[j] {
          assert s[k..k + |tag|][j] == s[k + j];
        }
        assert a[k..k + |tag|] == tag;
        assert OccursAt(a, tag, k);
      }
    } else if k + |tag| <= |s| {
      // the tag's first character, at |a|, falls strictly inside the candidate occurrence
      assert s[k..k + |tag|][|a| - k] == s[|a|] == tag[0];
    }
  }

  /** Rendering a reply that contains a finished reasoning block. */
  function Render(prefix: string, thought: string, suffix: string): string {
    prefix + Open + thought + Close + suffix
  }

  /** The first `<think>` of `prefix + <think> + rest` is the one after `prefix` when `prefix`
      holds none. */
  lemma {:induction false} OpenAfterPrefix(prefix: string, rest: string)
    requires !Contains(prefix, Open)
    ensures IndexOf(prefix + Open + rest, Open, 0) == |prefix|
  {
    var text := prefix + Open + rest;
    var p := |prefix|;
    forall k | 0 <= k < p ensures !OccursAt(text, Open, k) {
      NoEarlierOccurrence(prefix, Open, rest, 0, k);
    }
    assert OccursAt(text, Open, p) by { assert text[p..p + 7] == Open; }
  }

  /** No `</think>` starts between the opening tag at `|prefix|` and the end of `thought`, when
      `thought` holds none. */
  lemma {:induction false} NoCloseInThought(prefix: string, thought: string, suffix: string)
    requires !Contains(thought, Close)
    ensures forall k :: |prefix| <= k < |prefix| + |Open| + |thought|
                        ==> !OccursAt(Render(prefix, thought, suffix), Close, k)
  {
    var text := Render(prefix, thought, suffix);
    var p := |prefix|;
    var head, tail := prefix + Open, thought + Close + suffix;
    assert text == head + tail;
    assert OccursAt(text, Open, p) by { assert text[p..p + 7] == Open; }
    forall k | p <= k < p + 7 + |thought| ensures !OccursAt(text, Close, k) {
      if k < p + 7 {
        CloseNotInsideOpen(text, p, k);
      } else {
        NoEarlierOccurrence(thought, Close, suffix, 0, k - p - 7);
        OccursShift(head, tail, Close, k - p - 7);
      }
    }
  }

  /** After an opening tag at `|prefix|`, the first `</think>` is the one that ends `thought`
      when `thought` holds none. */
  lemma {:induction false} CloseAfterThought(prefix: string, thought: string, suffix: string)
    requires !Contains(thought, Close)
    ensures IndexOf(Render(prefix, thought, suffix), Close, |prefix|)
            == |prefix| + |Open| + |thought|
  {
    var text := Render(prefix, thought, suffix);
    var h := |prefix| + 7 + |thought|;
    NoCloseInThought(prefix, thought, suffix);
    assert OccursAt(text, Close, h) by { assert text[h..h + 8] == Close; }
    IndexOfIs(text, Close, |prefix|, h);
  }

  /** `processThinkContent` in terms of where the two tags were found. */
  lemma {:induction false} ProcessAt(text: string, start: int, end: int)
    requires start == IndexOf(text, Open, 0) && start != -1
    requires end == IndexOf(text, Close, start)
    ensures end != -1 ==> start + |Open| <= end
                          && ProcessThinkContent(text)
                             == Split(Trim(text[start + 7..end]), Trim(text[..start] + text[end + 8..]))
    ensures end == -1 ==> ProcessThinkContent(text) == Split(Trim(text[start + 7..]), Trim(text[..start]))
  {
    if end != -1 && end < start + 7 {
      CloseNotInsideOpen(text, start, end);
    }
  }

  /** A reply without an opening tag is all answer. */
  lemma ProcessNoTag(text: string)
    requires !Contains(text, Open)
    ensures ProcessThinkContent(text) == Split("", Trim(text))
  {
    ContainsIffIndexOf(text, Open);
  }

  /** Where the three parts of a rendered reply sit. */
  lemma RenderParts(prefix: string, thought: string, suffix: string)
    ensures var text, h := Render(prefix, thought, suffix), |prefix| + |Open| + |thought|;
            && text == prefix + Open + (thought + Close + suffix)
            && h + |Close| <= |text|
            && text[..|prefix|] == prefix
            && text[|prefix| + |Open|..h] == thought
            && text[h + |Close|..] == suffix
  {
  }

  /** Round trip: a finished reasoning block is recovered exactly, and the answer is the text
      around it, as long as the text before it holds no `<think>` and the reasoning holds no
      `</think>`. */
  lemma {:induction false} ProcessRender(prefix: string, thought: string, suffix: string)
    requires !Contains(prefix, Open) && !Contains(thought, Close)
    ensures ProcessThinkContent(Render(prefix, thought, suffix))
            == Split(Trim(thought), Trim(prefix + suffix))
  {
    var text := Render(prefix, thought, suffix);
    var h := |prefix| + 7 + |thought|;
    RenderParts(prefix, thought, suffix);
    OpenAfterPrefix(prefix, thought + Close + suffix);
    CloseAfterThought(prefix, thought, suffix);
    ProcessAt(text, |prefix|, h);
    assert text[..|prefix|] + text[h + 8..] == prefix + suffix;
  }

  /** While the reply is still streaming, the reasoning block has not been closed: everything after
      the tag is reasoning and only the text before it is answer. */
  lemma {:induction false} ProcessUnclosed(prefix: string, thought: string)
    requires !Contains(prefix, Open) && !Contains(thought, Close)
    ensures ProcessThinkContent(prefix + Open + thought) == Split(Trim(thought), Trim(prefix))
  {
    var head := prefix + Open;
    var text := head + thought;
    var p := |prefix|;
    OpenAfterPrefix(prefix, thought);
    assert OccursAt(text, Open, p) by { assert text[p..p + 7] == Open; }
    forall k | p <= k ensures !OccursAt(text, Close, k) {
      if k < p + 7 {
        CloseNotInsideOpen(text, p, k);
      } else {
        OccursShift(head, thought, Close, k - p - 7);
      }
    }
    ProcessAt(text, p, IndexOf(text, Close, p));
    assert text[p + 7..] == thought;
    assert text[..p] == prefix;
  }

  /** The raw reasoning span, before trimming, holds no closing tag. */
  lemma {:induction false} RawThinkingHasNoClose(text: string, start: int, end: int)
    requires start == IndexOf(text, Open, 0) && start != -1
    requires end == IndexOf(text, Close, start)
    ensures var e := if end != -1 then end else |text|;
            start + |Open| <= e && !Contains(text[start + 7..e], Close)
  {
    ProcessAt(text, start, end);
    var e := if end != -1 then end else |text|;
    var raw := text[start + 7..e];
    if Contains(raw, Close) {
      var k :| 0 <= k <= |raw| - |Close| && OccursAt(raw, Close, k);
      OccursInSlice(text, start + 7, e, Close, k);
      assert false;
    }
  }

  /** The reasoning part never contains a closing tag. */
  lemma {:induction false} ThinkingHasNoClose(text: string)
    ensures !Contains(ProcessThinkContent(text).thinking, Close)
  {
    var start := IndexOf(text, Open, 0);
    if start != -1 {
      var end := IndexOf(text, Close, start);
      ProcessAt(text, start, end);
      RawThinkingHasNoClose(text, start, end);
      if end != -1 {
        TrimKeepsAbsence(text[start + 7..end], Close);
      } else {
        assert text[start + 7..|text|] == text[start + 7..];
        TrimKeepsAbsence(text[start + 7..], Close);
      }
    }
  }
}
