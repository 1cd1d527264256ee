/**
 * The two text helpers of `WebService`: `removeThinkTags`, which drops every reasoning block
 * from a user query, and its own `stripHtmlTags`, which, unlike the adapters' one, trims.
 */
module WebText {
  import opened Text
  import opened ThinkTags
  import opened Spans
  import opened HtmlText

  /** `removeThinkTags(text)`: every shortest `<think>…</think>` span goes, then the rest is
      trimmed; the empty text gives the empty text. */
  function RemoveThinkTags(text: string): (r: string)
    ensures |r| <= |text|
    ensures text == [] ==> r == []
  {
    Trim(RemoveSpans(text, Open, Close))
  }

  /** Text holding no `</think>` is only trimmed, even when it opens a reasoning block. */
  lemma RemoveThinkTagsNoClose(text: string)
    requires !Contains(text, Close)
    ensures RemoveThinkTags(text) == Trim(text)
  {
    RemoveSpansNoClose(text, Open, Close);
  }

  /** A finished reasoning block goes whole: the text before it is kept, and removal carries on
      after its `</think>`. */
  lemma RemoveThinkTagsBlock(prefix: string, thought: string, suffix: string)
    requires !Contains(prefix, Open) && !Contains(thought, Close)
    ensures RemoveThinkTags(Render(prefix, thought, suffix)) == Trim(prefix + RemoveSpans(suffix, Open, Close))
  {
    var rest := Render("", thought, suffix);
    var text := Render(prefix, thought, suffix);
    assert text == prefix + rest;
    OpenAfterPrefix(prefix, thought + Close + suffix);
    assert text == prefix + Open + (thought + Close + suffix);
    assert forall k :: 0 <= k < |prefix| ==> !OccursAt(text, Open, k);
    RemoveSpansSkip(text, Open, Close, |prefix|);
    assert text[..|prefix|] == prefix && text[|prefix|..] == rest;
    BlockAtFront(thought, suffix);
  }

  /** A reasoning block at the very front is dropped up to the end of its `</think>`. */
  lemma BlockAtFront(thought: string, suffix: string)
    requires !Contains(thought, Close)
    ensures RemoveSpans(Render("", thought, suffix), Open, Close) == RemoveSpans(suffix, Open, Close)
  {
    var rest := Render("", thought, suffix);
    var h := |Open| + |thought|;
    CloseAfterThought("", thought, suffix);
    assert rest[..7] == Open;
    IndexOfIs(rest, Close, 7, h);
    RemoveSpansAt(rest, Open, Close, h);
    assert rest[h + |Close|..] == suffix;
  }

  /** For a reply with one finished reasoning block and no `</think>` after it, removing the
      reasoning gives exactly the answer `processThinkContent` reports. */
  lemma RemoveThinkTagsIsAnswer(prefix: string, thought: string, suffix: string)
    requires !Contains(prefix, Open) && !Contains(thought, Close) && !Contains(suffix, Close)
    ensures RemoveThinkTags(Render(prefix, thought, suffix)) == ProcessThinkContent(Render(prefix, thought, suffix)).content
  {
    RemoveThinkTagsBlock(prefix, thought, suffix);
    RemoveSpansNoClose(suffix, Open, Close);
    ProcessRender(prefix, thought, suffix);
  }

  /** `WebService.stripHtmlTags(html)`: the tags removed, then the result trimmed. */
  function StripHtmlTags(html: string): (r: string)
    ensures |r| <= |html|
  {
    Trim(StripTags(html))
  }

  /** No tag is left, and no space at either end. */
  lemma StripHtmlTagsClean(html: string)
    ensures var r := StripHtmlTags(html);
            NoTagSpan(r) && (r != [] ==> !IsSpace(r[0]) && !IsSpace(r[|r| - 1]))
  {
    var s := StripTags(html);
    StripTagsClean(html);
    var a, b := TrimSlice(s);
    var r := s[a..b];
    forall i, j | 0 <= i < j < |r| && r[i] == '<' ensures r[j] != '>' {
      assert r[i] == s[a + i] && r[j] == s[a + j];
    }
  }

  /** Text without markup is only trimmed. */
  lemma StripHtmlTagsPlain(html: string)
    requires '<' !in html
    ensures StripHtmlTags(html) == Trim(html)
  {
    StripTagsPlain(html);
  }
}
