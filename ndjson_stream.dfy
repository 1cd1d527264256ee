/**
 * The read loop the two Ollama clients share: every chunk of the response body is split on
 * newlines, blank lines are dropped, each remaining line is parsed on its own, and the message
 * content it carries is appended to the accumulated text.  After each append the accumulated
 * text is split into reasoning and answer and the caller's callbacks are told.
 *
 * A line that straddles two chunks is not reassembled: each half is parsed on its own.
 * JSON parsing is a parameter: `parse(line)` is the `message.content` of the line, or `None`
 * when the line does not parse or carries no content.
 */
module NdjsonStream {
  import opened Wrappers
  import opened Text
  import opened Lines
  import opened ThinkTags

  /** One invocation of a caller-supplied callback. */
  datatype Callback = OnStream(text: string) | OnThinking(text: string)

  /** Which of the two optional callbacks the caller supplied. */
  datatype Listeners = Listeners(onStream: bool, onThinking: bool)

  /** The loop's variables: `fullText`, the last reasoning reported, and the callbacks made. */
  datatype Acc = Acc(fullText: string, thinking: string, calls: seq<Callback>)

  const Start := Acc("", "", [])

  /** The lines of one chunk that reach the parser. */
  function ChunkLines(chunk: string): seq<string> {
    NonBlank(SplitOn(chunk, '\n'))
  }

  /** A chunk holding one non-blank line and no newline is that line. */
  lemma SingleLineChunk(line: string)
    requires '\n' !in line && Trim(line) != []
    ensures ChunkLines(line) == [line]
  {
    SplitPiece(line, [], '\n');
    assert [line][..0] == [];
  }

  /** The effect of one parsed line: content that is present and non-empty is appended; the
      answer part is streamed when non-empty, and the reasoning part is reported when
      non-empty and different from the last one reported. */
  function Step(acc: Acc, content: Option<string>, ls: Listeners): (r: Acc)
    ensures content.None? || content.value == "" ==> r == acc
    ensures content.Some? ==> r.fullText == acc.fullText + content.value
    ensures |acc.calls| <= |r.calls| <= |acc.calls| + 2 && r.calls[..|acc.calls|] == acc.calls
  {
    if content.Some? && content.value != "" then
      var full := acc.fullText + content.value;
      var p := ProcessThinkContent(full);
      var streamed := if ls.onStream && p.content != "" then [OnStream(p.content)] else [];
      if ls.onThinking && p.thinking != "" && p.thinking != acc.thinking then
        Acc(full, p.thinking, acc.calls + streamed + [OnThinking(p.thinking)])
      else
        Acc(full, acc.thinking, acc.calls + streamed)
    else acc
  }

  /** The state after the inner loop has handled `lines`. */
  function FeedLines(acc: Acc, lines: seq<string>, parse: string -> Option<string>, ls: Listeners): Acc {
    if lines == [] then acc
    else Step(FeedLines(acc, lines[..|lines| - 1], parse, ls), parse(lines[|lines| - 1]), ls)
  }

  /** The state after the outer loop has handled `chunks`. */
  function Feed(acc: Acc, chunks: seq<string>, parse: string -> Option<string>, ls: Listeners): Acc {
    if chunks == [] then acc
    else FeedLines(Feed(acc, chunks[..|chunks| - 1], parse, ls), ChunkLines(chunks[|chunks| - 1]), parse, ls)
  }

  // ---- what the accumulated text is ----

  function Payload(content: Option<string>): string {
    if content.Some? then content.value else ""
  }

  /** The contents of the parsed lines, concatenated in order. */
  function LinesText(lines: seq<string>, parse: string -> Option<string>): string {
    if lines == [] then "" else Payload(parse(lines[0])) + LinesText(lines[1..], parse)
  }

  /** The contents of every parsed line of every chunk, concatenated in order. */
  function ChunksText(chunks: seq<string>, parse: string -> Option<string>): string {
    if chunks == [] then "" else LinesText(ChunkLines(chunks[0]), parse) + ChunksText(chunks[1..], parse)
  }

  lemma {:induction false} LinesTextSnoc(lines: seq<string>, parse: string -> Option<string>)
    requires lines != []
    ensures LinesText(lines, parse)
            == LinesText(lines[..|lines| - 1], parse) + Payload(parse(lines[|lines| - 1]))
  {
    if |lines| > 1 {
      LinesTextSnoc(lines[1..], parse);
      assert lines[1..][..|lines| - 2] == lines[..|lines| - 1][1..];
    }
  }

  lemma {:induction false} ChunksTextSnoc(chunks: seq<string>, parse: string -> Option<string>)
    requires chunks != []
    ensures ChunksText(chunks, parse)
            == ChunksText(chunks[..|chunks| - 1], parse) + LinesText(ChunkLines(chunks[|chunks| - 1]), parse)
  {
    if |chunks| > 1 {
      ChunksTextSnoc(chunks[1..], parse);
      assert chunks[1..][..|chunks| - 2] == chunks[..|chunks| - 1][1..];
    }
  }

  lemma {:induction false} FeedLinesText(acc: Acc, lines: seq<string>, parse: string -> Option<string>, ls: Listeners)
    ensures FeedLines(acc, lines, parse, ls).fullText == acc.fullText + LinesText(lines, parse)
  {
    if lines != [] {
      FeedLinesText(acc, lines[..|lines| - 1], parse, ls);
      LinesTextSnoc(lines, parse);
    }
  }

  /** The accumulated text is the in-order concatenation of the content of every line that
      parsed; lines that did not parse contribute nothing. */
  lemma {:induction false} FeedText(acc: Acc, chunks: seq<string>, parse: string -> Option<string>, ls: Listeners)
    ensures Feed(acc, chunks, parse, ls).fullText == acc.fullText + ChunksText(chunks, parse)
  {
    if chunks != [] {
      var n := |chunks| - 1;
      FeedText(acc, chunks[..n], parse, ls);
      FeedLinesText(Feed(acc, chunks[..n], parse, ls), ChunkLines(chunks[n]), parse, ls);
      ChunksTextSnoc(chunks, parse);
    }
  }

  // ---- what the callbacks see ----

  /** The reasoning most recently reported in `calls`, or `''`. */
  function LastThinking(calls: seq<Callback>): string {
    if calls == [] then ""
    else if calls[|calls| - 1].OnThinking? then calls[|calls| - 1].text
    else LastThinking(calls[..|calls| - 1])
  }

  /** Every callback carries non-empty text, only the supplied callbacks are called, each
      reasoning report differs from the one before it, and `last` is the latest report. */
  predicate Reported(calls: seq<Callback>, last: string, ls: Listeners) {
    && (forall i :: 0 <= i < |calls| ==> calls[i].text != "")
    && (forall i :: 0 <= i < |calls| && calls[i].OnStream? ==> ls.onStream)
    && (forall i :: 0 <= i < |calls| && calls[i].OnThinking? ==> ls.onThinking)
    && (forall i :: 0 <= i < |calls| && calls[i].OnThinking? ==> calls[i].text != LastThinking(calls[..i]))
    && LastThinking(calls) == last
  }

  lemma AppendStreamReported(calls: seq<Callback>, last: string, x: string, ls: Listeners)
    requires Reported(calls, last, ls) && x != "" && ls.onStream
    ensures Reported(calls + [OnStream(x)], last, ls)
  {
    var c := calls + [OnStream(x)];
    forall i | 0 <= i < |calls| ensures c[..i] == calls[..i] {
    }
    assert c[..|calls|] == calls;
  }

  lemma AppendThinkingReported(calls: seq<Callback>, last: string, t: string, ls: Listeners)
    requires Reported(calls, last, ls) && t != "" && t != last && ls.onThinking
    ensures Reported(calls + [OnThinking(t)], t, ls)
  {
    var c := calls + [OnThinking(t)];
    forall i | 0 <= i < |calls| ensures c[..i] == calls[..i] {
    }
    assert c[..|calls|] == calls;
  }

  /** One step keeps the callback discipline. */
  lemma StepReported(acc: Acc, content: Option<string>, ls: Listeners)
    requires Reported(acc.calls, acc.thinking, ls)
    ensures var r := Step(acc, content, ls); Reported(r.calls, r.thinking, ls)
  {
    if content.Some? && content.value != "" {
      var full := acc.fullText + content.value;
      var p := ProcessThinkContent(full);
      var streamed := acc.calls;
      if ls.onStream && p.content != "" {
        AppendStreamReported(acc.calls, acc.thinking, p.content, ls);
        streamed := acc.calls + [OnStream(p.content)];
      }
      if ls.onThinking && p.thinking != "" && p.thinking != acc.thinking {
        AppendThinkingReported(streamed, acc.thinking, p.thinking, ls);
        assert Step(acc, content, ls) == Acc(full, p.thinking, streamed + [OnThinking(p.thinking)]);
      } else {
        assert Step(acc, content, ls) == Acc(full, acc.thinking, streamed);
      }
    }
  }

  lemma {:induction false} FeedLinesReported(acc: Acc, lines: seq<string>, parse: string -> Option<string>, ls: Listeners)
    requires Reported(acc.calls, acc.thinking, ls)
    ensures var r := FeedLines(acc, lines, parse, ls); Reported(r.calls, r.thinking, ls)
  {
    if lines != [] {
      FeedLinesReported(acc, lines[..|lines| - 1], parse, ls);
      StepReported(FeedLines(acc, lines[..|lines| - 1], parse, ls), parse(lines[|lines| - 1]), ls);
    }
  }

  /** The callback discipline holds for the whole stream. */
  lemma {:induction false} FeedReported(acc: Acc, chunks: seq<string>, parse: string -> Option<string>, ls: Listeners)
    requires Reported(acc.calls, acc.thinking, ls)
    ensures var r := Feed(acc, chunks, parse, ls); Reported(r.calls, r.thinking, ls)
  {
    if chunks != [] {
      var n := |chunks| - 1;
      FeedReported(acc, chunks[..n], parse, ls);
      FeedLinesReported(Feed(acc, chunks[..n], parse, ls), ChunkLines(chunks[n]), parse, ls);
    }
  }

  /** A line cut in two by a chunk boundary is lost when neither half parses, although the same
      bytes in one chunk would have been appended. */
  lemma SplitLineLost(a: string, b: string, parse: string -> Option<string>, ls: Listeners)
    requires '\n' !in a && '\n' !in b && Trim(a) != [] && Trim(b) != []
    requires parse(a).None? && parse(b).None?
    ensures Feed(Start, [a, b], parse, ls) == Start
    ensures Feed(Start, [a + b], parse, ls).fullText == Payload(parse(a + b))
  {
    SingleLineChunk(a);
    SingleLineChunk(b);
    NonBlankAppend(a, b);
    assert '\n' !in a + b;
    SingleLineChunk(a + b);
    assert [a, b][..1] == [a] && [a][..0] == [] && [a + b][..0] == [];
    assert FeedLines(Start, [a], parse, ls) == Start;
    assert FeedLines(Start, [b], parse, ls) == Start;
    assert Feed(Start, [a], parse, ls) == Start;
  }

  // ---- the loop ----

  /** The inner loop over the lines of one chunk. */
  method ReadLines(acc0: Acc, lines: seq<string>, parse: string -> Option<string>, ls: Listeners) returns (acc: Acc)
    ensures acc == FeedLines(acc0, lines, parse, ls)
  {
    var fullText, thinking, calls := acc0.fullText, acc0.thinking, acc0.calls;
    var j := 0;
    while j < |lines|
      invariant 0 <= j <= |lines|
      invariant Acc(fullText, thinking, calls) == FeedLines(acc0, lines[..j], parse, ls)
    {
      assert lines[..j + 1][..j] == lines[..j];
      var content := parse(lines[j]);
      if content.Some? && content.value != "" {
        fullText := fullText + content.value;
        var processed := ProcessThinkContent(fullText);
        if ls.onStream && processed.content != "" {
          calls := calls + [OnStream(processed.content)];
        }
        if ls.onThinking && processed.thinking != "" && processed.thinking != thinking {
          thinking := processed.thinking;
          calls := calls + [OnThinking(thinking)];
        }
      }
      j := j + 1;
    }
    assert lines[..j] == lines;
    acc := Acc(fullText, thinking, calls);
  }

  /** The read loop over the chunks that arrived before the stream ended. */
  method ReadChunks(chunks: seq<string>, parse: string -> Option<string>, ls: Listeners) returns (acc: Acc)
    ensures acc == Feed(Start, chunks, parse, ls)
    ensures acc.fullText == ChunksText(chunks, parse)
    ensures Reported(acc.calls, acc.thinking, ls)
  {
    acc := Start;
    var k := 0;
    while k < |chunks|
      invariant 0 <= k <= |chunks|
      invariant acc == Feed(Start, chunks[..k], parse, ls)
    {
      assert chunks[..k + 1][..k] == chunks[..k];
      acc := ReadLines(acc, ChunkLines(chunks[k]), parse, ls);
      k := k + 1;
    }
    assert chunks[..k] == chunks;
    FeedText(Start, chunks, parse, ls);
    FeedReported(Start, chunks, parse, ls);
  }

  // ---- the response ----

  /** How the body stream ended: read to the end, or a read failed (an abort or another error). */
  datatype StreamEnd = Finished | ReadError(isAbort: bool)

  /** `res.body?.getReader()`: no reader, or the chunks it delivers and how it ends. */
  datatype Body = NoReader | Reader(chunks: seq<string>, end: StreamEnd)

  /** What `fetch` settled with: a response, or a rejection (an abort or a network error). */
  datatype Fetched = Response(ok: bool, status: int, body: Body) | Rejected(isAbort: bool)

  /** The error a chat call ends with. */
  datatype ChatError = HttpStatus(status: int) | Thrown(isAbort: bool)
}
