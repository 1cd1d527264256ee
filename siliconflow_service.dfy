/**
 * `SiliconflowService`: a streaming chat call against an OpenAI-style endpoint that answers
 * with server-sent events.  Each `data:` line carries a delta with an optional piece of answer
 * and an optional piece of reasoning; both are accumulated and reported cumulatively.
 *
 * JSON parsing is a parameter: `parse(payload)` is the first choice's delta, or `None` when the
 * payload does not parse or has no choices.
 */
module SiliconflowService {
  import opened Wrappers
  import opened Text
  import opened Lines
  import opened NdjsonStream
  import opened ActiveRequests
  import opened AIServices

  /** `choices[0].delta`: its `content` and `reasoning_content` fields. */
  datatype Delta = Delta(content: Option<string>, reasoning: Option<string>)

  const Done := "data: [DONE]"
  const DataPrefix := "data: "

  /** The filter applied to the lines of a chunk: not blank and not the end marker. */
  predicate Kept(line: string) {
    Trim(line) != [] && Trim(line) != Done
  }

  function KeepLines(lines: seq<string>): (r: seq<string>)
    ensures |r| <= |lines|
  {
    if lines == [] then []
    else
      var rest := KeepLines(lines[..|lines| - 1]);
      if Kept(lines[|lines| - 1]) then rest + [lines[|lines| - 1]] else rest
  }

  /** Blank lines and end markers never reach the parser. */
  lemma {:induction false} KeepLinesSound(lines: seq<string>)
    ensures forall i :: 0 <= i < |KeepLines(lines)| ==> Kept(KeepLines(lines)[i])
  {
    if lines != [] {
      KeepLinesSound(lines[..|lines| - 1]);
    }
  }

  /** A chunk made only of blank lines and end markers changes nothing. */
  lemma {:induction false} NothingKept(lines: seq<string>)
    requires forall i :: 0 <= i < |lines| ==> !Kept(lines[i])
    ensures KeepLines(lines) == []
  {
    if lines != [] {
      NothingKept(lines[..|lines| - 1]);
    }
  }

  function SseLines(chunk: string): seq<string> {
    KeepLines(SplitOn(chunk, '\n'))
  }

  /** `line.replace(/^data: /, '').trim()`. */
  function SsePayload(line: string): (r: string)
    ensures |r| <= |line|
  {
    Trim(if StartsWith(line, DataPrefix) then line[|DataPrefix|..] else line)
  }

  /** An event line `data: <json>` yields the JSON text, trimmed. */
  lemma PayloadOfEvent(json: string)
    ensures SsePayload(DataPrefix + json) == Trim(json)
  {
    assert (DataPrefix + json)[..|DataPrefix|] == DataPrefix;
    assert (DataPrefix + json)[|DataPrefix|..] == json;
  }

  /** A line with no prefix is only trimmed. */
  lemma PayloadOfBareLine(line: string)
    requires |line| < |DataPrefix| || line[..|DataPrefix|] != DataPrefix
    ensures SsePayload(line) == Trim(line)
  {
  }

  function Present(field: Option<string>): bool {
    field.Some? && field.value != ""
  }

  /** The effect of one parsed delta: answer text is appended and the whole answer so far is
      streamed; reasoning text is appended and the whole reasoning so far is reported. */
  function SseStep(acc: Acc, delta: Option<Delta>, ls: Listeners): (r: Acc)
    ensures delta.None? ==> r == acc
    ensures |acc.calls| <= |r.calls| && r.calls[..|acc.calls|] == acc.calls
  {
    match delta
    case None => acc
    case Some(d) =>
      var a1 :=
        if Present(d.content) then
          var full := acc.fullText + d.content.value;
          Acc(full, acc.thinking, acc.calls + if ls.onStream then [OnStream(full)] else [])
        else acc;
      if Present(d.reasoning) then
        var thinking := a1.thinking + d.reasoning.value;
        Acc(a1.fullText, thinking, a1.calls + if ls.onThinking then [OnThinking(thinking)] else [])
      else a1
  }

  /** One kept line: an empty payload is skipped, anything else goes to the parser. */
  function SseLineStep(acc: Acc, line: string, parse: string -> Option<Delta>, ls: Listeners): Acc {
    var payload := SsePayload(line);
    if payload == "" then acc else SseStep(acc, parse(payload), ls)
  }

  function SseFeedLines(acc: Acc, lines: seq<string>, parse: string -> Option<Delta>, ls: Listeners): Acc {
    if lines == [] then acc
    else SseLineStep(SseFeedLines(acc, lines[..|lines| - 1], parse, ls), lines[|lines| - 1], parse, ls)
  }

  function SseFeed(acc: Acc, chunks: seq<string>, parse: string -> Option<Delta>, ls: Listeners): Acc {
    if chunks == [] then acc
    else SseFeedLines(SseFeed(acc, chunks[..|chunks| - 1], parse, ls), SseLines(chunks[|chunks| - 1]), parse, ls)
  }

  // ---- what the accumulated answer is ----

  /** The answer text one line contributes. */
  function SseLineText(line: string, parse: string -> Option<Delta>): string {
    var payload := SsePayload(line);
    if payload == "" then ""
    else match parse(payload)
      case Some(d) => if Present(d.content) then d.content.value else ""
      case None => ""
  }

  function SseLinesText(lines: seq<string>, parse: string -> Option<Delta>): string {
    if lines == [] then "" else SseLineText(lines[0], parse) + SseLinesText(lines[1..], parse)
  }

  /** Every `delta.content` of the stream, concatenated in order. */
  function SseText(chunks: seq<string>, parse: string -> Option<Delta>): string {
    if chunks == [] then "" else SseLinesText(SseLines(chunks[0]), parse) + SseText(chunks[1..], parse)
  }

  lemma {:induction false} SseLinesTextSnoc(lines: seq<string>, parse: string -> Option<Delta>)
    requires lines != []
    ensures SseLinesText(lines, parse) == SseLinesText(lines[..|lines| - 1], parse) + SseLineText(lines[|lines| - 1], parse)
  {
    if |lines| > 1 {
      SseLinesTextSnoc(lines[1..], parse);
      assert lines[1..][..|lines| - 2] == lines[..|lines| - 1][1..];
    }
  }

  lemma {:induction false} SseTextSnoc(chunks: seq<string>, parse: string -> Option<Delta>)
    requires chunks != []
    ensures SseText(chunks, parse)
            == SseText(chunks[..|chunks| - 1], parse) + SseLinesText(SseLines(chunks[|chunks| - 1]), parse)
  {
    if |chunks| > 1 {
      var init := chunks[..|chunks| - 1];
      SseTextSnoc(chunks[1..], parse);
      assert chunks[1..][..|chunks| - 2] == init[1..];
      assert init[0] == chunks[0];
      assert SseText(init, parse) == SseLinesText(SseLines(chunks[0]), parse) + SseText(init[1..], parse);
    }
  }

  lemma SseLineStepText(acc: Acc, line: string, parse: string -> Option<Delta>, ls: Listeners)
    ensures SseLineStep(acc, line, parse, ls).fullText == acc.fullText + SseLineText(line, parse)
  {
  }

  lemma {:induction false} SseFeedLinesText(acc: Acc, lines: seq<string>, parse: string -> Option<Delta>, ls: Listeners)
    ensures SseFeedLines(acc, lines, parse, ls).fullText == acc.fullText + SseLinesText(lines, parse)
  {
    if lines != [] {
      SseFeedLinesText(acc, lines[..|lines| - 1], parse, ls);
      SseLineStepText(SseFeedLines(acc, lines[..|lines| - 1], parse, ls), lines[|lines| - 1], parse, ls);
      SseLinesTextSnoc(lines, parse);
    }
  }

  /** The returned answer is every `delta.content` in order, with nothing stripped. */
  lemma {:induction false} SseFeedText(acc: Acc, chunks: seq<string>, parse: string -> Option<Delta>, ls: Listeners)
    ensures SseFeed(acc, chunks, parse, ls).fullText == acc.fullText + SseText(chunks, parse)
  {
    if chunks != [] {
      var n := |chunks| - 1;
      SseFeedText(acc, chunks[..n], parse, ls);
      SseFeedLinesText(SseFeed(acc, chunks[..n], parse, ls), SseLines(chunks[n]), parse, ls);
      SseTextSnoc(chunks, parse);
    }
  }

  // ---- what the callbacks see ----

  /** Every streamed value is a prefix of every later streamed value and of the answer so far;
      likewise for reasoning values and the reasoning so far. */
  predicate Growing(calls: seq<Callback>, fullText: string, thinking: string) {
    && (forall i :: 0 <= i < |calls| && calls[i].OnStream? ==> calls[i].text <= fullText)
    && (forall i :: 0 <= i < |calls| && calls[i].OnThinking? ==> calls[i].text <= thinking)
    && (forall i, j :: 0 <= i < j < |calls| && calls[i].OnStream? && calls[j].OnStream? ==> calls[i].text <= calls[j].text)
    && (forall i, j :: 0 <= i < j < |calls| && calls[i].OnThinking? && calls[j].OnThinking? ==> calls[i].text <= calls[j].text)
  }

  lemma PrefixOfAppend(a: string, b: string, c: string)
    requires a <= b
    ensures a <= b + c
  {
    assert (b + c)[..|a|] == b[..|a|];
  }

  lemma StreamGrows(calls: seq<Callback>, full: string, thinking: string, more: string, onStream: bool)
    requires Growing(calls, full, thinking)
    ensures Growing(calls + if onStream then [OnStream(full + more)] else [], full + more, thinking)
  {
    forall i | 0 <= i < |calls| && calls[i].OnStream? ensures calls[i].text <= full + more {
      PrefixOfAppend(calls[i].text, full, more);
    }
  }

  lemma ThinkingGrows(calls: seq<Callback>, full: string, thinking: string, more: string, onThinking: bool)
    requires Growing(calls, full, thinking)
    ensures Growing(calls + if onThinking then [OnThinking(thinking + more)] else [], full, thinking + more)
  {
    forall i | 0 <= i < |calls| && calls[i].OnThinking? ensures calls[i].text <= thinking + more {
      PrefixOfAppend(calls[i].text, thinking, more);
    }
  }

  lemma SseStepGrows(acc: Acc, delta: Option<Delta>, ls: Listeners)
    requires Growing(acc.calls, acc.fullText, acc.thinking)
    ensures var r := SseStep(acc, delta, ls); Growing(r.calls, r.fullText, r.thinking)
  {
    if delta.Some? {
      var d := delta.value;
      var a1 := acc;
      if Present(d.content) {
        StreamGrows(acc.calls, acc.fullText, acc.thinking, d.content.value, ls.onStream);
        a1 := Acc(acc.fullText + d.content.value, acc.thinking,
                  acc.calls + if ls.onStream then [OnStream(acc.fullText + d.content.value)] else []);
      }
      if Present(d.reasoning) {
        ThinkingGrows(a1.calls, a1.fullText, a1.thinking, d.reasoning.value, ls.onThinking);
      }
    }
  }

  lemma {:induction false} SseFeedLinesGrows(acc: Acc, lines: seq<string>, parse: string -> Option<Delta>, ls: Listeners)
    requires Growing(acc.calls, acc.fullText, acc.thinking)
    ensures var r := SseFeedLines(acc, lines, parse, ls); Growing(r.calls, r.fullText, r.thinking)
  {
    if lines != [] {
      var before := SseFeedLines(acc, lines[..|lines| - 1], parse, ls);
      SseFeedLinesGrows(acc, lines[..|lines| - 1], parse, ls);
      var payload := SsePayload(lines[|lines| - 1]);
      if payload != "" {
        SseStepGrows(before, parse(payload), ls);
      }
    }
  }

  /** Successive answer values are prefix-extending, and so are successive reasoning values. */
  lemma {:induction false} SseFeedGrows(acc: Acc, chunks: seq<string>, parse: string -> Option<Delta>, ls: Listeners)
    requires Growing(acc.calls, acc.fullText, acc.thinking)
    ensures var r := SseFeed(acc, chunks, parse, ls); Growing(r.calls, r.fullText, r.thinking)
  {
    if chunks != [] {
      var n := |chunks| - 1;
      SseFeedGrows(acc, chunks[..n], parse, ls);
      SseFeedLinesGrows(SseFeed(acc, chunks[..n], parse, ls), SseLines(chunks[n]), parse, ls);
    }
  }

  // ---- the loops ----

  method ReadSseLines(acc0: Acc, lines: seq<string>, parse: string -> Option<Delta>, ls: Listeners) returns (acc: Acc)
    ensures acc == SseFeedLines(acc0, lines, parse, ls)
  {
    var fullText, thinkingContent, calls := acc0.fullText, acc0.thinking, acc0.calls;
    var j := 0;
    while j < |lines|
      invariant 0 <= j <= |lines|
      invariant Acc(fullText, thinkingContent, calls) == SseFeedLines(acc0, lines[..j], parse, ls)
    {
      assert lines[..j + 1][..j] == lines[..j];
      var jsonStr := SsePayload(lines[j]);
      if jsonStr != "" {
        var data := parse(jsonStr);
        if data.Some? {
          var delta := data.value;
          if Present(delta.content) {
            fullText := fullText + delta.content.value;
            if ls.onStream {
              calls := calls + [OnStream(fullText)];
            }
          }
          if Present(delta.reasoning) {
            thinkingContent := thinkingContent + delta.reasoning.value;
            if ls.onThinking {
              calls := calls + [OnThinking(thinkingContent)];
            }
          }
        }
      }
      j := j + 1;
    }
    assert lines[..j] == lines;
    acc := Acc(fullText, thinkingContent, calls);
  }

  method ReadSse(chunks: seq<string>, parse: string -> Option<Delta>, ls: Listeners) returns (acc: Acc)
    ensures acc == SseFeed(Start, chunks, parse, ls)
    ensures acc.fullText == SseText(chunks, parse)
    ensures Growing(acc.calls, acc.fullText, acc.thinking)
  {
    acc := Start;
    var k := 0;
    while k < |chunks|
      invariant 0 <= k <= |chunks|
      invariant acc == SseFeed(Start, chunks[..k], parse, ls)
    {
      assert chunks[..k + 1][..k] == chunks[..k];
      acc := ReadSseLines(acc, SseLines(chunks[k]), parse, ls);
      k := k + 1;
    }
    assert chunks[..k] == chunks;
    SseFeedText(Start, chunks, parse, ls);
    SseFeedGrows(Start, chunks, parse, ls);
  }

  // ---- the service ----

  /** `extractReasoningContent(data)`: the first choice's message fields, `''` when absent or
      empty.  Only the non-streaming branch of `chat` uses it. */
  function ExtractReasoningContent(message: Option<Delta>): (r: (string, string))
    ensures message.None? ==> r == ("", "")
    ensures message.Some? ==> r.0 == message.value.reasoning.GetOr("") && r.1 == message.value.content.GetOr("")
  {
    match message
    case None => ("", "")
    case Some(m) => (m.reasoning.GetOr(""), m.content.GetOr(""))
  }

  /** What the model-list request produced: a failure before a body was read, or the status and
      the `data` array of ids when there is one. */
  datatype ModelsReply = Unreachable | Replied(ok: bool, ids: Option<seq<string>>)

  /** `getModels()`: the ids of `data.data`, or `[]` on any failure or when it is not an array. */
  function ModelIds(reply: ModelsReply): (ids: seq<string>)
    ensures reply.Unreachable? || !reply.ok || reply.ids.None? ==> ids == []
    ensures reply.Replied? && reply.ok && reply.ids.Some? ==> ids == reply.ids.value
  {
    if reply.Replied? && reply.ok && reply.ids.Some? then reply.ids.value else []
  }

  class Service {
    const base: AIService
    var token: string

    constructor (config: AIServiceConfig, token: string)
      ensures base.config == config && this.token == token && fresh(base) && fresh(base.requests)
      ensures base.requests.active == map[]
    {
      base := new AIService(config);
      this.token := token;
    }

    function GetToken(): (t: string)
      reads this
      ensures t == token
    {
      token
    }

    method UpdateToken(t: string)
      modifies this
      ensures token == t && GetToken() == t
    {
      token := t;
    }

    /** `chat(request)`.  `hasSignal` says whether the caller passed its own abort signal;
        without one a new controller `controller` is made, and it is registered under the
        session when there is a session.  Every failure is passed on; the registration is
        undone on every path. */
    method Chat(fetched: Fetched, parse: string -> Option<Delta>, ls: Listeners,
                sessionId: string, hasSignal: bool, controller: Handle)
      returns (result: Result<string, ChatError>, calls: seq<Callback>)
      modifies base.requests
      ensures base.requests.aborted == old(base.requests.aborted)
      ensures base.requests.active ==
                if sessionId != "" && !hasSignal
                then RemoveSpec(AddSpec(old(base.requests.active), sessionId, controller), sessionId, controller)
                else old(base.requests.active)
      ensures fetched.Rejected? ==> result == Failure(Thrown(fetched.isAbort)) && calls == []
      ensures fetched.Response? && !fetched.ok ==> result == Failure(HttpStatus(fetched.status)) && calls == []
      ensures fetched.Response? && fetched.ok && fetched.body.NoReader? ==> result == Success("") && calls == []
      ensures fetched.Response? && fetched.ok && fetched.body.Reader? ==>
                && calls == SseFeed(Start, fetched.body.chunks, parse, ls).calls
                && Growing(calls, SseText(fetched.body.chunks, parse), SseFeed(Start, fetched.body.chunks, parse, ls).thinking)
                && result == match fetched.body.end
                             case ReadError(isAbort) => Failure(Thrown(isAbort))
                             case Finished => Success(SseText(fetched.body.chunks, parse))
    {
      var registered := sessionId != "" && !hasSignal;
      if registered {
        base.AddActiveRequest(sessionId, controller);
      }
      calls := [];
      if fetched.Rejected? {
        result := Failure(Thrown(fetched.isAbort));
      } else if !fetched.ok {
        result := Failure(HttpStatus(fetched.status));
      } else if fetched.body.NoReader? {
        result := Success("");
      } else {
        var acc := ReadSse(fetched.body.chunks, parse, ls);
        calls := acc.calls;
        match fetched.body.end {
          case ReadError(isAbort) => result := Failure(Thrown(isAbort));
          case Finished => result := Success(acc.fullText);
        }
      }
      if registered {
        base.RemoveActiveRequest(sessionId, controller);
      }
    }
  }

  /** With a new controller, a finished chat leaves the session's list as it found it. */
  lemma ChatLeavesRegistry(m: map<string, seq<Handle>>, sessionId: string, controller: Handle)
    requires controller !in Listed(m, sessionId)
    ensures RemoveSpec(AddSpec(m, sessionId, controller), sessionId, controller) == m[sessionId := Listed(m, sessionId)]
  {
    AddThenRemove(m, sessionId, controller);
  }
}
