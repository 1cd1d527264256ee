/**
 * `OllamaService`: a streaming chat call against a local Ollama server and its model list.
 * The request itself is not modelled; the call starts from what `fetch` settled with.
 */
module OllamaService {
  import opened Wrappers
  import opened ThinkTags
  import opened NdjsonStream

  /** `chat(request)`.  A rejected `fetch` and a non-OK status end the call before anything is
      read.  Without a reader the answer is `''`.  Otherwise the stream is read chunk by chunk;
      an abort while reading is passed on, any other read error ends the loop quietly, and the
      answer is the visible part of everything accumulated. */
  method Chat(fetched: Fetched, parse: string -> Option<string>, ls: Listeners)
    returns (result: Result<string, ChatError>, calls: seq<Callback>)
    ensures fetched.Rejected? ==> result == Failure(Thrown(fetched.isAbort)) && calls == []
    ensures fetched.Response? && !fetched.ok ==> result == Failure(HttpStatus(fetched.status)) && calls == []
    ensures fetched.Response? && fetched.ok && fetched.body.NoReader? ==> result == Success("") && calls == []
    ensures fetched.Response? && fetched.ok && fetched.body.Reader? ==>
              && calls == Feed(Start, fetched.body.chunks, parse, ls).calls
              && Reported(calls, Feed(Start, fetched.body.chunks, parse, ls).thinking, ls)
              && result == if fetched.body.end == ReadError(true) then Failure(Thrown(true))
                           else Success(ProcessThinkContent(ChunksText(fetched.body.chunks, parse)).content)
  {
    calls := [];
    if fetched.Rejected? {
      return Failure(Thrown(fetched.isAbort)), calls;
    }
    if !fetched.ok {
      return Failure(HttpStatus(fetched.status)), calls;
    }
    if fetched.body.NoReader? {
      return Success(""), calls;
    }
    var acc := ReadChunks(fetched.body.chunks, parse, ls);
    calls := acc.calls;
    if fetched.body.end == ReadError(true) {
      return Failure(Thrown(true)), calls;
    }
    var finalProcessed := ProcessThinkContent(acc.fullText);
    result := Success(finalProcessed.content);
  }

  /** `getModels()` (and `fetchOllamaModels`): `reply` is `None` when the request or the JSON
      decoding failed, `Some(None)` when `models` is not an array, and `Some(Some(names))` with
      the `name` of each entry otherwise. */
  function ModelNames(reply: Option<Option<seq<string>>>): (names: seq<string>)
    ensures reply.None? || reply.value.None? ==> names == []
    ensures reply.Some? && reply.value.Some? ==> names == reply.value.value
  {
    match reply
    case Some(Some(ns)) => ns
    case _ => []
  }
}
