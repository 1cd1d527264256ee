/**
 * The page-level Ollama helpers: a one-shot chat, a streaming chat and the model list.
 */
module OllamaApi {
  import opened Wrappers
  import opened ThinkTags
  import opened NdjsonStream

  /** `sendMessageToOllama(...)`: `reply` is `None` when `fetch` or the JSON decoding threw,
      otherwise the reply's `message?.content`.  A missing or empty content gives `''`. */
  function SendMessageToOllama(reply: Option<Option<string>>): (r: Result<string, ChatError>)
    ensures reply.None? <==> r.Failure?
    ensures reply.Some? && reply.value.Some? ==> r == Success(reply.value.value)
    ensures reply.Some? && reply.value.None? ==> r == Success("")
  {
    match reply
    case None => Failure(Thrown(false))
    case Some(content) => Success(content.GetOr(""))
  }

  /** `sendMessageToOllamaStream(...)`.  There is no status check: any response is read.  Only a
      rejected `fetch` fails the call; every error while reading, an abort included, ends the
      loop quietly and the visible part of what was accumulated is returned. */
  method SendMessageToOllamaStream(fetched: Fetched, parse: string -> Option<string>, ls: Listeners)
    returns (result: Result<string, ChatError>, calls: seq<Callback>)
    ensures fetched.Rejected? ==> result == Failure(Thrown(fetched.isAbort)) && calls == []
    ensures fetched.Response? && fetched.body.NoReader? ==> result == Success("") && calls == []
    ensures fetched.Response? && fetched.body.Reader? ==>
              && calls == Feed(Start, fetched.body.chunks, parse, ls).calls
              && Reported(calls, Feed(Start, fetched.body.chunks, parse, ls).thinking, ls)
              && result == Success(ProcessThinkContent(ChunksText(fetched.body.chunks, parse)).content)
  {
    calls := [];
    if fetched.Rejected? {
      return Failure(Thrown(fetched.isAbort)), calls;
    }
    if fetched.body.NoReader? {
      return Success(""), calls;
    }
    var acc := ReadChunks(fetched.body.chunks, parse, ls);
    calls := acc.calls;
    var finalProcessed := ProcessThinkContent(acc.fullText);
    result := Success(finalProcessed.content);
  }
}
