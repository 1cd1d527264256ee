/**
 * The chat panel's logic (not its rendering): sending a message, which adds the user's message
 * to the current session, asks the model with the session's history and, when the answer
 * arrives, stores the reasoning and the reply; stopping a reply in progress; and the list of
 * messages shown, with the reasoning and the reply still streaming at its end.
 *
 * `handleSendMessage` awaits the model, so it is split where it waits: `HandleSendMessage` runs
 * up to the request and returns the history it sends; the stream callbacks, then the request's
 * resolution or rejection, are the methods that follow.  Each request is known by the handle of
 * its `AbortController`; the state of that one call (its stream id, the last text streamed and
 * the last reasoning) is kept under the handle while it runs.  `Date.now()` is a parameter.
 */
module ChatPanel {
  import opened Wrappers
  import opened Text
  import opened Filters
  import opened ChatStore
  import opened ActiveRequests

  const ThinkingPrefix := "thinking-"

  /** `isThinkingMessage`: reasoning messages are known by the prefix of their id. */
  predicate IsThinkingMessage(m: Message) {
    StartsWith(m.id, ThinkingPrefix)
  }

  /** A message as sent to the model, `{ role, content }`. */
  datatype Wire = Wire(role: Role, content: string)

  function ToWire(m: Message): Wire {
    Wire(m.role, m.content)
  }

  /** The messages that are not reasoning, in their order. */
  function Visible(messages: seq<Message>): (r: seq<Message>)
    ensures forall i :: 0 <= i < |r| ==> !IsThinkingMessage(r[i])
  {
    Filter(messages, (m: Message) => !IsThinkingMessage(m))
  }

  /** Messages reduced to their role and content, in their order. */
  function Wires(messages: seq<Message>): (r: seq<Wire>)
    ensures |r| == |messages|
    ensures forall i :: 0 <= i < |r| ==> r[i] == ToWire(messages[i])
  {
    seq(|messages|, i requires 0 <= i < |messages| => ToWire(messages[i]))
  }

  lemma WiresAppend(a: seq<Message>, b: seq<Message>)
    ensures Wires(a + b) == Wires(a) + Wires(b)
  {
  }

  /** The history sent with a new user message: the session's messages without the reasoning,
      then the new message, each reduced to its role and content. */
  function History(messages: seq<Message>, user: Message): (r: seq<Wire>)
    ensures |r| == |Visible(messages)| + 1
    ensures r[|r| - 1] == Wire(user.role, user.content)
    ensures forall i :: 0 <= i < |r| - 1 ==> r[i] == ToWire(Visible(messages)[i])
  {
    Wires(Visible(messages) + [user])
  }

  /** `user-<time>` is not a reasoning id, nor is `ai-<time>`. */
  lemma OwnIdsNotThinking(now: nat)
    ensures !StartsWith("user-" + NatToString(now), ThinkingPrefix)
    ensures !StartsWith("ai-" + NatToString(now), ThinkingPrefix)
    ensures StartsWith(ThinkingPrefix + NatToString(now), ThinkingPrefix)
  {
    assert ("user-" + NatToString(now))[0] == 'u';
    assert ("ai-" + NatToString(now))[0] == 'a';
    assert (ThinkingPrefix + NatToString(now))[..|ThinkingPrefix|] == ThinkingPrefix;
  }

  /** The user message made from the input: its content is the trimmed input. */
  function UserMessage(value: string, now: nat): (m: Message)
    ensures m.content == Trim(value) && m.role == User && !IsThinkingMessage(m)
  {
    OwnIdsNotThinking(now);
    Message("user-" + NatToString(now), Trim(value), User, now, now)
  }

  /** The reasoning message stored after a reply. */
  function ThinkingMessage(thinking: string, now: nat): (m: Message)
    ensures m.content == thinking && m.role == Assistant && IsThinkingMessage(m)
  {
    OwnIdsNotThinking(now);
    Message(ThinkingPrefix + NatToString(now), thinking, Assistant, now, now)
  }

  /** The messages a finished exchange adds: the reasoning, when there is some, then the reply. */
  function ReplyMessages(thinking: Option<string>, streamId: string, content: string, now: nat): (r: seq<Message>)
    ensures |r| >= 1 && r[|r| - 1] == Message(streamId, content, Assistant, now, now)
    ensures |r| == 2 <==> thinking.Some? && thinking.value != []
    ensures |r| == 2 ==> r[0] == ThinkingMessage(thinking.value, now)
  {
    (if thinking.Some? && thinking.value != [] then [ThinkingMessage(thinking.value, now)] else [])
    + [Message(streamId, content, Assistant, now, now)]
  }

  /** The reasoning stored after a reply never reaches a later history; the user's message
      and the reply do. */
  lemma VisibleAfterExchange(messages: seq<Message>, user: Message, thinking: Option<string>,
                             streamId: string, content: string, now: nat)
    requires !IsThinkingMessage(user) && !StartsWith(streamId, ThinkingPrefix)
    ensures Visible(messages + [user] + ReplyMessages(thinking, streamId, content, now))
            == Visible(messages) + [user, Message(streamId, content, Assistant, now, now)]
  {
    var added := ReplyMessages(thinking, streamId, content, now);
    var reply := Message(streamId, content, Assistant, now, now);
    var keep := (m: Message) => !IsThinkingMessage(m);
    FilterAppend(messages + [user], added, keep);
    FilterAppend(messages, [user], keep);
    assert Filter([user], keep) == [user];
    if |added| == 2 {
      assert added == [added[0]] + [reply];
      FilterAppend([added[0]], [reply], keep);
      assert Filter([added[0]], keep) == [];
    } else {
      assert added == [reply];
    }
    assert Filter([reply], keep) == [reply];
  }

  /** After an exchange, the next history is the one just sent, then the reply, then the next
      message: the reasoning stored between them is left out. */
  lemma NextHistory(messages: seq<Message>, user: Message, thinking: Option<string>,
                    streamId: string, content: string, now: nat, next: Message)
    requires !IsThinkingMessage(user) && !StartsWith(streamId, ThinkingPrefix)
    ensures History(messages + [user] + ReplyMessages(thinking, streamId, content, now), next)
            == History(messages, user) + [Wire(Assistant, content), ToWire(next)]
  {
    var v := Visible(messages);
    var reply := Message(streamId, content, Assistant, now, now);
    VisibleAfterExchange(messages, user, thinking, streamId, content, now);
    assert v + [user, reply] + [next] == (v + [user]) + [reply, next];
    WiresAppend(v + [user], [reply, next]);
  }

  /** The state of one send while its request runs. */
  datatype Pending = Pending(sessionId: string, streamId: string, lastContent: string, finalThinking: Option<string>)

  /** The panel's own state, over the chat store it shows. */
  class Panel {
    const store: ChatStore
    var streamingContent: Option<string>
    var thinkingContent: Option<string>
    var inputValue: string
    var isGenerating: bool
    var controller: Option<Handle>
    var aborted: set<Handle>
    var pending: map<Handle, Pending>

    constructor (store: ChatStore)
      ensures this.store == store
      ensures streamingContent.None? && thinkingContent.None? && inputValue == [] && !isGenerating
      ensures controller.None? && aborted == {} && pending == map[]
    {
      this.store := store;
      streamingContent := None;
      thinkingContent := None;
      inputValue := "";
      isGenerating := false;
      controller := None;
      aborted := {};
      pending := map[];
    }

    /** A controller made now is neither current, nor aborted, nor running a request. */
    predicate FreshHandle(h: Handle)
      reads this
    {
      h !in pending && h !in aborted && controller != Some(h)
    }

    /** `handleStopGeneration`: a current controller is aborted and dropped, and generation
        ends; with no controller nothing happens. */
    method HandleStopGeneration()
      modifies this
      ensures old(controller).Some? ==>
                aborted == old(aborted) + {old(controller).value} && controller.None? && !isGenerating
      ensures old(controller).None? ==> aborted == old(aborted) && isGenerating == old(isGenerating)
      ensures streamingContent == old(streamingContent) && thinkingContent == old(thinkingContent)
      ensures inputValue == old(inputValue) && pending == old(pending)
    {
      if controller.Some? {
        aborted := aborted + {controller.value};
        controller := None;
        isGenerating := false;
      }
    }

    /** `handleSendMessage(value)` up to the request.  A blank input, no model or no current
        session does nothing; while a reply is generated, sending stops it and adds nothing.
        Otherwise the trimmed input is added to the session as the user's message, the input and
        the shown reasoning are cleared, generation starts under the fresh controller `h`, and
        the history is sent: the session's messages as they were, without the reasoning, then the
        new message. */
    method HandleSendMessage(value: string, model: string, now: nat, h: Handle)
      returns (request: Option<seq<Wire>>)
      requires FreshHandle(h)
      modifies this, store
      ensures var session := FindSession(old(store.sessions), old(store.currentSessionId));
              Trim(value) == [] || model == [] || session.None? ==>
                request.None? && store.sessions == old(store.sessions)
                && isGenerating == old(isGenerating) && controller == old(controller) && aborted == old(aborted)
                && inputValue == old(inputValue) && pending == old(pending)
      ensures var session := FindSession(old(store.sessions), old(store.currentSessionId));
              Trim(value) != [] && model != [] && session.Some? && old(isGenerating) ==>
                request.None? && store.sessions == old(store.sessions) && inputValue == old(inputValue)
                && pending == old(pending)
                && (old(controller).Some? ==>
                      aborted == old(aborted) + {old(controller).value} && controller.None? && !isGenerating)
                && (old(controller).None? ==> aborted == old(aborted) && isGenerating)
      ensures var session := FindSession(old(store.sessions), old(store.currentSessionId));
              Trim(value) != [] && model != [] && session.Some? && !old(isGenerating) ==>
                var user := UserMessage(value, now);
                && request == Some(History(session.value.messages, user))
                && store.sessions == Appended(old(store.sessions), session.value.id, user)
                && inputValue == [] && thinkingContent.None? && streamingContent == Some("")
                && isGenerating && controller == Some(h) && aborted == old(aborted)
                && pending == old(pending)[h := Pending(session.value.id, "ai-" + NatToString(now), "", None)]
      ensures store.currentSessionId == old(store.currentSessionId)
    {
      var session := store.CurrentSession();
      if Trim(value) == [] || model == [] || session.None? {
        return None;
      }
      if isGenerating {
        HandleStopGeneration();
        return None;
      }
      var user := UserMessage(value, now);
      store.AddMessage(session.value.id, user);
      inputValue := "";
      thinkingContent := None;
      var streamId := "ai-" + NatToString(now);
      isGenerating := true;
      controller := Some(h);
      var messages := History(session.value.messages, user);
      streamingContent := Some("");
      pending := pending[h := Pending(session.value.id, streamId, "", None)];
      request := Some(messages);
    }

    /** `onStream(text)`: the latest text of the reply is kept and shown. */
    method OnStream(h: Handle, text: string)
      requires h in pending
      modifies this
      ensures pending == old(pending)[h := old(pending)[h].(lastContent := text)]
      ensures streamingContent == Some(text) && thinkingContent == old(thinkingContent)
      ensures isGenerating == old(isGenerating) && controller == old(controller) && aborted == old(aborted)
    {
      pending := pending[h := pending[h].(lastContent := text)];
      streamingContent := Some(text);
    }

    /** `onThinking(text)`: the latest reasoning is kept and shown. */
    method OnThinking(h: Handle, text: string)
      requires h in pending
      modifies this
      ensures pending == old(pending)[h := old(pending)[h].(finalThinking := Some(text))]
      ensures thinkingContent == Some(text) && streamingContent == old(streamingContent)
      ensures isGenerating == old(isGenerating) && controller == old(controller) && aborted == old(aborted)
    {
      pending := pending[h := pending[h].(finalThinking := Some(text))];
      thinkingContent := Some(text);
    }

    /** The `finally` of a send: the streamed and shown texts are cleared and generation ends. */
    method Settle(h: Handle)
      modifies this
      ensures streamingContent.None? && thinkingContent.None? && !isGenerating && controller.None?
      ensures pending == old(pending) - {h} && aborted == old(aborted) && inputValue == old(inputValue)
    {
      streamingContent := None;
      thinkingContent := None;
      isGenerating := false;
      controller := None;
      pending := pending - {h};
    }

    /** The request resolved: the last reasoning, when it is not empty, is stored before the
        reply, whose content is the last text streamed (empty when nothing was streamed). */
    method ChatResolved(h: Handle, now: nat)
      requires h in pending
      modifies this, store
      ensures var p := old(pending)[h];
              store.sessions == AppendAll(old(store.sessions), p.sessionId, ReplyMessages(p.finalThinking, p.streamId, p.lastContent, now))
      ensures store.currentSessionId == old(store.currentSessionId)
      ensures streamingContent.None? && thinkingContent.None? && !isGenerating && controller.None?
      ensures pending == old(pending) - {h} && aborted == old(aborted)
    {
      var p := pending[h];
      var msg := Message(p.streamId, p.lastContent, Assistant, now, now);
      if p.finalThinking.Some? && p.finalThinking.value != [] {
        store.AddMessage(p.sessionId, ThinkingMessage(p.finalThinking.value, now));
      }
      store.AddMessage(p.sessionId, msg);
      Settle(h);
    }

    /** The request was rejected (aborted or failed): nothing is stored. */
    method ChatRejected(h: Handle)
      modifies this
      ensures streamingContent.None? && thinkingContent.None? && !isGenerating && controller.None?
      ensures pending == old(pending) - {h} && aborted == old(aborted)
    {
      Settle(h);
    }

    /** `handleInsertPrompt(content)`: the prompt goes after the input, on a new line when the
        input is not empty. */
    method HandleInsertPrompt(content: string)
      modifies this
      ensures inputValue == (if old(inputValue) != [] then old(inputValue) + "\n" else "") + content
      ensures isGenerating == old(isGenerating) && pending == old(pending) && controller == old(controller)
    {
      inputValue := (if inputValue != [] then inputValue + "\n" else "") + content;
    }

    /** `handleSuggestionSelect(value)`: the suggestion is appended to the input. */
    method HandleSuggestionSelect(value: string)
      modifies this
      ensures inputValue == old(inputValue) + value
      ensures isGenerating == old(isGenerating) && pending == old(pending) && controller == old(controller)
    {
      inputValue := inputValue + value;
    }

    /** `handleReaskMessage(content)`: while a reply is generated nothing happens; otherwise the
        message becomes the input. */
    method HandleReaskMessage(content: string)
      modifies this
      ensures inputValue == if old(isGenerating) then old(inputValue) else content
      ensures isGenerating == old(isGenerating) && pending == old(pending) && controller == old(controller)
    {
      if isGenerating {
        return;
      }
      inputValue := content;
    }

    /** `handleDeleteMessage(id)`, once confirmed: the message leaves the current session; with
        no session nothing happens. */
    method HandleDeleteMessage(messageId: string)
      modifies store
      ensures var session := FindSession(old(store.sessions), old(store.currentSessionId));
              store.sessions == if session.None? then old(store.sessions)
                                else Deleted(old(store.sessions), session.value.id, messageId)
      ensures store.currentSessionId == old(store.currentSessionId)
    {
      var session := store.CurrentSession();
      if session.None? {
        return;
      }
      store.DeleteMessage(session.value.id, messageId);
    }

    /** The messages shown: the current session's (none without a session), then the reasoning
        in progress when there is some and a reply is streaming, then the streamed reply when it
        is not empty. */
    method ChatMessages(now: int) returns (r: seq<Message>)
      ensures var base := match FindSession(store.sessions, store.currentSessionId)
                          case Some(s) => s.messages
                          case None => [];
              var showThinking := thinkingContent.Some? && thinkingContent.value != [] && streamingContent.Some?;
              var showStream := streamingContent.Some? && streamingContent.value != [];
              && |r| == |base| + (if showThinking then 1 else 0) + (if showStream then 1 else 0)
              && r[..|base|] == base
              && (showThinking ==> r[|base|] == Message("thinking-current", thinkingContent.value, Assistant, now, now))
              && (showStream ==> r[|r| - 1] == Message("stream", streamingContent.value, Assistant, now, now))
    {
      var session := store.CurrentSession();
      var chatMessages := if session.Some? then session.value.messages else [];
      if thinkingContent.Some? && thinkingContent.value != [] && streamingContent.Some? {
        chatMessages := chatMessages + [Message("thinking-current", thinkingContent.value, Assistant, now, now)];
      }
      if streamingContent.Some? && streamingContent.value != [] {
        chatMessages := chatMessages + [Message("stream", streamingContent.value, Assistant, now, now)];
      }
      r := chatMessages;
    }
  }

  /** Messages added to the session one `addMessage` after the other: they end up after its
      messages, in their order; the other sessions stay. */
  function AppendAll(sessions: seq<ChatSession>, sessionId: string, added: seq<Message>): (r: seq<ChatSession>)
    ensures |r| == |sessions|
    ensures forall i :: 0 <= i < |r| ==> r[i].id == sessions[i].id && r[i].name == sessions[i].name
    ensures forall i :: 0 <= i < |r| && sessions[i].id == sessionId ==> r[i].messages == sessions[i].messages + added
    ensures forall i :: 0 <= i < |r| && sessions[i].id != sessionId ==> r[i] == sessions[i]
    decreases |added|
  {
    if added == [] then
      assert forall i :: 0 <= i < |sessions| ==> sessions[i].messages + added == sessions[i].messages;
      sessions
    else
      var next := Appended(sessions, sessionId, added[0]);
      assert forall ms: seq<Message> :: ms + [added[0]] + added[1..] == ms + added;
      AppendAll(next, sessionId, added[1..])
  }
}
