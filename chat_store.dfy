/**
 * The chat store: the sessions, each with its messages, and the id of the current session.
 * Each action replaces the store's state.  `Date.now()` is a parameter.
 */
module ChatStore {
  import opened Wrappers
  import opened Text
  import opened Filters

  datatype Role = User | Assistant

  datatype Message = Message(id: string, content: string, role: Role, createAt: int, updateAt: int)

  datatype ChatSession = ChatSession(id: string, name: string, messages: seq<Message>)

  const DefaultSessionId := "default"
  const Greeting := "你好，我是AI助手，有什么可以帮你？"

  /** The initial sessions: the default session, holding the greeting made at time `now`. */
  function InitialSessions(now: int): seq<ChatSession> {
    [ChatSession(DefaultSessionId, "默认会话", [Message("init", Greeting, Assistant, now, now)])]
  }

  /** `addMessage`'s map: the message goes last in every session with the id; the number, order,
      ids and names of the sessions and the other sessions stay. */
  function Appended(sessions: seq<ChatSession>, sessionId: string, m: Message): (r: seq<ChatSession>)
    ensures |r| == |sessions|
    ensures forall i :: 0 <= i < |r| ==> r[i].id == sessions[i].id && r[i].name == sessions[i].name
    ensures forall i :: 0 <= i < |r| && sessions[i].id == sessionId ==> r[i].messages == sessions[i].messages + [m]
    ensures forall i :: 0 <= i < |r| && sessions[i].id != sessionId ==> r[i] == sessions[i]
  {
    seq(|sessions|, i requires 0 <= i < |sessions| =>
      if sessions[i].id == sessionId then sessions[i].(messages := sessions[i].messages + [m]) else sessions[i])
  }

  /** The messages without those carrying the id, in their order. */
  function MessagesWithout(messages: seq<Message>, messageId: string): (r: seq<Message>)
    ensures forall i :: 0 <= i < |r| ==> r[i].id != messageId
    ensures forall m :: m in r <==> m in messages && m.id != messageId
  {
    FilterMembers(messages, (m: Message) => m.id != messageId);
    Filter(messages, (m: Message) => m.id != messageId)
  }

  /** `deleteMessage`'s map: every message with the id leaves every session with the session id;
      the number, order, ids and names of the sessions and the other sessions stay. */
  function Deleted(sessions: seq<ChatSession>, sessionId: string, messageId: string): (r: seq<ChatSession>)
    ensures |r| == |sessions|
    ensures forall i :: 0 <= i < |r| ==> r[i].id == sessions[i].id && r[i].name == sessions[i].name
    ensures forall i :: 0 <= i < |r| && sessions[i].id == sessionId ==> r[i].messages == MessagesWithout(sessions[i].messages, messageId)
    ensures forall i :: 0 <= i < |r| && sessions[i].id != sessionId ==> r[i] == sessions[i]
  {
    seq(|sessions|, i requires 0 <= i < |sessions| =>
      if sessions[i].id == sessionId then sessions[i].(messages := MessagesWithout(sessions[i].messages, messageId))
      else sessions[i])
  }

  /** No message of a session with the session id carries the message id. */
  predicate MessageIdFree(sessions: seq<ChatSession>, sessionId: string, messageId: string) {
    forall i, j :: 0 <= i < |sessions| && sessions[i].id == sessionId && 0 <= j < |sessions[i].messages|
                   ==> sessions[i].messages[j].id != messageId
  }

  /** A message appended under a fresh id and then deleted leaves the sessions as they were. */
  lemma AppendThenDelete(sessions: seq<ChatSession>, sessionId: string, m: Message)
    requires MessageIdFree(sessions, sessionId, m.id)
    ensures Deleted(Appended(sessions, sessionId, m), sessionId, m.id) == sessions
  {
    var r := Deleted(Appended(sessions, sessionId, m), sessionId, m.id);
    forall i | 0 <= i < |sessions| ensures r[i] == sessions[i] {
      if sessions[i].id == sessionId {
        var keep := (x: Message) => x.id != m.id;
        var ms := sessions[i].messages;
        FilterAppend(ms, [m], keep);
        assert Filter([m], keep) == [];
        assert forall j :: 0 <= j < |ms| ==> keep(ms[j]);
        assert Filter(ms, keep) == ms;
        assert ms + [] == ms;
      }
    }
  }

  /** The first session with the id, `sessions.find(s => s.id === currentSessionId)`; no id
      finds nothing. */
  function FindSession(sessions: seq<ChatSession>, id: Option<string>): (r: Option<ChatSession>)
    ensures r.Some? ==> id.Some? && r.value in sessions && r.value.id == id.value
    ensures r.None? <==> id.None? || forall i :: 0 <= i < |sessions| ==> sessions[i].id != id.value
  {
    if id.None? || sessions == [] then None
    else if sessions[0].id == id.value then Some(sessions[0])
    else
      var rest := FindSession(sessions[1..], id);
      assert forall i :: 1 <= i < |sessions| ==> sessions[i] == sessions[1..][i - 1];
      rest
  }

  /** A session added under an id no session has is the one found by that id. */
  lemma {:induction false} FindAdded(sessions: seq<ChatSession>, s: ChatSession)
    requires forall i :: 0 <= i < |sessions| ==> sessions[i].id != s.id
    ensures FindSession(sessions + [s], Some(s.id)) == Some(s)
  {
    if sessions != [] {
      assert (sessions + [s])[1..] == sessions[1..] + [s];
      FindAdded(sessions[1..], s);
    } else {
      assert sessions + [s] == [s];
    }
  }

  class ChatStore {
    var sessions: seq<ChatSession>
    var currentSessionId: Option<string>

    /** The initial state: the default session is the only one, and it is current. */
    constructor (now: int)
      ensures sessions == InitialSessions(now) && currentSessionId == Some(DefaultSessionId)
    {
      sessions := InitialSessions(now);
      currentSessionId := Some(DefaultSessionId);
    }

    method SetCurrentSession(id: string)
      modifies this
      ensures currentSessionId == Some(id) && sessions == old(sessions)
    {
      currentSessionId := Some(id);
    }

    /** `addSession(name)`: an empty session, whose id is the current time, goes last and
        becomes current. */
    method AddSession(name: string, now: nat)
      modifies this
      ensures sessions == old(sessions) + [ChatSession(NatToString(now), name, [])]
      ensures currentSessionId == Some(NatToString(now))
    {
      var id := NatToString(now);
      sessions := sessions + [ChatSession(id, name, [])];
      currentSessionId := Some(id);
    }

    method AddMessage(sessionId: string, m: Message)
      modifies this
      ensures sessions == Appended(old(sessions), sessionId, m)
      ensures currentSessionId == old(currentSessionId)
    {
      sessions := Appended(sessions, sessionId, m);
    }

    method DeleteMessage(sessionId: string, messageId: string)
      modifies this
      ensures sessions == Deleted(old(sessions), sessionId, messageId)
      ensures currentSessionId == old(currentSessionId)
    {
      sessions := Deleted(sessions, sessionId, messageId);
    }

    /** The session the panel shows. */
    function CurrentSession(): (r: Option<ChatSession>)
      reads this
      ensures r == FindSession(sessions, currentSessionId)
    {
      FindSession(sessions, currentSessionId)
    }
  }
}
