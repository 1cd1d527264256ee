/**
 * The prompt store: the list of saved prompts and the global prompt with its switch.  Each
 * action replaces the store's state.  `Date.now()` is a parameter; the copies written to the
 * host (`savePrompts`, `localStorage`) are not part of this model.
 */
module PromptStore {
  import opened Wrappers
  import opened Text
  import opened Filters

  datatype Prompt = Prompt(id: string, title: string, content: string)

  const DefaultPrompts := [
    Prompt("1", "翻译助手", "请将以下内容翻译成中文：\n\n"),
    Prompt("2", "代码优化", "请帮我优化以下代码，提高性能和可读性：\n\n```\n\n```"),
    Prompt("3", "写作助手", "请用以下关键词写一篇短文："),
    Prompt("4", "总结内容", "请帮我总结以下内容的要点："),
    Prompt("5", "技术解释", "请用通俗易懂的语言解释什么是：")
  ]

  const DefaultGlobalPrompt := "你是一个有帮助的AI助手，请用简洁专业的语言回答我的问题。"

  /** No prompt in the list carries the id. */
  predicate IdAbsent(prompts: seq<Prompt>, id: string) {
    forall i :: 0 <= i < |prompts| ==> prompts[i].id != id
  }

  /** `updatePrompt`'s map: every prompt with the id gets the new title and content; ids, the
      other prompts, the length and the order stay. */
  function Updated(prompts: seq<Prompt>, id: string, title: string, content: string): (r: seq<Prompt>)
    ensures |r| == |prompts|
    ensures forall i :: 0 <= i < |r| ==> r[i].id == prompts[i].id
    ensures forall i :: 0 <= i < |r| && prompts[i].id == id ==> r[i].title == title && r[i].content == content
    ensures forall i :: 0 <= i < |r| && prompts[i].id != id ==> r[i] == prompts[i]
  {
    seq(|prompts|, i requires 0 <= i < |prompts| =>
      if prompts[i].id == id then prompts[i].(title := title, content := content) else prompts[i])
  }

  /** `deletePrompt`'s filter: the prompts with another id, in their order. */
  function Without(prompts: seq<Prompt>, id: string): (r: seq<Prompt>)
    ensures IdAbsent(r, id)
    ensures forall p :: p in r <==> p in prompts && p.id != id
    ensures IdAbsent(prompts, id) ==> r == prompts
  {
    FilterMembers(prompts, (p: Prompt) => p.id != id);
    Filter(prompts, (p: Prompt) => p.id != id)
  }

  /** The index of the first prompt with the id, or the length when there is none. */
  function FindIndex(prompts: seq<Prompt>, id: string): (i: nat)
    ensures i <= |prompts| && IdAbsent(prompts[..i], id)
    ensures i < |prompts| ==> prompts[i].id == id
    ensures i == |prompts| <==> IdAbsent(prompts, id)
  {
    if prompts == [] then 0
    else if prompts[0].id == id then 0
    else
      var j := FindIndex(prompts[1..], id);
      assert forall k :: 1 <= k < |prompts| ==> prompts[k] == prompts[1..][k - 1];
      1 + j
  }

  /** `getPrompt`'s `find`: the first prompt with the id, or nothing. */
  function Find(prompts: seq<Prompt>, id: string): (r: Option<Prompt>)
    ensures r.None? <==> IdAbsent(prompts, id)
    ensures r.Some? ==> r.value.id == id && r.value == prompts[FindIndex(prompts, id)]
                        && IdAbsent(prompts[..FindIndex(prompts, id)], id)
  {
    var i := FindIndex(prompts, id);
    if i < |prompts| then Some(prompts[i]) else None
  }

  /** A prompt added under an id no prompt has is found by it, and deleting it restores the list. */
  lemma AddThenDelete(prompts: seq<Prompt>, p: Prompt)
    requires IdAbsent(prompts, p.id)
    ensures Find(prompts + [p], p.id) == Some(p)
    ensures Without(prompts + [p], p.id) == prompts
  {
    var keep := (q: Prompt) => q.id != p.id;
    FilterAppend(prompts, [p], keep);
    assert Filter([p], keep) == [];
    assert Filter(prompts, keep) == prompts;
    assert (prompts + [p])[..|prompts|] == prompts;
  }

  /** After an update, the prompt found by the id is the updated one. */
  lemma UpdateThenGet(prompts: seq<Prompt>, id: string, title: string, content: string)
    ensures Find(Updated(prompts, id, title, content), id)
            == if IdAbsent(prompts, id) then None else Some(Prompt(id, title, content))
  {
    var r := Updated(prompts, id, title, content);
    if !IdAbsent(prompts, id) {
      var i := FindIndex(prompts, id);
      forall k | 0 <= k < i ensures r[..i][k].id != id {
        assert prompts[..i][k] == prompts[k];
      }
      assert FindIndex(r, id) <= i;
      assert IdAbsent(prompts[..FindIndex(r, id)], id) by {
        forall k | 0 <= k < FindIndex(r, id) ensures prompts[..FindIndex(r, id)][k].id != id {
          assert r[..FindIndex(r, id)][k] == r[k];
        }
      }
      assert FindIndex(r, id) == i;
    }
  }

  /** After a delete, no prompt is found by the id, and deleting again changes nothing. */
  lemma DeleteThenGet(prompts: seq<Prompt>, id: string)
    ensures Find(Without(prompts, id), id) == None
    ensures Without(Without(prompts, id), id) == Without(prompts, id)
  {
  }

  class PromptStore {
    var prompts: seq<Prompt>
    var globalPrompt: string
    var useGlobalPrompt: bool

    constructor ()
      ensures prompts == DefaultPrompts && globalPrompt == DefaultGlobalPrompt && !useGlobalPrompt
    {
      prompts := DefaultPrompts;
      globalPrompt := DefaultGlobalPrompt;
      useGlobalPrompt := false;
    }

    /** `addPrompt(title, content)`: one prompt, whose id is the current time, goes last. */
    method AddPrompt(title: string, content: string, now: nat)
      modifies this
      ensures prompts == old(prompts) + [Prompt(NatToString(now), title, content)]
      ensures globalPrompt == old(globalPrompt) && useGlobalPrompt == old(useGlobalPrompt)
    {
      prompts := prompts + [Prompt(NatToString(now), title, content)];
    }

    method UpdatePrompt(id: string, title: string, content: string)
      modifies this
      ensures prompts == Updated(old(prompts), id, title, content)
      ensures globalPrompt == old(globalPrompt) && useGlobalPrompt == old(useGlobalPrompt)
    {
      prompts := Updated(prompts, id, title, content);
    }

    method DeletePrompt(id: string)
      modifies this
      ensures prompts == Without(old(prompts), id)
      ensures globalPrompt == old(globalPrompt) && useGlobalPrompt == old(useGlobalPrompt)
    {
      prompts := Without(prompts, id);
    }

    function GetPrompt(id: string): (r: Option<Prompt>)
      reads this
      ensures r == Find(prompts, id)
    {
      Find(prompts, id)
    }

    /** `initPrompts(list)`: only a non-empty list replaces the prompts. */
    method InitPrompts(given: seq<Prompt>)
      modifies this
      ensures prompts == if given != [] then given else old(prompts)
      ensures globalPrompt == old(globalPrompt) && useGlobalPrompt == old(useGlobalPrompt)
    {
      if |given| > 0 {
        prompts := given;
      }
    }

    method SetGlobalPrompt(content: string)
      modifies this
      ensures globalPrompt == content
      ensures prompts == old(prompts) && useGlobalPrompt == old(useGlobalPrompt)
    {
      globalPrompt := content;
    }

    method ToggleGlobalPrompt()
      modifies this
      ensures useGlobalPrompt == !old(useGlobalPrompt)
      ensures prompts == old(prompts) && globalPrompt == old(globalPrompt)
    {
      useGlobalPrompt := !useGlobalPrompt;
    }

    method SetUseGlobalPrompt(use: bool)
      modifies this
      ensures useGlobalPrompt == use
      ensures prompts == old(prompts) && globalPrompt == old(globalPrompt)
    {
      useGlobalPrompt := use;
    }
  }
}
