/**
 * The per-session registry of in-flight requests: a map from session id to the abort
 * controllers of that session's requests, in the order they were added.  A controller is
 * identified by a handle; aborting it is recorded in the set `aborted`.
 */
module ActiveRequests {

  /** The identity of one `AbortController`. */
  type Handle = nat

  /** The controllers listed under `s`, or none when `s` has no entry. */
  function Listed(m: map<string, seq<Handle>>, s: string): seq<Handle> {
    if s in m then m[s] else []
  }

  /** Every controller listed under any session. */
  function AllListed(m: map<string, seq<Handle>>): set<Handle> {
    set s, h | s in m && h in m[s] :: h
  }

  /** `addActiveRequest(s, h)`: the session's list is created when missing and `h` goes last. */
  function AddSpec(m: map<string, seq<Handle>>, s: string, h: Handle): (r: map<string, seq<Handle>>)
    ensures r.Keys == m.Keys + {s}
    ensures r[s] == Listed(m, s) + [h]
    ensures forall k :: k in m && k != s ==> r[k] == m[k]
  {
    m[s := Listed(m, s) + [h]]
  }

  /** The index of the first `h` in `xs`, or `|xs|` when there is none (`indexOf`). */
  function FirstIndex(xs: seq<Handle>, h: Handle): (i: nat)
    ensures i <= |xs| && h !in xs[..i]
    ensures i < |xs| ==> xs[i] == h
    ensures i == |xs| <==> h !in xs
  {
    if xs == [] then 0
    else if xs[0] == h then 0
    else
      assert xs[1..][..FirstIndex(xs[1..], h)] == xs[1..1 + FirstIndex(xs[1..], h)];
      1 + FirstIndex(xs[1..], h)
  }

  /** `indexOf` followed by `splice(index, 1)` when found. */
  function RemoveFirst(xs: seq<Handle>, h: Handle): seq<Handle> {
    var i := FirstIndex(xs, h);
    if i < |xs| then xs[..i] + xs[i + 1..] else xs
  }

  /** Exactly one occurrence of `h` disappears when there is one, and otherwise nothing changes. */
  lemma RemoveFirstCounts(xs: seq<Handle>, h: Handle)
    ensures h in xs ==> multiset(RemoveFirst(xs, h)) == multiset(xs) - multiset{h}
    ensures h !in xs ==> RemoveFirst(xs, h) == xs
    ensures |RemoveFirst(xs, h)| == if h in xs then |xs| - 1 else |xs|
  {
    var i := FirstIndex(xs, h);
    if i < |xs| {
      assert xs == xs[..i] + [xs[i]] + xs[i + 1..];
    }
  }

  /** `removeActiveRequest(s, h)`: only the first occurrence of `h` in `s`'s list goes; an unknown
      session is left alone. */
  function RemoveSpec(m: map<string, seq<Handle>>, s: string, h: Handle): (r: map<string, seq<Handle>>)
    ensures r.Keys == m.Keys
    ensures s in m ==> r[s] == RemoveFirst(m[s], h)
    ensures forall k :: k in m && k != s ==> r[k] == m[k]
  {
    if s in m then m[s := RemoveFirst(m[s], h)] else m
  }

  /** `cancelRequests(s)`: the session's list becomes empty when it had any controller; an unknown
      or empty session is left alone. */
  function CancelSpec(m: map<string, seq<Handle>>, s: string): (r: map<string, seq<Handle>>)
    ensures r.Keys == m.Keys
    ensures s in m ==> r[s] == []
    ensures forall k :: k in m && k != s ==> r[k] == m[k]
  {
    if s in m && |m[s]| > 0 then m[s := []] else m
  }

  /** A controller added to a session and then removed leaves the session's list as it was, when
      it was not already listed there. */
  lemma AddThenRemove(m: map<string, seq<Handle>>, s: string, h: Handle)
    requires h !in Listed(m, s)
    ensures RemoveSpec(AddSpec(m, s, h), s, h) == m[s := Listed(m, s)]
  {
    var xs := Listed(m, s);
    var i := FirstIndex(xs + [h], h);
    assert (xs + [h])[..|xs|] == xs;
    assert i == |xs|;
    assert RemoveFirst(xs + [h], h) == xs;
  }

  /** Cancelling a session twice is the same as cancelling it once, and cancelling an unknown or
      empty session changes nothing. */
  lemma CancelIdempotent(m: map<string, seq<Handle>>, s: string)
    ensures CancelSpec(CancelSpec(m, s), s) == CancelSpec(m, s)
    ensures Listed(CancelSpec(m, s), s) == []
    ensures Listed(m, s) == [] ==> CancelSpec(m, s) == m
  {
  }

  /** The registry object shared by the services. */
  class RequestRegistry {
    var active: map<string, seq<Handle>>
    var aborted: set<Handle>

    constructor ()
      ensures active == map[] && aborted == {}
    {
      active := map[];
      aborted := {};
    }

    method Add(s: string, h: Handle)
      modifies this
      ensures active == AddSpec(old(active), s, h) && aborted == old(aborted)
    {
      if s !in active {
        active := active[s := []];
      }
      active := active[s := active[s] + [h]];
    }

    method Remove(s: string, h: Handle)
      modifies this
      ensures active == RemoveSpec(old(active), s, h) && aborted == old(aborted)
    {
      if s !in active {
        return;
      }
      var controllers := active[s];
      var index := FirstIndex(controllers, h);
      if index < |controllers| {
        active := active[s := controllers[..index] + controllers[index + 1..]];
      }
    }

    /** Every controller of the session is aborted, then the list is emptied. */
    method Cancel(s: string)
      modifies this
      ensures active == CancelSpec(old(active), s)
      ensures aborted == old(aborted) + set h | h in Listed(old(active), s)
    {
      if s !in active {
        return;
      }
      var controllers := active[s];
      if |controllers| > 0 {
        var i := 0;
        while i < |controllers|
          invariant 0 <= i <= |controllers| && active == old(active)
          invariant aborted == old(aborted) + set h | h in controllers[..i]
        {
          assert controllers[..i + 1] == controllers[..i] + [controllers[i]];
          aborted := aborted + {controllers[i]};
          i := i + 1;
        }
        assert controllers[..i] == controllers;
        active := active[s := []];
      }
    }

    /** Every listed controller of every session is aborted, then the map is cleared. */
    method CancelAll()
      modifies this
      ensures active == map[]
      ensures aborted == old(aborted) + AllListed(old(active))
    {
      var pending := active.Keys;
      while pending != {}
        invariant pending <= active.Keys && active == old(active)
        invariant aborted == old(aborted) + set s, h | s in active.Keys - pending && h in active[s] :: h
        decreases pending
      {
        var s :| s in pending;
        var controllers := active[s];
        var i := 0;
        while i < |controllers|
          invariant 0 <= i <= |controllers| && active == old(active)
          invariant aborted == old(aborted) + (set t, h | t in active.Keys - pending && h in active[t] :: h)
                                            + set h | h in controllers[..i]
        {
          assert controllers[..i + 1] == controllers[..i] + [controllers[i]];
          aborted := aborted + {controllers[i]};
          i := i + 1;
        }
        assert controllers[..i] == controllers;
        pending := pending - {s};
      }
      active := map[];
    }
  }
}
