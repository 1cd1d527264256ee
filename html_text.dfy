/**
 * The regular-expression replacements the search code applies to HTML, written as string
 * functions with the matching rules of a global JavaScript `replace`: the leftmost match
 * wins, a lazy `[\s\S]*?` stops at the first closing text, a `[^>]*` runs to the first `>`,
 * and scanning resumes after each match.  The `/i` patterns only hold ASCII letters, so
 * ignoring case is ASCII lower-casing.
 */
module HtmlText {
  import opened Wrappers
  import opened Text

  /** A one-character pattern occurs exactly where that character is. */
  lemma CharOccurs(s: string, c: char, k: int)
    ensures OccursAt(s, [c], k) <==> 0 <= k < |s| && s[k] == c
  {
    if 0 <= k < |s| {
      assert s[k..k + 1] == [s[k]];
    }
  }

  /** The first `c` at or after `from`, when `s[from..i]` holds none and `s[i]` is one. */
  lemma FirstChar(s: string, c: char, from: nat, i: nat)
    requires from <= i < |s| && s[i] == c
    requires forall k :: from <= k < i ==> s[k] != c
    ensures IndexOf(s, [c], from) == i
  {
    CharOccurs(s, c, i);
    forall k | from <= k < i ensures !OccursAt(s, [c], k) {
      CharOccurs(s, c, k);
    }
    IndexOfIs(s, [c], from, i);
  }

  // ---- `/<[^>]*>/g` ----

  /** `html.replace(/<[^>]*>/g, '')`: every `<` with a `>` somewhere after it is removed up to
      and including the first such `>`; nothing is trimmed. */
  function StripTags(s: string): (r: string)
    ensures |r| <= |s|
  {
    if s == [] then []
    else if s[0] == '<' && IndexOf(s, ">", 1) != -1 then StripTags(s[IndexOf(s, ">", 1) + 1..])
    else [s[0]] + StripTags(s[1..])
  }

  /** No `<` is followed, anywhere later, by a `>`. */
  predicate NoTagSpan(r: string) {
    forall i, j :: 0 <= i < j < |r| && r[i] == '<' ==> r[j] != '>'
  }

  /** Stripping only removes characters. */
  lemma {:induction false} StripTagsChars(s: string)
    ensures forall c :: c in StripTags(s) ==> c in s
  {
    if s != [] {
      if s[0] == '<' && IndexOf(s, ">", 1) != -1 {
        StripTagsChars(s[IndexOf(s, ">", 1) + 1..]);
      } else {
        StripTagsChars(s[1..]);
      }
    }
  }

  /** After stripping, no tag is left: no `<` has a `>` after it. */
  lemma {:induction false} StripTagsClean(s: string)
    ensures NoTagSpan(StripTags(s))
  {
    if s != [] {
      var r := StripTags(s);
      if s[0] == '<' && IndexOf(s, ">", 1) != -1 {
        StripTagsClean(s[IndexOf(s, ">", 1) + 1..]);
      } else {
        var rest := StripTags(s[1..]);
        StripTagsClean(s[1..]);
        if s[0] == '<' {
          assert '>' !in s[1..] by {
            forall k | 0 <= k < |s[1..]| ensures s[1..][k] != '>' {
              CharOccurs(s, '>', k + 1);
            }
          }
          StripTagsChars(s[1..]);
        }
        forall i, j | 0 <= i < j < |r| && r[i] == '<' ensures r[j] != '>' {
          assert r[j] == rest[j - 1];
          if i > 0 {
            assert r[i] == rest[i - 1];
          } else {
            assert rest[j - 1] in rest;
          }
        }
      }
    }
  }

  /** Text without `<` passes through unchanged, surrounding spaces included. */
  lemma {:induction false} StripTagsPlain(s: string)
    requires '<' !in s
    ensures StripTags(s) == s
  {
    if s != [] {
      StripTagsPlain(s[1..]);
    }
  }

  /** A tag `<…>` at the front is dropped whole. */
  lemma StripTagsDropsTag(tag: string, rest: string)
    requires '>' !in tag
    ensures StripTags("<" + tag + ">" + rest) == StripTags(rest)
  {
    var s := "<" + tag + ">" + rest;
    forall k | 1 <= k < 1 + |tag| ensures s[k] != '>' {
      assert s[k] == tag[k - 1];
    }
    FirstChar(s, '>', 1, 1 + |tag|);
    assert s[2 + |tag|..] == rest;
  }

  // ---- case-insensitive matching ----

  /** Character `k` of `pat` (lower case) matches character `i + k` of `s`, ignoring ASCII case. */
  predicate CharMatches(s: string, pat: string, i: int, k: int) {
    0 <= i + k < |s| && 0 <= k < |pat| && LowerChar(s[i + k]) == pat[k]
  }

  /** `pat` (lower case) occurs at `i` in `s`, ignoring ASCII case. */
  predicate MatchesAt(s: string, pat: string, i: int) {
    0 <= i && i + |pat| <= |s| && forall k :: 0 <= k < |pat| ==> CharMatches(s, pat, i, k)
  }

  /** The first case-insensitive occurrence of `pat` at or after `from`, or -1. */
  function IndexOfIgnoreCase(s: string, pat: string, from: nat): (r: int)
    ensures r == -1 || (from <= r && r + |pat| <= |s|)
    decreases |s| - from
  {
    if from + |pat| > |s| then -1
    else if MatchesAt(s, pat, from) then from
    else IndexOfIgnoreCase(s, pat, from + 1)
  }

  lemma {:induction false} IndexOfIgnoreCaseIs(s: string, pat: string, from: nat, i: nat)
    requires from <= i && MatchesAt(s, pat, i)
    requires forall k :: from <= k < i ==> !MatchesAt(s, pat, k)
    ensures IndexOfIgnoreCase(s, pat, from) == i
    decreases i - from
  {
    if from < i {
      IndexOfIgnoreCaseIs(s, pat, from + 1, i);
    }
  }

  lemma LowerFixesChar(c: char, d: char)
    requires !('A' <= d <= 'Z' || 'a' <= d <= 'z')
    ensures LowerChar(c) == d <==> c == d
  {
  }

  /** A pattern that starts with a character other than a letter can only match where that
      character is. */
  lemma MatchNeedsFirst(s: string, pat: string, i: int)
    requires pat != [] && !('A' <= pat[0] <= 'Z' || 'a' <= pat[0] <= 'z')
    requires MatchesAt(s, pat, i)
    ensures s[i] == pat[0]
  {
    assert CharMatches(s, pat, i, 0);
    LowerFixesChar(s[i], pat[0]);
  }

  /** A lower-case word: every character is its own lower case. */
  predicate LowerWord(name: string) {
    forall k :: 0 <= k < |name| ==> LowerChar(name[k]) == name[k]
  }

  lemma LowerTag(name: string)
    requires LowerWord(name)
    ensures LowerWord("<" + name) && LowerWord("</" + name + ">")
  {
    assert forall k :: 1 <= k < 1 + |name| ==> ("<" + name)[k] == name[k - 1];
    assert forall k :: 2 <= k < 2 + |name| ==> ("</" + name + ">")[k] == name[k - 2];
  }

  /** One differing character rules a match out. */
  lemma Mismatch(s: string, pat: string, i: nat, k: nat)
    requires k < |pat| && i + k < |s| && LowerChar(s[i + k]) != pat[k]
    ensures !MatchesAt(s, pat, i)
  {
    assert !CharMatches(s, pat, i, k);
  }

  /** A lower-case pattern matches where it literally stands. */
  lemma MatchesLiteral(pre: string, pat: string, post: string)
    requires LowerWord(pat)
    ensures MatchesAt(pre + pat + post, pat, |pre|)
  {
    var s := pre + pat + post;
    forall k | 0 <= k < |pat| ensures CharMatches(s, pat, |pre|, k) {
      assert s[|pre| + k] == pat[k];
    }
  }

  /** A pattern that starts with a non-letter matches nowhere that character is absent. */
  lemma NoMatchWithoutFirst(s: string, pat: string, from: nat, to: nat)
    requires pat != [] && !('A' <= pat[0] <= 'Z' || 'a' <= pat[0] <= 'z')
    requires to <= |s| && forall i :: from <= i < to ==> s[i] != pat[0]
    ensures forall i :: from <= i < to ==> !MatchesAt(s, pat, i)
  {
    forall i | from <= i < to ensures !MatchesAt(s, pat, i) {
      if MatchesAt(s, pat, i) {
        MatchNeedsFirst(s, pat, i);
      }
    }
  }

  // ---- `/<name[^>]*>[\s\S]*?<\/name>/gi` ----

  /** The element `<name…>…</name>` at the front of `s`, ignoring ASCII case: where its contents
      start and end, or `None` when there is none. */
  function ElementAt(s: string, name: string): (r: Option<(nat, nat)>)
    ensures r.Some? ==> |name| + 2 <= r.value.0 <= r.value.1 && r.value.1 + |name| + 3 <= |s|
  {
    if !MatchesAt(s, "<" + name, 0) then None
    else
      var j := IndexOf(s, ">", |name| + 1);
      if j == -1 then None
      else
        var k := IndexOfIgnoreCase(s, "</" + name + ">", j + 1);
        if k == -1 then None else Some((j + 1, k))
  }

  /** No element starts anywhere but at a `<`. */
  lemma ElementNeedsLt(s: string, name: string)
    requires s == [] || s[0] != '<'
    ensures ElementAt(s, name) == None
  {
    if MatchesAt(s, "<" + name, 0) {
      MatchNeedsFirst(s, "<" + name, 0);
    }
  }

  /** An opening tag `<name…` at the front of a text matches, ignoring case. */
  lemma OpenTagMatches(s: string, name: string, more: string)
    requires s == "<" + name + more
    requires LowerWord(name)
    ensures MatchesAt(s, "<" + name, 0)
  {
    forall i | 0 <= i < 1 + |name| ensures CharMatches(s, "<" + name, 0, i) {
      if i > 0 {
        assert s[i] == name[i - 1];
      }
    }
  }

  /** The `>` that closes an opening tag `<name attrs>` is the first one after the name. */
  lemma OpenTagEnd(s: string, name: string, attrs: string, more: string)
    requires s == "<" + name + attrs + ">" + more
    requires '>' !in attrs
    ensures IndexOf(s, ">", |name| + 1) == |name| + 1 + |attrs|
  {
    var j := 1 + |name| + |attrs|;
    forall i | 1 + |name| <= i < j ensures s[i] != '>' {
      assert s[i] == attrs[i - 1 - |name|];
    }
    FirstChar(s, '>', 1 + |name|, j);
  }

  /** The first closing tag after `head` when `body` holds no `<`. */
  lemma CloseTagAfter(s: string, head: string, body: string, close: string, rest: string, from: nat)
    requires s == head + body + close + rest && from == |head|
    requires LowerWord(close) && close != [] && close[0] == '<' && '<' !in body
    ensures IndexOfIgnoreCase(s, close, from) == from + |body|
  {
    var k := |head| + |body|;
    assert s == (head + body) + close + rest;
    MatchesLiteral(head + body, close, rest);
    forall i | |head| <= i < k ensures s[i] != '<' {
      assert s[i] == body[i - |head|];
    }
    NoMatchWithoutFirst(s, close, |head|, k);
    IndexOfIgnoreCaseIs(s, close, |head|, k);
  }

  /** Where the element that starts `<name attrs>body</name>rest` has its contents. */
  lemma ElementAtIs(s: string, name: string, attrs: string, body: string, rest: string)
    requires s == "<" + name + attrs + ">" + body + "</" + name + ">" + rest
    requires LowerWord(name)
    requires '>' !in attrs && '<' !in body
    ensures ElementAt(s, name) == Some((|name| + |attrs| + 2, |name| + |attrs| + 2 + |body|))
  {
    ElementOpenTag(s, name, attrs, body, rest);
    ElementCloseTag(s, name, attrs, body, rest);
    ElementAtFound(s, name, |name| + |attrs| + 1, |name| + |attrs| + 2 + |body|);
  }

  /** The opening tag `<name attrs>` matches at the front and ends at the first `>` after the name. */
  lemma ElementOpenTag(s: string, name: string, attrs: string, body: string, rest: string)
    requires s == "<" + name + attrs + ">" + body + "</" + name + ">" + rest
    requires LowerWord(name) && '>' !in attrs
    ensures MatchesAt(s, "<" + name, 0)
    ensures IndexOf(s, ">", |name| + 1) == |name| + |attrs| + 1
  {
    ElementShape(s, name, attrs, body, rest);
    var more := body + ("</" + name + ">") + rest;
    OpenTagMatches(s, name, attrs + ">" + more);
    OpenTagEnd(s, name, attrs, more);
  }

  /** The closing tag of `<name attrs>body</name>rest` is the first one after the opening tag. */
  lemma ElementCloseTag(s: string, name: string, attrs: string, body: string, rest: string)
    requires s == "<" + name + attrs + ">" + body + "</" + name + ">" + rest
    requires LowerWord(name) && '<' !in body
    ensures IndexOfIgnoreCase(s, "</" + name + ">", |name| + |attrs| + 2) == |name| + |attrs| + 2 + |body|
  {
    ElementShape(s, name, attrs, body, rest);
    LowerTag(name);
    CloseTagAfter(s, "<" + name + attrs + ">", body, "</" + name + ">", rest, |name| + |attrs| + 2);
  }

  /** The two ways of grouping an element's text that the lemmas about it use. */
  lemma ElementShape(s: string, name: string, attrs: string, body: string, rest: string)
    requires s == "<" + name + attrs + ">" + body + "</" + name + ">" + rest
    ensures s == "<" + name + attrs + ">" + (body + ("</" + name + ">") + rest)
    ensures s == "<" + name + (attrs + ">" + (body + ("</" + name + ">") + rest))
    ensures s == ("<" + name + attrs + ">") + body + ("</" + name + ">") + rest
  {
  }

  lemma ElementAtFound(s: string, name: string, j: nat, k: nat)
    requires MatchesAt(s, "<" + name, 0)
    requires IndexOf(s, ">", |name| + 1) == j
    requires IndexOfIgnoreCase(s, "</" + name + ">", j + 1) == k
    ensures ElementAt(s, name) == Some((j + 1, k))
  {
  }

  /** `html.replace(/<name[^>]*>[\s\S]*?<\/name>/gi, '')` for a lower-case `name`. */
  function RemoveElements(s: string, name: string): (r: string)
    ensures |r| <= |s|
  {
    if s == [] then []
    else match ElementAt(s, name)
      case Some((_, b)) => RemoveElements(s[b + |name| + 3..], name)
      case None => [s[0]] + RemoveElements(s[1..], name)
  }

  /** Text without `<` holds no element. */
  lemma {:induction false} RemoveElementsPlain(s: string, name: string)
    requires '<' !in s
    ensures RemoveElements(s, name) == s
  {
    if s != [] {
      ElementNeedsLt(s, name);
      RemoveElementsPlain(s[1..], name);
    }
  }

  /** An element with its attributes and contents is removed whole, when its contents hold no
      `<` and its attributes no `>`. */
  lemma ElementDropped(name: string, attrs: string, body: string, rest: string)
    requires LowerWord(name)
    requires '>' !in attrs && '<' !in body
    ensures RemoveElements("<" + name + attrs + ">" + body + "</" + name + ">" + rest, name)
            == RemoveElements(rest, name)
  {
    var s := "<" + name + attrs + ">" + body + "</" + name + ">" + rest;
    ElementAtIs(s, name, attrs, body, rest);
    var b := |name| + |attrs| + 2 + |body|;
    assert s[b + |name| + 3..] == rest;
  }

  // ---- `/<name[^>]*>/gi` ----

  /** `html.replace(/<name[^>]*>/gi, '')` for a lower-case `name`: opening tags only. */
  function RemoveOpenTags(s: string, name: string): (r: string)
    ensures |r| <= |s|
  {
    if s == [] then []
    else if MatchesAt(s, "<" + name, 0) && IndexOf(s, ">", |name| + 1) != -1
    then RemoveOpenTags(s[IndexOf(s, ">", |name| + 1) + 1..], name)
    else [s[0]] + RemoveOpenTags(s[1..], name)
  }

  lemma {:induction false} RemoveOpenTagsPlain(s: string, name: string)
    requires '<' !in s
    ensures RemoveOpenTags(s, name) == s
  {
    if s != [] {
      if MatchesAt(s, "<" + name, 0) {
        MatchNeedsFirst(s, "<" + name, 0);
      }
      RemoveOpenTagsPlain(s[1..], name);
    }
  }

  /** An opening tag is dropped up to its first `>`. */
  lemma OpenTagDropped(name: string, attrs: string, rest: string)
    requires LowerWord(name) && '>' !in attrs
    ensures RemoveOpenTags("<" + name + attrs + ">" + rest, name) == RemoveOpenTags(rest, name)
  {
    var s := "<" + name + attrs + ">" + rest;
    var j := 1 + |name| + |attrs|;
    assert MatchesAt(s, "<" + name, 0) by {
      forall i | 0 <= i < 1 + |name| ensures CharMatches(s, "<" + name, 0, i) {
        if i > 0 {
          assert s[i] == name[i - 1];
        }
      }
    }
    forall i | 1 + |name| <= i < j ensures s[i] != '>' {
      assert s[i] == attrs[i - 1 - |name|];
    }
    FirstChar(s, '>', 1 + |name|, j);
    assert s[j + 1..] == rest;
  }

  // ---- `/\s+style="[^"]*"/gi` and `/\s+style='[^']*'/gi` ----

  /** The end of an attribute `<spaces>style=<q>…<q>` at the front of `s`, or -1. */
  function StyleAttrEnd(s: string, q: char): (r: int)
    ensures r == -1 || 0 < r <= |s|
  {
    if s == [] || !IsSpace(s[0]) then -1
    else
      var t := TrimStart(s);
      if !MatchesAt(t, "style=" + [q], 0) then -1
      else
        var e := IndexOf(t, [q], 7);
        if e == -1 then -1 else |s| - |t| + e + 1
  }

  /** Removes every inline `style` attribute quoted with `q`, with the spaces before it. */
  function RemoveStyleAttrs(s: string, q: char): (r: string)
    ensures |r| <= |s|
  {
    if s == [] then []
    else if StyleAttrEnd(s, q) != -1 then RemoveStyleAttrs(s[StyleAttrEnd(s, q)..], q)
    else [s[0]] + RemoveStyleAttrs(s[1..], q)
  }

  /** Without an `=` there is no attribute at the front. */
  lemma NoStyleAttrWithoutEq(s: string, q: char)
    requires '=' !in s
    ensures StyleAttrEnd(s, q) == -1
  {
    if s != [] && IsSpace(s[0]) {
      var t := TrimStart(s);
      TrimStartSpec(s);
      if |t| > 5 {
        assert t[5] == s[|s| - |t| + 5];
        Mismatch(t, "style=" + [q], 0, 5);
      }
    }
  }

  /** Text without `=` holds no attribute to remove. */
  lemma {:induction false} RemoveStyleAttrsPlain(s: string, q: char)
    requires '=' !in s
    ensures RemoveStyleAttrs(s, q) == s
  {
    if s != [] {
      NoStyleAttrWithoutEq(s, q);
      RemoveStyleAttrsPlain(s[1..], q);
      assert s == [s[0]] + s[1..];
    }
  }

  lemma {:induction false} TrimStartAfterSpaces(spaces: string, t: string)
    requires AllSpace(spaces) && t != [] && !IsSpace(t[0])
    ensures TrimStart(spaces + t) == t
  {
    if spaces != [] {
      assert (spaces + t)[1..] == spaces[1..] + t;
      TrimStartAfterSpaces(spaces[1..], t);
    }
  }

  /** Where the attribute `<spaces>style=<q>value<q>` ends. */
  lemma StyleAttrEndIs(spaces: string, value: string, q: char, rest: string)
    requires spaces != [] && AllSpace(spaces)
    requires q !in value && LowerChar(q) == q
    ensures StyleAttrEnd(spaces + "style=" + [q] + value + [q] + rest, q) == |spaces| + |value| + 8
  {
    var t := "style=" + [q] + value + [q] + rest;
    var s := spaces + t;
    assert s == spaces + "style=" + [q] + value + [q] + rest;
    TrimStartAfterSpaces(spaces, t);
    assert s[0] == spaces[0];
    assert MatchesAt(t, "style=" + [q], 0) by {
      forall i | 0 <= i < 7 ensures CharMatches(t, "style=" + [q], 0, i) {
        assert t[i] == ("style=" + [q])[i];
      }
    }
    forall i | 7 <= i < 7 + |value| ensures t[i] != q {
      assert t[i] == value[i - 7];
    }
    FirstChar(t, q, 7, 7 + |value|);
  }

  /** A style attribute is removed with the spaces before it. */
  lemma StyleAttrDropped(spaces: string, value: string, q: char, rest: string)
    requires spaces != [] && AllSpace(spaces)
    requires q !in value && LowerChar(q) == q
    ensures RemoveStyleAttrs(spaces + "style=" + [q] + value + [q] + rest, q) == RemoveStyleAttrs(rest, q)
  {
    var s := spaces + "style=" + [q] + value + [q] + rest;
    StyleAttrEndIs(spaces, value, q, rest);
    assert s[|spaces| + |value| + 8..] == rest;
  }

  // ---- `/<body[^>]*>([\s\S]*?)<\/body>/i` ----

  /** The inner text of the first `<body…>…</body>`, ignoring case, or `None`. */
  function Body(s: string): (r: Option<string>)
    ensures r.Some? ==> |r.value| <= |s|
  {
    if s == [] then None
    else match ElementAt(s, "body")
      case Some((a, b)) => Some(s[a..b])
      case None => Body(s[1..])
  }

  /** `bodyMatch ? bodyMatch[1] : html`. */
  function BodyContent(s: string): (r: string)
    ensures |r| <= |s|
  {
    Body(s).GetOr(s)
  }

  lemma {:induction false} BodyAbsent(s: string)
    requires '<' !in s
    ensures Body(s) == None
  {
    if s != [] {
      ElementNeedsLt(s, "body");
      BodyAbsent(s[1..]);
    }
  }

  /** Characters before the first `<` cannot start the body element. */
  lemma {:induction false} BodySkipsPlain(s: string, n: nat)
    requires n <= |s| && forall i :: 0 <= i < n ==> s[i] != '<'
    ensures Body(s) == Body(s[n..])
    decreases n
  {
    if n > 0 {
      ElementNeedsLt(s, "body");
      assert s[1..][n - 1..] == s[n..];
      BodySkipsPlain(s[1..], n - 1);
    }
  }

  lemma BodyTagsSplit(element: string, attrs: string, inner: string, post: string)
    requires element == "<body" + attrs + ">" + inner + "</body>" + post
    ensures element == "<" + "body" + attrs + ">" + inner + "</" + "body" + ">" + post
  {
    assert "<body" == "<" + "body" && "</body>" == "</" + "body" + ">";
  }

  /** A text that starts with a body element: its contents. */
  lemma BodyAtFront(element: string, attrs: string, inner: string, post: string)
    requires element == "<body" + attrs + ">" + inner + "</body>" + post
    requires '>' !in attrs && '<' !in inner
    ensures Body(element) == Some(inner)
  {
    BodyTagsSplit(element, attrs, inner, post);
    ElementAtIs(element, "body", attrs, inner, post);
    assert element[|attrs| + 6..|attrs| + 6 + |inner|] == inner;
  }

  /** When the text holds a body element, only its contents are kept. */
  lemma BodyFound(pre: string, attrs: string, inner: string, post: string)
    requires '<' !in pre && '>' !in attrs && '<' !in inner
    ensures Body(pre + "<body" + attrs + ">" + inner + "</body>" + post) == Some(inner)
  {
    var element := "<body" + attrs + ">" + inner + "</body>" + post;
    var s := pre + element;
    assert s == pre + "<body" + attrs + ">" + inner + "</body>" + post;
    BodySkipsPlain(s, |pre|);
    assert s[|pre|..] == element;
    BodyAtFront(element, attrs, inner, post);
  }

  // ---- `/\s+/g` → `' '`, `/\n+/g` → `'\n'`, then `trim()` ----

  /** `text.replace(/\s+/g, ' ')`: every run of whitespace becomes one space. */
  function Collapse(s: string): (r: string)
    ensures |r| <= |s|
  {
    if s == [] then []
    else if IsSpace(s[0]) then
      TrimStartSpec(s);
      [' '] + Collapse(TrimStart(s))
    else [s[0]] + Collapse(s[1..])
  }

  /** `text.replace(/\n+/g, '\n')`: every run of line feeds becomes one. */
  function SqueezeNewlines(s: string): (r: string)
    ensures |r| <= |s|
  {
    if s == [] then []
    else if s[0] == '\n' && |s| > 1 && s[1] == '\n' then SqueezeNewlines(s[1..])
    else [s[0]] + SqueezeNewlines(s[1..])
  }

  /** No two neighbouring characters are both whitespace. */
  predicate NoDoubleSpace(s: string) {
    forall i :: 0 <= i < |s| - 1 ==> !(IsSpace(s[i]) && IsSpace(s[i + 1]))
  }

  /** Whitespace-normalised text: no whitespace at either end and no run of two. */
  predicate Normalized(s: string) {
    NoDoubleSpace(s) && (s == [] || (!IsSpace(s[0]) && !IsSpace(s[|s| - 1])))
  }

  lemma {:induction false} CollapseShape(s: string)
    ensures var r := Collapse(s);
            && NoDoubleSpace(r)
            && '\n' !in r
            && (s != [] && !IsSpace(s[0]) ==> r != [] && r[0] == s[0])
  {
    if s != [] {
      var r := Collapse(s);
      if IsSpace(s[0]) {
        var t := TrimStart(s);
        TrimStartSpec(s);
        assert |t| < |s|;
        CollapseShape(t);
        assert r == [' '] + Collapse(t);
        forall i | 0 <= i < |r| - 1 ensures !(IsSpace(r[i]) && IsSpace(r[i + 1])) {
          if i > 0 {
            assert r[i] == Collapse(t)[i - 1] && r[i + 1] == Collapse(t)[i];
          }
        }
      } else {
        CollapseShape(s[1..]);
        var rest := Collapse(s[1..]);
        assert r == [s[0]] + rest;
        forall i | 0 <= i < |r| - 1 ensures !(IsSpace(r[i]) && IsSpace(r[i + 1])) {
          if i > 0 {
            assert r[i] == rest[i - 1] && r[i + 1] == rest[i];
          }
        }
      }
    }
  }

  /** With no line feed in the text, the second replacement does nothing. */
  lemma {:induction false} SqueezeNoNewline(s: string)
    requires '\n' !in s
    ensures SqueezeNewlines(s) == s
  {
    if s != [] {
      SqueezeNoNewline(s[1..]);
    }
  }

  /** Trimming text without double whitespace gives normalised text. */
  lemma TrimNormalizes(s: string)
    requires NoDoubleSpace(s)
    ensures Normalized(Trim(s))
  {
    var a, b := TrimSlice(s);
    var t := Trim(s);
    forall i | 0 <= i < |t| - 1 ensures !(IsSpace(t[i]) && IsSpace(t[i + 1])) {
      assert t[i] == s[a + i] && t[i + 1] == s[a + i + 1];
    }
  }

  /** The whitespace clean-up that ends both text extractors. */
  function Tidy(s: string): (r: string)
    ensures |r| <= |s|
  {
    Trim(SqueezeNewlines(Collapse(s)))
  }

  lemma TidyNormalized(s: string)
    ensures Normalized(Tidy(s))
  {
    CollapseShape(s);
    SqueezeNoNewline(Collapse(s));
    TrimNormalizes(Collapse(s));
  }

  // ---- the two extractors ----

  /** `AbstractSearchService.extractTextFromHtml`. */
  function ExtractTextFromHtml(html: string): (r: string)
    ensures html == [] ==> r == []
    ensures |r| <= |html|
  {
    if html == [] then []
    else
      var noStyle := RemoveElements(html, "style");
      var noScript := RemoveElements(noStyle, "script");
      var noAttrs := RemoveStyleAttrs(RemoveStyleAttrs(noScript, '"'), '\'');
      Tidy(StripTags(BodyContent(noAttrs)))
  }

  /** `WebService.cleanHtmlAndExtractText`: the same, also dropping `<link>` tags. */
  function CleanHtmlAndExtractText(html: string): (r: string)
    ensures html == [] ==> r == []
    ensures |r| <= |html|
  {
    if html == [] then []
    else
      var noStyle := RemoveElements(html, "style");
      var noScript := RemoveElements(noStyle, "script");
      var noLinks := RemoveOpenTags(noScript, "link");
      var noAttrs := RemoveStyleAttrs(RemoveStyleAttrs(noLinks, '"'), '\'');
      Tidy(StripTags(BodyContent(noAttrs)))
  }

  /** Extracted text never starts or ends with whitespace and never holds two whitespace
      characters in a row. */
  lemma ExtractedNormalized(html: string)
    ensures Normalized(ExtractTextFromHtml(html))
    ensures Normalized(CleanHtmlAndExtractText(html))
  {
    if html != [] {
      var noStyle := RemoveElements(html, "style");
      var noScript := RemoveElements(noStyle, "script");
      TidyNormalized(StripTags(BodyContent(RemoveStyleAttrs(RemoveStyleAttrs(noScript, '"'), '\''))));
      var noLinks := RemoveOpenTags(noScript, "link");
      TidyNormalized(StripTags(BodyContent(RemoveStyleAttrs(RemoveStyleAttrs(noLinks, '"'), '\''))));
    }
  }

  /** A closing script tag starts no style element. */
  lemma ScriptCloseNotStyle(s: string)
    requires |s| >= 2 && s[0] == '<' && s[1] == '/'
    ensures ElementAt(s, "style") == None
  {
    assert "<" + "style" == "<style";
    Mismatch(s, "<style", 0, 1);
  }

  /** Removing style elements from text whose only `<` starts a closing script tag. */
  lemma {:induction false} NoStyleBeforeClose(s: string, n: nat, text: string)
    requires n <= |s| && s[n..] == "</script>" + text
    requires forall i :: 0 <= i < n ==> s[i] != '<'
    requires '<' !in text
    ensures RemoveElements(s, "style") == s
    decreases |s|
  {
    if n == 0 {
      ScriptCloseNotStyle(s);
      assert s[1..] == "/script>" + text;
      RemoveElementsPlain(s[1..], "style");
    } else {
      ElementNeedsLt(s, "style");
      assert s[1..][n - 1..] == s[n..];
      NoStyleBeforeClose(s[1..], n - 1, text);
    }
    assert s == [s[0]] + s[1..];
  }

  /** A script element survives the removal of style elements. */
  lemma ScriptNotStyle(html: string, attrs: string, code: string, text: string)
    requires html == "<script" + attrs + ">" + code + "</script>" + text
    requires '<' !in attrs && '>' !in attrs && '<' !in code && '<' !in text
    ensures RemoveElements(html, "style") == html
  {
    var n := 8 + |attrs| + |code|;
    var tail := html[1..];
    assert html[2] == 'c';
    Mismatch(html, "<style", 0, 2);
    assert "<" + "style" == "<style";
    assert tail[n - 1..] == "</script>" + text;
    forall i | 0 <= i < n - 1 ensures tail[i] != '<' {
      if i < 7 + |attrs| {
        assert tail[i] == ("script" + attrs + ">")[i];
      } else {
        assert tail[i] == code[i - 7 - |attrs|];
      }
    }
    NoStyleBeforeClose(tail, n - 1, text);
    assert html == [html[0]] + tail;
  }

  lemma ScriptTagsSplit(html: string, attrs: string, code: string, text: string)
    requires html == "<script" + attrs + ">" + code + "</script>" + text
    ensures html == "<" + "script" + attrs + ">" + code + "</" + "script" + ">" + text
  {
    assert "<script" == "<" + "script" && "</script>" == "</" + "script" + ">";
  }

  /** Both element passes leave only the text after a script element. */
  lemma ScriptElementRemoved(html: string, attrs: string, code: string, text: string)
    requires html == "<script" + attrs + ">" + code + "</script>" + text
    requires '<' !in attrs && '>' !in attrs && '<' !in code && '<' !in text
    ensures RemoveElements(RemoveElements(html, "style"), "script") == text
  {
    ScriptNotStyle(html, attrs, code, text);
    ScriptTagsSplit(html, attrs, code, text);
    ElementDropped("script", attrs, code, text);
    RemoveElementsPlain(text, "script");
  }

  /** A page whose only markup is one script element before plain text yields that text,
      whitespace-normalised: the script's code does not leak into it. */
  lemma ScriptContentsDropped(attrs: string, code: string, text: string)
    requires '<' !in attrs && '>' !in attrs && '<' !in code && '<' !in text && '=' !in text
    ensures ExtractTextFromHtml("<script" + attrs + ">" + code + "</script>" + text) == Tidy(text)
  {
    var html := "<script" + attrs + ">" + code + "</script>" + text;
    ScriptElementRemoved(html, attrs, code, text);
    RemoveStyleAttrsPlain(text, '"');
    RemoveStyleAttrsPlain(text, '\'');
    BodyAbsent(text);
    StripTagsPlain(text);
  }
}
