/**
 * What the search adapters share (`AbstractSearchService` and the adapters' `getSearchUrl`):
 * the result records, the adapter configuration, the user agent, the rule that puts the query
 * into a search URL, and the way a `/g` regular expression's `exec` threads its `lastIndex`.
 * The regular-expression engine and `encodeURIComponent` are parameters.
 */
module SearchCommon {
  import opened Wrappers
  import opened Text

  /** `SearchResult`; the optional `description` and `savedHtml` are `None` when absent. */
  datatype SearchResult = SearchResult(title: string, link: string, snippet: string, source: string,
                                       description: Option<string>, savedHtml: Option<string>)

  /** `RawHtmlSearchResult`. */
  datatype RawHtmlSearchResult = RawHtmlSearchResult(searchUrl: string, html: string, source: string, query: string)

  /** `SearchServiceConfig`. */
  datatype SearchServiceConfig = SearchServiceConfig(searchUrl: Option<string>, userAgent: Option<string>)

  /** `value || fallback` for an optional string: absent and empty both give the fallback. */
  function OrElse(value: Option<string>, fallback: string): string {
    if value.Some? && value.value != [] then value.value else fallback
  }

  const DefaultUserAgent := "Mozilla/5.0 (Windows NT 10.0; Win64; x64) AppleWebKit/537.36 (KHTML, like Gecko) Chrome/91.0.4472.124 Safari/537.36"

  /** `getUserAgent()`: the configured agent unless it is absent or empty; never empty. */
  function UserAgent(config: SearchServiceConfig): (r: string)
    ensures r != []
    ensures config.userAgent.Some? && config.userAgent.value != [] ==> r == config.userAgent.value
    ensures config.userAgent.None? || config.userAgent.value == [] ==> r == DefaultUserAgent
  {
    OrElse(config.userAgent, DefaultUserAgent)
  }

  /** The query parameter `key=` introduced by `?` or by `&`. */
  predicate HasParam(url: string, key: string) {
    Contains(url, "?" + key + "=") || Contains(url, "&" + key + "=")
  }

  /** The separator that introduces one more parameter. */
  function Separator(url: string): string {
    if Contains(url, "?") then "&" else "?"
  }

  /** `getSearchUrl(query)` of an adapter whose default URL is `base` followed by the encoded
      query, and whose query parameter is `key`: the configured URL (or the default) is kept
      when it already has the parameter, and otherwise gets `key=<encoded query>` appended. */
  function SearchUrl(configured: Option<string>, base: string, key: string, encode: string -> string, query: string): string {
    var url := OrElse(configured, base + encode(query));
    if !HasParam(url, key) then url + Separator(url) + key + "=" + encode(query) else url
  }

  lemma OccursExtend(a: string, b: string, pat: string, k: int)
    requires OccursAt(a, pat, k)
    ensures OccursAt(a + b, pat, k)
  {
    assert (a + b)[k..k + |pat|] == a[k..k + |pat|];
  }

  /** Whatever the configuration, the URL carries the query parameter. */
  lemma SearchUrlHasParam(configured: Option<string>, base: string, key: string, encode: string -> string, query: string)
    ensures HasParam(SearchUrl(configured, base, key, encode, query), key)
  {
    var url := OrElse(configured, base + encode(query));
    if !HasParam(url, key) {
      var sep := Separator(url);
      var r := url + sep + key + "=" + encode(query);
      assert r == url + (sep + key + "=") + encode(query);
      assert (url + (sep + key + "="))[|url|..|url| + |sep + key + "="|] == sep + key + "=";
      OccursExtend(url + (sep + key + "="), encode(query), sep + key + "=", |url|);
    }
  }

  /** A configured URL that already has the parameter is used as it is, without the query. */
  lemma SearchUrlKeepsConfigured(url: string, base: string, key: string, encode: string -> string, query: string)
    requires url != [] && HasParam(url, key)
    ensures SearchUrl(Some(url), base, key, encode, query) == url
  {
  }

  /** A configured URL without the parameter gets `&` (when it has a `?`) or `?`, then the
      parameter with the encoded query. */
  lemma SearchUrlAppendsQuery(url: string, base: string, key: string, encode: string -> string, query: string)
    requires url != [] && !HasParam(url, key)
    ensures var r := SearchUrl(Some(url), base, key, encode, query);
            && r[..|url|] == url
            && r[|url|..] == (if Contains(url, "?") then "&" else "?") + key + "=" + encode(query)
  {
    var r := SearchUrl(Some(url), base, key, encode, query);
    assert r == url + (Separator(url) + key + "=" + encode(query));
  }

  /** Without a configured URL the default is used, with the query already in place, as long
      as the default ends in the parameter. */
  lemma SearchUrlDefault(configured: Option<string>, base: string, key: string, encode: string -> string, query: string)
    requires configured.None? || configured.value == []
    requires HasParam(base, key)
    ensures SearchUrl(configured, base, key, encode, query) == base + encode(query)
  {
    var pat := if Contains(base, "?" + key + "=") then "?" + key + "=" else "&" + key + "=";
    var k :| 0 <= k <= |base| - |pat| && OccursAt(base, pat, k);
    OccursExtend(base, encode(query), pat, k);
  }

  // ---- the `exec` protocol of a `/g` regular expression ----

  /** One `exec` of a global regular expression on a text from a given `lastIndex`: the first
      captured group and the new `lastIndex` on a match, `None` on a miss.  The engine is a
      parameter of the adapters. */
  type Exec = (string, nat) -> Option<(string, nat)>

  /** One `exec` call: the group found, if any, and the `lastIndex` it leaves behind, which a
      miss resets to 0. */
  function ExecStep(exec: Exec, text: string, last: nat): (r: (Option<string>, nat))
    ensures r.0.None? ==> r.1 == 0
  {
    match exec(text, last)
    case None => (None, 0)
    case Some((group, next)) => (Some(group), next)
  }

  /** Successive `exec` calls of one regular expression on the texts in order, each starting
      from the `lastIndex` the previous call left: the group found on each text, if any. */
  function Lookups(exec: Exec, texts: seq<string>, last: nat): (r: seq<Option<string>>)
    ensures |r| == |texts|
  {
    if texts == [] then []
    else
      var step := ExecStep(exec, texts[0], last);
      [step.0] + Lookups(exec, texts[1..], step.1)
  }

  /** What one more lookup does to the lookups still to come. */
  lemma LookupsStep(exec: Exec, texts: seq<string>, i: nat, last: nat)
    requires i < |texts|
    ensures var step := ExecStep(exec, texts[i], last);
            Lookups(exec, texts[i..], last) == [step.0] + Lookups(exec, texts[i + 1..], step.1)
  {
    assert texts[i..][1..] == texts[i + 1..];
  }

  /** The loop form: with the lookups from `i` on known, the one at `i` and those after it. */
  lemma LookupsAdvance(exec: Exec, texts: seq<string>, all: seq<Option<string>>, i: nat, last: nat)
    requires i < |texts| && |all| == |texts|
    requires all[i..] == Lookups(exec, texts[i..], last)
    ensures var step := ExecStep(exec, texts[i], last);
            all[i] == step.0 && all[i + 1..] == Lookups(exec, texts[i + 1..], step.1)
  {
    LookupsStep(exec, texts, i, last);
    assert all[i + 1..] == all[i..][1..];
  }

  /** JavaScript `s.substring(from)`: a start outside the text is clamped to it. */
  function SubstringFrom(s: string, from: int): (r: string)
    ensures |r| <= |s|
  {
    if from <= 0 then s else if from >= |s| then [] else s[from..]
  }

  function Clamp(i: int, n: nat): (r: nat)
    ensures r <= n
  {
    if i < 0 then 0 else if i > n then n else i
  }

  /** JavaScript `s.substring(a, b)`: both ends are clamped to the text and swapped when the
      start is past the end. */
  function Substring(s: string, a: int, b: int): (r: string)
    ensures |r| <= |s|
  {
    var x, y := Clamp(a, |s|), Clamp(b, |s|);
    if x <= y then s[x..y] else s[y..x]
  }

  /** The snippet placeholder of the adapters. */
  const NoSnippet := "无可用摘要"

  /** The lesser of two numbers; the adapters keep at most 5 results. */
  function Min(a: nat, b: nat): nat {
    if a <= b then a else b
  }

  const MaxAdapterResults := 5
}
