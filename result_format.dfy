/**
 * `formatSearchResultsForModel`: the search results as the Markdown block handed to the
 * model, and the tip used when there are none.  `new URL(link).hostname` is a parameter;
 * when it throws, so does the formatting.  The current time is a parameter.
 */
module ResultFormat {
  import opened Wrappers
  import opened Text
  import opened SearchCommon

  const Header := "### 网络搜索结果\n\n"
  const Footer := "请务必仔细阅读并充分利用以上网络搜索结果来回答用户的问题。这些是最新的实时信息，请优先使用这些信息构建您的回答，同时结合您的知识提供全面、准确的回复。在回答中应清晰引用信息的来源。"

  /** `getNoResultTip()`, with the rendered current time. */
  function NoResultTip(now: string): string {
    "当前系统时间为" + now + "。请基于您的知识回答用户问题。"
  }

  /** The heading line of the result numbered `number`: its number and its linked title. */
  function Heading(number: nat, r: SearchResult): string {
    "**" + NatToString(number) + ". [" + r.title + "](" + r.link + ")**\n"
  }

  function DescriptionBlock(description: string): string {
    "**正文内容:**\n" + description + "\n\n"
  }

  function SnippetBlock(snippet: string): string {
    "**摘要:**\n" + snippet + "\n\n"
  }

  /** The source line: the host, linked to the result. */
  function SourceLine(host: string, link: string): string {
    "**来源:** [" + host + "](" + link + ")\n\n"
  }

  const Rule := "---\n\n"

  /** The description section: present only when the description is there and not blank. */
  function DescriptionSection(description: Option<string>): (r: string)
    ensures r != [] <==> description.Some? && Trim(description.value) != []
  {
    if description.Some? && Trim(description.value) != [] then DescriptionBlock(description.value) else ""
  }

  /** The snippet section: present only when the snippet is not blank. */
  function SnippetSection(snippet: string): (r: string)
    ensures r != [] <==> Trim(snippet) != []
  {
    if Trim(snippet) != [] then SnippetBlock(snippet) else ""
  }

  /** The block for the result numbered `number`, whose link has host `host`. */
  function EntryText(number: nat, r: SearchResult, host: string): string {
    Heading(number, r) + DescriptionSection(r.description) + SnippetSection(r.snippet)
    + SourceLine(host, r.link) + Rule
  }

  /** Every link has a host. */
  predicate AllHosts(results: seq<SearchResult>, hostOf: string -> Option<string>) {
    forall i :: 0 <= i < |results| ==> hostOf(results[i].link).Some?
  }

  /** The entries, numbered from 1, in the order of the results. */
  function Entries(results: seq<SearchResult>, hostOf: string -> Option<string>): (r: seq<string>)
    requires AllHosts(results, hostOf)
    ensures |r| == |results|
  {
    seq(|results|, i requires 0 <= i < |results| => EntryText(i + 1, results[i], hostOf(results[i].link).value))
  }

  /** `start` followed by the parts, appended in turn. */
  function Concat(start: string, parts: seq<string>): string {
    if parts == [] then start else Concat(start, parts[..|parts| - 1]) + parts[|parts| - 1]
  }

  /** The whole text: the tip when there are no results, otherwise the header, the entries and
      the closing instruction; nothing when a link has no host. */
  function Format(results: seq<SearchResult>, now: string, hostOf: string -> Option<string>): (r: Option<string>)
    ensures results == [] ==> r == Some(NoResultTip(now))
    ensures results != [] ==> (r.Some? <==> AllHosts(results, hostOf))
  {
    if results == [] then Some(NoResultTip(now))
    else if AllHosts(results, hostOf) then Some(Concat(Header, Entries(results, hostOf)) + Footer)
    else None
  }

  lemma AppendKeepsPrefix(a: string, b: string, p: string)
    requires StartsWith(a, p)
    ensures StartsWith(a + b, p)
  {
    assert (a + b)[..|p|] == a[..|p|];
  }

  /** Appending parts only adds at the end. */
  lemma {:induction false} ConcatPrefix(start: string, parts: seq<string>, j: nat)
    requires j <= |parts|
    ensures StartsWith(Concat(start, parts), Concat(start, parts[..j]))
    decreases |parts|
  {
    if j < |parts| {
      var init := parts[..|parts| - 1];
      ConcatPrefix(start, init, j);
      assert init[..j] == parts[..j];
      AppendKeepsPrefix(Concat(start, init), parts[|parts| - 1], Concat(start, parts[..j]));
    } else {
      assert parts[..j] == parts;
    }
  }

  /** The entries of a prefix of the results are a prefix of the entries. */
  lemma EntriesPrefix(results: seq<SearchResult>, hostOf: string -> Option<string>, k: nat)
    requires AllHosts(results, hostOf) && k <= |results|
    ensures AllHosts(results[..k], hostOf)
    ensures Entries(results[..k], hostOf) == Entries(results, hostOf)[..k]
  {
    forall i | 0 <= i < k ensures hostOf(results[..k][i].link).Some? {
      assert results[..k][i] == results[i];
    }
  }

  /** Result `i` is rendered with the number `i + 1` right after the header and the entries of
      the results before it, so the entries appear in the order of the results. */
  lemma EntryAt(results: seq<SearchResult>, hostOf: string -> Option<string>, i: nat)
    requires AllHosts(results, hostOf) && i < |results|
    ensures AllHosts(results[..i], hostOf)
    ensures StartsWith(Concat(Header, Entries(results, hostOf)),
                       Concat(Header, Entries(results[..i], hostOf)) + EntryText(i + 1, results[i], hostOf(results[i].link).value))
  {
    EntriesPrefix(results, hostOf, i);
    var all := Entries(results, hostOf);
    ConcatPrefix(Header, all, i + 1);
    assert all[..i + 1] == all[..i] + [all[i]];
    ConcatSnoc(Header, all[..i], all[i]);
  }

  /** A formatted list starts with the header and ends with the closing instruction. */
  lemma FormatFrame(results: seq<SearchResult>, now: string, hostOf: string -> Option<string>)
    requires results != [] && AllHosts(results, hostOf)
    ensures var r := Format(results, now, hostOf);
            r.Some? && StartsWith(r.value, Header) && |r.value| >= |Footer|
            && r.value[|r.value| - |Footer|..] == Footer
  {
    var body := Concat(Header, Entries(results, hostOf));
    ConcatPrefix(Header, Entries(results, hostOf), 0);
    AppendKeepsPrefix(body, Footer, Header);
    assert (body + Footer)[|body|..] == Footer;
  }

  lemma AppendNothing(s: string)
    ensures s + "" == s
  {
  }

  lemma ConcatSnoc(start: string, parts: seq<string>, part: string)
    ensures Concat(start, parts + [part]) == Concat(start, parts) + part
  {
    assert (parts + [part])[..|parts|] == parts;
  }

  /** Appending the pieces one by one appends their concatenation. */
  lemma Regroup(x: string, a: string, b: string, c: string, d: string, e: string)
    ensures x + a + b + c + d + e == x + (a + b + c + d + e)
  {
  }

  /** `formatSearchResultsForModel(results)`: the header, then one block per result appended in
      turn, then the closing instruction. */
  method FormatSearchResultsForModel(results: seq<SearchResult>, now: string, hostOf: string -> Option<string>)
    returns (r: Option<string>)
    ensures r == Format(results, now, hostOf)
  {
    if |results| == 0 {
      return Some(NoResultTip(now));
    }
    var formattedText := Header;
    var index := 0;
    ghost var parts: seq<string> := [];
    while index < |results|
      invariant index <= |results| && AllHosts(results[..index], hostOf)
      invariant parts == Entries(results[..index], hostOf)
      invariant formattedText == Concat(Header, parts)
    {
      var result := results[index];
      var host := hostOf(result.link);
      if host.None? {
        return None;
      }
      var before := formattedText;
      formattedText := formattedText + Heading(index + 1, result);
      if result.description.Some? && Trim(result.description.value) != [] {
        formattedText := formattedText + DescriptionBlock(result.description.value);
      } else {
        AppendNothing(formattedText);
      }
      if Trim(result.snippet) != [] {
        formattedText := formattedText + SnippetBlock(result.snippet);
      } else {
        AppendNothing(formattedText);
      }
      formattedText := formattedText + SourceLine(host.value, result.link);
      formattedText := formattedText + Rule;
      Regroup(before, Heading(index + 1, result), DescriptionSection(result.description),
              SnippetSection(result.snippet), SourceLine(host.value, result.link), Rule);
      EntriesStep(results, hostOf, index);
      ConcatSnoc(Header, parts, EntryText(index + 1, result, host.value));
      parts := parts + [EntryText(index + 1, result, host.value)];
      index := index + 1;
    }
    assert results[..index] == results;
    r := Some(formattedText + Footer);
  }

  lemma EntriesStep(results: seq<SearchResult>, hostOf: string -> Option<string>, index: nat)
    requires index < |results| && AllHosts(results[..index], hostOf) && hostOf(results[index].link).Some?
    ensures AllHosts(results[..index + 1], hostOf)
    ensures Entries(results[..index + 1], hostOf)
            == Entries(results[..index], hostOf) + [EntryText(index + 1, results[index], hostOf(results[index].link).value)]
  {
    var p := results[..index + 1];
    forall i | 0 <= i < index + 1 ensures hostOf(p[i].link).Some? {
      if i < index { assert p[i] == results[..index][i]; }
    }
  }
}
