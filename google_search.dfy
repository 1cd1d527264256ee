/**
 * `GoogleSearchService`: its search URL, and the loop that pairs each title found on a result
 * page with the first link the link expression finds in the 200 characters before the title and
 * the first snippet the snippet expression finds in the 500 from it on, each expression starting
 * from the `lastIndex` it carries over from the previous title.
 */
module GoogleSearch {
  import opened Wrappers
  import opened Text
  import opened HtmlText
  import opened SearchCommon

  const Name := "Google"
  const DefaultUrl := "https://www.google.com/search?q="

  /** `getSearchUrl(query)`: the URL always carries a `q` parameter. */
  function GetSearchUrl(config: SearchServiceConfig, encode: string -> string, query: string): (r: string)
    ensures HasParam(r, "q")
  {
    SearchUrlHasParam(config.searchUrl, DefaultUrl, "q", encode, query);
    SearchUrl(config.searchUrl, DefaultUrl, "q", encode, query)
  }

  /** Without a configured URL, the default one with the encoded query. */
  lemma DefaultSearchUrl(config: SearchServiceConfig, encode: string -> string, query: string)
    requires config.searchUrl.None? || config.searchUrl.value == []
    ensures GetSearchUrl(config, encode, query) == DefaultUrl + encode(query)
  {
    assert OccursAt(DefaultUrl, "?" + "q" + "=", 29);
    SearchUrlDefault(config.searchUrl, DefaultUrl, "q", encode, query);
  }

  /** One match of the title expression `<h3 class="…">(title)</h3>`: where it starts and the
      title markup. */
  datatype TitleMatch = TitleMatch(index: nat, titleHtml: string)

  /** The link expression runs on the 200 characters before a title. */
  function LinkText(html: string, t: TitleMatch): string {
    Substring(html, t.index as int - 200, t.index)
  }

  /** The snippet expression runs on the 500 characters from a title on. */
  function SnippetText(html: string, t: TitleMatch): string {
    Substring(html, t.index, t.index + 500)
  }

  /** `snippet || '无可用摘要'`: a missing or empty snippet becomes the placeholder. */
  function SnippetOrPlaceholder(snippet: Option<string>): (r: string)
    ensures r != []
    ensures snippet.Some? && StripTags(snippet.value) != [] ==> r == StripTags(snippet.value)
    ensures snippet.None? || StripTags(snippet.value) == [] ==> r == NoSnippet
  {
    var text := if snippet.Some? then StripTags(snippet.value) else "";
    if text == [] then NoSnippet else text
  }

  /** The result for a title, the link group before it and the snippet group after it. */
  function Entry(t: TitleMatch, link: Option<string>, snippet: Option<string>): SearchResult {
    SearchResult(StripTags(t.titleHtml), link.GetOr(""), SnippetOrPlaceholder(snippet), Name, None, None)
  }

  /** The results for `titles`, the link and snippet expressions starting from the given
      `lastIndex` values: each title with the group the link expression finds in the 200
      characters before it and the group the snippet expression finds in the 500 from it on. */
  function Results(html: string, titles: seq<TitleMatch>, linkExec: Exec, snippetExec: Exec, linkLast: nat, snippetLast: nat): (r: seq<SearchResult>)
    ensures |r| == |titles|
  {
    if titles == [] then []
    else
      var link := ExecStep(linkExec, LinkText(html, titles[0]), linkLast);
      var snippet := ExecStep(snippetExec, SnippetText(html, titles[0]), snippetLast);
      [Entry(titles[0], link.0, snippet.0)] + Results(html, titles[1..], linkExec, snippetExec, link.1, snippet.1)
  }

  /** The group the link expression finds for each title in the 200 characters before it, its
      `lastIndex` carried from one title to the next. */
  function LinkGroups(html: string, titles: seq<TitleMatch>, linkExec: Exec, linkLast: nat): (g: seq<Option<string>>)
    ensures |g| == |titles|
  {
    if titles == [] then []
    else
      var link := ExecStep(linkExec, LinkText(html, titles[0]), linkLast);
      [link.0] + LinkGroups(html, titles[1..], linkExec, link.1)
  }

  /** The group the snippet expression finds for each title in the 500 characters from it on,
      its `lastIndex` carried from one title to the next. */
  function SnippetGroups(html: string, titles: seq<TitleMatch>, snippetExec: Exec, snippetLast: nat): (g: seq<Option<string>>)
    ensures |g| == |titles|
  {
    if titles == [] then []
    else
      var snippet := ExecStep(snippetExec, SnippetText(html, titles[0]), snippetLast);
      [snippet.0] + SnippetGroups(html, titles[1..], snippetExec, snippet.1)
  }

  /** Every result keeps its title's text, names Google, has its link group or `''` when the
      link expression found none, and its snippet group stripped or else `无可用摘要`. */
  lemma {:induction false} ResultsShape(html: string, titles: seq<TitleMatch>, linkExec: Exec, snippetExec: Exec,
                                        linkLast: nat, snippetLast: nat)
    ensures var r := Results(html, titles, linkExec, snippetExec, linkLast, snippetLast);
            var lg := LinkGroups(html, titles, linkExec, linkLast);
            var sg := SnippetGroups(html, titles, snippetExec, snippetLast);
            forall i :: 0 <= i < |r| ==>
              && r[i].title == StripTags(titles[i].titleHtml)
              && r[i].link == (if lg[i].Some? then lg[i].value else "")
              && r[i].snippet == SnippetOrPlaceholder(sg[i]) && r[i].snippet != []
              && r[i].source == Name && r[i].description.None? && r[i].savedHtml.None?
  {
    if titles != [] {
      var link := ExecStep(linkExec, LinkText(html, titles[0]), linkLast);
      var snippet := ExecStep(snippetExec, SnippetText(html, titles[0]), snippetLast);
      ResultsShape(html, titles[1..], linkExec, snippetExec, link.1, snippet.1);
    }
  }

  /** Taking the results of one more title off the front of those still to come. */
  lemma ResultsStep(html: string, titles: seq<TitleMatch>, index: nat, linkExec: Exec, snippetExec: Exec,
                    linkLast: nat, snippetLast: nat, done: seq<SearchResult>, all: seq<SearchResult>)
    requires index < |titles|
    requires done + Results(html, titles[index..], linkExec, snippetExec, linkLast, snippetLast) == all
    ensures var link := ExecStep(linkExec, LinkText(html, titles[index]), linkLast);
            var snippet := ExecStep(snippetExec, SnippetText(html, titles[index]), snippetLast);
            (done + [Entry(titles[index], link.0, snippet.0)])
              + Results(html, titles[index + 1..], linkExec, snippetExec, link.1, snippet.1) == all
  {
    assert titles[index..][1..] == titles[index + 1..];
    assert titles[index..][0] == titles[index];
  }

  /** `search(query)` from the fetched page on: `page` is the HTML, `None` when the request or
      the read failed; `titles` is every match of the title expression on it, in order; the
      link and snippet expressions each keep their own `lastIndex` from one title to the next,
      and at most five titles are used. */
  method Search(page: Option<string>, titles: seq<TitleMatch>, linkExec: Exec, snippetExec: Exec)
    returns (results: seq<SearchResult>)
    ensures page.None? ==> results == []
    ensures page.Some? ==> results == Results(page.value, titles[..Min(MaxAdapterResults, |titles|)], linkExec, snippetExec, 0, 0)
  {
    if page.None? {
      return [];
    }
    var html := page.value;
    ghost var n := Min(MaxAdapterResults, |titles|);
    results := [];
    var index := 0;
    var linkLast: nat, snippetLast: nat := 0, 0;
    while index < |titles| && index < MaxAdapterResults
      invariant index <= n
      invariant results + Results(html, titles[..n][index..], linkExec, snippetExec, linkLast, snippetLast)
                == Results(html, titles[..n], linkExec, snippetExec, 0, 0)
    {
      assert titles[..n][index] == titles[index];
      var start: int := titles[index].index;
      var title := StripTags(titles[index].titleHtml);
      var linkMatch := ExecStep(linkExec, Substring(html, start - 200, start), linkLast);
      var link := linkMatch.0.GetOr("");
      var snippetMatch := ExecStep(snippetExec, Substring(html, start, start + 500), snippetLast);
      var snippet := SnippetOrPlaceholder(snippetMatch.0);
      ResultsStep(html, titles[..n], index, linkExec, snippetExec, linkLast, snippetLast, results,
                  Results(html, titles[..n], linkExec, snippetExec, 0, 0));
      results := results + [SearchResult(title, link, snippet, Name, None, None)];
      linkLast, snippetLast := linkMatch.1, snippetMatch.1;
      index := index + 1;
    }
  }
}
