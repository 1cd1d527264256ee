/**
 * `BingSearchService`: its search URL, and the loop that turns the title and snippet matches
 * found on a result page into at most five results.
 */
module BingSearch {
  import opened Wrappers
  import opened Text
  import opened HtmlText
  import opened SearchCommon

  const Name := "Bing"
  const DefaultUrl := "https://www.bing.com/search?q="

  /** `getSearchUrl(query)`: the URL always carries a `q` parameter. */
  function GetSearchUrl(config: SearchServiceConfig, encode: string -> string, query: string): (r: string)
    ensures HasParam(r, "q")
  {
    SearchUrlHasParam(config.searchUrl, DefaultUrl, "q", encode, query);
    SearchUrl(config.searchUrl, DefaultUrl, "q", encode, query)
  }

  /** Without a configured URL, the default one with the encoded query. */
  lemma DefaultSearchUrl(config: SearchServiceConfig, encode: string -> string, query: string)
    requires config.searchUrl.None? || config.searchUrl.value == []
    ensures GetSearchUrl(config, encode, query) == DefaultUrl + encode(query)
  {
    assert OccursAt(DefaultUrl, "?" + "q" + "=", 27);
    SearchUrlDefault(config.searchUrl, DefaultUrl, "q", encode, query);
  }

  /** One match of the title expression `<h2><a…href="(link)"…>(title)</a></h2>` on the page:
      where it starts, the link and the title markup. */
  datatype TitleMatch = TitleMatch(index: nat, link: string, titleHtml: string)

  /** The result for a title match and the snippet group found for it, if any. */
  function Entry(t: TitleMatch, snippet: Option<string>): SearchResult {
    SearchResult(StripTags(t.titleHtml), t.link, if snippet.Some? then StripTags(snippet.value) else NoSnippet,
                 Name, None, None)
  }

  /** The results for `titles`, the snippet expression starting from `last`: each title with
      the group the snippet expression finds in the page from that title on. */
  function Results(html: string, titles: seq<TitleMatch>, snippetExec: Exec, last: nat): (r: seq<SearchResult>)
    ensures |r| == |titles|
  {
    if titles == [] then []
    else
      var snippet := ExecStep(snippetExec, SubstringFrom(html, titles[0].index), last);
      [Entry(titles[0], snippet.0)] + Results(html, titles[1..], snippetExec, snippet.1)
  }

  /** The group the snippet expression finds for each title, from that title on, its
      `lastIndex` carried from one title to the next. */
  function SnippetGroups(html: string, titles: seq<TitleMatch>, snippetExec: Exec, last: nat): (g: seq<Option<string>>)
    ensures |g| == |titles|
  {
    if titles == [] then []
    else
      var snippet := ExecStep(snippetExec, SubstringFrom(html, titles[0].index), last);
      [snippet.0] + SnippetGroups(html, titles[1..], snippetExec, snippet.1)
  }

  /** Every result keeps its title's text and link, names Bing, and has its snippet group with
      the tags stripped, or `无可用摘要` when the snippet expression found none. */
  lemma {:induction false} ResultsShape(html: string, titles: seq<TitleMatch>, snippetExec: Exec, last: nat)
    ensures var r := Results(html, titles, snippetExec, last);
            var g := SnippetGroups(html, titles, snippetExec, last);
            forall i :: 0 <= i < |r| ==>
              && r[i].title == StripTags(titles[i].titleHtml) && r[i].link == titles[i].link
              && r[i].snippet == (if g[i].Some? then StripTags(g[i].value) else NoSnippet)
              && r[i].source == Name && r[i].description.None? && r[i].savedHtml.None?
  {
    if titles != [] {
      var snippet := ExecStep(snippetExec, SubstringFrom(html, titles[0].index), last);
      ResultsShape(html, titles[1..], snippetExec, snippet.1);
    }
  }

  /** Taking the result of one more title off the front of those still to come. */
  lemma ResultsStep(html: string, titles: seq<TitleMatch>, index: nat, snippetExec: Exec, last: nat,
                    done: seq<SearchResult>, all: seq<SearchResult>)
    requires index < |titles|
    requires done + Results(html, titles[index..], snippetExec, last) == all
    ensures var snippet := ExecStep(snippetExec, SubstringFrom(html, titles[index].index), last);
            (done + [Entry(titles[index], snippet.0)]) + Results(html, titles[index + 1..], snippetExec, snippet.1) == all
  {
    assert titles[index..][1..] == titles[index + 1..];
    assert titles[index..][0] == titles[index];
  }

  /** `search(query)` from the fetched page on: `page` is the HTML, `None` when the request or
      the read failed; `titles` is every match of the title expression on it, in order; the
      snippet expression keeps its `lastIndex` from one title to the next, and at most five
      titles are used. */
  method Search(page: Option<string>, titles: seq<TitleMatch>, snippetExec: Exec) returns (results: seq<SearchResult>)
    ensures page.None? ==> results == []
    ensures page.Some? ==> results == Results(page.value, titles[..Min(MaxAdapterResults, |titles|)], snippetExec, 0)
  {
    if page.None? {
      return [];
    }
    var html := page.value;
    ghost var n := Min(MaxAdapterResults, |titles|);
    results := [];
    var index := 0;
    var last: nat := 0;
    while index < |titles| && index < MaxAdapterResults
      invariant index <= n
      invariant results + Results(html, titles[..n][index..], snippetExec, last) == Results(html, titles[..n], snippetExec, 0)
    {
      assert titles[..n][index] == titles[index];
      var snippetMatch := ExecStep(snippetExec, SubstringFrom(html, titles[index].index), last);
      var snippet := if snippetMatch.0.Some? then StripTags(snippetMatch.0.value) else NoSnippet;
      ResultsStep(html, titles[..n], index, snippetExec, last, results, Results(html, titles[..n], snippetExec, 0));
      results := results + [SearchResult(StripTags(titles[index].titleHtml), titles[index].link, snippet, Name, None, None)];
      last := snippetMatch.1;
      index := index + 1;
    }
  }
}
