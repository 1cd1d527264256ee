/**
 * `WebService.search`'s own branch for a user-configured search engine: the request URL, the
 * loop that collects results from the returned page, the single placeholder when nothing is
 * found, and the choice between that branch and the adapters.
 */
module CustomSearch {
  import opened Wrappers
  import opened Text
  import opened SearchCommon
  import opened WebText

  /** `${searchUrl}&${param}=${encoded}` when the URL already has a `?`, else with `?`; the
      parameter name defaults to `q`. */
  function CustomUrl(searchUrl: string, param: Option<string>, encode: string -> string, query: string): (r: string)
    ensures HasParam(r, OrElse(param, "q"))
    ensures |r| > |searchUrl| && r[..|searchUrl|] == searchUrl
  {
    var key := OrElse(param, "q");
    SearchUrlAppendsParam(searchUrl, key, encode(query));
    searchUrl + Separator(searchUrl) + key + "=" + encode(query)
  }

  /** Appending `?key=value` or `&key=value` always yields the parameter. */
  lemma SearchUrlAppendsParam(url: string, key: string, value: string)
    ensures var sep := Separator(url);
            var r := url + sep + key + "=" + value;
            HasParam(r, key) && r[..|url|] == url
  {
    var sep := Separator(url);
    var r := url + sep + key + "=" + value;
    assert r == url + (sep + key + "=") + value;
    assert (url + (sep + key + "="))[|url|..|url| + |sep + key + "="|] == sep + key + "=";
    OccursExtend(url + (sep + key + "="), value, sep + key + "=", |url|);
  }

  /** Unlike the adapters, the custom branch appends the parameter even when the configured
      URL already carries it. */
  lemma CustomUrlAlwaysAppends(searchUrl: string, encode: string -> string, query: string)
    requires Contains(searchUrl, "?q=")
    ensures CustomUrl(searchUrl, None, encode, query) == searchUrl + "&q=" + encode(query)
  {
    var k :| 0 <= k <= |searchUrl| - 3 && OccursAt(searchUrl, "?q=", k);
    assert OccursAt(searchUrl, "?", k) by { assert searchUrl[k..k + 1] == searchUrl[k..k + 3][..1]; }
  }

  /** One match of `/<h3.*?><a.*?href="(.*?)".*?>(.*?)<\/a><\/h3>/gi`: where it starts, the link
      and the title markup. */
  datatype CustomTitle = CustomTitle(index: nat, link: string, titleHtml: string)

  const PlaceholderTitle := "自定义搜索结果"
  const PlaceholderSnippet := "使用自定义搜索引擎搜索时未能提取到结构化结果。请查看原始搜索链接获取更多信息。"

  /** A link that does not start with `http` is made absolute on the search host. */
  function AbsoluteLink(link: string, host: string): (r: string)
    ensures StartsWith(link, "http") ==> r == link
    ensures !StartsWith(link, "http") ==> r == "https://" + host + link
  {
    if StartsWith(link, "http") then link else "https://" + host + link
  }

  /** The result for a title and the description group found from it on, if any. */
  function Entry(t: CustomTitle, description: Option<string>, host: string): SearchResult {
    SearchResult(StripHtmlTags(t.titleHtml), AbsoluteLink(t.link, host),
                 if description.Some? then StripHtmlTags(description.value) else "", host, None, None)
  }

  /** The results for `titles`: the description expression's `lastIndex` is set to each title's
      position before it runs on the page, so no state carries from one title to the next. */
  function Entries(html: string, titles: seq<CustomTitle>, descExec: Exec, host: string): (r: seq<SearchResult>)
    ensures |r| == |titles|
    ensures forall i :: 0 <= i < |titles| ==>
              r[i] == Entry(titles[i], ExecStep(descExec, html, titles[i].index).0, host)
  {
    seq(|titles|, i requires 0 <= i < |titles| => Entry(titles[i], ExecStep(descExec, html, titles[i].index).0, host))
  }

  /** One more title adds its entry at the end. */
  lemma EntriesAppend(html: string, titles: seq<CustomTitle>, t: CustomTitle, descExec: Exec, host: string)
    ensures Entries(html, titles + [t], descExec, host)
            == Entries(html, titles, descExec, host) + [Entry(t, ExecStep(descExec, html, t.index).0, host)]
  {
    var ts := titles + [t];
    assert forall i :: 0 <= i < |titles| ==> ts[i] == titles[i];
  }

  /** The one result reported when the page yields none. */
  function Placeholder(customUrl: string, host: string): SearchResult {
    SearchResult(PlaceholderTitle, customUrl, PlaceholderSnippet, host, None, None)
  }

  /** What the request for the custom URL produced. */
  datatype CustomResponse = Page(html: string) | NotOk | Failed

  /** What the custom branch returns from the request on: nothing when the request failed, was
      not OK or the URL has no host (`new URL` throws into the `catch`); otherwise one result per
      title for the first five, or the placeholder alone when there is no title. */
  function CustomResults(customUrl: string, response: CustomResponse, titles: seq<CustomTitle>, descExec: Exec,
                         hostOf: string -> Option<string>): (r: seq<SearchResult>)
    ensures !response.Page? || hostOf(customUrl).None? ==> r == []
    ensures response.Page? && hostOf(customUrl).Some? ==>
              && 1 <= |r| <= MaxAdapterResults
              && (forall i :: 0 <= i < |r| ==> r[i].source == hostOf(customUrl).value)
              && (titles == [] ==> r == [Placeholder(customUrl, hostOf(customUrl).value)])
              && (titles != [] ==> |r| == Min(MaxAdapterResults, |titles|))
  {
    if !response.Page? || hostOf(customUrl).None? then []
    else
      var n := Min(MaxAdapterResults, |titles|);
      var host := hostOf(customUrl).value;
      if n == 0 then [Placeholder(customUrl, host)] else Entries(response.html, titles[..n], descExec, host)
  }

  /** The custom branch from the request on, pushing one result per title. */
  method SearchCustom(customUrl: string, response: CustomResponse, titles: seq<CustomTitle>, descExec: Exec,
                      hostOf: string -> Option<string>) returns (results: seq<SearchResult>)
    ensures results == CustomResults(customUrl, response, titles, descExec, hostOf)
  {
    if !response.Page? {
      return [];
    }
    var host := hostOf(customUrl);
    if host.None? {
      return [];
    }
    var html := response.html;
    ghost var n := Min(MaxAdapterResults, |titles|);
    results := [];
    var index := 0;
    while index < |titles| && index < MaxAdapterResults
      invariant index <= n
      invariant results == Entries(html, titles[..index], descExec, host.value)
    {
      var t := titles[index];
      var descMatch := ExecStep(descExec, html, t.index);
      var description := if descMatch.0.Some? then StripHtmlTags(descMatch.0.value) else "";
      var link := if StartsWith(t.link, "http") then t.link else "https://" + host.value + t.link;
      assert titles[..index + 1] == titles[..index] + [t];
      EntriesAppend(html, titles[..index], t, descExec, host.value);
      assert SearchResult(StripHtmlTags(t.titleHtml), link, description, host.value, None, None)
             == Entry(t, descMatch.0, host.value);
      results := results + [SearchResult(StripHtmlTags(t.titleHtml), link, description, host.value, None, None)];
      index := index + 1;
    }
    assert titles[..index] == titles[..n];
    if |results| == 0 {
      results := results + [Placeholder(customUrl, host.value)];
    }
  }

  // ---- choosing the branch ----

  /** Where `search(query, searchType, config)` goes: the custom branch, or the adapter for an
      engine type. */
  datatype Route = Custom | Adapter(engineType: string)

  /** `'custom'` (compared exactly) with a non-empty URL takes the custom branch; otherwise the
      type is lower-cased and `google` and `baidu` pick their adapters, anything else Bing. */
  function RouteFor(searchType: string, searchUrl: Option<string>): (r: Route)
    ensures r.Custom? <==> searchType == "custom" && searchUrl.Some? && searchUrl.value != []
    ensures r.Adapter? ==> r.engineType in {"bing", "google", "baidu"}
    ensures r.Adapter? ==> (r.engineType == "google" <==> Lower(searchType) == "google")
    ensures r.Adapter? ==> (r.engineType == "baidu" <==> Lower(searchType) == "baidu")
  {
    if searchType == "custom" && searchUrl.Some? && searchUrl.value != [] then Custom
    else if Lower(searchType) == "google" then Adapter("google")
    else if Lower(searchType) == "baidu" then Adapter("baidu")
    else Adapter("bing")
  }

  /** The engine type is matched without regard to case, but `custom` is not: `Custom` with a
      URL goes to Bing, and so does `custom` without one. */
  lemma RouteCase(url: string)
    requires url != []
    ensures RouteFor("GOOGLE", None) == Adapter("google")
    ensures RouteFor("Custom", Some(url)) == Adapter("bing")
    ensures RouteFor("custom", None) == Adapter("bing")
  {
    assert Lower("GOOGLE") == "google";
    assert Lower("Custom") == "custom";
  }
}
