/**
 * `RawSearchService` and its Bing, Google and Baidu variants: they build the same search URLs
 * as the parsing adapters but hand back the fetched page as it is.
 */
module RawSearch {
  import opened Wrappers
  import opened SearchCommon
  import BingSearch
  import GoogleSearch
  import BaiduSearch

  /** The three raw variants. */
  datatype RawEngine = RawBing | RawGoogle | RawBaidu

  /** The html reported when the request or the read fails. */
  const FailedHtml := "搜索失败，无法获取HTML内容"

  /** `getName()` of each variant. */
  function Name(e: RawEngine): (r: string)
    ensures r != []
    ensures e.RawBing? ==> r == "Bing"
    ensures e.RawGoogle? ==> r == "Google"
    ensures e.RawBaidu? ==> r == "百度"
  {
    match e
    case RawBing => "Bing"
    case RawGoogle => "Google"
    case RawBaidu => "百度"
  }

  /** The query parameter each variant's URL carries. */
  function Key(e: RawEngine): string {
    match e
    case RawBing => "q"
    case RawGoogle => "q"
    case RawBaidu => "wd"
  }

  /** `getSearchUrl(query)` of each variant: the append rule with `q` for Bing and Google and
      `wd` for Baidu, so the URL always carries that parameter. */
  function GetSearchUrl(e: RawEngine, config: SearchServiceConfig, encode: string -> string, query: string): (r: string)
    ensures HasParam(r, Key(e))
  {
    match e
    case RawBing =>
      SearchUrlHasParam(config.searchUrl, BingSearch.DefaultUrl, "q", encode, query);
      SearchUrl(config.searchUrl, BingSearch.DefaultUrl, "q", encode, query)
    case RawGoogle =>
      SearchUrlHasParam(config.searchUrl, GoogleSearch.DefaultUrl, "q", encode, query);
      SearchUrl(config.searchUrl, GoogleSearch.DefaultUrl, "q", encode, query)
    case RawBaidu =>
      SearchUrlHasParam(config.searchUrl, BaiduSearch.DefaultUrl, "wd", encode, query);
      SearchUrl(config.searchUrl, BaiduSearch.DefaultUrl, "wd", encode, query)
  }

  /** Each raw variant names itself and builds its URL exactly as the adapter that parses. */
  lemma SameAsParsingAdapters(config: SearchServiceConfig, encode: string -> string, query: string)
    ensures Name(RawBing) == BingSearch.Name && Name(RawGoogle) == GoogleSearch.Name && Name(RawBaidu) == BaiduSearch.Name
    ensures GetSearchUrl(RawBing, config, encode, query) == BingSearch.GetSearchUrl(config, encode, query)
    ensures GetSearchUrl(RawGoogle, config, encode, query) == GoogleSearch.GetSearchUrl(config, encode, query)
    ensures GetSearchUrl(RawBaidu, config, encode, query) == BaiduSearch.GetSearchUrl(config, encode, query)
  {
  }

  /** The base `search(query)`, which the raw variants do not use: always no results. */
  function BaseSearch(query: string): (r: seq<SearchResult>)
    ensures |r| == 0
  {
    []
  }

  /** `searchRaw(query)`: `page` is the fetched HTML, `None` when the request or the read
      failed.  Either way the record carries the URL, the variant's name and the query. */
  function SearchRaw(e: RawEngine, config: SearchServiceConfig, encode: string -> string, query: string,
                     page: Option<string>): (r: RawHtmlSearchResult)
    ensures r.searchUrl == GetSearchUrl(e, config, encode, query)
    ensures r.source == Name(e) && r.query == query
    ensures page.Some? ==> r.html == page.value
    ensures page.None? ==> r.html == FailedHtml
  {
    RawHtmlSearchResult(GetSearchUrl(e, config, encode, query), page.GetOr(FailedHtml), Name(e), query)
  }
}
