/**
 * The web-search settings page's rules (not its rendering): the engine options it offers, how
 * the edited values are checked and saved to the settings store, and how the page's fields are
 * filled from the stored settings.
 */
module WebSearchConfig {
  import opened Wrappers
  import opened Text

  /** `SearchEngineOption`. */
  datatype SearchEngineOption = SearchEngineOption(caption: string, value: string, description: Option<string>)

  const NoneOption := SearchEngineOption("不使用联网搜索", "none", None)
  const CustomOption := SearchEngineOption("自定义搜索", "custom", Some("(使用自定义搜索URL, 推荐使用searxng)"))
  const NoKeyNeeded := "(无需API密钥)"
  const LabelSuffix := "搜索"

  /** The members of `SearchEngineType`, key and value, in declaration order. */
  const EngineEnum := [("BING", "bing"), ("GOOGLE", "google"), ("BAIDU", "baidu")]

  /** `value.charAt(0).toUpperCase() + value.slice(1)`. */
  function Capitalised(value: string): (r: string)
    ensures |r| == |value|
    ensures r != [] ==> r[0] == UpperChar(value[0]) && r[1..] == value[1..]
  {
    if value == [] then [] else [UpperChar(value[0])] + value[1..]
  }

  /** The label of an engine: the three known engines have their own; any other is its
      capitalised value followed by `搜索`. */
  function EngineLabel(value: string): (r: string)
    ensures |r| >= |LabelSuffix| && r[|r| - |LabelSuffix|..] == LabelSuffix
    ensures value !in ["bing", "google", "baidu"] ==>
              |r| == |value| + |LabelSuffix| && r[..|value|] == Capitalised(value)
  {
    var prefix := match value
                  case "bing" => "Bing"
                  case "google" => "Google"
                  case "baidu" => "百度"
                  case _ => Capitalised(value);
    assert (prefix + LabelSuffix)[|prefix|..] == LabelSuffix;
    assert (prefix + LabelSuffix)[..|prefix|] == prefix;
    prefix + LabelSuffix
  }

  function EngineOption(value: string): SearchEngineOption {
    SearchEngineOption(EngineLabel(value), value, Some(NoKeyNeeded))
  }

  /** `isNaN(Number(key))` fails for the key: it reads as a number.  Number parsing is a
      parameter. */
  type IsNumber = string -> bool

  /** The entries for the enum's members whose key is not a number, in order, each under its
      lower-cased value. */
  function EngineOptions(members: seq<(string, string)>, isNumber: IsNumber): (r: seq<SearchEngineOption>)
    ensures |r| <= |members|
    ensures (forall i :: 0 <= i < |members| ==> !isNumber(members[i].0)) ==> |r| == |members|
  {
    if members == [] then []
    else
      var init := members[..|members| - 1];
      var last := members[|members| - 1];
      assert forall i :: 0 <= i < |init| ==> init[i] == members[i];
      EngineOptions(init, isNumber) + if !isNumber(last.0) then [EngineOption(Lower(last.1))] else []
  }

  /** Every entry is under a lower-case value and needs no API key. */
  predicate KeylessLowerCase(options: seq<SearchEngineOption>) {
    forall k :: 0 <= k < |options| ==> options[k].value == Lower(options[k].value) && options[k].description == Some(NoKeyNeeded)
  }

  lemma {:induction false} EngineOptionsEntries(members: seq<(string, string)>, isNumber: IsNumber)
    ensures KeylessLowerCase(EngineOptions(members, isNumber))
    decreases |members|
  {
    if members != [] {
      var r := EngineOptions(members, isNumber);
      var init, last := members[..|members| - 1], members[|members| - 1];
      var head := EngineOptions(init, isNumber);
      EngineOptionsEntries(init, isNumber);
      LowerIdempotent(last.1);
      assert r == head + if !isNumber(last.0) then [EngineOption(Lower(last.1))] else [];
      forall k | 0 <= k < |r| ensures r[k].value == Lower(r[k].value) && r[k].description == Some(NoKeyNeeded) {
        if k < |head| {
          assert r[k] == head[k];
          assert head[k].value == Lower(head[k].value);
        } else {
          assert r[k] == EngineOption(Lower(last.1));
        }
      }
    }
  }

  lemma LowerIdempotent(s: string)
    ensures Lower(Lower(s)) == Lower(s)
  {
  }

  /** `getSearchEngineOptions()`: not searching first, the engines, the custom search last. */
  function Options(members: seq<(string, string)>, isNumber: IsNumber): (r: seq<SearchEngineOption>)
    ensures |r| >= 2 && r[0] == NoneOption && r[|r| - 1] == CustomOption
  {
    [NoneOption] + EngineOptions(members, isNumber) + [CustomOption]
  }

  /** One more member of the enum adds at most its own entry, at the end. */
  lemma EngineOptionsStep(members: seq<(string, string)>, i: nat, isNumber: IsNumber)
    requires i < |members|
    ensures EngineOptions(members[..i + 1], isNumber)
            == EngineOptions(members[..i], isNumber)
               + if !isNumber(members[i].0) then [EngineOption(Lower(members[i].1))] else []
  {
    assert members[..i + 1][..i] == members[..i];
  }

  /** The loop of `getSearchEngineOptions()` over the enum's members. */
  method GetSearchEngineOptions(members: seq<(string, string)>, isNumber: IsNumber)
    returns (options: seq<SearchEngineOption>)
    ensures options == Options(members, isNumber)
  {
    options := [NoneOption];
    var i := 0;
    while i < |members|
      invariant i <= |members|
      invariant options == [NoneOption] + EngineOptions(members[..i], isNumber)
    {
      var member := members[i];
      EngineOptionsStep(members, i, isNumber);
      if !isNumber(member.0) {
        var value := Lower(member.1);
        options := options + [SearchEngineOption(EngineLabel(value), value, Some(NoKeyNeeded))];
      }
      i := i + 1;
    }
    assert members[..i] == members;
    options := options + [CustomOption];
  }

  /** The enum's values are already lower case, and each has its own label. */
  lemma KnownEngines()
    ensures Lower("bing") == "bing" && Lower("google") == "google" && Lower("baidu") == "baidu"
    ensures EngineLabel("bing") == "Bing搜索" && EngineLabel("google") == "Google搜索" && EngineLabel("baidu") == "百度搜索"
  {
    assert Lower("bing") == "bing";
    assert Lower("google") == "google";
    assert Lower("baidu") == "baidu";
  }

  /** With the three engines of `SearchEngineType`, the page offers none, Bing, Google, Baidu and
      custom, in that order. */
  lemma StandardOptions(isNumber: IsNumber)
    requires !isNumber("BING") && !isNumber("GOOGLE") && !isNumber("BAIDU")
    ensures Options(EngineEnum, isNumber)
            == [NoneOption, SearchEngineOption("Bing搜索", "bing", Some(NoKeyNeeded)),
                SearchEngineOption("Google搜索", "google", Some(NoKeyNeeded)),
                SearchEngineOption("百度搜索", "baidu", Some(NoKeyNeeded)), CustomOption]
  {
    var e := EngineEnum;
    KnownEngines();
    assert e[..0] == [] && e[..3] == e;
    EngineOptionsStep(e, 0, isNumber);
    EngineOptionsStep(e, 1, isNumber);
    EngineOptionsStep(e, 2, isNumber);
  }

  // ---- saving ----

  /** The page's fields. */
  datatype Fields = Fields(searchType: string, searchUrl: string, searchParam: string, userAgent: string,
                           maxResults: int)

  /** The web-search settings in the settings store; every field may be absent. */
  datatype WebSearchSettings = WebSearchSettings(enabled: Option<bool>, searchType: Option<string>,
                                                 searchUrl: Option<string>, searchParam: Option<string>,
                                                 userAgent: Option<string>, maxResults: Option<int>)

  /** `s || undefined`: the empty text is not stored. */
  function Stored(s: string): (r: Option<string>)
    ensures r.None? <==> s == []
    ensures r.Some? ==> r.value == s
  {
    if s == [] then None else Some(s)
  }

  /** `handleSave()`'s check and record: a custom search needs a URL that is not blank, and
      nothing is saved without one; otherwise searching is enabled exactly when the type is not
      `none`, and an empty URL or user agent is left out. */
  function SaveConfig(f: Fields): (r: Option<WebSearchSettings>)
    ensures r.None? <==> f.searchType == "custom" && Trim(f.searchUrl) == []
    ensures r.Some? ==> && r.value.enabled == Some(f.searchType != "none")
                        && r.value.searchType == Some(f.searchType)
                        && (r.value.searchUrl.None? <==> f.searchUrl == [])
                        && (r.value.userAgent.None? <==> f.userAgent == [])
                        && r.value.searchParam == Some(f.searchParam)
                        && r.value.maxResults == Some(f.maxResults)
  {
    if f.searchType == "custom" && (f.searchUrl == [] || Trim(f.searchUrl) == []) then None
    else Some(WebSearchSettings(Some(f.searchType != "none"), Some(f.searchType), Stored(f.searchUrl),
                                Some(f.searchParam), Stored(f.userAgent), Some(f.maxResults)))
  }

  /** `value || fallback` for an optional text. */
  function TextOr(value: Option<string>, fallback: string): (r: string)
    ensures value.Some? && value.value != [] ==> r == value.value
    ensures value.None? || value.value == [] ==> r == fallback
  {
    if value.Some? && value.value != [] then value.value else fallback
  }

  /** `value || 3` for the number of results: no number, or 0, gives 3. */
  function ResultsOr3(value: Option<int>): (r: int)
    ensures r != 0
    ensures value.Some? && value.value != 0 ==> r == value.value
  {
    if value.Some? && value.value != 0 then value.value else 3
  }

  /** The page's fields as filled from the stored settings, with the page's defaults. */
  function Load(s: WebSearchSettings): (f: Fields)
    ensures f.searchType != [] && f.searchParam != [] && f.maxResults != 0
  {
    Fields(TextOr(s.searchType, "none"), TextOr(s.searchUrl, ""), TextOr(s.searchParam, "q"),
           TextOr(s.userAgent, ""), ResultsOr3(s.maxResults))
  }

  /** What is saved is what the page shows again, as long as the type and parameter name are not
      empty and the number of results is not 0 (those fall back to `none`, `q` and 3). */
  lemma SaveThenLoad(f: Fields)
    requires SaveConfig(f).Some?
    ensures f.searchType != [] && f.searchParam != [] && f.maxResults != 0 ==> Load(SaveConfig(f).value) == f
    ensures Load(SaveConfig(f).value).searchParam == if f.searchParam == [] then "q" else f.searchParam
  {
  }

  /** The page, over the stored settings. */
  class ConfigPage {
    var webSearch: WebSearchSettings
    var fields: Fields

    /** The fields start from the stored settings. */
    constructor (webSearch: WebSearchSettings)
      ensures this.webSearch == webSearch && fields == Load(webSearch)
    {
      this.webSearch := webSearch;
      fields := Load(webSearch);
    }

    /** `handleSave()`: a rejected save changes nothing; an accepted one replaces the stored
        settings, and the page's fields are then filled again from them. */
    method HandleSave() returns (saved: bool)
      modifies this
      ensures saved <==> SaveConfig(old(fields)).Some?
      ensures !saved ==> webSearch == old(webSearch) && fields == old(fields)
      ensures saved ==> webSearch == SaveConfig(old(fields)).value && fields == Load(webSearch)
    {
      if fields.searchType == "custom" && (fields.searchUrl == [] || Trim(fields.searchUrl) == []) {
        return false;
      }
      webSearch := WebSearchSettings(Some(fields.searchType != "none"), Some(fields.searchType),
                                     Stored(fields.searchUrl), Some(fields.searchParam),
                                     Stored(fields.userAgent), Some(fields.maxResults));
      fields := Load(webSearch);
      saved := true;
    }

    /** `handleMaxResultsChange(value)`: a cleared field or 0 stores 3. */
    method HandleMaxResultsChange(value: Option<int>)
      modifies this
      ensures fields == old(fields).(maxResults := ResultsOr3(value)) && webSearch == old(webSearch)
    {
      fields := fields.(maxResults := ResultsOr3(value));
    }

    method HandleSearchTypeChange(searchType: string)
      modifies this
      ensures fields == old(fields).(searchType := searchType) && webSearch == old(webSearch)
    {
      fields := fields.(searchType := searchType);
    }

    method HandleSearchUrlChange(searchUrl: string)
      modifies this
      ensures fields == old(fields).(searchUrl := searchUrl) && webSearch == old(webSearch)
    {
      fields := fields.(searchUrl := searchUrl);
    }

    method HandleSearchParamChange(searchParam: string)
      modifies this
      ensures fields == old(fields).(searchParam := searchParam) && webSearch == old(webSearch)
    {
      fields := fields.(searchParam := searchParam);
    }

    method HandleUserAgentChange(userAgent: string)
      modifies this
      ensures fields == old(fields).(userAgent := userAgent) && webSearch == old(webSearch)
    {
      fields := fields.(userAgent := userAgent);
    }
  }
}
