# My-AI service layer, in Dafny

This project models the part of the My-AI desktop assistant that sits between the chat window and
the model and search back-ends. It covers:

- the streaming chat clients for Ollama (`OllamaService`, `ollamaApi`) and Siliconflow, with their
  `<think>` splitting and read loops;
- the per-session registry of abort controllers kept by `AIService` and `WebService`;
- the instance caches of `AIServiceManager` and `SearchFactory`;
- the web-search layer (`WebService` and the Bing, Google, Baidu and raw adapters): URL building,
  HTML-to-text cleanup, result collection, formatting, the yes/no and keyword decisions, the
  custom-search branch and the page analysis;
- the prompt and chat stores;
- the send, history and display rules of the chat panel;
- the rules of the web-search settings page.

Everything that talks to the outside world is an input:

- a `fetch` is the outcome it settled with;
- a response body is the sequence of chunks it delivered and how it ended;
- `JSON.parse`, `JSON.stringify`, `encodeURIComponent`, `new URL(...).hostname`,
  `URL.searchParams`, cheerio's `.text()` and the adapters' regular expressions are
  function-typed parameters;
- `Date.now()` and the rendered time are parameters.

The regular expressions that the core uses to rewrite text are written out as string functions:

- the `<think>` blocks;
- tags;
- style, script and link elements;
- style attributes;
- the body element;
- whitespace runs.

Each function follows the leftmost, lazy or greedy reading of its pattern, and their lemmas pin
that reading down on concrete shapes.

State that the source changes in place is modelled as classes, with one `modifies` clause per
method:

- the registry;
- the caches;
- the stores;
- the panel;
- the settings page.

Loops are methods that carry invariants and are proved against a recursive specification
function: the read loops, the adapters' result loops, the custom-search loop, the page-analysis
loop, the formatting loop and the options loop.

Where the documented behaviour and the code differ, the model follows the code:

- The Ollama read loops do not keep a line that was split between two chunks. Each half is
  parsed on its own (`NdjsonStream.SplitLineLost`).
- Siliconflow returns its accumulated text without removing `<think>` blocks.
- The custom search URL always appends the parameter, even when the configured URL already
  carries it (`CustomSearch.CustomUrlAlwaysAppends`).

## Model

| member | source | states |
|---|---|---|
| ThinkTags.ProcessThinkContent | src/services/OllamaService.ts:4-37 | the reasoning and the answer together are never longer than the text |
| ThinkTags.ProcessNoTag | src/services/OllamaService.ts:10-29 | text without `<think>` has no reasoning, and its answer is the trimmed text |
| ThinkTags.ProcessRender | src/services/OllamaService.ts:11-21 | round trip: a closed block after a prefix without `<think>` gives back exactly the trimmed reasoning, and the answer is the trimmed prefix followed by the suffix |
| ThinkTags.ProcessUnclosed | src/services/OllamaService.ts:22-26 | with only an opening tag, everything after it is reasoning and the answer is the trimmed prefix |
| ThinkTags.ProcessAt | src/services/OllamaService.ts:11-29 | the split in terms of where the first `<think>` and the next `</think>` were found; the offsets 7 and 8 are the tag lengths |
| ThinkTags.ThinkingHasNoClose | src/pages/ollamaApi.ts:21-56 | the reasoning part never contains `</think>` |
| ThinkTags.OpenAfterPrefix | src/services/OllamaService.ts:11 | only the first `<think>` counts |
| ThinkTags.CloseAfterThought | src/services/OllamaService.ts:12-14 | `</think>` is searched from the opening tag on, and the first one found is the one that ends the reasoning |
| Lines.SplitJoin | src/services/OllamaService.ts:82 | joining the pieces of `split('\n')` gives back the chunk |
| Lines.JoinSplit | src/services/OllamaService.ts:82 | splitting lines that hold no newline, once joined, gives back the lines |
| Lines.NonBlankSound | src/services/OllamaService.ts:82 | every line that passes the `line.trim()` filter is non-blank and comes from the chunk |
| Lines.NonBlankKeeps | src/services/OllamaService.ts:82 | every non-blank line passes the filter |
| NdjsonStream.Step | src/services/OllamaService.ts:87-106 | a missing or empty content leaves the state alone; any other is appended to the text; at most two callbacks are added, after the earlier ones |
| NdjsonStream.FeedText | src/services/OllamaService.ts:76-110 | the accumulated text is the in-order concatenation of the content of every parsed line of every chunk; unparsable lines are skipped |
| NdjsonStream.FeedReported | src/services/OllamaService.ts:95-106 | `onStream` only gets non-empty text; `onThinking` only gets non-empty reasoning that differs from the last value reported; only the supplied callbacks are called |
| NdjsonStream.SplitLineLost | src/services/OllamaService.ts:80-84 | a line cut by a chunk boundary into two unparsable halves adds nothing, although the whole line would have added its content |
| NdjsonStream.SingleLineChunk | src/services/OllamaService.ts:82 | a chunk holding one non-blank line and no newline yields just that line |
| NdjsonStream.ReadLines | src/services/OllamaService.ts:84-110 | the inner loop over the lines of a chunk computes the inner step function |
| NdjsonStream.ReadChunks | src/services/OllamaService.ts:74-111 | the read loop computes the stream function; its text is the concatenated content; the callback discipline holds |
| OllamaService.Chat | src/services/OllamaService.ts:47-127 | a rejected fetch fails with what it threw; a non-OK status throws before any read; no reader gives `''`; otherwise an abort while reading is rethrown, any other read error returns what was read, and the answer is the visible part of the accumulated text |
| OllamaService.ModelNames | src/services/OllamaService.ts:129-139 | the model names when `models` is an array, `[]` on any failure |
| OllamaApi.SendMessageToOllama | src/pages/ollamaApi.ts:1-19 | fails exactly when the request or decoding threw; otherwise `message.content`, or `''` without one |
| OllamaApi.SendMessageToOllamaStream | src/pages/ollamaApi.ts:59-131 | no status check; no reader gives `''`; every read error, abort included, is swallowed; the answer is the visible part of the accumulated text; callbacks as in the service |
| SiliconflowService.KeepLinesSound | src/services/SiliconflowService.ts:84 | a line that passes the filter is not blank and is not `data: [DONE]` |
| SiliconflowService.NothingKept | src/services/SiliconflowService.ts:84 | blank lines and end markers never reach the parser |
| SiliconflowService.PayloadOfEvent | src/services/SiliconflowService.ts:89 | a leading `data: ` is removed and the payload trimmed |
| SiliconflowService.PayloadOfBareLine | src/services/SiliconflowService.ts:89 | a line without the prefix is only trimmed |
| SiliconflowService.SseStep | src/services/SiliconflowService.ts:94-104 | an unparsable payload changes nothing; callbacks are only added after the earlier ones |
| SiliconflowService.SseFeedText | src/services/SiliconflowService.ts:80-108 | the returned text is the in-order concatenation of every parsed `delta.content`, with no tag removal |
| SiliconflowService.SseFeedGrows | src/services/SiliconflowService.ts:96-104 | every `onStream` value is a prefix of the final text and every `onThinking` value a prefix of the final reasoning: both are cumulative |
| SiliconflowService.ReadSseLines | src/services/SiliconflowService.ts:86-108 | the loop over the lines of a chunk computes the inner step function |
| SiliconflowService.ReadSse | src/services/SiliconflowService.ts:80-109 | the read loop computes the stream function, its text is the concatenated content, and the reported values grow |
| SiliconflowService.ExtractReasoningContent | src/services/SiliconflowService.ts:9-16 | `reasoning_content` and `content` of the message, each `''` when absent |
| SiliconflowService.ModelIds | src/services/SiliconflowService.ts:149-177 | the ids of `data.data` when the reply is OK and holds an array, `[]` otherwise |
| SiliconflowService.Service.UpdateToken | src/services/SiliconflowService.ts:206-215 | after `updateToken(t)`, `getToken()` returns `t` |
| SiliconflowService.Service.Chat | src/services/SiliconflowService.ts:26-147 | a controller is listed only with a session and without a caller's signal, and it is removed on every exit; a non-OK status and every error are passed on; the text and callbacks are those of the SSE loop |
| SiliconflowService.ChatLeavesRegistry | src/services/SiliconflowService.ts:33-36 | adding a fresh controller and removing it leaves every session's list as it was |
| ActiveRequests.AddSpec | src/services/AIService.ts:72-82 | the list is created when missing and the controller goes last; other sessions are unchanged |
| ActiveRequests.FirstIndex | src/services/AIService.ts:87 | the index of the first occurrence, or the length when there is none |
| ActiveRequests.RemoveFirstCounts | src/services/AIService.ts:84-98 | exactly one occurrence leaves when there is one, otherwise the list is unchanged |
| ActiveRequests.RemoveSpec | src/services/AIService.ts:84-98 | only the session's list changes, by losing the first occurrence of the controller; keys are unchanged |
| ActiveRequests.CancelSpec | src/services/AIService.ts:100-121 | the session's list becomes empty; other sessions are untouched; keys are unchanged |
| ActiveRequests.AddThenRemove | src/services/AIService.ts:72-98 | adding a controller that is not listed and then removing it restores the session's list |
| ActiveRequests.CancelIdempotent | src/services/AIService.ts:100-121 | cancelling twice is cancelling once; a session with nothing listed is left as it is |
| ActiveRequests.RequestRegistry.Add | src/services/AIService.ts:72-82 | the map becomes the add function of the old map; nothing is aborted |
| ActiveRequests.RequestRegistry.Remove | src/services/AIService.ts:84-98 | the map becomes the remove function of the old map; nothing is aborted |
| ActiveRequests.RequestRegistry.Cancel | src/services/AIService.ts:100-121 | every controller listed under the session is aborted, and the map becomes the cancel function of the old map |
| ActiveRequests.RequestRegistry.CancelAll | src/services/AIService.ts:123-141 | every listed controller is aborted and the map is empty |
| AIServices.Merge | src/services/AIService.ts:43-55 | each field that is supplied overrides, and each one that is not keeps the old value |
| AIServices.MergeFull | src/services/AIService.ts:43-55 | a full configuration replaces the old one |
| AIServices.AIService.UpdateConfig | src/services/AIService.ts:43-55 | the configuration becomes the merge of the old one and the update |
| AIServices.AIService.GetSelectedModel | src/services/AIService.ts:57-59 | the configured model |
| AIServices.AIService.AddActiveRequest | src/services/AIService.ts:72-82 | the registry changes as the add function says |
| AIServices.AIService.RemoveActiveRequest | src/services/AIService.ts:84-98 | the registry changes as the remove function says |
| AIServices.AIService.CancelRequests | src/services/AIService.ts:100-121 | the session's controllers are aborted and its list emptied |
| AIServices.AIService.CancelAllRequests | src/services/AIService.ts:123-141 | all controllers are aborted and the registry is emptied |
| AIServiceManager.ServiceKeyAmbiguous | src/services/AIServiceManager.ts:41 | the key `type-baseUrl-model` does not separate its parts: two different configurations share one key |
| AIServiceManager.WithoutPrefix | src/services/AIServiceManager.ts:71-77 | no remaining key starts with the prefix, every key without it keeps its service, and no key is added |
| AIServiceManager.ClearMatchesLongerBaseUrl | src/services/AIServiceManager.ts:73 | the raw prefix match also clears services whose base URL merely starts with the given one |
| AIServiceManager.Manager.GetService | src/services/AIServiceManager.ts:40-64 | a cached key returns its service, with the model updated when it differed; a miss for a registered type creates and caches a service under the key; an unregistered type fails; the returned service's model is the requested one; no other cached service changes |
| AIServiceManager.Manager.GetServiceTwice | src/services/AIServiceManager.ts:41-52 | two calls with the same type and configuration return the identical service |
| AIServiceManager.Manager.ClearServiceCache | src/services/AIServiceManager.ts:71-77 | the cache loses exactly the keys that start with `type-baseUrl` |
| AIServiceManager.Manager.ClearAllServiceCache | src/services/AIServiceManager.ts:82-84 | the cache is empty |
| WebText.RemoveThinkTags | src/services/WebService/index.ts:403-406 | empty input gives `''`; the result is never longer than the text |
| WebText.RemoveThinkTagsNoClose | src/services/WebService/index.ts:405 | text containing no `</think>` is only trimmed |
| WebText.RemoveThinkTagsBlock | src/services/WebService/index.ts:405 | the shortest block after a prefix is deleted, and the rest is handled likewise and trimmed |
| WebText.RemoveThinkTagsIsAnswer | src/services/WebService/index.ts:403-406 | on a single closed block, removing the blocks gives the same answer as the reasoning splitter |
| WebText.StripHtmlTagsClean | src/services/WebService/index.ts:538-540 | the result has no tag left and no space at either end |
| WebText.StripHtmlTagsPlain | src/services/WebService/index.ts:538-540 | text without `<` is only trimmed |
| HtmlText.StripTagsClean | src/services/WebService/AbstractSearchService.ts:71-73 | no `<` in the result is followed by a `>` |
| HtmlText.StripTagsChars | src/services/WebService/AbstractSearchService.ts:71-73 | every character of the result comes from the input |
| HtmlText.StripTagsPlain | src/services/WebService/AbstractSearchService.ts:71-73 | text without `<` is unchanged, and is not trimmed |
| HtmlText.StripTagsDropsTag | src/services/WebService/AbstractSearchService.ts:72 | a leading `<…>` without `>` inside is removed |
| HtmlText.ElementDropped | src/services/WebService/AbstractSearchService.ts:85-88 | a style or script element is removed together with its contents, up to the first closing tag |
| HtmlText.RemoveElementsPlain | src/services/WebService/AbstractSearchService.ts:85-88 | text without `<` is unchanged |
| HtmlText.OpenTagDropped | src/services/WebService/index.ts:960 | a `<link…>` tag is removed |
| HtmlText.StyleAttrDropped | src/services/WebService/AbstractSearchService.ts:91-92 | a whitespace-led `style="…"` or `style='…'` attribute is removed |
| HtmlText.BodyFound | src/services/WebService/AbstractSearchService.ts:95-96 | when a `<body…>…</body>` pair exists, only its inner content is used |
| HtmlText.BodyAbsent | src/services/WebService/AbstractSearchService.ts:95-96 | text without `<` has no body match, so all of it is used |
| HtmlText.TidyNormalized | src/services/WebService/AbstractSearchService.ts:102-105 | collapsing and trimming leaves no space at either end and no two spaces in a row |
| HtmlText.ExtractTextFromHtml | src/services/WebService/AbstractSearchService.ts:80-110 | `''` gives `''`; the result is never longer than the page |
| HtmlText.CleanHtmlAndExtractText | src/services/WebService/index.ts:949-982 | `''` gives `''`; the result is never longer than the page |
| HtmlText.ExtractedNormalized | src/services/WebService/AbstractSearchService.ts:102-105 | both extractors return text with no space at either end and never two spaces in a row |
| HtmlText.ScriptContentsDropped | src/services/WebService/AbstractSearchService.ts:85-105 | a script element in front of the text disappears with its code, and what remains is the tidied text |
| SearchCommon.UserAgent | src/services/WebService/AbstractSearchService.ts:60-64 | the configured user agent when it is not empty, otherwise the fixed Chrome string |
| SearchCommon.SearchUrlHasParam | src/services/WebService/BingSearchService.ts:25-36 | the URL always carries `?key=` or `&key=` |
| SearchCommon.SearchUrlKeepsConfigured | src/services/WebService/BingSearchService.ts:30 | a configured URL that already has the parameter is returned unchanged |
| SearchCommon.SearchUrlAppendsQuery | src/services/WebService/BingSearchService.ts:30-33 | otherwise `&` (when the URL has `?`) or `?` is appended, then `key=` and the encoded query |
| SearchCommon.SearchUrlDefault | src/services/WebService/BingSearchService.ts:27 | without a configured URL, the default URL followed by the encoded query |
| SearchCommon.ExecStep | src/services/WebService/BingSearchService.ts:74-76 | a failed match of a global expression resets `lastIndex` to 0 |
| SearchCommon.Lookups | src/services/WebService/BingSearchService.ts:68-76 | one lookup per title, with `lastIndex` carried from one to the next |
| BingSearch.GetSearchUrl | src/services/WebService/BingSearchService.ts:25-36 | the URL always carries a `q` parameter |
| BingSearch.DefaultSearchUrl | src/services/WebService/BingSearchService.ts:27 | the default is `https://www.bing.com/search?q=` and the encoded query |
| BingSearch.ResultsShape | src/services/WebService/BingSearchService.ts:70-83 | each result keeps its title's text and link, has the stripped snippet group found for it or `无可用摘要` when there is none, and names `Bing` |
| BingSearch.Search | src/services/WebService/BingSearchService.ts:43-92 | any failure gives `[]`; otherwise one result per title match, at most 5, in order |
| GoogleSearch.GetSearchUrl | src/services/WebService/GoogleSearchService.ts:25-36 | the URL always carries a `q` parameter |
| GoogleSearch.DefaultSearchUrl | src/services/WebService/GoogleSearchService.ts:27 | the default is `https://www.google.com/search?q=` and the encoded query |
| GoogleSearch.SnippetOrPlaceholder | src/services/WebService/GoogleSearchService.ts:83-92 | a missing or empty snippet becomes `无可用摘要`; any other is the stripped snippet |
| GoogleSearch.ResultsShape | src/services/WebService/GoogleSearchService.ts:72-95 | each result keeps its title's text; its link is the group the link expression finds in the 200 characters before the title, or `''` when it finds none; its snippet is the stripped group, or `无可用摘要` when there is none or it is empty; it names `Google` |
| GoogleSearch.Search | src/services/WebService/GoogleSearchService.ts:43-103 | any failure gives `[]`; otherwise one result per title match, at most 5, in order |
| BaiduSearch.GetSearchUrl | src/services/WebService/BaiduSearchService.ts:25-36 | the URL always carries a `wd` parameter |
| BaiduSearch.DefaultSearchUrl | src/services/WebService/BaiduSearchService.ts:27 | the default is `https://www.baidu.com/s?wd=` and the encoded query |
| BaiduSearch.ResolveLink | src/services/WebService/BaiduSearchService.ts:74-87 | an `http` link is kept; another is replaced by its non-empty `url` parameter, or else kept |
| BaiduSearch.ResultsShape | src/services/WebService/BaiduSearchService.ts:70-99 | each result keeps its title's text, has its link resolved, has the stripped snippet group found for it or `无可用摘要` when there is none, and names `百度` |
| BaiduSearch.Search | src/services/WebService/BaiduSearchService.ts:43-108 | any failure gives `[]`; otherwise one result per title match, at most 5, in order |
| RawSearch.Name | src/services/WebService/RawSearchService.ts:41-199 | the Bing variant is named `Bing`, the Google one `Google` and the Baidu one `百度` |
| RawSearch.GetSearchUrl | src/services/WebService/RawSearchService.ts:50-61 | the Bing and Google variants carry `q`, and the Baidu variant carries `wd` |
| RawSearch.SameAsParsingAdapters | src/services/WebService/RawSearchService.ts:119-139 | each raw variant names itself and builds its URL exactly as the adapter that parses results |
| RawSearch.BaseSearch | src/services/WebService/RawSearchService.ts:23-26 | the base `search` always gives no results |
| RawSearch.SearchRaw | src/services/WebService/RawSearchService.ts:68-104 | the URL, the variant's name and the query, with the page, or `搜索失败，无法获取HTML内容` when the request failed |
| SearchFactory.EngineFor | src/services/WebService/SearchFactory.ts:57-70 | `google` and `baidu` get their adapters, and every other type gets Bing |
| SearchFactory.CacheKeySeparatesTypes | src/services/WebService/SearchFactory.ts:47 | equal keys mean the same type and the same serialised configuration, for types without `-` |
| SearchFactory.Factory.CreateSearchService | src/services/WebService/SearchFactory.ts:45-76 | a hit returns the stored service unchanged; a miss makes the engine's service and stores it under the key; no entry is removed or replaced |
| SearchFactory.Factory.CreateTwice | src/services/WebService/SearchFactory.ts:50-52 | two calls with the same type and configuration return the identical service |
| SearchFactory.FactoryHolder.GetInstance | src/services/WebService/SearchFactory.ts:32-37 | the first call makes the factory and every later call returns that same one |
| CustomSearch.CustomUrl | src/services/WebService/index.ts:429-437 | the configured URL, followed by `?` or `&`, the parameter (default `q`), `=` and the encoded query |
| CustomSearch.CustomUrlAlwaysAppends | src/services/WebService/index.ts:435-437 | the parameter is appended even when the URL already has it |
| CustomSearch.AbsoluteLink | src/services/WebService/index.ts:478 | a relative link is made absolute on the search host |
| CustomSearch.Entries | src/services/WebService/index.ts:467-484 | one result per title; each description search starts at its title |
| CustomSearch.CustomResults | src/services/WebService/index.ts:442-496 | a failed or non-OK request gives `[]`; otherwise at most 5 results, or exactly one placeholder linking to the request URL when none were parsed |
| CustomSearch.SearchCustom | src/services/WebService/index.ts:455-496 | the loop computes those results |
| CustomSearch.RouteFor | src/services/WebService/index.ts:425-520 | `custom` (case-sensitive) with a non-empty URL takes the custom branch; otherwise the type is matched without regard to case, and anything but google or baidu goes to Bing |
| CustomSearch.RouteCase | src/services/WebService/index.ts:425-510 | `GOOGLE` reaches Google, but `Custom`, or `custom` without a URL, reaches Bing |
| QueryAnalysis.ShouldUseWebSearch | src/services/WebService/index.ts:124-195 | an abort is rethrown; another failure gives false; otherwise the reply's verdict |
| QueryAnalysis.SaysYesIgnoresTrim | src/services/WebService/index.ts:175-176 | the verdict is whether the lower-cased reply contains `是`, `yes` or `需要`, whether it is trimmed or not |
| QueryAnalysis.SaysYesExamples | src/services/WebService/index.ts:176 | being a substring test, `不需要` counts as yes, and so does `YES` |
| QueryAnalysis.SaysNoExample | src/services/WebService/index.ts:176 | a plain `否` is a no |
| QueryAnalysis.ReadField | src/services/WebService/index.ts:259-261 | reading a property that is not a string throws; an absent property reads as `''` |
| QueryAnalysis.TryRead | src/services/WebService/index.ts:256-261 | an unparsable reply or `null` throws; a read gives the parsed `needWebSearch` |
| QueryAnalysis.JsonSpan | src/services/WebService/index.ts:264 | the span from the first `{` to the last `}`, which occurs in the reply; none exactly when no `}` follows a `{` |
| QueryAnalysis.AnalyzeReply | src/services/WebService/index.ts:251-289 | empty keywords or an empty question become the filtered query |
| QueryAnalysis.AnalyzeDirect | src/services/WebService/index.ts:256-261 | a reply that parses directly gives its trimmed fields |
| QueryAnalysis.AnalyzeSpan | src/services/WebService/index.ts:262-271 | when direct parsing fails, the `{…}` span is read instead |
| QueryAnalysis.AnalyzeFallback | src/services/WebService/index.ts:272-287 | when neither reading succeeds, the filtered query stands in for the keywords and the question, and the requirement is `''` |
| QueryAnalysis.AnalyzeKeepsAssignedNeed | src/services/WebService/index.ts:257-262 | a `needWebSearch` assigned before a later property throws survives the fallback |
| QueryAnalysis.AnalyzeUserQuery | src/services/WebService/index.ts:199-303 | an abort is rethrown; another failure gives the raw query for the keywords and the question; otherwise the reading of the trimmed reply |
| QueryAnalysis.ExtractReply | src/services/WebService/index.ts:367-380 | an unparsable reply gives the filtered query and no requirement; empty keywords become the filtered query |
| QueryAnalysis.ExtractDirect | src/services/WebService/index.ts:369-371 | a well-formed reply gives its trimmed keywords and requirement |
| QueryAnalysis.ExtractSearchKeywords | src/services/WebService/index.ts:310-397 | an abort is rethrown; another failure gives the raw query; otherwise the reading of the trimmed reply |
| ResultFormat.DescriptionSection | src/services/WebService/index.ts:566-568 | the description appears exactly when it is present and not blank |
| ResultFormat.SnippetSection | src/services/WebService/index.ts:571-573 | the snippet appears exactly when it is not blank |
| ResultFormat.Format | src/services/WebService/index.ts:555-584 | no results give the no-result tip; otherwise the text exists exactly when every link has a host |
| ResultFormat.EntryAt | src/services/WebService/index.ts:563-581 | result `i` is rendered with the number `i + 1`, right after the header and the entries before it |
| ResultFormat.FormatFrame | src/services/WebService/index.ts:561-582 | a formatted list starts with the header and ends with the closing instruction |
| ResultFormat.EntriesPrefix | src/services/WebService/index.ts:563-581 | the entries of a prefix of the results are a prefix of the entries |
| ResultFormat.FormatSearchResultsForModel | src/services/WebService/index.ts:555-584 | the loop that appends block by block computes the formatted text |
| PageAnalysis.MaxResults | src/services/WebService/index.ts:807 | an absent or zero limit means 3 |
| PageAnalysis.Top | src/services/WebService/index.ts:811 | `slice(0, maxResults)`: a prefix of the results, of the limit's length when the limit is positive |
| PageAnalysis.PageTextNormalized | src/services/WebService/index.ts:846-851 | whatever cheerio returns, the page text has no space at either end and no two spaces in a row |
| PageAnalysis.SourceBlock | src/services/WebService/index.ts:854-856 | every block starts with the source heading |
| PageAnalysis.Fallback | src/services/WebService/index.ts:829-841 | the description when it is given, else the snippet; none when both are empty |
| PageAnalysis.FallbackStep | src/services/WebService/index.ts:857-871 | no fallback text skips the result; a fallback whose link has no host raises an error that escapes the loop |
| PageAnalysis.PageStep | src/services/WebService/index.ts:816-871 | a fetched page with a host gives its text block; anything else falls back |
| PageAnalysis.CollectStaysEscaped | src/services/WebService/index.ts:815-872 | once an error escapes, later results change nothing |
| PageAnalysis.EscapeAt | src/services/WebService/index.ts:815-872 | a result with a fallback but no host ends the collection in the escaping error, whatever its page |
| PageAnalysis.CollectBlocks | src/services/WebService/index.ts:815-872 | every collected text is a source block |
| PageAnalysis.CollectAllPages | src/services/WebService/index.ts:815-872 | when every page is fetched and every link has a host, there is one block per result |
| PageAnalysis.CollectPageAt | src/services/WebService/index.ts:844-856 | block `i` is then the text of page `i` |
| PageAnalysis.Wrap | src/services/WebService/index.ts:937 | the analysis is framed by the time heading and the closing instruction |
| PageAnalysis.Analysis | src/services/WebService/index.ts:789-942 | no results give the tip; a missing URL or model falls back to the formatted list; a rejection happens only when that list cannot be formatted |
| PageAnalysis.AnalysisUsed | src/services/WebService/index.ts:874-937 | the model's analysis is used exactly when some text was collected without an escaping error |
| PageAnalysis.EscapeFormats | src/services/WebService/index.ts:857-940 | a fallback without a host among the analysed results sends the whole call to the formatted list |
| PageAnalysis.ProcessResults | src/services/WebService/index.ts:815-872 | the loop yields exactly the texts `Collect` gives for all the results, or nothing once an error escapes it |
| PageAnalysis.AnalyzeHtmlContentWithAI | src/services/WebService/index.ts:789-942 | the method computes the analysis |
| WebServices.SessionOf | src/services/WebService/index.ts:46-54 | a request is listed under a session exactly when the session id is given |
| WebServices.Restored | src/services/WebService/index.ts:177-182 | adding and removing a request leaves every session's list as it was |
| WebServices.WebService.AddActiveRequest | src/services/WebService/index.ts:46-54 | an empty session id is ignored; otherwise the add function |
| WebServices.WebService.RemoveActiveRequest | src/services/WebService/index.ts:61-72 | an empty session id is ignored; otherwise the remove function |
| WebServices.WebService.CancelRequests | src/services/WebService/index.ts:78-96 | an empty session id is ignored; otherwise the session's controllers are aborted and its list emptied |
| WebServices.WebService.CancelAllRequests | src/services/WebService/index.ts:101-116 | every controller is aborted and the registry is emptied |
| WebServices.WebService.Bracket | src/services/WebService/index.ts:144-182 | the request's controller is listed while it runs and removed in `finally` |
| WebServices.WebService.ShouldUseWebSearch | src/services/WebService/index.ts:124-195 | the verdict, with the registry as it was before the call |
| WebServices.WebService.AnalyzeUserQuery | src/services/WebService/index.ts:199-303 | the analysis, with the registry as it was before the call |
| WebServices.WebService.ExtractSearchKeywords | src/services/WebService/index.ts:310-397 | the keywords, with the registry as it was before the call |
| WebServices.WebService.Search | src/services/WebService/index.ts:415-530 | the query loses its reasoning blocks; the custom branch builds its results itself; any other type asks the factory's cached adapter for its engine |
| Filters.Filter | src/store/promptStore.ts:78 | what is kept passes the test, and nothing is lost when everything passes |
| Filters.FilterMembers | src/store/chatStore.ts:59 | an element is kept exactly when it is in the list and passes the test |
| Filters.FilterAppend | src/components/ChatPanel.tsx:528-530 | filtering a concatenation filters each part in order |
| PromptStore.Updated | src/store/promptStore.ts:65-74 | entries with the id get the new title and content; ids, other entries, the length and the order stay |
| PromptStore.Without | src/store/promptStore.ts:76-83 | every entry with the id leaves, the rest stay in order, and a list without the id is unchanged |
| PromptStore.Find | src/store/promptStore.ts:85-87 | the first entry with the id, or nothing exactly when no entry has it |
| PromptStore.AddThenDelete | src/store/promptStore.ts:51-83 | a prompt added under a fresh id is found by it, and deleting it restores the list |
| PromptStore.UpdateThenGet | src/store/promptStore.ts:65-87 | after an update the prompt found by the id is the updated one |
| PromptStore.DeleteThenGet | src/store/promptStore.ts:76-87 | after a delete nothing is found by the id, and deleting again changes nothing |
| PromptStore.PromptStore.AddPrompt | src/store/promptStore.ts:51-63 | exactly one prompt, under the current time, goes last; the rest of the state stays |
| PromptStore.PromptStore.UpdatePrompt | src/store/promptStore.ts:65-74 | the list becomes the update function of the old one |
| PromptStore.PromptStore.DeletePrompt | src/store/promptStore.ts:76-83 | the list becomes the old one without the id |
| PromptStore.PromptStore.GetPrompt | src/store/promptStore.ts:85-87 | the first prompt with the id |
| PromptStore.PromptStore.InitPrompts | src/store/promptStore.ts:112-116 | only a non-empty list replaces the prompts |
| PromptStore.PromptStore.SetGlobalPrompt | src/store/promptStore.ts:90-94 | sets the global prompt and nothing else |
| PromptStore.PromptStore.ToggleGlobalPrompt | src/store/promptStore.ts:97-102 | negates the switch and nothing else |
| PromptStore.PromptStore.SetUseGlobalPrompt | src/store/promptStore.ts:105-109 | sets the switch and nothing else |
| ChatStore.Appended | src/store/chatStore.ts:51-55 | the message goes last in the matching sessions; the number, order, ids and names of sessions and every other session stay |
| ChatStore.MessagesWithout | src/store/chatStore.ts:59 | exactly the messages with another id stay |
| ChatStore.Deleted | src/store/chatStore.ts:56-62 | every message with the id leaves the matching sessions only; the number and order of sessions stay |
| ChatStore.AppendThenDelete | src/store/chatStore.ts:51-62 | a message appended under a fresh id and then deleted leaves the sessions as they were |
| ChatStore.FindSession | src/components/ChatPanel.tsx:393 | the first session with the current id, or nothing exactly when there is no id or no session has it |
| ChatStore.FindAdded | src/store/chatStore.ts:44-50 | a session added under a fresh id is the one found by it |
| ChatStore.ChatStore.SetCurrentSession | src/store/chatStore.ts:43 | sets the current id and nothing else |
| ChatStore.ChatStore.AddSession | src/store/chatStore.ts:44-50 | an empty session under the current time goes last and becomes current |
| ChatStore.ChatStore.AddMessage | src/store/chatStore.ts:51-55 | the sessions become the append function of the old ones |
| ChatStore.ChatStore.DeleteMessage | src/store/chatStore.ts:56-62 | the sessions become the delete function of the old ones |
| ChatStore.ChatStore.CurrentSession | src/components/ChatPanel.tsx:393 | the session found by the current id |
| ChatPanel.Visible | src/components/ChatPanel.tsx:528-529 | no reasoning message is kept |
| ChatPanel.Wires | src/components/ChatPanel.tsx:531-534 | each message is reduced to its role and content, in order |
| ChatPanel.History | src/components/ChatPanel.tsx:527-534 | the non-reasoning messages in order, projected, followed by the new user message |
| ChatPanel.OwnIdsNotThinking | src/components/ChatPanel.tsx:493-568 | user and reply ids are never reasoning ids, and the stored reasoning's id is one |
| ChatPanel.UserMessage | src/components/ChatPanel.tsx:492-498 | the user message holds the trimmed input |
| ChatPanel.ReplyMessages | src/components/ChatPanel.tsx:557-577 | the reasoning, when it is not empty, comes before the reply, whose content is the last streamed text |
| ChatPanel.VisibleAfterExchange | src/components/ChatPanel.tsx:528-577 | the reasoning stored after a reply never reaches a later history, and the user message and the reply do |
| ChatPanel.NextHistory | src/components/ChatPanel.tsx:527-577 | after an exchange, the next history is the one just sent, then the reply, then the next user message |
| ChatPanel.AppendAll | src/components/ChatPanel.tsx:566-577 | messages added one after another end up after the session's messages, in order; other sessions stay |
| ChatPanel.Panel.HandleStopGeneration | src/components/ChatPanel.tsx:473-480 | a current controller is aborted and dropped, and generation stops |
| ChatPanel.Panel.HandleSendMessage | src/components/ChatPanel.tsx:483-554 | a blank input, no model or no session is ignored; while generating, sending stops; otherwise the trimmed user message is stored, and the history sent is the filtered history |
| ChatPanel.Panel.OnStream | src/components/ChatPanel.tsx:543-546 | the latest text is kept and shown |
| ChatPanel.Panel.OnThinking | src/components/ChatPanel.tsx:547-550 | the latest reasoning is kept and shown |
| ChatPanel.Panel.ChatResolved | src/components/ChatPanel.tsx:554-589 | the reply messages are stored in the session of the send, then everything is cleared |
| ChatPanel.Panel.ChatRejected | src/components/ChatPanel.tsx:578-589 | nothing is stored, and everything is cleared |
| ChatPanel.Panel.HandleInsertPrompt | src/components/ChatPanel.tsx:468-470 | the prompt goes after the input, on a new line when the input is not empty |
| ChatPanel.Panel.HandleSuggestionSelect | src/components/ChatPanel.tsx:623-625 | the suggestion is appended to the input |
| ChatPanel.Panel.HandleReaskMessage | src/components/ChatPanel.tsx:661-668 | while generating nothing happens; otherwise the input becomes the message |
| ChatPanel.Panel.HandleDeleteMessage | src/components/ChatPanel.tsx:644-658 | the message leaves the current session |
| ChatPanel.Panel.ChatMessages | src/components/ChatPanel.tsx:593-615 | the session's messages, then `thinking-current` only when there is reasoning and streaming has begun, then `stream` only when the streamed text is not empty |
| WebSearchConfig.Capitalised | src/pages/WebSearchConfig.tsx:47 | the first character upper-cased and the rest kept |
| WebSearchConfig.EngineLabel | src/pages/WebSearchConfig.tsx:36-48 | every label ends in `搜索`; an unknown engine is its capitalised value then `搜索` |
| WebSearchConfig.EngineOptions | src/pages/WebSearchConfig.tsx:28-56 | at most one entry per member, and exactly one each when no key is a number |
| WebSearchConfig.EngineOptionsEntries | src/pages/WebSearchConfig.tsx:28-56 | every entry is under a lower-cased value and needs no API key |
| WebSearchConfig.Options | src/pages/WebSearchConfig.tsx:18-66 | `none` first and `custom` last |
| WebSearchConfig.GetSearchEngineOptions | src/pages/WebSearchConfig.tsx:18-66 | the loop computes those options |
| WebSearchConfig.StandardOptions | src/pages/WebSearchConfig.tsx:18-66 | with the three engines the page offers none, Bing, Google, Baidu and custom, in that order |
| WebSearchConfig.SaveConfig | src/pages/WebSearchConfig.tsx:99-117 | a custom search with a blank URL is rejected; otherwise `enabled` holds exactly when the type is not `none`, and an empty URL or user agent is left out |
| WebSearchConfig.Load | src/pages/WebSearchConfig.tsx:72-96 | the fields always have a type, a parameter name and a non-zero number of results |
| WebSearchConfig.SaveThenLoad | src/pages/WebSearchConfig.tsx:90-117 | what is saved is what the page shows again, with the defaults for an empty type, an empty parameter or 0 |
| WebSearchConfig.ConfigPage.HandleSave | src/pages/WebSearchConfig.tsx:99-117 | a rejected save changes nothing; an accepted one stores the settings, and the fields are reloaded from them |
| WebSearchConfig.ConfigPage.HandleMaxResultsChange | src/pages/WebSearchConfig.tsx:141-143 | a cleared field or 0 stores 3 |
| WebSearchConfig.ConfigPage.HandleSearchTypeChange | src/pages/WebSearchConfig.tsx:120-123 | only the type changes |
| WebSearchConfig.ConfigPage.HandleSearchUrlChange | src/pages/WebSearchConfig.tsx:126-128 | only the URL changes |
| WebSearchConfig.ConfigPage.HandleSearchParamChange | src/pages/WebSearchConfig.tsx:136-138 | only the parameter name changes |
| WebSearchConfig.ConfigPage.HandleUserAgentChange | src/pages/WebSearchConfig.tsx:131-133 | only the user agent changes |

## Left out

- Network I/O is not modelled. Every `fetch`, `response.json()`/`text()`, reader and `TextDecoder` becomes an input: the outcome, the chunks, and how the stream ended.
- `checkAvailability` (Ollama, Siliconflow) and `getServiceName` are not modelled: they are a network probe and a constant.
- `JSON.parse`, `JSON.stringify`, `encodeURIComponent`, `new URL(...)`, `URL.searchParams`, cheerio and the adapters' search expressions are function parameters. Their own behaviour is not modelled.
- The model does not reassemble UTF-8 sequences split across chunks; a chunk is already a string.
- `Lower` and `Upper` change ASCII letters only. JavaScript's full Unicode case mapping is not modelled. The case-insensitive expressions behave the same on the tags they look for.
- Time (`Date.now()`, `toLocaleString()`) is a parameter. One `now` stands for the several `Date.now()` calls of a handler.
- LLM prompt texts are not modelled. A model's reply is an input: its content, an abort, or another failure.
- Concurrency is not modelled beyond the await points of a send. A send is split at its `await` into `HandleSendMessage`, the stream callbacks, and `ChatResolved` or `ChatRejected`.
- Cancelling a request is not modelled past membership of the `aborted` set; a cancel during an in-flight `WebService` call is the `reply` parameter's abort case.
- ChatPanel.Panel.HandleSendMessage: the call to `AIServiceManager.getService` inside the send is not modelled, and the chat outcome arrives through the callbacks and the settle methods.
- Static singletons (`WebService.getInstance`, `AIServiceManager.getInstance`) are not modelled: the objects are passed explicitly. `SearchFactory.getInstance` is modelled.
- Persistence is not modelled: `savePrompts`, `localStorage` and the settings store's own code. The settings store is not part of this model; its web-search fields are taken from the page's use of them.
- Confirmation dialogs, toasts and rendering are not modelled.
- WebServices.WebService.Search: the failure of `new URL(customUrl)` is reported as no results, and the `typeof text !== 'string'` guard is not modelled.
- WebSearchConfig.ConfigPage.HandleMaxResultsChange: `NaN` is not modelled; the value is an optional integer.
- `extractKeywords`, `extractKeyInfoWithAI` and `parseSearchResultsWithAI` are not modelled. Nothing in the core calls them, and they only post a prompt and read the reply.
- The `catch` branches of `extractTextFromHtml` and `cleanHtmlAndExtractText` are not modelled. The string operations inside them do not throw.
- SiliconflowService.Service.Chat: the non-streaming branch is not modelled, because the request always asks for a stream; `extractReasoningContent` is modelled on its own.
- Number parsing in `getSearchEngineOptions` (`isNaN(Number(key))`) is a parameter.
