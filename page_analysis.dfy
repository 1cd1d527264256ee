/**
 * `WebService.analyzeHtmlContentWithAI`: fetch the pages of the first few search results,
 * reduce each to plain text (or fall back to the result's description or snippet), hand the
 * texts to the model and wrap its analysis; whenever that chain breaks, the plain formatted
 * results are used instead.
 *
 * The page fetch, cheerio's `$.text()`, `new URL(link).hostname`, the call to the model's
 * `/api/chat` endpoint and the clock are parameters.
 */
module PageAnalysis {
  import opened Wrappers
  import opened Text
  import opened Lines
  import opened Spans
  import opened HtmlText
  import opened SearchCommon
  import opened ResultFormat
  import opened WebText

  /** `WebServiceConfig`; every field is optional. */
  datatype WebServiceConfig = WebServiceConfig(baseUrl: Option<string>, model: Option<string>,
                                               searchUrl: Option<string>, searchParam: Option<string>,
                                               userAgent: Option<string>, sessionId: Option<string>,
                                               maxResults: Option<int>)

  /** A string option is truthy: present and not empty. */
  predicate Given(value: Option<string>) {
    value.Some? && value.value != []
  }

  /** What fetching a page gives: the request rejects, the status is not ok, or the page text. */
  datatype PageOutcome = Rejected | NotOk | Page(html: string)

  /** `fetch(link, { headers: { 'User-Agent': userAgent, ... } })` followed by `response.text()`. */
  type Fetch = (string, string) -> PageOutcome

  /** What the system prompt is built from: the time, the question without thinking blocks and
      the collected texts. */
  datatype PromptInput = PromptInput(now: string, question: string, texts: seq<string>)

  /** The `message.content` of a non-streaming `/api/chat` call to the given URL and model whose
      system prompt is `Prompt` of the given input; `None` when the request, the JSON or the
      field fails. */
  type Chat = (string, string, PromptInput) -> Option<string>

  const DefaultMaxResults := 3

  /** `config.maxResults || 3`. */
  function MaxResults(maxResults: Option<int>): (r: int)
    ensures maxResults.None? || maxResults.value == 0 ==> r == DefaultMaxResults
    ensures maxResults.Some? && maxResults.value != 0 ==> r == maxResults.value
  {
    if maxResults.Some? && maxResults.value != 0 then maxResults.value else DefaultMaxResults
  }

  /** Where `slice(0, end)` stops on a list of length `n`: a negative end counts from the back. */
  function SliceEnd(n: nat, end: int): (r: nat)
    ensures r <= n
    ensures 0 <= end ==> r == Min(n, end)
    ensures end < 0 ==> r == Clamp(n + end, n)
  {
    if end < 0 then (if n + end < 0 then 0 else n + end) else if end < n then end else n
  }

  /** `results.slice(0, maxResults)`: the results analysed. */
  function Top(results: seq<SearchResult>, maxResults: Option<int>): (r: seq<SearchResult>)
    ensures |r| <= |results| && r == results[..|r|]
    ensures maxResults.None? ==> |r| == Min(|results|, DefaultMaxResults)
    ensures maxResults.Some? && maxResults.value > 0 ==> |r| == Min(|results|, maxResults.value)
  {
    results[..SliceEnd(|results|, MaxResults(maxResults))]
  }

  /** The text of a fetched page: comments, style and script elements removed, cheerio's text,
      whitespace runs collapsed to one space, trimmed. */
  function PageText(html: string, textOf: string -> string): string {
    var noComments := RemoveSpans(html, "<!--", "-->");
    var noStyle := RemoveElements(noComments, "style");
    var noScript := RemoveElements(noStyle, "script");
    Trim(Collapse(textOf(noScript)))
  }

  /** The page-text pipeline for a given cheerio. */
  function Extractor(textOf: string -> string): (r: string -> string)
    ensures forall html :: r(html) == PageText(html, textOf)
  {
    html => PageText(html, textOf)
  }

  /** Whatever cheerio returns, the page text has no whitespace at either end and no run of
      two whitespace characters. */
  lemma PageTextNormalized(html: string, textOf: string -> string)
    ensures Normalized(PageText(html, textOf))
  {
    var noScript := RemoveElements(RemoveElements(RemoveSpans(html, "<!--", "-->"), "style"), "script");
    CollapseShape(textOf(noScript));
    TrimNormalizes(Collapse(textOf(noScript)));
  }

  /** The block added for one source. */
  function SourceBlock(host: string, link: string, text: string): (r: string)
    ensures StartsWith(r, SourceLead)
  {
    var lead := SourceLead + host + "](" + link + ")\n\n";
    assert lead[..|SourceLead|] == SourceLead;
    AppendKeepsPrefix(lead, text + "\n\n---\n\n", SourceLead);
    assert lead + text + "\n\n---\n\n" == lead + (text + "\n\n---\n\n");
    lead + text + "\n\n---\n\n"
  }

  const SourceLead := "### 来源: ["

  /** The text used when the page itself is not: the description when it is not empty, else
      the snippet when it is not empty, else none. */
  function Fallback(result: SearchResult): (r: Option<string>)
    ensures r.Some? ==> r.value != []
    ensures r.None? <==> (result.description.None? || result.description.value == []) && result.snippet == []
    ensures Given(result.description) ==> r == result.description
  {
    if Given(result.description) then result.description
    else if result.snippet != [] then Some(result.snippet)
    else None
  }

  /** What one result contributes: a block, nothing, or an exception that escapes the loop. */
  datatype Step = Push(block: string) | Skip | Escape

  /** The fallback of the loop body: the block with the fallback text, nothing without one, and
      an escaping exception when there is one but `new URL(link)` throws. */
  function FallbackStep(result: SearchResult, hostOf: string -> Option<string>): (r: Step)
    ensures r.Escape? <==> Fallback(result).Some? && hostOf(result.link).None?
    ensures r.Skip? <==> Fallback(result).None?
  {
    match Fallback(result)
    case None => Skip
    case Some(text) =>
      match hostOf(result.link)
      case None => Escape
      case Some(host) => Push(SourceBlock(host, result.link, text))
  }

  /** One iteration of the loop.  A rejected fetch goes straight to the `catch`; a status that
      is not ok uses the fallback inside the `try`, and when `new URL` throws there the `catch`
      repeats the same fallback, which throws again; a page whose link has no host also ends in
      the `catch`. */
  function PageStep(result: SearchResult, outcome: PageOutcome, extract: string -> string,
                    hostOf: string -> Option<string>): (r: Step)
    ensures outcome.Page? && hostOf(result.link).Some?
            ==> r == Push(SourceBlock(hostOf(result.link).value, result.link, extract(outcome.html)))
    ensures !(outcome.Page? && hostOf(result.link).Some?) ==> r == FallbackStep(result, hostOf)
  {
    match outcome
    case Page(html) =>
      (match hostOf(result.link)
       case Some(host) => Push(SourceBlock(host, result.link, extract(html)))
       case None => FallbackStep(result, hostOf))
    case _ => FallbackStep(result, hostOf)
  }

  /** The texts collected from the first `k` results, or `None` once an exception escapes. */
  function Collect(top: seq<SearchResult>, k: nat, userAgent: string, fetch: Fetch,
                   extract: string -> string, hostOf: string -> Option<string>): (r: Option<seq<string>>)
    requires k <= |top|
    ensures r.Some? ==> |r.value| <= k
  {
    if k == 0 then Some([])
    else
      match Collect(top, k - 1, userAgent, fetch, extract, hostOf)
      case None => None
      case Some(texts) =>
        match PageStep(top[k - 1], fetch(top[k - 1].link, userAgent), extract, hostOf)
        case Push(block) => Some(texts + [block])
        case Skip => Some(texts)
        case Escape => None
  }

  /** Once an exception has escaped, later results change nothing. */
  lemma {:induction false} CollectStaysEscaped(top: seq<SearchResult>, j: nat, k: nat, userAgent: string, fetch: Fetch,
                                               extract: string -> string, hostOf: string -> Option<string>)
    requires j <= k <= |top| && Collect(top, j, userAgent, fetch, extract, hostOf).None?
    ensures Collect(top, k, userAgent, fetch, extract, hostOf).None?
    decreases k
  {
    if j < k {
      CollectStaysEscaped(top, j, k - 1, userAgent, fetch, extract, hostOf);
    }
  }

  /** Every collected text is a source block. */
  lemma {:induction false} CollectBlocks(top: seq<SearchResult>, k: nat, userAgent: string, fetch: Fetch,
                                         extract: string -> string, hostOf: string -> Option<string>)
    requires k <= |top| && Collect(top, k, userAgent, fetch, extract, hostOf).Some?
    ensures var texts := Collect(top, k, userAgent, fetch, extract, hostOf).value;
            forall i :: 0 <= i < |texts| ==> StartsWith(texts[i], SourceLead)
    decreases k
  {
    if k > 0 {
      CollectBlocks(top, k - 1, userAgent, fetch, extract, hostOf);
    }
  }

  /** When every page is fetched and every link has a host, there is one block per result. */
  lemma {:induction false} CollectAllPages(top: seq<SearchResult>, k: nat, userAgent: string, fetch: Fetch,
                                           extract: string -> string, hostOf: string -> Option<string>)
    requires k <= |top|
    requires forall i :: 0 <= i < k ==> fetch(top[i].link, userAgent).Page? && hostOf(top[i].link).Some?
    ensures var r := Collect(top, k, userAgent, fetch, extract, hostOf);
            r.Some? && |r.value| == k
    decreases k
  {
    if k > 0 {
      CollectAllPages(top, k - 1, userAgent, fetch, extract, hostOf);
    }
  }

  /** ... and block `i` is the text of page `i`. */
  lemma {:induction false} CollectPageAt(top: seq<SearchResult>, k: nat, userAgent: string, fetch: Fetch,
                                         extract: string -> string, hostOf: string -> Option<string>, i: nat)
    requires i < k <= |top|
    requires forall j :: 0 <= j < k ==> fetch(top[j].link, userAgent).Page? && hostOf(top[j].link).Some?
    ensures var r := Collect(top, k, userAgent, fetch, extract, hostOf);
            && r.Some? && |r.value| == k
            && r.value[i] == SourceBlock(hostOf(top[i].link).value, top[i].link,
                                         extract(fetch(top[i].link, userAgent).html))
    decreases k
  {
    CollectAllPages(top, k, userAgent, fetch, extract, hostOf);
    CollectAllPages(top, k - 1, userAgent, fetch, extract, hostOf);
    if i < k - 1 {
      CollectPageAt(top, k - 1, userAgent, fetch, extract, hostOf, i);
    }
  }

  const PromptIntro := "\n您是一位专业的信息分析专家。请分析以下从网页获取的纯文本内容，并提取与用户问题相关的关键信息。\n同时目前的系统时间为: "

  const PromptTasks := "\n\n请执行以下任务:\n1. 对内容进行清理和结构化，去除无关信息、广告和重复内容\n2. 提取与用户问题直接相关的关键信息和事实\n3. 按主题或逻辑顺序整理信息\n4. 保留所有关键的数字、日期、名称和事实\n5. 用简洁清晰的方式呈现信息，使用标题和要点结构\n6. 如果信息矛盾或来源不同，请注明区别\n7. 对每个信息点，标明其来源网站的域名和链接\n8. 特别注意：如果用户询问包含时效性内容（如\"今天\"、\"最新\"、\"当前\"等词语），请优先关注最新的信息，并明确标注信息的发布时间或更新时间\n\n输出格式:\n---\n## 信息分析结果\n\n[按主题组织的关键信息，每个信息点后标明来源]\n\n## 主要事实要点\n\n- [要点1] - 来源: [来源网站域名](链接)\n- [要点2] - 来源: [来源网站域名](链接)\n...\n\n## 时效性信息（如有）\n\n- [包含日期/时间的信息点] - 来源: [来源网站域名](链接)\n...\n\n## 注意事项(如有)\n\n[有关信息可靠性、时效性或完整性的说明]\n---\n\n请确保分析客观、专业，只提供来源文本中包含的信息，并明确标记每个信息的来源。"

  /** The system prompt: the time, the question, the texts joined by line feeds, and the
      instructions. */
  function Prompt(input: PromptInput): string
    requires input.texts != []
  {
    PromptIntro + input.now + "。\n用户问题: \"" + input.question + "\"\n\n下面是从网络搜索结果页面中获取的纯文本内容：\n\n"
    + Join(input.texts, '\n') + PromptTasks
  }

  const AnswerLead := "### 当前系统时间为: "
  const AnswerTail := "\n\n请根据以上网页内容分析结果和您的知识来回答用户问题。回答中应引用相关信息的来源。"

  /** The text returned around the model's trimmed analysis. */
  function Wrap(now: string, analysis: string): (r: string)
    ensures StartsWith(r, AnswerLead)
    ensures |r| >= |AnswerTail| && r[|r| - |AnswerTail|..] == AnswerTail
  {
    var head := AnswerLead + now + "\n\n这是实时的网页内容分析结果\n\n" + analysis;
    assert head[..|AnswerLead|] == AnswerLead;
    AppendKeepsPrefix(head, AnswerTail, AnswerLead);
    assert (head + AnswerTail)[|head|..] == AnswerTail;
    head + AnswerTail
  }

  /** `analyzeHtmlContentWithAI(results, query, config)`; `None` when the promise rejects, which
      only the fallback formatting can make happen. */
  function Analysis(results: seq<SearchResult>, query: string, config: WebServiceConfig, now: string,
                    fetch: Fetch, textOf: string -> string, hostOf: string -> Option<string>, chat: Chat): (r: Option<string>)
    ensures results == [] ==> r == Some(NoResultTip(now))
    ensures results != [] && !(Given(config.baseUrl) && Given(config.model)) ==> r == Format(results, now, hostOf)
    ensures r.None? ==> results != [] && !AllHosts(results, hostOf)
  {
    if results == [] then Some(NoResultTip(now))
    else if !(Given(config.baseUrl) && Given(config.model)) then Format(results, now, hostOf)
    else
      var top := Top(results, config.maxResults);
      match Collect(top, |top|, OrElse(config.userAgent, DefaultUserAgent), fetch, Extractor(textOf), hostOf)
      case None => Format(results, now, hostOf)
      case Some(texts) =>
        if texts == [] then Format(results, now, hostOf)
        else
          match chat(config.baseUrl.value + "/api/chat", config.model.value, PromptInput(now, RemoveThinkTags(query), texts))
          case None => Format(results, now, hostOf)
          case Some(content) => Some(Wrap(now, Trim(content)))
  }

  /** The analysis is used exactly when some text was collected without an escaping exception
      and the model answered; every other way out is the formatted result list. */
  lemma AnalysisUsed(results: seq<SearchResult>, query: string, config: WebServiceConfig, now: string,
                     fetch: Fetch, textOf: string -> string, hostOf: string -> Option<string>, chat: Chat)
    requires results != [] && Given(config.baseUrl) && Given(config.model)
    ensures var top := Top(results, config.maxResults);
            var texts := Collect(top, |top|, OrElse(config.userAgent, DefaultUserAgent), fetch, Extractor(textOf), hostOf);
            var r := Analysis(results, query, config, now, fetch, textOf, hostOf, chat);
            if texts.Some? && texts.value != []
               && chat(config.baseUrl.value + "/api/chat", config.model.value, PromptInput(now, RemoveThinkTags(query), texts.value)).Some?
            then r == Some(Wrap(now, Trim(chat(config.baseUrl.value + "/api/chat", config.model.value, PromptInput(now, RemoveThinkTags(query), texts.value)).value)))
            else r == Format(results, now, hostOf)
  {
  }

  /** One result whose fallback exists but whose link has no host, among those analysed, sends
      the whole analysis to the formatted list. */
  lemma EscapeFormats(results: seq<SearchResult>, query: string, config: WebServiceConfig, now: string,
                      fetch: Fetch, textOf: string -> string, hostOf: string -> Option<string>, chat: Chat, i: nat)
    requires Given(config.baseUrl) && Given(config.model)
    requires i < |Top(results, config.maxResults)|
    requires var result := Top(results, config.maxResults)[i];
             Fallback(result).Some? && hostOf(result.link).None?
    ensures Analysis(results, query, config, now, fetch, textOf, hostOf, chat) == Format(results, now, hostOf)
  {
    var top := Top(results, config.maxResults);
    EscapeAt(top, i, OrElse(config.userAgent, DefaultUserAgent), fetch, Extractor(textOf), hostOf);
  }

  /** A result whose fallback exists but whose link has no host escapes, whatever its page. */
  lemma EscapeAt(top: seq<SearchResult>, i: nat, userAgent: string, fetch: Fetch,
                 extract: string -> string, hostOf: string -> Option<string>)
    requires i < |top| && Fallback(top[i]).Some? && hostOf(top[i].link).None?
    ensures Collect(top, |top|, userAgent, fetch, extract, hostOf).None?
  {
    if Collect(top, i, userAgent, fetch, extract, hostOf).Some? {
      assert PageStep(top[i], fetch(top[i].link, userAgent), extract, hostOf) == Escape;
    }
    assert Collect(top, i + 1, userAgent, fetch, extract, hostOf).None?;
    CollectStaysEscaped(top, i + 1, |top|, userAgent, fetch, extract, hostOf);
  }

  /** The loop of `analyzeHtmlContentWithAI`, appending to `processedTexts` result by result;
      `None` when an exception escapes it to the outer `catch`. */
  method ProcessResults(top: seq<SearchResult>, userAgent: string, fetch: Fetch, extract: string -> string,
                        hostOf: string -> Option<string>)
    returns (processedTexts: Option<seq<string>>)
    ensures processedTexts == Collect(top, |top|, userAgent, fetch, extract, hostOf)
  {
    var texts: seq<string> := [];
    var index := 0;
    while index < |top|
      invariant index <= |top|
      invariant Collect(top, index, userAgent, fetch, extract, hostOf) == Some(texts)
    {
      var result := top[index];
      var outcome := fetch(result.link, userAgent);
      var host := hostOf(result.link);
      var fallback := Fallback(result);
      if outcome.Page? && host.Some? {
        texts := texts + [SourceBlock(host.value, result.link, extract(outcome.html))];
      } else if fallback.Some? {
        if host.None? {
          CollectStaysEscaped(top, index + 1, |top|, userAgent, fetch, extract, hostOf);
          return None;
        }
        texts := texts + [SourceBlock(host.value, result.link, fallback.value)];
      }
      index := index + 1;
    }
    return Some(texts);
  }

  /** `analyzeHtmlContentWithAI(results, query, config)`. */
  method AnalyzeHtmlContentWithAI(results: seq<SearchResult>, query: string, config: WebServiceConfig, now: string,
                                  fetch: Fetch, textOf: string -> string, hostOf: string -> Option<string>, chat: Chat)
    returns (r: Option<string>)
    ensures r == Analysis(results, query, config, now, fetch, textOf, hostOf, chat)
  {
    if |results| == 0 {
      return Some(NoResultTip(now));
    }
    if !Given(config.baseUrl) || !Given(config.model) {
      r := FormatSearchResultsForModel(results, now, hostOf);
      return;
    }
    var top := Top(results, config.maxResults);
    var processedTexts := ProcessResults(top, OrElse(config.userAgent, DefaultUserAgent), fetch, Extractor(textOf), hostOf);
    if processedTexts.None? || |processedTexts.value| == 0 {
      r := FormatSearchResultsForModel(results, now, hostOf);
      return;
    }
    var reply := chat(config.baseUrl.value + "/api/chat", config.model.value,
                      PromptInput(now, RemoveThinkTags(query), processedTexts.value));
    if reply.None? {
      r := FormatSearchResultsForModel(results, now, hostOf);
      return;
    }
    r := Some(Wrap(now, Trim(reply.value)));
  }
}
