/**
 * How `WebService` reads the model's replies when it asks whether a query needs the web
 * (`shouldUseWebSearch`), and when it asks for the search keywords and the user's requirement
 * (`analyzeUserQuery`, `extractSearchKeywords`).  The model call itself is an input: its reply
 * text, or an abort, or any other failure.  `JSON.parse` is a parameter.
 */
module QueryAnalysis {
  import opened Wrappers
  import opened Text
  import opened WebText

  /** What the model call produced: the reply's `message.content`, an abort, or another error
      (network, a body that is not JSON, a reply without `message.content`). */
  datatype LlmReply = Answer(content: string) | Aborted | Failed

  /** The error that escapes: only an abort is rethrown. */
  datatype Abort = Abort

  // ---- shouldUseWebSearch ----

  /** The reply, trimmed and lower-cased, contains `是`, `yes` or `需要`. */
  predicate SaysYes(reply: string) {
    var answer := Lower(Trim(reply));
    Contains(answer, "是") || Contains(answer, "yes") || Contains(answer, "需要")
  }

  /** `shouldUseWebSearch`'s outcome: the reply's verdict; `false` when the call failed; an
      abort is passed on. */
  function ShouldUseWebSearch(reply: LlmReply): (r: Result<bool, Abort>)
    ensures r.Failure? <==> reply.Aborted?
    ensures reply.Failed? ==> r == Success(false)
    ensures reply.Answer? ==> r == Success(SaysYes(reply.content))
  {
    match reply
    case Answer(content) => Success(SaysYes(content))
    case Aborted => Failure(Abort)
    case Failed => Success(false)
  }

  /** An occurrence of a word that begins and ends with a non-space character cannot reach into
      the spaces around the core of a text. */
  lemma ContainsInCore(s: string, a: nat, b: nat, pat: string)
    requires a <= b <= |s| && AllSpace(s[..a]) && AllSpace(s[b..])
    requires pat != [] && !IsSpace(pat[0]) && !IsSpace(pat[|pat| - 1])
    ensures Contains(s[a..b], pat) <==> Contains(s, pat)
  {
    if Contains(s[a..b], pat) {
      var k :| 0 <= k <= |s[a..b]| - |pat| && OccursAt(s[a..b], pat, k);
      OccursInSlice(s, a, b, pat, k);
    }
    if Contains(s, pat) {
      var k :| 0 <= k <= |s| - |pat| && OccursAt(s, pat, k);
      assert s[k] == pat[0] by { assert s[k..k + |pat|][0] == s[k]; }
      assert s[k + |pat| - 1] == pat[|pat| - 1] by { assert s[k..k + |pat|][|pat| - 1] == s[k + |pat| - 1]; }
      forall i | 0 <= i < a ensures IsSpace(s[i]) {
        assert s[..a][i] == s[i];
      }
      forall i | b <= i < |s| ensures IsSpace(s[i]) {
        assert s[b..][i - b] == s[i];
      }
      assert !IsSpace(s[k]) && !IsSpace(s[k + |pat| - 1]);
      assert a <= k && k + |pat| <= b;
      var core := s[a..b];
      forall j | k - a <= j < k - a + |pat| ensures core[j] == s[a + j] {
      }
      assert core[k - a..k - a + |pat|] == s[k..k + |pat|];
      assert OccursAt(s[a..b], pat, k - a);
    }
  }

  /** Lower-casing changes no space character. */
  lemma LowerKeepsSpaces(s: string)
    requires AllSpace(s)
    ensures AllSpace(Lower(s))
  {
  }

  /** Trimming the reply makes no difference to the verdict: only the words matter. */
  lemma SaysYesIgnoresTrim(reply: string)
    ensures SaysYes(reply) <==>
              var answer := Lower(reply);
              Contains(answer, "是") || Contains(answer, "yes") || Contains(answer, "需要")
  {
    var a, b := TrimSlice(reply);
    var low := Lower(reply);
    assert Lower(Trim(reply)) == low[a..b];
    assert low[..a] == Lower(reply[..a]) && low[b..] == Lower(reply[b..]);
    LowerKeepsSpaces(reply[..a]);
    LowerKeepsSpaces(reply[b..]);
    ContainsInCore(low, a, b, "是");
    ContainsInCore(low, a, b, "yes");
    ContainsInCore(low, a, b, "需要");
  }

  /** The verdict is a substring test, so a reply that says the web is not needed (`不需要`)
      still counts as a yes, as does an upper-case `YES`. */
  lemma SaysYesExamples()
    ensures SaysYes("不需要") && SaysYes("YES")
  {
    assert OccursAt(Lower(Trim("不需要")), "需要", 1);
    assert OccursAt(Lower(Trim("YES")), "yes", 0);
  }

  /** A plain `否` is a no. */
  lemma SaysNoExample()
    ensures !SaysYes("否")
  {
    var answer := Lower(Trim("否"));
    assert answer == "否";
  }

  // ---- the JSON reply ----

  /** A property of the parsed reply as the code reads it with `json.x?.trim() || ''`: absent
      (or `null`), a string, or some other value, on which `trim` throws. */
  datatype Field = Absent | Str(value: string) | NotString

  /** A parsed reply: `null` (reading a property of it throws), or any other value, with
      whether its `needWebSearch` is `true` or `'true'` and its three text properties. */
  datatype Json = JsonNull | JsonValue(needWebSearch: bool, keywords: Field, requirement: Field, question: Field)

  /** `JSON.parse`: `None` when it throws. */
  type JsonParse = string -> Option<Json>

  /** `json.x?.trim() || ''`: `None` when it throws. */
  function ReadField(f: Field): (r: Option<string>)
    ensures r.None? <==> f.NotString?
    ensures f.Absent? ==> r == Some("")
  {
    match f
    case Absent => Some("")
    case Str(v) => Some(Trim(v))
    case NotString => None
  }

  /** What one `try` block that parses and reads the reply leaves behind: the four values, or
      the `needWebSearch` it had already assigned (if any) before something threw. */
  datatype Attempt = Read(need: bool, keywords: string, requirement: string, question: string)
                   | Threw(needSoFar: Option<bool>)

  function TryRead(parsed: Option<Json>): (r: Attempt)
    ensures parsed.None? || parsed == Some(JsonNull) ==> r == Threw(None)
    ensures r.Read? ==> parsed.Some? && parsed.value.JsonValue? && r.need == parsed.value.needWebSearch
  {
    match parsed
    case None => Threw(None)
    case Some(JsonNull) => Threw(None)
    case Some(JsonValue(need, k, q, u)) =>
      match (ReadField(k), ReadField(q), ReadField(u))
      case (Some(keywords), Some(requirement), Some(question)) => Read(need, keywords, requirement, question)
      case _ => Threw(Some(need))
  }

  /** `content.match(/\{[\s\S]*\}/)`: from the first `{` to the last `}`, when a `}` follows it. */
  function JsonSpan(content: string): (r: Option<string>)
    ensures r.Some? ==> 2 <= |r.value| && r.value[0] == '{' && r.value[|r.value| - 1] == '}'
    ensures r.Some? ==> Contains(content, r.value)
    ensures r.None? <==> forall a, b :: 0 <= a < b < |content| && content[a] == '{' ==> content[b] != '}'
  {
    var i := IndexOf(content, "{", 0);
    var j := LastIndexOfChar(content, '}');
    if i != -1 && j > i then
      assert content[i] == '{' by { assert content[i..i + 1][0] == content[i]; }
      assert OccursAt(content, content[i..j + 1], i);
      Some(content[i..j + 1])
    else
      assert forall a :: 0 <= a < |content| && content[a] == '{' ==> i != -1 && i <= a by {
        forall a | 0 <= a < |content| && content[a] == '{' ensures i != -1 && i <= a {
          assert OccursAt(content, "{", a) by { assert content[a..a + 1] == "{"; }
        }
      }
      assert forall b :: 0 <= b < |content| && content[b] == '}' ==> b <= j;
      None
  }

  /** `analyzeUserQuery`'s result. */
  datatype Analysis = Analysis(needWebSearch: bool, keywords: string, requirement: string, question: string)

  /** The reply read as direct JSON, else as the JSON span inside it, else not at all; then
      empty keywords or question are replaced by `filtered`, the query without reasoning.
      `needWebSearch` keeps whatever a failed attempt had already assigned. */
  function AnalyzeReply(content: string, filtered: string, parse: JsonParse): (r: Analysis)
    ensures r.keywords == [] ==> filtered == []
    ensures r.question == [] ==> filtered == []
  {
    var first := TryRead(parse(content));
    var read :=
      if first.Read? then first
      else
        var need := first.needSoFar.GetOr(false);
        match JsonSpan(content)
        case None => Read(need, filtered, "", filtered)
        case Some(span) =>
          var second := TryRead(parse(span));
          if second.Read? then second else Read(second.needSoFar.GetOr(need), filtered, "", filtered);
    Analysis(read.need, if read.keywords == [] then filtered else read.keywords, read.requirement,
             if read.question == [] then filtered else read.question)
  }

  /** A reply that parses directly and whose three texts are strings (or absent) gives those
      texts, the empty ones replaced by the query. */
  lemma AnalyzeDirect(content: string, filtered: string, parse: JsonParse, need: bool, k: string, q: string, u: string)
    requires parse(content) == Some(JsonValue(need, Str(k), Str(q), Str(u)))
    ensures var r := AnalyzeReply(content, filtered, parse);
            && r.needWebSearch == need && r.requirement == Trim(q)
            && r.keywords == (if Trim(k) == [] then filtered else Trim(k))
            && r.question == (if Trim(u) == [] then filtered else Trim(u))
  {
  }

  /** When direct parsing fails, the `{…}` span is parsed instead. */
  lemma AnalyzeSpan(content: string, filtered: string, parse: JsonParse)
    requires parse(content).None?
    requires JsonSpan(content).Some? && TryRead(parse(JsonSpan(content).value)).Read?
    ensures var a := TryRead(parse(JsonSpan(content).value));
            var r := AnalyzeReply(content, filtered, parse);
            && r.needWebSearch == a.need && r.requirement == a.requirement
            && r.keywords == (if a.keywords == [] then filtered else a.keywords)
            && r.question == (if a.question == [] then filtered else a.question)
  {
  }

  /** When neither reading succeeds, the query stands in for both the keywords and the
      question and the requirement is empty. */
  lemma AnalyzeFallback(content: string, filtered: string, parse: JsonParse)
    requires TryRead(parse(content)).Threw?
    requires JsonSpan(content).None? || TryRead(parse(JsonSpan(content).value)).Threw?
    ensures var r := AnalyzeReply(content, filtered, parse);
            r.keywords == filtered && r.question == filtered && r.requirement == ""
  {
  }

  /** A parsed reply whose `needWebSearch` was assigned before a later property threw keeps
      that value on the fallback path. */
  lemma AnalyzeKeepsAssignedNeed(content: string, filtered: string, parse: JsonParse)
    requires parse(content) == Some(JsonValue(true, NotString, Absent, Absent))
    requires JsonSpan(content).None?
    ensures AnalyzeReply(content, filtered, parse) == Analysis(true, filtered, "", filtered)
  {
  }

  /** `analyzeUserQuery(query)`'s outcome: an abort is passed on; any other failure gives no
      search with the raw query as keywords and question. */
  function AnalyzeUserQuery(query: string, reply: LlmReply, parse: JsonParse): (r: Result<Analysis, Abort>)
    ensures r.Failure? <==> reply.Aborted?
    ensures reply.Failed? ==> r == Success(Analysis(false, query, "", query))
    ensures reply.Answer? ==> r == Success(AnalyzeReply(Trim(reply.content), Trim(RemoveThinkTags(query)), parse))
  {
    match reply
    case Answer(content) => Success(AnalyzeReply(Trim(content), Trim(RemoveThinkTags(query)), parse))
    case Aborted => Failure(Abort)
    case Failed => Success(Analysis(false, query, "", query))
  }

  // ---- extractSearchKeywords ----

  /** `extractSearchKeywords`' result. */
  datatype Keywords = Keywords(keywords: string, requirement: string)

  /** The reply read as JSON once; on any failure the query stands in for the keywords and the
      requirement is empty; empty keywords are replaced by the query too. */
  function ExtractReply(content: string, filtered: string, parse: JsonParse): (r: Keywords)
    ensures r.keywords == [] ==> filtered == []
    ensures parse(content).None? ==> r == Keywords(filtered, "")
  {
    var read :=
      match parse(content)
      case Some(JsonValue(_, k, q, _)) =>
        (match (ReadField(k), ReadField(q))
         case (Some(keywords), Some(requirement)) => Keywords(keywords, requirement)
         case _ => Keywords(filtered, ""))
      case _ => Keywords(filtered, "");
    Keywords(if read.keywords == [] then filtered else read.keywords, read.requirement)
  }

  /** A well-formed reply gives its trimmed keywords and requirement. */
  lemma ExtractDirect(content: string, filtered: string, parse: JsonParse, j: Json, k: string, q: string)
    requires parse(content) == Some(j) && j.JsonValue? && j.keywords == Str(k) && j.requirement == Str(q)
    requires Trim(k) != []
    ensures ExtractReply(content, filtered, parse) == Keywords(Trim(k), Trim(q))
  {
  }

  /** `extractSearchKeywords(query)`'s outcome: an abort is passed on; any other failure gives
      the raw query as keywords. */
  function ExtractSearchKeywords(query: string, reply: LlmReply, parse: JsonParse): (r: Result<Keywords, Abort>)
    ensures r.Failure? <==> reply.Aborted?
    ensures reply.Failed? ==> r == Success(Keywords(query, ""))
    ensures reply.Answer? ==> r == Success(ExtractReply(Trim(reply.content), Trim(RemoveThinkTags(query)), parse))
  {
    match reply
    case Answer(content) => Success(ExtractReply(Trim(content), Trim(RemoveThinkTags(query)), parse))
    case Aborted => Failure(Abort)
    case Failed => Success(Keywords(query, ""))
  }
}
