/**
 * `WebService`: its own registry of in-flight requests, where an empty session id is ignored,
 * the three questions put to the model about a user query, each of which lists its request
 * under the session while it runs, and `search`, which either scrapes a custom search URL or
 * hands the query to the adapter the factory provides.  The model's replies, `fetch`, the
 * regular expressions, `encodeURIComponent`, `new URL(..).hostname` and `JSON.stringify` are
 * parameters.
 */
module WebServices {
  import opened Wrappers
  import opened ActiveRequests
  import opened SearchCommon
  import opened SearchFactory
  import opened CustomSearch
  import opened WebText
  import QA = QueryAnalysis
  import PageAnalysis

  /** The session a request is listed under: the configured id when it is given, otherwise
      the empty id, which the registry methods ignore. */
  function SessionOf(config: PageAnalysis.WebServiceConfig): (s: string)
    ensures s != [] <==> PageAnalysis.Given(config.sessionId)
  {
    if PageAnalysis.Given(config.sessionId) then config.sessionId.value else ""
  }

  /** The registry after a request of session `s` was added and removed again: as before, except
      that a given session now has a (possibly empty) list. */
  function Restored(m: map<string, seq<Handle>>, s: string): (r: map<string, seq<Handle>>)
    ensures forall k :: Listed(r, k) == Listed(m, k)
    ensures r.Keys == if s == [] then m.Keys else m.Keys + {s}
  {
    if s == [] then m else m[s := Listed(m, s)]
  }

  /** What `search` gives back: results it built itself, or the adapter that searches for the
      filtered query. */
  datatype SearchOutcome = Found(results: seq<SearchResult>) | Delegated(service: SearchService, query: string)

  class WebService {
    const registry: RequestRegistry

    constructor ()
      ensures fresh(registry) && registry.active == map[] && registry.aborted == {}
    {
      registry := new RequestRegistry();
    }

    /** `addActiveRequest`: an empty session id is ignored. */
    method AddActiveRequest(sessionId: string, h: Handle)
      modifies registry
      ensures registry.active == if sessionId == [] then old(registry.active) else AddSpec(old(registry.active), sessionId, h)
      ensures registry.aborted == old(registry.aborted)
    {
      if sessionId == [] {
        return;
      }
      registry.Add(sessionId, h);
    }

    /** `removeActiveRequest`: an empty or unknown session id is ignored. */
    method RemoveActiveRequest(sessionId: string, h: Handle)
      modifies registry
      ensures registry.active == if sessionId == [] then old(registry.active) else RemoveSpec(old(registry.active), sessionId, h)
      ensures registry.aborted == old(registry.aborted)
    {
      if sessionId == [] {
        return;
      }
      registry.Remove(sessionId, h);
    }

    /** `cancelRequests`: every controller of a non-empty session is aborted and its list
        emptied. */
    method CancelRequests(sessionId: string)
      modifies registry
      ensures registry.active == if sessionId == [] then old(registry.active) else CancelSpec(old(registry.active), sessionId)
      ensures registry.aborted == if sessionId == [] then old(registry.aborted)
                                  else old(registry.aborted) + set h | h in Listed(old(registry.active), sessionId)
    {
      if sessionId == [] {
        return;
      }
      registry.Cancel(sessionId);
    }

    /** `cancelAllRequests`: every listed controller is aborted and the registry cleared. */
    method CancelAllRequests()
      modifies registry
      ensures registry.active == map[]
      ensures registry.aborted == old(registry.aborted) + AllListed(old(registry.active))
    {
      registry.CancelAll();
    }

    /** Lists the fresh controller `h` under the session while the request runs, and takes it
        off again whatever the request's outcome (the `finally`). */
    method Bracket(s: string, h: Handle)
      requires h !in Listed(registry.active, s)
      modifies registry
      ensures registry.active == Restored(old(registry.active), s)
      ensures registry.aborted == old(registry.aborted)
    {
      ghost var before := registry.active;
      AddActiveRequest(s, h);
      RemoveActiveRequest(s, h);
      if s != [] {
        AddThenRemove(before, s, h);
      }
    }

    /** `shouldUseWebSearch(query, aiConfig)`: the answer read from `reply`, the outcome of
        the request; the request's controller `h` is listed only while it runs. */
    method ShouldUseWebSearch(query: string, config: PageAnalysis.WebServiceConfig, h: Handle, reply: QA.LlmReply)
      returns (r: Result<bool, QA.Abort>)
      requires h !in Listed(registry.active, SessionOf(config))
      modifies registry
      ensures r == QA.ShouldUseWebSearch(reply)
      ensures registry.active == Restored(old(registry.active), SessionOf(config))
      ensures registry.aborted == old(registry.aborted)
    {
      Bracket(SessionOf(config), h);
      r := QA.ShouldUseWebSearch(reply);
    }

    /** `analyzeUserQuery(query, aiConfig)`, with the same bracketing of its request. */
    method AnalyzeUserQuery(query: string, config: PageAnalysis.WebServiceConfig, h: Handle, reply: QA.LlmReply,
                            parse: QA.JsonParse)
      returns (r: Result<QA.Analysis, QA.Abort>)
      requires h !in Listed(registry.active, SessionOf(config))
      modifies registry
      ensures r == QA.AnalyzeUserQuery(query, reply, parse)
      ensures registry.active == Restored(old(registry.active), SessionOf(config))
      ensures registry.aborted == old(registry.aborted)
    {
      Bracket(SessionOf(config), h);
      r := QA.AnalyzeUserQuery(query, reply, parse);
    }

    /** `extractSearchKeywords(query, aiConfig)`, with the same bracketing of its request. */
    method ExtractSearchKeywords(query: string, config: PageAnalysis.WebServiceConfig, h: Handle, reply: QA.LlmReply,
                                 parse: QA.JsonParse)
      returns (r: Result<QA.Keywords, QA.Abort>)
      requires h !in Listed(registry.active, SessionOf(config))
      modifies registry
      ensures r == QA.ExtractSearchKeywords(query, reply, parse)
      ensures registry.active == Restored(old(registry.active), SessionOf(config))
      ensures registry.aborted == old(registry.aborted)
    {
      Bracket(SessionOf(config), h);
      r := QA.ExtractSearchKeywords(query, reply, parse);
    }

    /** `search(query, searchType, config)`: the query loses its reasoning blocks; the custom
        branch requests the custom URL with the configured (or default) user agent and scrapes
        the reply, without touching the factory; every other type gets the factory's adapter
        for its engine, built once per type and configuration. */
    method Search(query: string, searchType: string, config: PageAnalysis.WebServiceConfig, factory: Factory,
                  encode: string -> string, stringify: SearchServiceConfig -> string,
                  respond: (string, string) -> CustomResponse, titlesOf: string -> seq<CustomTitle>,
                  descExec: Exec, hostOf: string -> Option<string>)
      returns (r: SearchOutcome)
      modifies factory
      ensures var q := RemoveThinkTags(query);
              RouteFor(searchType, config.searchUrl).Custom? ==>
                var url := CustomUrl(config.searchUrl.value, config.searchParam, encode, q);
                var response := respond(url, OrElse(config.userAgent, DefaultUserAgent));
                && factory.cache == old(factory.cache)
                && r == Found(CustomResults(url, response, if response.Page? then titlesOf(response.html) else [],
                                            descExec, hostOf))
      ensures var route := RouteFor(searchType, config.searchUrl);
              var searchConfig := SearchServiceConfig(config.searchUrl, config.userAgent);
              route.Adapter? ==>
                var key := CacheKey(route.engineType, searchConfig, stringify);
                && r.Delegated? && r.query == RemoveThinkTags(query)
                && (key in old(factory.cache) ==> r.service == old(factory.cache)[key] && factory.cache == old(factory.cache))
                && (key !in old(factory.cache) ==>
                      fresh(r.service) && r.service.engine == EngineFor(route.engineType) && r.service.config == searchConfig
                      && factory.cache == old(factory.cache)[key := r.service])
    {
      var q := RemoveThinkTags(query);
      var route := RouteFor(searchType, config.searchUrl);
      if route.Custom? {
        var url := CustomUrl(config.searchUrl.value, config.searchParam, encode, q);
        var response := respond(url, OrElse(config.userAgent, DefaultUserAgent));
        var titles := if response.Page? then titlesOf(response.html) else [];
        var results := SearchCustom(url, response, titles, descExec, hostOf);
        return Found(results);
      }
      var service := factory.CreateSearchService(route.engineType, SearchServiceConfig(config.searchUrl, config.userAgent), stringify);
      r := Delegated(service, q);
    }
  }
}
