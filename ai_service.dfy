/**
 * `AIService`: the state every chat back-end shares, its configuration and its registry of
 * in-flight requests.
 */
module AIServices {
  import opened Wrappers
  import opened ActiveRequests

  datatype AIServiceConfig = AIServiceConfig(baseUrl: string, model: string)

  /** A `Partial<AIServiceConfig>`: `Some` for each field the object carries. */
  datatype PartialConfig = PartialConfig(baseUrl: Option<string>, model: Option<string>)

  /** `{ ...config, ...partial }`. */
  function Merge(config: AIServiceConfig, partial: PartialConfig): (r: AIServiceConfig)
    ensures partial.baseUrl.Some? ==> r.baseUrl == partial.baseUrl.value
    ensures partial.baseUrl.None? ==> r.baseUrl == config.baseUrl
    ensures partial.model.Some? ==> r.model == partial.model.value
    ensures partial.model.None? ==> r.model == config.model
  {
    AIServiceConfig(partial.baseUrl.GetOr(config.baseUrl), partial.model.GetOr(config.model))
  }

  /** Merging a complete configuration replaces the old one outright. */
  lemma MergeFull(config: AIServiceConfig, c: AIServiceConfig)
    ensures Merge(config, PartialConfig(Some(c.baseUrl), Some(c.model))) == c
  {
  }

  class AIService {
    var config: AIServiceConfig
    const requests: RequestRegistry

    constructor (config: AIServiceConfig)
      ensures this.config == config && fresh(requests)
      ensures requests.active == map[] && requests.aborted == {}
    {
      this.config := config;
      requests := new RequestRegistry();
    }

    method UpdateConfig(partial: PartialConfig)
      modifies this
      ensures config == Merge(old(config), partial)
    {
      config := Merge(config, partial);
    }

    function GetSelectedModel(): (model: string)
      reads this
      ensures model == config.model
    {
      config.model
    }

    method AddActiveRequest(sessionId: string, h: Handle)
      modifies requests
      ensures requests.active == AddSpec(old(requests.active), sessionId, h)
      ensures requests.aborted == old(requests.aborted)
    {
      requests.Add(sessionId, h);
    }

    method RemoveActiveRequest(sessionId: string, h: Handle)
      modifies requests
      ensures requests.active == RemoveSpec(old(requests.active), sessionId, h)
      ensures requests.aborted == old(requests.aborted)
    {
      requests.Remove(sessionId, h);
    }

    method CancelRequests(sessionId: string)
      modifies requests
      ensures requests.active == CancelSpec(old(requests.active), sessionId)
      ensures requests.aborted == old(requests.aborted) + set h | h in Listed(old(requests.active), sessionId)
    {
      requests.Cancel(sessionId);
    }

    method CancelAllRequests()
      modifies requests
      ensures requests.active == map[]
      ensures requests.aborted == old(requests.aborted) + AllListed(old(requests.active))
    {
      requests.CancelAll();
    }
  }
}
