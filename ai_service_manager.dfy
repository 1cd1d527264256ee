/**
 * `AIServiceManager`: a cache of chat services keyed by type, base URL and model.
 */
module AIServiceManager {
  import opened Wrappers
  import opened Text
  import opened AIServices

  /** The one value of `AIServiceType`. */
  const Ollama := "ollama"

  /** Whether the factory table has an entry for the type; only Ollama is registered. */
  predicate Registered(serviceType: string) {
    serviceType == Ollama
  }

  /** `${type}-${config.baseUrl}-${config.model}`. */
  function ServiceKey(serviceType: string, config: AIServiceConfig): string {
    serviceType + "-" + config.baseUrl + "-" + config.model
  }

  /** The key does not tell the base URL and the model apart: a hyphen may sit in either. */
  lemma ServiceKeyAmbiguous()
    ensures ServiceKey(Ollama, AIServiceConfig("http://h-a", "b")) == ServiceKey(Ollama, AIServiceConfig("http://h", "a-b"))
  {
  }

  /** The entries of `m` whose key does not start with `prefix`. */
  function WithoutPrefix<V>(m: map<string, V>, prefix: string): (r: map<string, V>)
    ensures forall k :: k in r ==> !StartsWith(k, prefix)
    ensures forall k :: k in m && !StartsWith(k, prefix) ==> k in r && r[k] == m[k]
    ensures r.Keys <= m.Keys
  {
    map k | k in m && !StartsWith(k, prefix) :: m[k]
  }

  /** The prefix is matched on the raw key, so clearing one base URL also clears every base URL
      that extends it. */
  lemma ClearMatchesLongerBaseUrl(model: string)
    ensures StartsWith(ServiceKey(Ollama, AIServiceConfig("http://host:1", model)), Ollama + "-" + "http://host:")
  {
  }

  class Manager {
    var services: map<string, AIService>

    constructor ()
      ensures services == map[]
    {
      services := map[];
    }

    /** `getService(type, config)`.  A cached instance is returned as is, after taking over the
        whole configuration when its model differs; a miss builds a new instance for a
        registered type and caches it; an unregistered type fails. */
    method GetService(serviceType: string, config: AIServiceConfig) returns (r: Result<AIService, string>)
      modifies this, services.Values
      ensures var key := ServiceKey(serviceType, config);
              && (key in old(services) ==> r == Success(old(services[key])) && services == old(services))
              && (key !in old(services) && Registered(serviceType) ==>
                    r.Success? && fresh(r.value) && services == old(services)[key := r.value])
              && (key !in old(services) && !Registered(serviceType) ==> r.Failure? && services == old(services))
      ensures r.Success? ==> r.value.config.model == config.model
      ensures r.Success? && r.value in old(services.Values) ==>
                r.value.config == if old(r.value.config.model) != config.model then config else old(r.value.config)
      ensures forall s :: s in old(services.Values) && (r.Failure? || s != r.value) ==> s.config == old(s.config)
    {
      var key := ServiceKey(serviceType, config);
      if key in services {
        var service := services[key];
        if service.GetSelectedModel() != config.model {
          service.UpdateConfig(PartialConfig(Some(config.baseUrl), Some(config.model)));
        }
        return Success(service);
      }
      if !Registered(serviceType) {
        return Failure("unsupported AI service type: " + serviceType);
      }
      var service := new AIService(config);
      services := services[key := service];
      r := Success(service);
    }

    /** Two requests for the same type, base URL and model get the same instance. */
    method GetServiceTwice(serviceType: string, config: AIServiceConfig) returns (a: Result<AIService, string>, b: Result<AIService, string>)
      modifies this, services.Values
      ensures a.Success? <==> Registered(serviceType) || ServiceKey(serviceType, config) in old(services)
      ensures a.Success? ==> b == a
    {
      a := GetService(serviceType, config);
      b := GetService(serviceType, config);
    }

    /** `clearServiceCache(type, baseUrl)`: drops every entry whose key starts with
        `${type}-${baseUrl}`. */
    method ClearServiceCache(serviceType: string, baseUrl: string)
      modifies this
      ensures services == WithoutPrefix(old(services), serviceType + "-" + baseUrl)
    {
      var prefix := serviceType + "-" + baseUrl;
      var pending := services.Keys;
      while pending != {}
        invariant pending <= old(services).Keys
        invariant services == map k | k in old(services) && !(k !in pending && StartsWith(k, prefix)) :: old(services)[k]
        decreases pending
      {
        var key :| key in pending;
        if StartsWith(key, prefix) {
          services := map k | k in services && k != key :: services[k];
        }
        pending := pending - {key};
      }
    }

    method ClearAllServiceCache()
      modifies this
      ensures services == map[]
    {
      services := map[];
    }
  }
}
