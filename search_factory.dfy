/**
 * `SearchFactory`: builds the search adapter for an engine type and keeps every adapter it has
 * built, keyed by the type and the serialised configuration.
 */
module SearchFactory {
  import opened SearchCommon

  /** The three parsing adapters. */
  datatype Engine = Bing | Google | Baidu

  /** `SearchEngineType`'s values. */
  const BingType := "bing"
  const GoogleType := "google"
  const BaiduType := "baidu"

  /** The `switch` on the type: Google and Baidu by their own value, anything else Bing. */
  function EngineFor(engineType: string): (r: Engine)
    ensures r == Google <==> engineType == GoogleType
    ensures r == Baidu <==> engineType == BaiduType
    ensures r == Bing <==> engineType != GoogleType && engineType != BaiduType
  {
    if engineType == GoogleType then Google
    else if engineType == BaiduType then Baidu
    else Bing
  }

  /** `${type}-${JSON.stringify(config)}`; the serialisation is a parameter of the model. */
  function CacheKey(engineType: string, config: SearchServiceConfig, stringify: SearchServiceConfig -> string): string {
    engineType + "-" + stringify(config)
  }

  /** The key of a type is the type followed by a hyphen: types without a hyphen of their own
      never share a key. */
  lemma {:induction false} CacheKeySeparatesTypes(t1: string, t2: string, c1: SearchServiceConfig, c2: SearchServiceConfig,
                                                  stringify: SearchServiceConfig -> string)
    requires '-' !in t1 && '-' !in t2
    requires CacheKey(t1, c1, stringify) == CacheKey(t2, c2, stringify)
    ensures t1 == t2 && stringify(c1) == stringify(c2)
  {
    var k := CacheKey(t1, c1, stringify);
    FirstHyphen(t1, stringify(c1));
    FirstHyphen(t2, stringify(c2));
    assert t1 == k[..|t1|] == t2;
    assert stringify(c1) == k[|t1| + 1..] == stringify(c2);
  }

  /** In `t + "-" + rest` with no hyphen in `t`, the first hyphen is the one right after `t`. */
  lemma FirstHyphen(t: string, rest: string)
    requires '-' !in t
    ensures (t + "-" + rest)[|t|] == '-'
    ensures forall j :: 0 <= j < |t| ==> (t + "-" + rest)[j] != '-'
  {
  }

  /** An adapter instance with its engine and configuration. */
  class SearchService {
    const engine: Engine
    const config: SearchServiceConfig

    constructor (engine: Engine, config: SearchServiceConfig)
      ensures this.engine == engine && this.config == config
    {
      this.engine := engine;
      this.config := config;
    }
  }

  class Factory {
    var cache: map<string, SearchService>

    constructor ()
      ensures cache == map[]
    {
      cache := map[];
    }

    /** `createSearchService(type, config)`: a cached adapter is returned as it is; otherwise a
        new one for the type's engine is built and cached under the key.  Nothing is ever
        removed from the cache. */
    method CreateSearchService(engineType: string, config: SearchServiceConfig, stringify: SearchServiceConfig -> string)
      returns (service: SearchService)
      modifies this
      ensures var key := CacheKey(engineType, config, stringify);
              && (key in old(cache) ==> service == old(cache)[key] && cache == old(cache))
              && (key !in old(cache) ==>
                    fresh(service) && service.engine == EngineFor(engineType) && service.config == config
                    && cache == old(cache)[key := service])
      ensures old(cache).Keys <= cache.Keys
      ensures forall k :: k in old(cache) ==> cache[k] == old(cache)[k]
    {
      var key := CacheKey(engineType, config, stringify);
      if key in cache {
        return cache[key];
      }
      var engine;
      if engineType == BingType {
        engine := Bing;
      } else if engineType == GoogleType {
        engine := Google;
      } else if engineType == BaiduType {
        engine := Baidu;
      } else {
        engine := Bing;
      }
      service := new SearchService(engine, config);
      cache := cache[key := service];
    }

    /** Asking twice for the same type and configuration gives the very same adapter. */
    method CreateTwice(engineType: string, config: SearchServiceConfig, stringify: SearchServiceConfig -> string)
      returns (first: SearchService, second: SearchService)
      modifies this
      ensures first == second
      ensures CacheKey(engineType, config, stringify) in cache && cache[CacheKey(engineType, config, stringify)] == first
    {
      first := CreateSearchService(engineType, config, stringify);
      second := CreateSearchService(engineType, config, stringify);
    }
  }

  /** The static `instance` slot of `getInstance()`. */
  class FactoryHolder {
    var instance: Factory?

    constructor ()
      ensures instance == null
    {
      instance := null;
    }

    /** `getInstance()`: the factory made by the first call is the one every call returns. */
    method GetInstance() returns (factory: Factory)
      modifies this
      ensures old(instance) != null ==> factory == old(instance)
      ensures old(instance) == null ==> fresh(factory) && factory.cache == map[]
      ensures instance == factory
    {
      if instance == null {
        instance := new Factory();
      }
      factory := instance;
    }
  }
}
