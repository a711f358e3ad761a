/** The cache debug panel: its render gate and its two bulk-clear buttons. */
module CacheDebug {
  import opened Text
  import opened Cache
  import ApiConfig

  /** The panel renders nothing in production mode, which is also the default. */
  function Renders(webStatusEnv: string): (shown: bool)
    ensures shown <==> webStatusEnv != "" && webStatusEnv != "prod"
  {
    ApiConfig.ProdIsDefault(webStatusEnv);
    !ApiConfig.IsProdMode(webStatusEnv)
  }

  /** A key that "Clear All Cache" removes. */
  predicate IsPageCacheKey(key: string) {
    key == WelcomeDataKey || StartsWith(key, RestaurantDetailPrefix)
  }

  /** The store after "Clear All Cache". */
  function WithoutPageCaches<T>(m: Store<T>): (r: Store<T>)
    ensures forall k :: k in r ==> !IsPageCacheKey(k)
    ensures forall k :: k in m && !IsPageCacheKey(k) ==> k in r && r[k] == m[k]
    ensures forall k :: k in r ==> k in m
  {
    map k | k in m && !IsPageCacheKey(k) :: m[k]
  }

  /** After "Clear All Cache" neither the welcome data nor any restaurant detail is served from the cache. */
  lemma ClearedPagesMiss<T>(m: Store<T>, id: int, now: int)
    ensures Lookup(WithoutPageCaches(m), WelcomeDataKey, now).None?
    ensures Lookup(WithoutPageCaches(m), RestaurantDetailKey(id), now).None?
  {
    assert IsPageCacheKey(RestaurantDetailKey(id));
  }

  class CacheDebugPanel<T> {
    const cache: SessionCache<T>
    /** Bumped to make the panel re-read the cache. */
    var refreshKey: int

    constructor (cache: SessionCache<T>)
      ensures this.cache == cache && refreshKey == 0
    {
      this.cache := cache;
      refreshKey := 0;
    }

    /** `forceRefresh` */
    method ForceRefresh()
      modifies this
      ensures refreshKey == old(refreshKey) + 1
    {
      refreshKey := refreshKey + 1;
    }

    /** `clearAllCache`: remove the welcome data, then every key with the restaurant-detail prefix. */
    method ClearAllCache()
      modifies this, cache
      ensures cache.store == WithoutPageCaches(old(cache.store))
      ensures refreshKey == old(refreshKey) + 1
    {
      cache.RemoveItem(WelcomeDataKey);
      var keys := cache.store.Keys;
      ghost var start := cache.store;
      while keys != {}
        invariant keys <= start.Keys
        invariant cache.store == map k | k in start && (k in keys || !StartsWith(k, RestaurantDetailPrefix)) :: start[k]
        invariant refreshKey == old(refreshKey)
        decreases keys
      {
        var key :| key in keys;
        if StartsWith(key, RestaurantDetailPrefix) {
          cache.RemoveItem(key);
        }
        keys := keys - {key};
      }
      ForceRefresh();
    }

    /** `clearExpiredCache`: exactly `SessionCache.clearExpired`, then a refresh. */
    method ClearExpiredCache(now: int)
      modifies this, cache
      ensures cache.store == Sweep(old(cache.store), now)
      ensures refreshKey == old(refreshKey) + 1
    {
      cache.ClearExpired(now);
      ForceRefresh();
    }
  }
}
