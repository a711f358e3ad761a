/** `useWelcomeData`: the home page's cache-first load of the welcome content, and its text helpers. */
module WelcomeData {
  import opened Wrappers
  import opened Text
  import opened Cache
  import opened Network
  import Html
  import ApiConfig

  const WelcomeEndpoint := "/api/welcome"

  /** A load is answered from the cache when it is not forced and a live entry is stored. */
  predicate CacheHit<T>(forceRefresh: bool, m: Store<T>, now: int) {
    !forceRefresh && Lookup(m, WelcomeDataKey, now).Some?
  }

  /** The store after the cache check: a forced load does not read, an ordinary one may evict. */
  function AfterCheck<T>(forceRefresh: bool, m: Store<T>, now: int): Store<T> {
    if forceRefresh then m else AfterLookup(m, WelcomeDataKey, now)
  }

  class WelcomeDataHook<T> {
    const cache: SessionCache<T>
    /** NEXT_PUBLIC_API_BASE_URL ("" when unset). */
    const apiBaseEnv: string
    var data: Option<T>
    var loading: bool
    var error: Option<string>

    constructor (cache: SessionCache<T>, apiBaseEnv: string)
      ensures this.cache == cache && this.apiBaseEnv == apiBaseEnv
      ensures data == None && loading && error == None
    {
      this.cache := cache;
      this.apiBaseEnv := apiBaseEnv;
      data := None;
      loading := true;
      error := None;
    }

    /**
     * `fetchData(forceRefresh)`: the cache is read at `now`; on a miss the request
     * answers with `response` and a success is stored at `doneAt`. `requested` is the
     * URL fetched, `None` when no request is made.
     */
    method FetchData(forceRefresh: bool, now: int, doneAt: int, response: Response<T>) returns (requested: Option<string>)
      modifies this, cache
      ensures !loading
      ensures CacheHit(forceRefresh, old(cache.store), now) ==>
        && requested == None
        && data == Lookup(old(cache.store), WelcomeDataKey, now)
        && error == old(error)
        && cache.store == old(cache.store)
      ensures !CacheHit(forceRefresh, old(cache.store), now) ==>
        requested == Some(ApiConfig.GetFullUrl(apiBaseEnv, WelcomeEndpoint))
      ensures !CacheHit(forceRefresh, old(cache.store), now) && response.Ok? ==>
        && data == Some(response.body)
        && error == None
        && cache.store == AfterCheck(forceRefresh, old(cache.store), now)[WelcomeDataKey :=
             FreshEntry(response.body, doneAt, TimeoutMinutes(cache.envTimeout))]
      ensures !CacheHit(forceRefresh, old(cache.store), now) && !response.Ok? ==>
        && data == old(data)
        && error == Some(ErrorMessage(response))
        && cache.store == AfterCheck(forceRefresh, old(cache.store), now)
    {
      if !forceRefresh {
        var cached := cache.GetItem(WelcomeDataKey, now);
        if cached.Some? {
          data := cached;
          loading := false;
          return None;
        }
      }
      loading := true;
      error := None;
      requested := Some(ApiConfig.GetFullUrl(apiBaseEnv, WelcomeEndpoint));
      if response.Ok? {
        cache.SetItem(WelcomeDataKey, response.body, None, doneAt);
        data := Some(response.body);
      } else {
        error := Some(ErrorMessage(response));
      }
      loading := false;
    }

    /** `refetch`: a forced load, which always goes to the network and never evicts first. */
    method Refetch(now: int, doneAt: int, response: Response<T>) returns (requested: Option<string>)
      modifies this, cache
      ensures requested == Some(ApiConfig.GetFullUrl(apiBaseEnv, WelcomeEndpoint))
      ensures !loading
      ensures response.Ok? ==>
        && data == Some(response.body)
        && error == None
        && cache.store == old(cache.store)[WelcomeDataKey := FreshEntry(response.body, doneAt, TimeoutMinutes(cache.envTimeout))]
      ensures !response.Ok? ==>
        && data == old(data)
        && error == Some(ErrorMessage(response))
        && cache.store == old(cache.store)
    {
      requested := FetchData(true, now, doneAt, response);
    }

    /** `getCacheInfo`: `hasValidItem` (which may evict) followed by `getRemainingTime`. */
    method GetCacheInfo(now: int) returns (isCached: bool, remainingMinutes: int)
      modifies cache
      ensures isCached <==> Lookup(old(cache.store), WelcomeDataKey, now).Some?
      ensures cache.store == AfterLookup(old(cache.store), WelcomeDataKey, now)
      ensures remainingMinutes == cache.GetRemainingTime(WelcomeDataKey, now)
      ensures remainingMinutes >= 0
      ensures !isCached ==> remainingMinutes == 0
    {
      isCached := cache.HasValidItem(WelcomeDataKey, now);
      remainingMinutes := cache.GetRemainingTime(WelcomeDataKey, now);
      CacheInfoConsistent(cache, old(cache.store), WelcomeDataKey, now);
    }
  }

  /** The exported `getFullImageUrl`: absolute paths as they are, anything else under the API base URL. */
  function GetFullImageUrl(apiBaseEnv: string, path: string): (url: string)
    ensures StartsWith(path, "http") ==> url == path
    ensures !StartsWith(path, "http") ==> url == ApiConfig.BaseUrl(apiBaseEnv) + "/" + path
  {
    if StartsWith(path, "http") then path else ApiConfig.BaseUrl(apiBaseEnv) + "/" + path
  }

  /** Applying `getFullImageUrl` to its own output changes nothing when the base URL is an http URL. */
  lemma GetFullImageUrlIdempotent(apiBaseEnv: string, path: string)
    requires StartsWith(ApiConfig.BaseUrl(apiBaseEnv), "http")
    ensures GetFullImageUrl(apiBaseEnv, GetFullImageUrl(apiBaseEnv, path)) == GetFullImageUrl(apiBaseEnv, path)
  {
    if !StartsWith(path, "http") {
      StartsWithAppend(ApiConfig.BaseUrl(apiBaseEnv), "/" + path, "http");
      assert ApiConfig.BaseUrl(apiBaseEnv) + "/" + path == ApiConfig.BaseUrl(apiBaseEnv) + ("/" + path);
    }
  }

  /** The default base URL is an http URL. */
  lemma DefaultBaseIsHttp()
    ensures StartsWith(ApiConfig.BaseUrl(""), "http")
  {
  }

  /** The exported `parseHtmlContent`: strips tags; the result holds no tag, is no longer, and is a fixed point. */
  function ParseHtmlContent(html: string): (text: string)
    ensures Html.NoTag(text)
    ensures |text| <= |html|
    ensures '<' !in html || '>' !in html ==> text == html
    ensures text == html <==> Html.NoTag(html)
  {
    Html.StripTagsNoTag(html);
    Html.StripTagsShrinks(html);
    Html.StripTagsFixedPoint(html);
    Html.StripTags(html)
  }

  /** Removing a tag keeps the text on both sides of it. */
  lemma ParseHtmlContentKeepsText(a: string, t: string, b: string)
    requires '<' !in a && '>' !in t
    ensures ParseHtmlContent(a + ['<'] + t + ['>'] + b) == a + ParseHtmlContent(b)
  {
    Html.StripTagsRemovesOneTag(a, t, b);
  }
}
