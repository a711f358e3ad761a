/** `useRestaurantDetail`: the cache-first load of one restaurant's detail, and its text helpers. */
module RestaurantDetail {
  import opened Wrappers
  import opened Text
  import opened Cache
  import opened Network
  import Html
  import ApiConfig

  /** The endpoint `/api/menuresto/<id>`. */
  function DetailEndpoint(id: int): string {
    "/api/menuresto/" + IntToString(id)
  }

  class RestaurantDetailHook<T> {
    const cache: SessionCache<T>
    /** NEXT_PUBLIC_API_BASE_URL ("" when unset). */
    const apiBaseEnv: string
    var data: Option<T>
    var loading: bool
    var error: Option<string>

    constructor (cache: SessionCache<T>, apiBaseEnv: string)
      ensures this.cache == cache && this.apiBaseEnv == apiBaseEnv
      ensures data == None && !loading && error == None
    {
      this.cache := cache;
      this.apiBaseEnv := apiBaseEnv;
      data := None;
      loading := false;
      error := None;
    }

    /**
     * `fetchRestaurantDetail(id)`: the cache is read at `now`; on a miss the request
     * answers with `response` and a success is stored at `doneAt`. `requested` is the
     * URL fetched, `None` when no request is made. A hit touches neither `loading`
     * nor `error`.
     */
    method FetchRestaurantDetail(id: int, now: int, doneAt: int, response: Response<T>) returns (requested: Option<string>)
      modifies this, cache
      ensures Lookup(old(cache.store), RestaurantDetailKey(id), now).Some? ==>
        && requested == None
        && data == Lookup(old(cache.store), RestaurantDetailKey(id), now)
        && loading == old(loading)
        && error == old(error)
        && cache.store == old(cache.store)
      ensures Lookup(old(cache.store), RestaurantDetailKey(id), now).None? ==>
        && requested == Some(ApiConfig.GetFullUrl(apiBaseEnv, DetailEndpoint(id)))
        && !loading
      ensures Lookup(old(cache.store), RestaurantDetailKey(id), now).None? && response.Ok? ==>
        && data == Some(response.body)
        && error == None
        && cache.store == AfterLookup(old(cache.store), RestaurantDetailKey(id), now)[RestaurantDetailKey(id) :=
             FreshEntry(response.body, doneAt, TimeoutMinutes(cache.envTimeout))]
      ensures Lookup(old(cache.store), RestaurantDetailKey(id), now).None? && !response.Ok? ==>
        && data == old(data)
        && error == Some(ErrorMessage(response))
        && cache.store == AfterLookup(old(cache.store), RestaurantDetailKey(id), now)
    {
      var cacheKey := RestaurantDetailKey(id);
      var cached := cache.GetItem(cacheKey, now);
      if cached.Some? {
        data := cached;
        return None;
      }
      loading := true;
      error := None;
      requested := Some(ApiConfig.GetFullUrl(apiBaseEnv, DetailEndpoint(id)));
      if response.Ok? {
        cache.SetItem(cacheKey, response.body, None, doneAt);
        data := Some(response.body);
      } else {
        error := Some(ErrorMessage(response));
      }
      loading := false;
    }

    /** `getCacheInfo(id)`: `hasValidItem` (which may evict) followed by `getRemainingTime`. */
    method GetCacheInfo(id: int, now: int) returns (isCached: bool, remainingMinutes: int)
      modifies cache
      ensures isCached <==> Lookup(old(cache.store), RestaurantDetailKey(id), now).Some?
      ensures cache.store == AfterLookup(old(cache.store), RestaurantDetailKey(id), now)
      ensures remainingMinutes == cache.GetRemainingTime(RestaurantDetailKey(id), now)
      ensures remainingMinutes >= 0
      ensures !isCached ==> remainingMinutes == 0
    {
      var cacheKey := RestaurantDetailKey(id);
      isCached := cache.HasValidItem(cacheKey, now);
      remainingMinutes := cache.GetRemainingTime(cacheKey, now);
      CacheInfoConsistent(cache, old(cache.store), cacheKey, now);
    }
  }

  const DefaultFoodImage := "https://" + "images.pexels.com/photos/1640777/pexels-photo-1640777.jpeg"
  const LocalImageBase := "http://127.0.0.1:8000/"

  /** `getFullImageUrl`: a default picture for no path, absolute paths as they are, else under the local server. */
  function GetFullImageUrl(path: Option<string>): (url: string)
    ensures path.None? || path.value == "" ==> url == DefaultFoodImage
    ensures path.Some? && path.value != "" && StartsWith(path.value, "http") ==> url == path.value
    ensures path.Some? && path.value != "" && !StartsWith(path.value, "http") ==> url == LocalImageBase + path.value
    ensures StartsWith(url, "http")
  {
    if path.None? || path.value == "" then
      StartsWithAppend("https://", "images.pexels.com/photos/1640777/pexels-photo-1640777.jpeg", "http");
      DefaultFoodImage
    else if StartsWith(path.value, "http") then path.value
    else
      StartsWithAppend(LocalImageBase, path.value, "http");
      LocalImageBase + path.value
  }

  /** Every result is already absolute, so a second application is the identity. */
  lemma GetFullImageUrlIdempotent(path: Option<string>)
    ensures GetFullImageUrl(Some(GetFullImageUrl(path))) == GetFullImageUrl(path)
  {
  }

  /**
   * `parseHtmlContent`: no text for a missing or empty input, otherwise tags stripped
   * and "&mdash;" replaced. No tag survives, the text never grows, and text with
   * no complete tag and no "&mdash;" passes unchanged.
   */
  function ParseHtmlContent(html: Option<string>): (text: string)
    ensures html.None? || html.value == "" ==> text == ""
    ensures Html.NoTag(text)
    ensures html.Some? ==> |text| <= |html.value|
    ensures html.Some? && ('<' !in html.value || '>' !in html.value) && !Html.ContainsMdash(html.value) ==> text == html.value
    ensures html.Some? && Html.NoTag(html.value) && !Html.ContainsMdash(html.value) ==> text == html.value
    ensures !Html.ContainsMdash(text)
  {
    if html.None? || html.value == "" then ""
    else
      var stripped := Html.StripTags(html.value);
      Html.StripTagsNoTag(html.value);
      Html.StripTagsShrinks(html.value);
      Html.ReplaceMdashFacts(stripped);
      Html.ReplaceMdashKeepsNoTag(stripped);
      Html.StripTagsFixedPoint(html.value);
      Html.ReplaceMdashRemovesAll(stripped);
      Html.ReplaceMdash(stripped)
  }

  /** Removing a tag keeps the text on both sides of it; only then is "&mdash;" replaced. */
  lemma ParseHtmlContentKeepsText(a: string, t: string, b: string)
    requires '<' !in a && '>' !in t
    ensures ParseHtmlContent(Some(a + ['<'] + t + ['>'] + b)) == Html.ReplaceMdash(a + Html.StripTags(b))
  {
    Html.StripTagsRemovesOneTag(a, t, b);
  }

  /** In text without tags, each "&mdash;" is replaced where it stands. */
  lemma ParseHtmlContentReplacesMdash(a: string, b: string)
    requires '&' !in a && Html.NoTag(a + Html.Mdash + b)
    ensures ParseHtmlContent(Some(a + Html.Mdash + b)) == a + Html.MdashReplacement + Html.ReplaceMdash(b)
  {
    Html.StripTagsFixedPoint(a + Html.Mdash + b);
    Html.ReplaceMdashSplices(a, b);
  }
}
