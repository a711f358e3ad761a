/**
 * `SessionCache`: a key -> entry store over the browser's session storage in which
 * every entry records when it was written and when it expires. The clock is the
 * parameter `now` (milliseconds); a stored value that does not parse as an entry is
 * `Corrupt`.
 */
module Cache {
  import opened Wrappers
  import opened Text

  datatype Entry<T> = Valid(data: T, timestamp: int, expiresAt: int) | Corrupt

  type Store<T> = map<string, Entry<T>>

  const MillisPerMinute := 60 * 1000
  const DefaultTimeoutMinutes := 30

  /**
   * `getTimeoutMinutes`: `parseInt(NEXT_PUBLIC_CACHE_TIMEOUT || '30')`; `env` is the
   * parsed variable, `None` when it is unset or empty.
   */
  function TimeoutMinutes(env: Option<int>): (minutes: int)
    ensures env.None? ==> minutes == DefaultTimeoutMinutes
    ensures env.Some? ==> minutes == env.value
  {
    env.GetOr(DefaultTimeoutMinutes)
  }

  /** `customTimeoutMinutes || getTimeoutMinutes()`: an absent or zero custom timeout falls back. */
  function EffectiveTimeout(custom: Option<int>, env: Option<int>): (minutes: int)
    ensures custom.Some? && custom.value != 0 ==> minutes == custom.value
    ensures custom.None? || custom.value == 0 ==> minutes == TimeoutMinutes(env)
    ensures (custom.None? || custom.value >= 0) && (env.None? || env.value > 0) ==> minutes > 0
  {
    if custom.Some? && custom.value != 0 then custom.value else TimeoutMinutes(env)
  }

  /** The entry `setItem` writes at time `now` for a lifetime of `minutes`. */
  function FreshEntry<T>(data: T, now: int, minutes: int): Entry<T> {
    Valid(data, now, now + minutes * MillisPerMinute)
  }

  /** Expiry is strict: an entry is still good at the very millisecond it expires. */
  predicate Live<T>(e: Entry<T>, now: int) {
    e.Valid? && !(now > e.expiresAt)
  }

  /** What `getItem(key)` returns at time `now`. */
  function Lookup<T>(m: Store<T>, key: string, now: int): Option<T> {
    if key in m && Live(m[key], now) then Some(m[key].data) else None
  }

  /** The store after `getItem(key)` at time `now`: an expired or corrupt entry is evicted. */
  function AfterLookup<T>(m: Store<T>, key: string, now: int): Store<T> {
    if key in m && !Live(m[key], now) then m - {key} else m
  }

  /** `clearExpired`'s removal test: unparsable, or `expiresAt && now > expiresAt` (0 is falsy). */
  predicate Swept<T>(e: Entry<T>, now: int) {
    e.Corrupt? || (e.expiresAt != 0 && now > e.expiresAt)
  }

  /** The store after `clearExpired` at time `now`. */
  function Sweep<T>(m: Store<T>, now: int): Store<T> {
    map k | k in m && !Swept(m[k], now) :: m[k]
  }

  /** Ceiling of `a / b` for a positive divisor, from Dafny's floor division. */
  function CeilDiv(a: int, b: int): int
    requires b > 0
  {
    -((-a) / b)
  }

  /** `Math.ceil(a / b)` is the least integer whose multiple of `b` reaches `a`. */
  lemma CeilDivIsCeiling(a: int, b: int)
    requires b > 0
    ensures CeilDiv(a, b) * b >= a
    ensures (CeilDiv(a, b) - 1) * b < a
  {
    var q, r := (-a) / b, (-a) % b;
    assert -a == q * b + r && 0 <= r < b;
    assert CeilDiv(a, b) * b == -(q * b);
    assert (CeilDiv(a, b) - 1) * b == -(q * b) - b;
  }

  /** Writing an entry and reading it back at any time up to its expiry gives the data back; after it, nothing. */
  lemma SetThenGet<T>(m: Store<T>, key: string, data: T, minutes: int, now: int, t: int)
    ensures var m' := m[key := FreshEntry(data, now, minutes)];
      && (t <= now + minutes * MillisPerMinute ==> Lookup(m', key, t) == Some(data) && AfterLookup(m', key, t) == m')
      && (t > now + minutes * MillisPerMinute ==> Lookup(m', key, t) == None && AfterLookup(m', key, t) == m - {key})
  {
    var m' := m[key := FreshEntry(data, now, minutes)];
    if t > now + minutes * MillisPerMinute {
      assert m' - {key} == m - {key};
    }
  }

  /** A read removes at most the key it reads, exactly when it returns nothing for a present key. */
  lemma LookupEvictsOnlyItsKey<T>(m: Store<T>, key: string, now: int)
    ensures forall k :: k != key ==> (k in AfterLookup(m, key, now) <==> k in m)
    ensures forall k :: k in AfterLookup(m, key, now) ==> AfterLookup(m, key, now)[k] == m[k]
    ensures key in AfterLookup(m, key, now) <==> Lookup(m, key, now).Some?
    ensures key !in m ==> AfterLookup(m, key, now) == m
  {
  }

  /** After a sweep no corrupt entry and no entry with a set, passed expiry remains; every other entry is kept as it was. */
  lemma SweepSpec<T>(m: Store<T>, now: int)
    ensures forall k :: k in Sweep(m, now) ==> Sweep(m, now)[k].Valid?
    ensures forall k :: k in Sweep(m, now) ==> !(Sweep(m, now)[k].expiresAt != 0 && now > Sweep(m, now)[k].expiresAt)
    ensures forall k :: k in m && !Swept(m[k], now) ==> k in Sweep(m, now) && Sweep(m, now)[k] == m[k]
    ensures forall k :: k in m && Live(m[k], now) ==> k in Sweep(m, now)
  {
  }

  /** A sweep never changes what a read at the same instant returns. */
  lemma SweepPreservesLookup<T>(m: Store<T>, key: string, now: int)
    ensures Lookup(Sweep(m, now), key, now) == Lookup(m, key, now)
  {
  }

  /** Sweeping twice at the same instant is sweeping once. */
  lemma SweepIdempotent<T>(m: Store<T>, now: int)
    ensures Sweep(Sweep(m, now), now) == Sweep(m, now)
  {
  }

  /** Cache keys. */
  const WelcomeDataKey := "welcome-data"
  const RestaurantDetailPrefix := "restaurant-detail-"

  /** `CacheKeys.RESTAURANT_DETAIL(id)` */
  function RestaurantDetailKey(id: int): (key: string)
    ensures StartsWith(key, RestaurantDetailPrefix)
    ensures key != WelcomeDataKey
  {
    var key := RestaurantDetailPrefix + IntToString(id);
    assert key[..|RestaurantDetailPrefix|] == RestaurantDetailPrefix;
    assert key[0] != WelcomeDataKey[0];
    key
  }

  /** Different restaurants never share a cache entry. */
  lemma RestaurantDetailKeyInjective(a: int, b: int)
    ensures RestaurantDetailKey(a) == RestaurantDetailKey(b) ==> a == b
  {
    AppendCancel(RestaurantDetailPrefix, IntToString(a), IntToString(b));
    IntToStringInjective(a, b);
  }

  class SessionCache<T> {
    /** NEXT_PUBLIC_CACHE_TIMEOUT, parsed; `None` when unset or empty. */
    const envTimeout: Option<int>
    /** The session storage contents. */
    var store: Store<T>

    constructor (envTimeout: Option<int>, initial: Store<T>)
      ensures this.envTimeout == envTimeout && store == initial
    {
      this.envTimeout := envTimeout;
      store := initial;
    }

    /** `setItem(key, data, customTimeoutMinutes)` at time `now`. */
    method SetItem(key: string, data: T, custom: Option<int>, now: int)
      modifies this
      ensures store == old(store)[key := FreshEntry(data, now, EffectiveTimeout(custom, envTimeout))]
    {
      var timeoutMinutes := EffectiveTimeout(custom, envTimeout);
      var expiresAt := now + timeoutMinutes * MillisPerMinute;
      store := store[key := Valid(data, now, expiresAt)];
    }

    /** `getItem(key)` at time `now`: returns the data of a live entry, evicts an expired or corrupt one. */
    method GetItem(key: string, now: int) returns (r: Option<T>)
      modifies this
      ensures r == Lookup(old(store), key, now)
      ensures store == AfterLookup(old(store), key, now)
    {
      if key !in store {
        return None;
      }
      match store[key]
      case Corrupt =>
        RemoveItem(key);
        return None;
      case Valid(data, _, expiresAt) =>
        if now > expiresAt {
          RemoveItem(key);
          return None;
        }
        return Some(data);
    }

    /** `removeItem(key)` */
    method RemoveItem(key: string)
      modifies this
      ensures store == old(store) - {key}
    {
      store := store - {key};
    }

    /** `hasValidItem(key)`: `getItem(key) !== null`, eviction included. */
    method HasValidItem(key: string, now: int) returns (b: bool)
      modifies this
      ensures b <==> Lookup(old(store), key, now).Some?
      ensures store == AfterLookup(old(store), key, now)
    {
      var r := GetItem(key, now);
      b := r.Some?;
    }

    /** `clearExpired()` at time `now`: visits every key present at the start and removes the swept ones. */
    method ClearExpired(now: int)
      modifies this
      ensures store == Sweep(old(store), now)
    {
      var keys := store.Keys;
      ghost var start := store;
      while keys != {}
        invariant keys <= start.Keys
        invariant store == map k | k in start && (k in keys || !Swept(start[k], now)) :: start[k]
        decreases keys
      {
        var key :| key in keys;
        if key in store {
          match store[key]
          case Corrupt =>
            RemoveItem(key);
          case Valid(_, _, expiresAt) =>
            if expiresAt != 0 && now > expiresAt {
              RemoveItem(key);
            }
        }
        keys := keys - {key};
      }
    }

    /**
     * `getRemainingTime(key)` at time `now`: whole minutes left, rounded up, never
     * negative; 0 for a missing or corrupt entry. It does not evict.
     */
    function GetRemainingTime(key: string, now: int): (minutes: int)
      reads this
      ensures minutes >= 0
      ensures key !in store || store[key].Corrupt? || store[key].expiresAt <= now ==> minutes == 0
      ensures key in store && store[key].Valid? && store[key].expiresAt > now ==>
        (minutes - 1) * MillisPerMinute < store[key].expiresAt - now <= minutes * MillisPerMinute
    {
      if key !in store then 0
      else match store[key]
        case Corrupt => 0
        case Valid(_, _, expiresAt) =>
          CeilDivIsCeiling(expiresAt - now, MillisPerMinute);
          var m := CeilDiv(expiresAt - now, MillisPerMinute);
          if m < 0 then 0 else m
    }
  }

  /**
   * What a cache-info panel reports: after `hasValidItem` has evicted a dead entry,
   * `getRemainingTime` is 0 unless the entry was live; a positive remaining time
   * means the entry is cached.
   */
  lemma CacheInfoConsistent<T>(c: SessionCache<T>, m: Store<T>, key: string, now: int)
    requires c.store == AfterLookup(m, key, now)
    ensures Lookup(m, key, now).None? ==> c.GetRemainingTime(key, now) == 0
    ensures c.GetRemainingTime(key, now) > 0 ==> Lookup(m, key, now).Some?
  {
  }
}

/** `ApiConfig`: base URL, full endpoint URLs and the web status switch. */
module ApiConfig {
  import opened Text

  const DefaultBaseUrl := "http://127.0.0.1:8000"

  /** `getBaseUrl`: NEXT_PUBLIC_API_BASE_URL, or the local default when unset or empty. */
  function BaseUrl(env: string): (base: string)
    ensures base != ""
    ensures env != "" ==> base == env
    ensures env == "" ==> base == DefaultBaseUrl
  {
    if env == "" then DefaultBaseUrl else env
  }

  /** `getFullUrl(endpoint)`: the base URL, then the endpoint with exactly one '/' added when it has none. */
  function GetFullUrl(env: string, endpoint: string): (url: string)
    ensures StartsWith(endpoint, "/") ==> url == BaseUrl(env) + endpoint
    ensures !StartsWith(endpoint, "/") ==> url == BaseUrl(env) + "/" + endpoint
    ensures StartsWith(url, BaseUrl(env) + "/")
    ensures url[|BaseUrl(env)|..] == endpoint || url[|BaseUrl(env)|..] == "/" + endpoint
    ensures |url| <= |BaseUrl(env)| + |endpoint| + 1
  {
    var base := BaseUrl(env);
    var clean := if StartsWith(endpoint, "/") then endpoint else "/" + endpoint;
    assert (base + clean)[..|base| + 1] == base + "/";
    base + clean
  }

  /** An endpoint gives the same URL written with or without its leading '/'. */
  lemma GetFullUrlSlashInsensitive(env: string, endpoint: string)
    requires !StartsWith(endpoint, "/")
    ensures GetFullUrl(env, "/" + endpoint) == GetFullUrl(env, endpoint)
  {
    assert StartsWith("/" + endpoint, "/");
  }

  /** `getWebStatus`: NEXT_PUBLIC_WEB_STATUS as given, or "prod" when unset or empty. */
  function WebStatus(env: string): (status: string)
    ensures status != ""
    ensures env != "" ==> status == env
  {
    if env == "" then "prod" else env
  }

  /** Production mode: the status is "prod", and then the panel is never in debug mode. */
  predicate IsProdMode(env: string)
    ensures IsProdMode(env) ==> !IsDebugMode(env)
  {
    WebStatus(env) == "prod"
  }

  /** Debug mode is only ever chosen by setting the status to "debug" explicitly. */
  predicate IsDebugMode(env: string)
    ensures IsDebugMode(env) ==> env == "debug"
  {
    WebStatus(env) == "debug"
  }

  /** Production is the default, and only "prod" itself or no value selects it. */
  lemma ProdIsDefault(env: string)
    ensures IsProdMode(env) <==> env == "" || env == "prod"
  {
  }
}
