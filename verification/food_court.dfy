/**
 * The food-court section: the tenant list with its default, the per-tenant
 * location and name lookups with their fallbacks, the location filter and its
 * dropdown options, the five-card display and the floor-map title.
 */
module FoodCourt {
  import opened Wrappers
  import opened Text

  datatype Tenant = Tenant(id: int, image: string)

  const DefaultTenants := [Tenant(1, "https://images.pexels.com/photos/1639557/pexels-photo-1639557.jpeg")]

  /** `restaurants`: the `data` prop when it has entries, the one default tenant otherwise. */
  function Restaurants(data: Option<seq<Tenant>>): (r: seq<Tenant>)
    ensures |r| >= 1
    ensures data.Some? && data.value != [] ==> r == data.value
    ensures data.None? || data.value == [] ==> r == DefaultTenants
  {
    if data.Some? && |data.value| > 0 then data.value else DefaultTenants
  }

  /** What one `/api/menuresto/<id>` request answered; a missing field is "". */
  datatype DetailAnswer = Answered(location: string, restoName: string) | Failed

  datatype TenantInfo = TenantInfo(id: int, location: string, name: string)

  const UnknownLocation := "Unknown Location"

  const FallbackPrefix := "Restaurant "

  /** `Restaurant <id>` */
  function FallbackName(id: int): (name: string)
    ensures name != ""
    ensures StartsWith(name, FallbackPrefix) && name[|FallbackPrefix|..] == IntToString(id)
  {
    var name := FallbackPrefix + IntToString(id);
    assert name[..|FallbackPrefix|] == FallbackPrefix;
    name
  }

  /** Two tenants without a fetched name never get the same fallback title. */
  lemma FallbackNameInjective(a: int, b: int)
    ensures FallbackName(a) == FallbackName(b) ==> a == b
  {
    IntToStringInjective(a, b);
  }

  /** `fetchRestaurantData(id)`: each missing field, and any failure, falls back. */
  function FetchRestaurantData(id: int, answer: DetailAnswer): (info: TenantInfo)
    ensures info.id == id && info.location != "" && info.name != ""
    ensures answer.Failed? ==> info.location == UnknownLocation && info.name == FallbackName(id)
    ensures answer.Answered? ==> info.location == (if answer.location != "" then answer.location else UnknownLocation)
    ensures answer.Answered? ==> info.name == (if answer.restoName != "" then answer.restoName else FallbackName(id))
  {
    match answer
    case Failed => TenantInfo(id, UnknownLocation, FallbackName(id))
    case Answered(location, restoName) =>
      TenantInfo(id,
        if location != "" then location else UnknownLocation,
        if restoName != "" then restoName else FallbackName(id))
  }

  /**
   * A JavaScript `Map<number, string>`: entries in insertion order. `set` on a
   * present key replaces its value in place, on a new key appends.
   */
  type JsMap = seq<(int, string)>

  predicate DistinctKeys(m: JsMap) {
    forall i, j :: 0 <= i < j < |m| ==> m[i].0 != m[j].0
  }

  function MapGet(m: JsMap, k: int): Option<string>
    decreases |m|
  {
    if m == [] then None else if m[0].0 == k then Some(m[0].1) else MapGet(m[1..], k)
  }

  function MapSet(m: JsMap, k: int, v: string): (r: JsMap)
    ensures DistinctKeys(m) ==> DistinctKeys(r)
    ensures MapGet(r, k) == Some(v)
    ensures forall k' :: k' != k ==> MapGet(r, k') == MapGet(m, k')
    ensures forall p :: p in r ==> p in m || p == (k, v)
    decreases |m|
  {
    if m == [] then [(k, v)]
    else if m[0].0 == k then [(k, v)] + m[1..]
    else
      var r := [m[0]] + MapSet(m[1..], k, v);
      assert forall i :: 1 <= i < |r| ==> r[i] in MapSet(m[1..], k, v);
      r
  }

  function Values(m: JsMap): (vs: seq<string>)
    ensures |vs| == |m|
    ensures forall i :: 0 <= i < |m| ==> vs[i] == m[i].1
    decreases |m|
  {
    if m == [] then [] else [m[0].1] + Values(m[1..])
  }

  /** The location map the effect builds: `locationMap.set(id, location)` for each answer in turn. */
  function LocationMap(infos: seq<TenantInfo>): JsMap
    decreases |infos|
  {
    if infos == [] then [] else MapSet(LocationMap(infos[..|infos| - 1]), infos[|infos| - 1].id, infos[|infos| - 1].location)
  }

  /** The name map the effect builds alongside. */
  function NameMap(infos: seq<TenantInfo>): JsMap
    decreases |infos|
  {
    if infos == [] then [] else MapSet(NameMap(infos[..|infos| - 1]), infos[|infos| - 1].id, infos[|infos| - 1].name)
  }

  /** The `forEach` that fills both maps from the answers, in order. */
  method FillMaps(infos: seq<TenantInfo>) returns (locationMap: JsMap, nameMap: JsMap)
    ensures locationMap == LocationMap(infos) && nameMap == NameMap(infos)
    ensures DistinctKeys(locationMap) && DistinctKeys(nameMap)
  {
    locationMap, nameMap := [], [];
    var i := 0;
    while i < |infos|
      invariant 0 <= i <= |infos|
      invariant locationMap == LocationMap(infos[..i]) && nameMap == NameMap(infos[..i])
      invariant DistinctKeys(locationMap) && DistinctKeys(nameMap)
    {
      assert infos[..i + 1][..i] == infos[..i];
      locationMap := MapSet(locationMap, infos[i].id, infos[i].location);
      nameMap := MapSet(nameMap, infos[i].id, infos[i].name);
      i := i + 1;
    }
    assert infos[..i] == infos;
  }

  /** A tenant id has a location exactly when some answer carried it, and the last such answer wins. */
  lemma {:induction false} LocationMapLastWins(infos: seq<TenantInfo>, k: int)
    ensures MapGet(LocationMap(infos), k).Some? <==> exists i :: 0 <= i < |infos| && infos[i].id == k
    ensures forall i :: 0 <= i < |infos| && infos[i].id == k && (forall j :: i < j < |infos| ==> infos[j].id != k) ==>
      MapGet(LocationMap(infos), k) == Some(infos[i].location)
    decreases |infos|
  {
    if infos != [] {
      var n := |infos| - 1;
      var front := infos[..n];
      LocationMapLastWins(front, k);
      assert forall i :: 0 <= i < n ==> front[i] == infos[i];
      if infos[n].id != k {
        if exists i :: 0 <= i < |infos| && infos[i].id == k {
          var i :| 0 <= i < |infos| && infos[i].id == k;
          assert front[i].id == k;
        }
      }
    }
  }

  /** Every location a tenant can get is non-empty when every answer's location is. */
  lemma {:induction false} LocationsNonEmpty(infos: seq<TenantInfo>)
    requires forall i :: 0 <= i < |infos| ==> infos[i].location != ""
    ensures forall p :: p in LocationMap(infos) ==> p.1 != ""
    decreases |infos|
  {
    if infos != [] {
      LocationsNonEmpty(infos[..|infos| - 1]);
    }
  }

  predicate Distinct(s: seq<string>) {
    forall i, j :: 0 <= i < j < |s| ==> s[i] != s[j]
  }

  lemma DistinctTail(s: seq<string>)
    requires s != [] && Distinct(s)
    ensures Distinct(s[1..]) && s[0] !in s[1..]
  {
    forall i, j | 0 <= i < j < |s[1..]|
      ensures s[1..][i] != s[1..][j]
    {
      assert s[1..][i] == s[i + 1] && s[1..][j] == s[j + 1];
    }
  }

  /** `Array.from(new Set(values))`: first occurrences, in order. */
  function Dedup(values: seq<string>): (r: seq<string>)
    ensures Distinct(r)
    ensures forall v :: v in r <==> v in values
    decreases |values|
  {
    if values == [] then []
    else
      var front := Dedup(values[..|values| - 1]);
      var last := values[|values| - 1];
      assert forall v :: v in values <==> v in values[..|values| - 1] || v == last;
      if last in front then front else front + [last]
  }

  /** `.filter(Boolean)` on strings: drops the empty ones. */
  function NonEmpty(values: seq<string>): (r: seq<string>)
    ensures forall v :: v in r <==> v in values && v != ""
    decreases |values|
  {
    if values == [] then []
    else
      var rest := NonEmpty(values[1..]);
      assert forall v :: v in values <==> v == values[0] || v in values[1..];
      if values[0] == "" then rest else [values[0]] + rest
  }

  /** Dropping values keeps them distinct. */
  lemma {:induction false} NonEmptyKeepsDistinct(values: seq<string>)
    requires Distinct(values)
    ensures Distinct(NonEmpty(values))
    decreases |values|
  {
    if values != [] {
      DistinctTail(values);
      NonEmptyKeepsDistinct(values[1..]);
    }
  }

  /** In a map with distinct keys, each entry is what `get` answers for its key. */
  lemma {:induction false} GetAtIndex(m: JsMap, i: nat)
    requires DistinctKeys(m) && i < |m|
    ensures MapGet(m, m[i].0) == Some(m[i].1)
    decreases |m|
  {
    if i > 0 {
      assert m[0].0 != m[i].0;
      assert DistinctKeys(m[1..]) by {
        forall a, b | 0 <= a < b < |m[1..]|
          ensures m[1..][a].0 != m[1..][b].0
        {
          assert m[1..][a] == m[a + 1] && m[1..][b] == m[b + 1];
        }
      }
      assert m[1..][i - 1] == m[i];
      GetAtIndex(m[1..], i - 1);
    }
  }

  lemma {:induction false} GetIsValue(m: JsMap, k: int)
    requires MapGet(m, k).Some?
    ensures MapGet(m, k).value in Values(m)
    decreases |m|
  {
    if m[0].0 != k {
      GetIsValue(m[1..], k);
      var i :| 0 <= i < |m[1..]| && Values(m[1..])[i] == MapGet(m, k).value;
      assert Values(m)[i + 1] == MapGet(m, k).value;
    } else {
      assert Values(m)[0] == m[0].1;
    }
  }

  /** Some key maps to `v`. */
  ghost predicate HasValue(m: JsMap, v: string) {
    exists k :: MapGet(m, k) == Some(v)
  }

  /** A value is in `locationMap.values()` exactly when some key maps to it. */
  lemma ValueIffGet(m: JsMap, v: string)
    requires DistinctKeys(m)
    ensures v in Values(m) <==> HasValue(m, v)
  {
    if v in Values(m) {
      var i :| 0 <= i < |m| && Values(m)[i] == v;
      GetAtIndex(m, i);
    }
    if exists k :: MapGet(m, k) == Some(v) {
      var k :| MapGet(m, k) == Some(v);
      GetIsValue(m, k);
    }
  }

  /** `uniqueLocations`: every location value once, without empty strings. */
  function UniqueLocations(locationMap: JsMap): (r: seq<string>)
    requires DistinctKeys(locationMap)
    ensures Distinct(r)
    ensures forall v :: v in r <==> v != "" && HasValue(locationMap, v)
  {
    var r := NonEmpty(Dedup(Values(locationMap)));
    NonEmptyKeepsDistinct(Dedup(Values(locationMap)));
    forall v ensures v in r <==> v != "" && HasValue(locationMap, v) {
      ValueIffGet(locationMap, v);
    }
    r
  }

  /** The location filter: a tenant stays when its mapped location is the selection. */
  function FilterByLocation(restaurants: seq<Tenant>, locationMap: JsMap, selected: string): (r: seq<Tenant>)
    ensures |r| <= |restaurants|
    ensures forall t :: t in r <==> t in restaurants && MapGet(locationMap, t.id) == Some(selected)
    decreases |restaurants|
  {
    if restaurants == [] then []
    else
      var rest := FilterByLocation(restaurants[1..], locationMap, selected);
      assert forall t :: t in restaurants <==> t == restaurants[0] || t in restaurants[1..];
      if MapGet(locationMap, restaurants[0].id) == Some(selected) then [restaurants[0]] + rest else rest
  }

  /** The filter keeps order: filtering a concatenation concatenates the filtered parts. */
  lemma {:induction false} FilterByLocationAppend(a: seq<Tenant>, b: seq<Tenant>, locationMap: JsMap, selected: string)
    ensures FilterByLocation(a + b, locationMap, selected)
      == FilterByLocation(a, locationMap, selected) + FilterByLocation(b, locationMap, selected)
    decreases |a|
  {
    if a == [] {
      assert a + b == b;
    } else {
      assert (a + b)[0] == a[0] && (a + b)[1..] == a[1..] + b;
      FilterByLocationAppend(a[1..], b, locationMap, selected);
    }
  }

  /** `filteredRestaurants`: all tenants for "all", otherwise the tenants at the selected location. */
  function FilteredRestaurants(restaurants: seq<Tenant>, locationMap: JsMap, selected: string): (r: seq<Tenant>)
    ensures selected == "all" ==> r == restaurants
    ensures selected != "all" ==> forall t :: t in r <==> t in restaurants && MapGet(locationMap, t.id) == Some(selected)
  {
    if selected == "all" then restaurants else FilterByLocation(restaurants, locationMap, selected)
  }

  /** `filteredRestaurants.slice(0, 5)`: the cards shown. */
  function DisplayedCards(filtered: seq<Tenant>): (cards: seq<Tenant>)
    ensures |cards| == if |filtered| < 5 then |filtered| else 5
    ensures forall i :: 0 <= i < |cards| ==> cards[i] == filtered[i]
  {
    if |filtered| <= 5 then filtered else filtered[..5]
  }

  /** The "no restaurants" message: nothing to show and no lookup in flight. */
  predicate ShowNoRestaurants(filtered: seq<Tenant>, loadingLocations: bool)
    ensures ShowNoRestaurants(filtered, loadingLocations) <==> !loadingLocations && DisplayedCards(filtered) == []
  {
    |filtered| == 0 && !loadingLocations
  }

  /** Over a non-empty tenant list, "all" never shows the message, and neither does a location some tenant maps to. */
  lemma NoRestaurantsMessage(restaurants: seq<Tenant>, locationMap: JsMap, selected: string, loading: bool)
    requires restaurants != []
    ensures selected == "all" ==> !ShowNoRestaurants(FilteredRestaurants(restaurants, locationMap, selected), loading)
    ensures (exists t :: t in restaurants && MapGet(locationMap, t.id) == Some(selected))
      ==> !ShowNoRestaurants(FilteredRestaurants(restaurants, locationMap, selected), loading)
  {
    if selected != "all" && exists t :: t in restaurants && MapGet(locationMap, t.id) == Some(selected) {
      var t :| t in restaurants && MapGet(locationMap, t.id) == Some(selected);
      assert t in FilteredRestaurants(restaurants, locationMap, selected);
    }
  }

  /** A card's title: the fetched name, or `Restaurant <id>` when there is none. */
  function CardName(nameMap: JsMap, id: int): (name: string)
    ensures name != ""
    ensures MapGet(nameMap, id).Some? && MapGet(nameMap, id).value != "" ==> name == MapGet(nameMap, id).value
    ensures MapGet(nameMap, id).None? || MapGet(nameMap, id).value == "" ==> name == FallbackName(id)
  {
    match MapGet(nameMap, id)
    case Some(n) => if n != "" then n else FallbackName(id)
    case None => FallbackName(id)
  }

  const UndergroundTitle := "Peta Lantai UG (Underground)"
  const GroundFloorTitle := "Peta Lantai GF (Ground Floor)"

  /** The floor-map title: index 0 is the underground floor, every other index the ground floor. */
  function MapTitle(index: int): (title: string)
    ensures index == 0 <==> title == UndergroundTitle
    ensures index != 0 <==> title == GroundFloorTitle
  {
    if index == 0 then UndergroundTitle else GroundFloorTitle
  }
}
