/** The restaurant service: the restaurant search query built from a loose filter map, the
    ambience lookup, the sorted list of every ambience in use, and the lookup by name that
    prefers an exact match. */
module RestaurantService {
  import opened Wrappers
  import opened Text
  import opened JsValue
  import opened Store

  /** A predicate of the search query on one field. */
  datatype Cond =
    | Regex(pattern: Value)      // { $regex: pattern, $options: "i" }
    | Is(value: Value)           // equality with the value
    | AnyOf(values: seq<Value>)  // { $in: values }

  /** The search query: one optional condition per restaurant field (`name`, `type`,
      `category`, `ambience`, `cuisine`, `hasPrivateRooms`, `priceTier`, `status`); None
      when the query has no such key. */
  datatype Query = Query(
    name: Option<Cond>, venueType: Option<Cond>, category: Option<Cond>, ambience: Option<Cond>,
    cuisine: Option<Cond>, hasPrivateRooms: Option<Cond>, priceTier: Option<Cond>, status: Option<Cond>)

  const EMPTY_QUERY := Query(None, None, None, None, None, None, None, None)

  /** `Array.isArray(v) ? v : [v]`. */
  function AsList(v: Value): (r: seq<Value>)
    ensures v.Arr? ==> r == v.items
    ensures !v.Arr? ==> r == [v]
  {
    if v.Arr? then v.items else [v]
  }

  /** The cuisine filter is the string "romantic" in any letter case. */
  predicate RomanticCuisine(cuisine: Value)
  {
    cuisine.Str? && ToLower(cuisine.s) == "romantic"
  }

  /** The filter keys `findRestaurants` reads. */
  const FILTER_KEYS: set<string> :=
    {"name", "type", "category", "ambience", "cuisine", "hasPrivateRooms", "priceTier", "status"}

  /** `q` is the search query for `filters`: each field is constrained only when its filter is
      present (truthy; for `hasPrivateRooms`, defined), names, categories and cuisines are
      case-insensitive patterns, a single ambience becomes a one-element list, and a
      "romantic" cuisine becomes an ambience condition instead. */
  predicate QueryOf(filters: Value, q: Query)
  {
    var name := Prop(filters, "name");
    var ambience := Prop(filters, "ambience");
    var cuisine := Prop(filters, "cuisine");
    var rooms := Prop(filters, "hasPrivateRooms");
    && q.name == (if Truthy(name) then Some(Regex(name)) else None)
    && q.venueType == (if Truthy(Prop(filters, "type")) then Some(Is(Prop(filters, "type"))) else None)
    && q.category == (if Truthy(Prop(filters, "category")) then Some(Regex(Prop(filters, "category"))) else None)
    && q.ambience == (if RomanticCuisine(cuisine) then Some(AnyOf([Str("romantic")]))
                      else if Truthy(ambience) then Some(AnyOf(AsList(ambience)))
                      else None)
    && q.cuisine == (if Truthy(cuisine) && !RomanticCuisine(cuisine) then Some(Regex(cuisine)) else None)
    && q.hasPrivateRooms == (if !rooms.Undefined? then Some(Is(rooms)) else None)
    && q.priceTier == (if Truthy(Prop(filters, "priceTier")) then Some(Is(Prop(filters, "priceTier"))) else None)
    && q.status == (if Truthy(Prop(filters, "status")) then Some(Is(Prop(filters, "status"))) else None)
  }

  /** The query of `findRestaurants`, built one key at a time; None when `filters` is null and
      reading its fields throws (an absent `filters` defaults to `{}`). */
  method FindRestaurantsQuery(filters: Value) returns (r: Option<Query>)
    ensures r.None? <==> filters.Null?
    ensures r.Some? ==> QueryOf(filters, r.value)
  {
    if filters.Null? {
      return None;
    }
    var query := AddName(EMPTY_QUERY, Prop(filters, "name"));
    if Truthy(Prop(filters, "type")) {
      query := query.(venueType := Some(Is(Prop(filters, "type"))));
    }
    if Truthy(Prop(filters, "category")) {
      query := query.(category := Some(Regex(Prop(filters, "category"))));
    }
    query := AddAmbienceAndCuisine(query, Prop(filters, "ambience"), Prop(filters, "cuisine"));
    if !Prop(filters, "hasPrivateRooms").Undefined? {
      query := query.(hasPrivateRooms := Some(Is(Prop(filters, "hasPrivateRooms"))));
    }
    if Truthy(Prop(filters, "priceTier")) {
      query := query.(priceTier := Some(Is(Prop(filters, "priceTier"))));
    }
    if Truthy(Prop(filters, "status")) {
      query := query.(status := Some(Is(Prop(filters, "status"))));
    }
    return Some(query);
  }

  /** The `name` key: a truthy name becomes a case-insensitive pattern. */
  method AddName(query: Query, name: Value) returns (q: Query)
    ensures q == query.(name := if Truthy(name) then Some(Regex(name)) else query.name)
  {
    q := query;
    if Truthy(name) {
      // a string never has a `$regex` property, so the pattern is always wrapped
      if name.Str? && Truthy(Prop(name, "$regex")) {
        q := q.(name := Some(Is(name)));
      } else {
        q := q.(name := Some(Regex(name)));
      }
    }
  }

  /** The `ambience` and `cuisine` keys: an ambience is a list of accepted values; a
      "romantic" cuisine overrides it with that ambience, and any other cuisine is a
      case-insensitive pattern. */
  method AddAmbienceAndCuisine(query: Query, ambience: Value, cuisine: Value) returns (q: Query)
    ensures q == query.(ambience := if RomanticCuisine(cuisine) then Some(AnyOf([Str("romantic")]))
                                    else if Truthy(ambience) then Some(AnyOf(AsList(ambience)))
                                    else query.ambience,
                        cuisine := if Truthy(cuisine) && !RomanticCuisine(cuisine) then Some(Regex(cuisine))
                                   else query.cuisine)
  {
    q := query;
    if Truthy(ambience) {
      q := q.(ambience := Some(AnyOf(AsList(ambience))));
    }
    if Truthy(cuisine) {
      if cuisine.Str? && ToLower(cuisine.s) == "romantic" {
        q := q.(ambience := Some(AnyOf([Str("romantic")])));
      } else {
        q := q.(cuisine := Some(Regex(cuisine)));
      }
    }
  }

  /** Filters without any of the recognised keys give the empty query (every restaurant). */
  lemma NoFiltersNoConditions(filters: Value, q: Query)
    requires filters.Obj? && filters.fields.Keys !! FILTER_KEYS && QueryOf(filters, q)
    ensures q == EMPTY_QUERY
  {
    assert forall k :: k in FILTER_KEYS ==> Prop(filters, k) == Undefined;
  }

  /** `hasPrivateRooms: false` is kept as a condition, while a false `priceTier` or `status` is dropped. */
  lemma FalsePrivateRoomsKept(q: Query)
    requires QueryOf(Obj(map["hasPrivateRooms" := Bool(false), "priceTier" := Bool(false), "status" := Bool(false)]), q)
    ensures q.hasPrivateRooms == Some(Is(Bool(false))) && q.priceTier.None? && q.status.None?
  {
  }

  /** `findByAmbience`: restaurants whose ambience list holds one of the given types. */
  function FindByAmbienceQuery(ambienceTypes: Value): (q: Query)
    ensures q.ambience == Some(AnyOf(AsList(ambienceTypes))) && q.(ambience := None) == EMPTY_QUERY
  {
    EMPTY_QUERY.(ambience := Some(AnyOf(AsList(ambienceTypes))))
  }

  /** Searching with nothing but a truthy ambience filter is `findByAmbience`. */
  lemma AmbienceSearchIsFindByAmbience(ambience: Value, q: Query)
    requires Truthy(ambience) && QueryOf(Obj(map["ambience" := ambience]), q)
    ensures q == FindByAmbienceQuery(ambience)
  {
    var filters := Obj(map["ambience" := ambience]);
    assert Prop(filters, "cuisine") == Undefined && Prop(filters, "name") == Undefined;
  }

  /** A "romantic" cuisine replaces any ambience filter and adds no cuisine condition. */
  lemma RomanticOverridesAmbience(filters: Value, q: Query)
    requires QueryOf(filters, q) && RomanticCuisine(Prop(filters, "cuisine"))
    ensures q.ambience == Some(AnyOf([Str("romantic")])) && q.cuisine.None?
  {
  }

  /** The ambiences used by some restaurant. */
  predicate UsedAmbience(restaurants: seq<Restaurant>, a: string)
  {
    exists k :: 0 <= k < |restaurants| && restaurants[k].ambience.Some? && a in restaurants[k].ambience.value
  }

  predicate StrLt(a: string, b: string) { StrLe(a, b) && a != b }

  /** Strictly ascending, hence free of duplicates. */
  predicate StrictlyAscending(s: seq<string>)
  {
    forall i, j :: 0 <= i < j < |s| ==> StrLt(s[i], s[j])
  }

  /** A finite non-empty set of strings has a least element. */
  lemma {:induction false} LeastExists(s: set<string>)
    requires s != {}
    ensures exists m :: m in s && forall x :: x in s ==> StrLe(m, x)
    decreases |s|
  {
    var y :| y in s;
    var rest := s - {y};
    StrLeTotal(y, y);
    if rest == {} {
      forall x | x in s ensures StrLe(y, x) {
        assert x !in rest;
      }
    } else {
      LeastExists(rest);
      var m :| m in rest && forall x :: x in rest ==> StrLe(m, x);
      StrLeTotal(m, y);
      var least := if StrLe(m, y) then m else y;
      forall x | x in s ensures StrLe(least, x) {
        if x == y {
        } else if least == y {
          StrLeTransitive(y, m, x);
        }
      }
      assert least in s;
    }
  }

  /** `getAllAmbienceTypes`: every ambience of every restaurant collected into a set, then
      listed in ascending order. */
  method GetAllAmbienceTypes(restaurants: seq<Restaurant>) returns (types: seq<string>)
    ensures StrictlyAscending(types)
    ensures forall a :: a in types <==> UsedAmbience(restaurants, a)
  {
    var all: set<string> := {};
    for k := 0 to |restaurants|
      invariant forall a :: a in all <==> UsedAmbience(restaurants[..k], a)
    {
      var r := restaurants[k];
      if r.ambience.Some? {
        var list := r.ambience.value;
        for j := 0 to |list|
          invariant forall a :: a in all <==> UsedAmbience(restaurants[..k], a) || a in list[..j]
        {
          all := all + {list[j]};
        }
        assert list[..|list|] == list;
      }
      assert forall a :: UsedAmbience(restaurants[..k + 1], a) <==>
                         UsedAmbience(restaurants[..k], a) || (r.ambience.Some? && a in r.ambience.value) by {
        assert forall i :: 0 <= i < k ==> restaurants[..k + 1][i] == restaurants[..k][i];
        assert restaurants[..k + 1][k] == r;
      }
    }
    assert restaurants[..|restaurants|] == restaurants;
    types := [];
    var remaining := all;
    while remaining != {}
      invariant StrictlyAscending(types)
      invariant forall a :: a in all <==> a in types || a in remaining
      invariant forall a :: a in types ==> a !in remaining
      invariant forall i, x :: 0 <= i < |types| && x in remaining ==> StrLt(types[i], x)
      decreases |remaining|
    {
      LeastExists(remaining);
      var m :| m in remaining && forall x :: x in remaining ==> StrLe(m, x);
      forall i, x | 0 <= i < |types| && x in remaining - {m} ensures StrLt(types[i], x) {
        StrLeTransitive(types[i], m, x);
        if types[i] == x {
          StrLeAntisymmetric(m, x);
        }
      }
      types := types + [m];
      remaining := remaining - {m};
    }
  }

  /** `getByName`: a falsy name finds nothing; otherwise the first exact (case-insensitive)
      match, or failing that the first record whose name contains the text. */
  method GetByName(restaurants: seq<Restaurant>, name: Value) returns (restaurant: Option<Restaurant>)
    ensures !Truthy(name) ==> restaurant.None?
    ensures Truthy(name) && FindOne(restaurants, Exact(ToJsString(name))).Some? ==>
              restaurant == FindOne(restaurants, Exact(ToJsString(name)))
    ensures Truthy(name) && FindOne(restaurants, Exact(ToJsString(name))).None? ==>
              restaurant == FindOne(restaurants, Partial(ToJsString(name)))
    ensures restaurant.Some? ==> restaurant.value in restaurants && NameMatches(restaurant.value, Partial(ToJsString(name)))
    ensures restaurant.None? <==>
              !Truthy(name) || forall k :: 0 <= k < |restaurants| ==> !NameMatches(restaurants[k], Partial(ToJsString(name)))
  {
    if !Truthy(name) {
      return None;
    }
    var pattern := ToJsString(name);
    restaurant := FindOne(restaurants, Exact(pattern));
    if restaurant.Some? {
      ExactIsPartial(restaurant.value, pattern);
      forall k | 0 <= k < |restaurants| && restaurants[k] == restaurant.value
        ensures NameMatches(restaurants[k], Partial(pattern)) {}
    } else {
      restaurant := FindOne(restaurants, Partial(pattern));
    }
  }

  /** "KFC" finds "KFC Cambodia" when no restaurant is called exactly "KFC". */
  lemma PartialAfterExact(other: Restaurant, kfc: Restaurant)
    requires other.name == "Pizza Place" && kfc.name == "KFC Cambodia"
    ensures FindOne([other, kfc], Exact("KFC")).None?
    ensures FindOne([other, kfc], Partial("KFC")) == Some(kfc)
  {
    var p := ToLower("KFC");
    assert p == "kfc";
    assert ToLower("KFC Cambodia")[..3] == "kfc";
    assert OccursAt(ToLower(kfc.name), p, 0);
    assert !NameMatches(other, Partial("KFC")) by {
      var t := ToLower(other.name);
      assert forall j :: 0 <= j < |t| ==> t[j] != 'k';
      forall i | 0 <= i && i + 3 <= |t| ensures !OccursAt(t, p, i) {
        assert t[i..i + 3][0] == t[i] != p[0];
      }
    }
    assert |ToLower(kfc.name)| != |p|;
  }

  /** The price tiers of the price-tier collection's schema. */
  datatype Tier = BUDGET | MID_RANGE | PREMIUM | LUXURY

  function TierName(t: Tier): string
  {
    match t
    case BUDGET => "BUDGET"
    case MID_RANGE => "MID_RANGE"
    case PREMIUM => "PREMIUM"
    case LUXURY => "LUXURY"
  }

  /** A price-tier document: the tier and its price bands. */
  datatype PriceTierDetail = PriceTierDetail(tier: Tier, dishMin: int, dishMax: int, drinkMin: int, drinkMax: int, description: string)

  /** Document `k` is the first whose tier is `tier`. */
  predicate IsFirstTier(details: seq<PriceTierDetail>, tier: Value, k: int)
  {
    0 <= k < |details| && Str(TierName(details[k].tier)) == tier &&
    forall j :: 0 <= j < k ==> Str(TierName(details[j].tier)) != tier
  }

  /** `PriceTierDetail.findOne({ tier })`. */
  function FindTier(details: seq<PriceTierDetail>, tier: Value): (r: Option<PriceTierDetail>)
    ensures r.None? <==> forall k :: 0 <= k < |details| ==> Str(TierName(details[k].tier)) != tier
    ensures r.Some? ==> exists k :: IsFirstTier(details, tier, k) && r.value == details[k]
  {
    if |details| == 0 then None
    else if Str(TierName(details[0].tier)) == tier then
      assert IsFirstTier(details, tier, 0);
      Some(details[0])
    else
      var r := FindTier(details[1..], tier);
      assert forall k :: 1 <= k < |details| ==> details[k] == details[1..][k - 1];
      if r.Some? then
        var k :| IsFirstTier(details[1..], tier, k) && r.value == details[1..][k];
        assert IsFirstTier(details, tier, k + 1);
        r
      else r
  }

  /** `getPriceTierDetail`: nothing for a falsy tier, otherwise the document of that tier. */
  function GetPriceTierDetail(details: seq<PriceTierDetail>, tier: Value): (r: Option<PriceTierDetail>)
    ensures !Truthy(tier) ==> r.None?
    ensures r.Some? ==> r.value in details && Str(TierName(r.value.tier)) == tier
    ensures Truthy(tier) && r.None? ==> forall k :: 0 <= k < |details| ==> Str(TierName(details[k].tier)) != tier
  {
    if !Truthy(tier) then None else FindTier(details, tier)
  }

  /** With tiers unique, as the schema demands, the document found is the one of that tier. */
  lemma UniqueTierFound(details: seq<PriceTierDetail>, k: nat)
    requires forall i, j :: 0 <= i < j < |details| ==> details[i].tier != details[j].tier
    requires k < |details|
    ensures GetPriceTierDetail(details, Str(TierName(details[k].tier))) == Some(details[k])
  {
    var tier := Str(TierName(details[k].tier));
    assert Truthy(tier) by {
      match details[k].tier
      case BUDGET =>
      case MID_RANGE =>
      case PREMIUM =>
      case LUXURY =>
    }
    var r := FindTier(details, tier);
    var m :| IsFirstTier(details, tier, m) && r.value == details[m];
    TierNameInjective(details[m].tier, details[k].tier);
  }

  lemma TierNameInjective(a: Tier, b: Tier)
    requires TierName(a) == TierName(b)
    ensures a == b
  {
  }
}
