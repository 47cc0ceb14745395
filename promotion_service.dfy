/** The promotion service: the promotion query built from a loose filter map (status
    defaulting to active, the current-date window, a title pattern, a discount range), the
    exact-only resolution of a restaurant name, and the resulting search. */
module PromotionService {
  import opened Wrappers
  import opened Text
  import opened JsValue
  import opened Store

  /** A condition on one promotion field. */
  datatype Cond =
    | Is(value: Value)                          // equality (or a filter object passed through)
    | Regex(pattern: string)                    // { $regex: pattern, $options: "i" }
    | AtMost(time: int)                         // { $lte: now }
    | AtLeast(time: int)                        // { $gte: now }
    | Between(min: Option<int>, max: Option<int>) // { $gte: min, $lte: max }, each when given

  /** The promotion query: `status` is always set; the other keys are optional. */
  datatype PromotionQuery = PromotionQuery(
    status: Value, startDate: Option<Cond>, endDate: Option<Cond>, title: Option<Cond>,
    discountPercent: Option<Cond>, restaurant: Option<Value>)

  function NumberOf(v: Value): Option<int> { if v.Num? then Some(v.n) else None }

  /** `q` is the promotion query for `filters` at time `now`. */
  predicate PromotionQueryOf(filters: Value, now: int, q: PromotionQuery)
  {
    var start := Prop(filters, "startDate");
    var end := Prop(filters, "endDate");
    var title := Prop(filters, "title");
    var min := NumberOf(Prop(filters, "discountPercentMin"));
    var max := NumberOf(Prop(filters, "discountPercentMax"));
    && q.status == Or(Prop(filters, "status"), Str("active"))
    && (!Truthy(start) && !Truthy(end) ==> q.startDate == Some(AtMost(now)) && q.endDate == Some(AtLeast(now)))
    && (Truthy(start) || Truthy(end) ==>
          q.startDate == (if Truthy(start) then Some(Is(start)) else None) &&
          q.endDate == (if Truthy(end) then Some(Is(end)) else None))
    && q.title == (if title.Str? && Trim(title.s) != "" then Some(Regex(Trim(title.s)))
                   else if Truthy(title) && Truthy(Prop(title, "$regex")) then Some(Is(title))
                   else None)
    && q.discountPercent == (if min.Some? || max.Some? then Some(Between(min, max)) else None)
    && q.restaurant == (if Truthy(Prop(filters, "restaurant")) then Some(Prop(filters, "restaurant")) else None)
  }

  /** `buildPromotionQuery`, with the clock reading `now` as a parameter; None when `filters`
      is null and reading its fields throws (an absent `filters` defaults to `{}`). */
  method BuildPromotionQuery(filters: Value, now: int) returns (r: Option<PromotionQuery>)
    ensures r.None? <==> filters.Null?
    ensures r.Some? ==> PromotionQueryOf(filters, now, r.value)
  {
    if filters.Null? {
      return None;
    }
    var q := PromotionQuery(Or(Prop(filters, "status"), Str("active")), None, None, None, None, None);
    q := AddDates(q, Prop(filters, "startDate"), Prop(filters, "endDate"), now);
    q := AddTitle(q, Prop(filters, "title"));
    q := AddDiscount(q, Prop(filters, "discountPercentMin"), Prop(filters, "discountPercentMax"));
    if Truthy(Prop(filters, "restaurant")) {
      q := q.(restaurant := Some(Prop(filters, "restaurant")));
    }
    return Some(q);
  }

  /** The date keys: explicit dates are used as given, and without either the promotion must
      be running at `now`. */
  method AddDates(query: PromotionQuery, start: Value, end: Value, now: int) returns (q: PromotionQuery)
    ensures !Truthy(start) && !Truthy(end) ==> q == query.(startDate := Some(AtMost(now)), endDate := Some(AtLeast(now)))
    ensures Truthy(start) || Truthy(end) ==>
              q == query.(startDate := if Truthy(start) then Some(Is(start)) else query.startDate,
                          endDate := if Truthy(end) then Some(Is(end)) else query.endDate)
  {
    q := query;
    if !Truthy(start) && !Truthy(end) {
      q := q.(startDate := Some(AtMost(now)), endDate := Some(AtLeast(now)));
    } else {
      if Truthy(start) {
        q := q.(startDate := Some(Is(start)));
      }
      if Truthy(end) {
        q := q.(endDate := Some(Is(end)));
      }
    }
  }

  /** The `title` key: a string that is not blank becomes a case-insensitive pattern of its
      trimmed text; an object with a truthy `$regex` is passed through; anything else is
      ignored. */
  method AddTitle(query: PromotionQuery, title: Value) returns (q: PromotionQuery)
    ensures q == query.(title := if title.Str? && Trim(title.s) != "" then Some(Regex(Trim(title.s)))
                                 else if Truthy(title) && Truthy(Prop(title, "$regex")) then Some(Is(title))
                                 else query.title)
  {
    q := query;
    if title.Str? && Trim(title.s) != "" {
      q := q.(title := Some(Regex(Trim(title.s))));
    } else if Truthy(title) && Truthy(Prop(title, "$regex")) {
      q := q.(title := Some(Is(title)));
    }
  }

  /** The discount keys: a range with each bound that is a number. */
  method AddDiscount(query: PromotionQuery, min: Value, max: Value) returns (q: PromotionQuery)
    ensures q == query.(discountPercent := if min.Num? || max.Num? then Some(Between(NumberOf(min), NumberOf(max)))
                                           else query.discountPercent)
  {
    q := query;
    if min.Num? || max.Num? {
      var range := Between(None, None);
      if min.Num? {
        range := range.(min := Some(min.n));
      }
      if max.Num? {
        range := range.(max := Some(max.n));
      }
      q := q.(discountPercent := Some(range));
    }
  }

  /** A discount condition always has a bound, so the query never loses it again (the
      `delete` for an empty range cannot fire). */
  lemma DiscountRangeHasABound(filters: Value, now: int, q: PromotionQuery)
    requires PromotionQueryOf(filters, now, q) && q.discountPercent.Some?
    ensures q.discountPercent.value.Between? && (q.discountPercent.value.min.Some? || q.discountPercent.value.max.Some?)
  {
  }

  /** Without explicit dates only promotions running at `now` qualify; with either date the
      window is dropped entirely. */
  lemma DateWindowOnlyWithoutDates(filters: Value, now: int, q: PromotionQuery)
    requires PromotionQueryOf(filters, now, q)
    ensures q.startDate == Some(AtMost(now)) <==> !Truthy(Prop(filters, "startDate")) && !Truthy(Prop(filters, "endDate"))
  {
  }

  /** Empty filters ask for the active promotions running at `now`. */
  lemma DefaultPromotionQuery(now: int, q: PromotionQuery)
    requires PromotionQueryOf(EMPTY_OBJECT, now, q)
    ensures q == PromotionQuery(Str("active"), Some(AtMost(now)), Some(AtLeast(now)), None, None, None)
  {
  }

  /** `resolveRestaurantNameToId`: only a non-empty string is looked up, and only exactly
      (case-insensitively); there is no partial fallback. */
  function ResolveRestaurantNameToId(restaurants: seq<Restaurant>, restaurantName: Value): (r: Option<nat>)
    ensures !restaurantName.Str? || restaurantName.s == "" ==> r.None?
    ensures r.Some? <==> restaurantName.Str? && restaurantName.s != "" &&
                         exists k :: 0 <= k < |restaurants| && NameMatches(restaurants[k], Exact(restaurantName.s))
    ensures r.Some? ==> exists k :: IsFirstHit(restaurants, Exact(restaurantName.s), k) && r.value == restaurants[k].id
  {
    if !Truthy(restaurantName) || !restaurantName.Str? then None
    else
      var rest := FindOne(restaurants, Exact(restaurantName.s));
      if rest.None? then None else Some(rest.value.id)
  }

  /** The search `findPromotions` hands to the store: the query and the number of rows. */
  datatype PromotionSearch = NoPromotions | Search(query: PromotionQuery, limit: int)

  /** `findPromotions`. A `restaurantName` is resolved only when no `restaurant` is given; an
      unresolved name gives no promotions; a limit that is not a number becomes 10. */
  method FindPromotions(restaurants: seq<Restaurant>, filters: Value, limit: Value, now: int) returns (r: Settled<PromotionSearch>)
    ensures r.Rejected? <==> filters.Null?
    ensures r.Resolved? && r.value.Search? ==> r.value.limit == (if limit.Num? then limit.n else 10)
    ensures r.Resolved? && r.value.Search? && (Truthy(Prop(filters, "restaurant")) || !Truthy(Prop(filters, "restaurantName"))) ==>
              PromotionQueryOf(filters, now, r.value.query)
    ensures r.Resolved? && !Truthy(Prop(filters, "restaurant")) && Truthy(Prop(filters, "restaurantName")) ==>
              var id := ResolveRestaurantNameToId(restaurants, Prop(filters, "restaurantName"));
              if id.None? then r.value.NoPromotions?
              else r.value.Search? && r.value.query.restaurant == Some(IdValue(id.value)) &&
                   PromotionQueryOf(filters, now, r.value.query.(restaurant := None))
    ensures r.Resolved? && r.value.NoPromotions? ==>
              !Truthy(Prop(filters, "restaurant")) && Truthy(Prop(filters, "restaurantName")) &&
              ResolveRestaurantNameToId(restaurants, Prop(filters, "restaurantName")).None?
  {
    var built := BuildPromotionQuery(filters, now);
    if built.None? {
      return Rejected;
    }
    var q := built.value;
    if Truthy(Prop(filters, "restaurantName")) && q.restaurant.None? {
      var restId := ResolveRestaurantNameToId(restaurants, Prop(filters, "restaurantName"));
      if restId.None? {
        return Resolved(NoPromotions);
      }
      q := q.(restaurant := Some(IdValue(restId.value)));
    }
    return Resolved(Search(q, if limit.Num? then limit.n else 10));
  }

  /** `getPromotionsByRestaurantId`: the active promotions of one restaurant running at `now`
      (the clock reading is a parameter). */
  function PromotionsByRestaurantIdQuery(restaurantId: Value, now: int): PromotionQuery
  {
    PromotionQuery(Str("active"), Some(AtMost(now)), Some(AtLeast(now)), None, None, Some(restaurantId))
  }

  /** The query by restaurant id is the search for that restaurant alone. */
  lemma ByRestaurantIdIsSearch(restaurantId: Value, now: int)
    requires Truthy(restaurantId)
    ensures PromotionQueryOf(Obj(map["restaurant" := restaurantId]), now, PromotionsByRestaurantIdQuery(restaurantId, now))
  {
    var filters := Obj(map["restaurant" := restaurantId]);
    assert Prop(filters, "restaurant") == restaurantId;
    assert Prop(filters, "status") == Undefined && Prop(filters, "title") == Undefined;
    assert Prop(filters, "startDate") == Undefined && Prop(filters, "endDate") == Undefined;
    assert Prop(filters, "discountPercentMin") == Undefined && Prop(filters, "discountPercentMax") == Undefined;
  }

  /** The query by restaurant id is the default promotion query narrowed to that restaurant. */
  lemma ByRestaurantIdNarrowsDefault(restaurantId: Value, now: int, q: PromotionQuery)
    requires PromotionQueryOf(EMPTY_OBJECT, now, q)
    ensures PromotionsByRestaurantIdQuery(restaurantId, now) == q.(restaurant := Some(restaurantId))
  {
    DefaultPromotionQuery(now, q);
  }
}
