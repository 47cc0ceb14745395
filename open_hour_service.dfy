/** The opening-hours service: the hours search by restaurant id or exact name, and the
    week of one restaurant sorted from Monday to Sunday. */
module OpenHourService {
  import opened Wrappers
  import opened Text
  import opened JsValue
  import opened Store

  /** The rows of one restaurant (or of all restaurants), in store order. */
  function RowsOf(hours: seq<OpeningHours>, restaurantId: Option<Value>): (r: seq<OpeningHours>)
    ensures forall h :: h in r <==> h in hours && (restaurantId.None? || restaurantId.value == IdValue(h.restaurantId))
    ensures restaurantId.None? ==> r == hours
  {
    if |hours| == 0 then []
    else
      var rest := RowsOf(hours[1..], restaurantId);
      assert restaurantId.None? ==> hours == [hours[0]] + hours[1..];
      (if restaurantId.None? || restaurantId.value == IdValue(hours[0].restaurantId) then [hours[0]] else []) + rest
  }

  /** `findOpeningHours`: `restaurantId` wins over `restaurantName`; a name is resolved by an
      exact (case-insensitive) match only, and an unknown name gives no rows. Null filters
      throw (an absent `filters` defaults to `{}`). */
  method FindOpeningHours(restaurants: seq<Restaurant>, hours: seq<OpeningHours>, filters: Value, limit: int)
    returns (r: Settled<seq<OpeningHours>>)
    ensures r.Rejected? <==> filters.Null?
    ensures !filters.Null? && Truthy(Prop(filters, "restaurantId")) ==>
              r == Resolved(Limit(RowsOf(hours, Some(Prop(filters, "restaurantId"))), limit))
    ensures !filters.Null? && !Truthy(Prop(filters, "restaurantId")) && !Truthy(Prop(filters, "restaurantName")) ==>
              r == Resolved(Limit(hours, limit))
    ensures !filters.Null? && !Truthy(Prop(filters, "restaurantId")) && Truthy(Prop(filters, "restaurantName")) ==>
              var rest := FindOne(restaurants, Exact(ToJsString(Prop(filters, "restaurantName"))));
              r == Resolved(if rest.None? then [] else Limit(RowsOf(hours, Some(IdValue(rest.value.id))), limit))
  {
    if filters.Null? {
      return Rejected;
    }
    var restaurantId: Option<Value> := None;
    if Truthy(Prop(filters, "restaurantId")) {
      restaurantId := Some(Prop(filters, "restaurantId"));
    } else if Truthy(Prop(filters, "restaurantName")) {
      var rest := FindOne(restaurants, Exact(ToJsString(Prop(filters, "restaurantName"))));
      if rest.None? {
        return Resolved([]);
      }
      restaurantId := Some(IdValue(rest.value.id));
    }
    return Resolved(Limit(RowsOf(hours, restaurantId), limit));
  }

  /** Rows in MON..SUN order. */
  predicate ByDay(s: seq<OpeningHours>)
  {
    forall i, j :: 0 <= i < j < |s| ==> DayIndex(s[i].dayOfWeek) <= DayIndex(s[j].dayOfWeek)
  }

  /** The sort key: the day's position in the week. */
  function Key(h: OpeningHours): nat { DayIndex(h.dayOfWeek) }

  /** `hours.sort(...)` by the day's position in the week, in place (insertion sort). */
  method SortByDay(a: array<OpeningHours>)
    modifies a
    ensures ByDay(a[..])
    ensures multiset(a[..]) == multiset(old(a[..]))
  {
    for i := 0 to a.Length
      invariant forall p, q :: 0 <= p < q < i ==> Key(a[p]) <= Key(a[q])
      invariant multiset(a[..]) == multiset(old(a[..]))
    {
      InsertBack(a, i);
    }
    assert forall p, q :: 0 <= p < q < a.Length ==> a[..][p] == a[p] && a[..][q] == a[q];
  }

  /** Moves `a[i]` back past the larger keys before it, so that `a[..i + 1]` is in order. */
  method InsertBack(a: array<OpeningHours>, i: int)
    requires 0 <= i < a.Length
    requires forall p, q :: 0 <= p < q < i ==> Key(a[p]) <= Key(a[q])
    modifies a
    ensures forall p, q :: 0 <= p < q < i + 1 ==> Key(a[p]) <= Key(a[q])
    ensures multiset(a[..]) == multiset(old(a[..]))
  {
    var j := i;
    while j > 0 && Key(a[j - 1]) > Key(a[j])
      invariant 0 <= j <= i
      invariant multiset(a[..]) == multiset(old(a[..]))
      invariant forall p, q :: 0 <= p < q <= i && q != j ==> Key(a[p]) <= Key(a[q])
      invariant 0 < j < i ==> Key(a[j - 1]) <= Key(a[j + 1])
    {
      SwapWithPrevious(a, j);
      j := j - 1;
    }
  }

  /** Exchanges `a[j - 1]` and `a[j]`. */
  method SwapWithPrevious(a: array<OpeningHours>, j: int)
    requires 0 < j < a.Length
    modifies a
    ensures a[j - 1] == old(a[j]) && a[j] == old(a[j - 1])
    ensures forall k :: 0 <= k < a.Length && k != j - 1 && k != j ==> a[k] == old(a[k])
    ensures multiset(a[..]) == multiset(old(a[..]))
  {
    a[j - 1], a[j] := a[j], a[j - 1];
  }

  /** `getOpeningHours`: nothing for a falsy name or an unknown restaurant (exact,
      case-insensitive match only); otherwise all that restaurant's rows, without a limit,
      rearranged into MON..SUN order. */
  method GetOpeningHours(restaurants: seq<Restaurant>, hours: seq<OpeningHours>, restaurantName: Value)
    returns (r: seq<OpeningHours>)
    ensures !Truthy(restaurantName) ==> r == []
    ensures Truthy(restaurantName) && FindOne(restaurants, Exact(ToJsString(restaurantName))).None? ==> r == []
    ensures Truthy(restaurantName) && FindOne(restaurants, Exact(ToJsString(restaurantName))).Some? ==>
              var rest := FindOne(restaurants, Exact(ToJsString(restaurantName))).value;
              multiset(r) == multiset(RowsOf(hours, Some(IdValue(rest.id))))
    ensures ByDay(r)
  {
    if !Truthy(restaurantName) {
      return [];
    }
    var rest := FindOne(restaurants, Exact(ToJsString(restaurantName)));
    if rest.None? {
      return [];
    }
    var rows := RowsOf(hours, Some(IdValue(rest.value.id)));
    var a := new OpeningHours[|rows|](k requires 0 <= k < |rows| => rows[k]);
    assert a[..] == rows;
    SortByDay(a);
    r := a[..];
  }

  /** Sorting keeps the week of one restaurant: every returned row belongs to it. */
  lemma SortedRowsBelongToRestaurant(r: seq<OpeningHours>, hours: seq<OpeningHours>, id: nat)
    requires multiset(r) == multiset(RowsOf(hours, Some(IdValue(id))))
    ensures forall h :: h in r ==> h in hours && h.restaurantId == id
  {
    forall h | h in r ensures h in hours && h.restaurantId == id {
      assert h in multiset(r);
    }
  }
}
