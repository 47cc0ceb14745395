/** The document store as the services see it: collections are sequences of records in
    their natural order, and the name lookups are the two case-insensitive forms the services
    use (`^name$` and plain `name`, with the pattern read literally). */
module Store {
  import opened Wrappers
  import opened Text
  import opened JsValue

  /** The opening-hours schema's day enumeration. */
  datatype Day = MON | TUE | WED | THU | FRI | SAT | SUN

  const DAYS: seq<Day> := [MON, TUE, WED, THU, FRI, SAT, SUN]

  /** Position of the day in MON..SUN (`order.indexOf(day)`). */
  function DayIndex(d: Day): (i: nat)
    ensures i < 7 && DAYS[i] == d
  {
    match d
    case MON => 0
    case TUE => 1
    case WED => 2
    case THU => 3
    case FRI => 4
    case SAT => 5
    case SUN => 6
  }

  function DayName(d: Day): string
  {
    match d
    case MON => "MON"
    case TUE => "TUE"
    case WED => "WED"
    case THU => "THU"
    case FRI => "FRI"
    case SAT => "SAT"
    case SUN => "SUN"
  }

  /** A restaurant document: the fields the services read. `ambience` is None when the
      document has no such field. */
  datatype Restaurant = Restaurant(id: nat, name: string, ambience: Option<seq<string>>)

  /** A menu document; `items` is None when the field is missing. */
  datatype Menu = Menu(restaurantId: nat, name: string, description: string, visible: bool, items: Option<seq<Value>>)

  /** An opening-hours document; the times are None (null) on a closed day. */
  datatype OpeningHours = OpeningHours(restaurantId: nat, dayOfWeek: Day, openTime: Option<string>, closeTime: Option<string>)

  /** A name lookup: `{ $regex: "^p$", $options: "i" }` or `{ $regex: p, $options: "i" }`. */
  datatype NameQuery = Exact(pattern: string) | Partial(pattern: string)

  predicate NameMatches(r: Restaurant, q: NameQuery)
  {
    match q
    case Exact(p) => ToLower(r.name) == ToLower(p)
    case Partial(p) => Contains(ToLower(r.name), ToLower(p))
  }

  /** An exact match is also a partial match. */
  lemma ExactIsPartial(r: Restaurant, p: string)
    requires NameMatches(r, Exact(p))
    ensures NameMatches(r, Partial(p))
  {
    ContainsSelf(ToLower(r.name));
  }

  /** Record `k` is the first of `rs` that the query matches. */
  predicate IsFirstHit(rs: seq<Restaurant>, q: NameQuery, k: int)
  {
    0 <= k < |rs| && NameMatches(rs[k], q) && forall j :: 0 <= j < k ==> !NameMatches(rs[j], q)
  }

  /** `Restaurant.findOne({ name: q })`: the first matching document in natural order. */
  function FindOne(rs: seq<Restaurant>, q: NameQuery): (r: Option<Restaurant>)
    ensures r.None? <==> forall k :: 0 <= k < |rs| ==> !NameMatches(rs[k], q)
    ensures r.Some? ==> exists k :: IsFirstHit(rs, q, k) && r.value == rs[k]
  {
    if |rs| == 0 then None
    else if NameMatches(rs[0], q) then
      assert IsFirstHit(rs, q, 0);
      Some(rs[0])
    else
      var r := FindOne(rs[1..], q);
      assert forall k :: 1 <= k < |rs| ==> rs[k] == rs[1..][k - 1];
      if r.Some? then
        var k :| IsFirstHit(rs[1..], q, k) && r.value == rs[1..][k];
        assert IsFirstHit(rs, q, k + 1);
        r
      else r
  }

  /** `.limit(n)`: 0 means no limit, a negative `n` limits to `-n`. */
  function Limit<T>(rows: seq<T>, n: int): (r: seq<T>)
    ensures |r| <= |rows| && r == rows[..|r|]
    ensures forall x :: x in r ==> x in rows
    ensures n == 0 ==> r == rows
    ensures n != 0 ==> |r| == Min(if n < 0 then -n else n, |rows|)
  {
    if n == 0 then rows else rows[..Min(if n < 0 then -n else n, |rows|)]
  }

  /** The value of an id as stored in a filter. */
  function IdValue(id: nat): Value { Num(id) }
}
