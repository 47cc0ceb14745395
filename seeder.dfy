/** The database seeder's helpers: random draws (`randInt`, `pick`), the clock arithmetic
    that jitters opening times (`shiftTime`), and the loop that gives every seeded restaurant
    one opening-hours document per weekday. `Math.random()` is an oracle `random: nat -> real`
    whose `k`-th value is the `k`-th draw, a real in [0, 1). */
module Seeder {
  import opened Wrappers
  import opened Text
  import opened Store

  const MINUTES_PER_DAY: int := 24 * 60

  /** `Math.floor(Math.random() * (max - min + 1)) + min`. */
  function RandInt(random: real, min: int, max: int): int
  {
    (random * (max - min + 1) as real).Floor + min
  }

  /** A draw in [0, 1) lands in [min, max]. */
  lemma RandIntInRange(random: real, min: int, max: int)
    requires 0.0 <= random < 1.0 && min <= max
    ensures min <= RandInt(random, min, max) <= max
  {
    var w := (max - min + 1) as real;
    assert 0.0 <= random * w;
    assert random * w < w by {
      assert w - random * w == (1.0 - random) * w;
    }
  }

  /** `pick(arr, n)`: up to `n` elements drawn without replacement from a copy of `arr`;
      the `i`-th draw chooses position `Math.floor(random(i) * copy.length)` of what is left. */
  method Pick<T(==)>(arr: array<T>, n: int, random: nat -> real) returns (out: seq<T>)
    requires forall k: nat :: 0.0 <= random(k) < 1.0
    ensures |out| == (if n <= 0 then 0 else Min(n, arr.Length))
    ensures multiset(out) <= multiset(arr[..])
  {
    out := [];
    var copy := arr[..];
    var i := 0;
    while i < n && |copy| > 0
      invariant 0 <= i == |out| && |copy| == arr.Length - i
      invariant if n <= 0 then i == 0 else i <= n
      invariant multiset(out) + multiset(copy) == multiset(arr[..])
      decreases |copy|
    {
      var idx := DrawIndex(random(i), |copy|);
      out := out + [copy[idx]];
      assert copy == copy[..idx] + [copy[idx]] + copy[idx + 1..];
      copy := copy[..idx] + copy[idx + 1..];
      i := i + 1;
    }
  }

  /** `Math.floor(Math.random() * length)`: a position of a non-empty array. */
  function DrawIndex(random: real, length: nat): (i: nat)
    requires 0.0 <= random < 1.0 && length > 0
    ensures i < length
  {
    RandIntInRange(random, 0, length - 1);
    RandInt(random, 0, length - 1)
  }

  /** JavaScript's `%` on a positive divisor: the remainder has the dividend's sign. */
  function JsRem(a: int, b: int): (r: int)
    requires b > 0
    ensures a >= 0 ==> r == a % b
    ensures a < 0 ==> -b < r <= 0
  {
    if a >= 0 then a % b else -((-a) % b)
  }

  /** A clock string "HH:MM" of two digits, a colon and two digits. */
  predicate IsClock(t: string)
  {
    |t| == 5 && t[2] == ':' && AllDigits(t[..2]) && AllDigits(t[3..])
  }

  /** The minutes since midnight a clock string denotes (`hh * 60 + mm`). */
  function MinuteOfDay(t: string): nat
    requires IsClock(t)
  {
    DigitsValue(t[..2]) * 60 + DigitsValue(t[3..])
  }

  /** A clock string with the hour in 0..23 and the minute in 0..59. */
  predicate ValidClock(t: string)
  {
    IsClock(t) && DigitsValue(t[..2]) < 24 && DigitsValue(t[3..]) < 60
  }

  /** `shiftTime(hhmm, minutesOffset)`: the clock `minutesOffset` minutes later, wrapped by
      adding a day and taking JavaScript's remainder. */
  function ShiftTime(hhmm: string, minutesOffset: int): string
    requires IsClock(hhmm)
  {
    var total := MinuteOfDay(hhmm) + minutesOffset;
    var norm := JsRem(total + MINUTES_PER_DAY, MINUTES_PER_DAY);
    PadStart2(IntToString(norm / 60)) + ":" + PadStart2(IntToString(JsRem(norm, 60)))
  }

  /** The clock for a minute of the day, zero-padded. */
  lemma ClockOf(norm: int)
    requires 0 <= norm < MINUTES_PER_DAY
    ensures var r := PadStart2(IntToString(norm / 60)) + ":" + PadStart2(IntToString(JsRem(norm, 60)));
            ValidClock(r) && MinuteOfDay(r) == norm
  {
    var h := norm / 60;
    var m := norm % 60;
    TwoDigits(h);
    TwoDigits(m);
    var r := PadStart2(NatToString(h)) + ":" + PadStart2(NatToString(m));
    assert r[..2] == PadStart2(NatToString(h));
    assert r[3..] == PadStart2(NatToString(m));
  }

  /** Unless the offset reaches back more than a day, the result is a valid zero-padded clock
      at the input's minute plus the offset, modulo a day. */
  lemma ShiftTimeCorrect(hhmm: string, minutesOffset: int)
    requires IsClock(hhmm) && MinuteOfDay(hhmm) + minutesOffset >= -MINUTES_PER_DAY
    ensures ValidClock(ShiftTime(hhmm, minutesOffset))
    ensures MinuteOfDay(ShiftTime(hhmm, minutesOffset)) == (MinuteOfDay(hhmm) + minutesOffset) % MINUTES_PER_DAY
  {
    var total := MinuteOfDay(hhmm) + minutesOffset;
    var norm := JsRem(total + MINUTES_PER_DAY, MINUTES_PER_DAY);
    AddDayMod(total);
    ClockOf(norm);
  }

  /** Adding a day to a minute count no earlier than a day back keeps its remainder. */
  lemma AddDayMod(total: int)
    requires total >= -MINUTES_PER_DAY
    ensures JsRem(total + MINUTES_PER_DAY, MINUTES_PER_DAY) == total % MINUTES_PER_DAY
  {
    assert (total + MINUTES_PER_DAY) % MINUTES_PER_DAY == total % MINUTES_PER_DAY;
  }

  /** Shifting a valid clock by nothing gives it back unchanged. */
  lemma ShiftByZero(t: string)
    requires ValidClock(t)
    ensures ShiftTime(t, 0) == t
  {
    var h := DigitsValue(t[..2]);
    var m := DigitsValue(t[3..]);
    var norm := JsRem(MinuteOfDay(t) + MINUTES_PER_DAY, MINUTES_PER_DAY);
    assert norm == h * 60 + m;
    assert norm / 60 == h && norm % 60 == m;
    TwoDigitsRoundTrip(t[..2]);
    TwoDigitsRoundTrip(t[3..]);
    assert t == t[..2] + ":" + t[3..];
  }

  /** `Math.floor((Math.random() - 0.5) * width)`: the jitter applied to a base time. */
  function Jitter(random: real, width: nat): int
  {
    ((random - 0.5) * width as real).Floor
  }

  /** With a positive even width the jitter lies in [-width/2, width/2 - 1]. */
  lemma JitterRange(random: real, width: nat)
    requires 0.0 <= random < 1.0 && width > 0 && width % 2 == 0
    ensures -(width / 2) <= Jitter(random, width) <= width / 2 - 1
  {
    var half := width / 2;
    var w := width as real;
    var h := half as real;
    assert w == 2.0 * h;
    var x := (random - 0.5) * w;
    var rw := ScaledBelow(random, w);
    assert x == rw - h;
    FloorBetween(x, -half, half);
  }

  /** A draw in [0, 1) scaled by a positive `w` lies in [0, w). */
  lemma ScaledBelow(random: real, w: real) returns (rw: real)
    requires 0.0 <= random < 1.0 && w > 0.0
    ensures rw == random * w && 0.0 <= rw < w
  {
    rw := random * w;
    assert w - rw == (1.0 - random) * w;
  }

  /** The floor of a real in [lo, hi) lies in [lo, hi - 1]. */
  lemma FloorBetween(x: real, lo: int, hi: int)
    requires lo as real <= x < hi as real
    ensures lo <= x.Floor <= hi - 1
  {
  }

  /** `r.type` as the seeder sets it: "pub", "cafe" or "restaurant". */
  datatype VenueType = Pub | Cafe | Eatery

  /** A restaurant as inserted: its id and its type. */
  datatype Seeded = Seeded(id: nat, venueType: VenueType)

  /** Cafés open at seven, everything else at ten. */
  function BaseOpen(t: VenueType): (r: string)
    ensures ValidClock(r)
  {
    var r := if t == Cafe then "07:00" else "10:00";
    assert r[..2] == (if t == Cafe then "07" else "10") && r[3..] == "00";
    assert DigitsValue("07") == 7 && DigitsValue("10") == 10 && DigitsValue("00") == 0;
    r
  }

  /** Pubs close at one in the morning, everything else at ten at night. */
  function BaseClose(t: VenueType): (r: string)
    ensures ValidClock(r)
  {
    var r := if t == Pub then "01:00" else "22:00";
    assert r[..2] == (if t == Pub then "01" else "22") && r[3..] == "00";
    assert DigitsValue("01") == 1 && DigitsValue("22") == 22 && DigitsValue("00") == 0;
    r
  }

  /** The chance a day is closed: a quarter on Sundays, four percent otherwise. */
  function ClosedChance(d: Day): real
  {
    if d == SUN then 0.25 else 0.04
  }

  /** The minute of the day `offset` minutes after minute `base`. */
  function ShiftedMinute(base: int, offset: int): int
  {
    (base + offset) % MINUTES_PER_DAY
  }

  /** `t` is a valid clock at `base` shifted by an offset in [-before, after]. */
  predicate Near(t: string, base: nat, before: nat, after: nat)
  {
    ValidClock(t) && exists offset :: -(before as int) <= offset <= after && MinuteOfDay(t) == ShiftedMinute(base, offset)
  }

  /** Shifting a clock by an offset in [-before, after] gives a clock near it. */
  lemma ShiftIsNear(base: string, offset: int, before: nat, after: nat)
    requires ValidClock(base) && -(before as int) <= offset <= after && before <= MINUTES_PER_DAY
    ensures Near(ShiftTime(base, offset), MinuteOfDay(base), before, after)
  {
    ShiftTimeCorrect(base, offset);
    assert MinuteOfDay(ShiftTime(base, offset)) == ShiftedMinute(MinuteOfDay(base), offset);
  }

  /** A document the seeder may write for a restaurant of type `t`: closed (both times null),
      or an opening time within half an hour of the base and a closing time within an hour. */
  predicate SeededHours(doc: OpeningHours, t: VenueType)
  {
    && (doc.openTime.None? <==> doc.closeTime.None?)
    && (doc.openTime.Some? ==>
          Near(doc.openTime.value, MinuteOfDay(BaseOpen(t)), 30, 29)
          && Near(doc.closeTime.value, MinuteOfDay(BaseClose(t)), 60, 59))
  }

  /** The document for one day: closed when the first draw falls under the day's chance,
      otherwise the base times shifted by two more draws. Returns the draws consumed. */
  method DayHours(r: Seeded, d: Day, random: nat -> real, next: nat) returns (doc: OpeningHours, used: nat)
    requires forall k: nat :: 0.0 <= random(k) < 1.0
    ensures doc.restaurantId == r.id && doc.dayOfWeek == d
    ensures SeededHours(doc, r.venueType)
    ensures doc.openTime.None? <==> random(next) < ClosedChance(d)
    ensures used == if random(next) < ClosedChance(d) then next + 1 else next + 3
    ensures doc.openTime.Some? ==>
              && doc.openTime.value == ShiftTime(BaseOpen(r.venueType), Jitter(random(next + 1), 60))
              && doc.closeTime.value == ShiftTime(BaseClose(r.venueType), Jitter(random(next + 2), 120))
  {
    var baseOpen := BaseOpen(r.venueType);
    var baseClose := BaseClose(r.venueType);
    if random(next) < ClosedChance(d) {
      doc := OpeningHours(r.id, d, None, None);
      used := next + 1;
    } else {
      var openOffset := Jitter(random(next + 1), 60);
      var closeOffset := Jitter(random(next + 2), 120);
      JitterRange(random(next + 1), 60);
      JitterRange(random(next + 2), 120);
      ShiftIsNear(baseOpen, openOffset, 30, 29);
      ShiftIsNear(baseClose, closeOffset, 60, 59);
      doc := OpeningHours(r.id, d, Some(ShiftTime(baseOpen, openOffset)), Some(ShiftTime(baseClose, closeOffset)));
      used := next + 3;
    }
  }

  /** The opening-hours loop: for every restaurant, one document per day MON..SUN in order. */
  method SeedOpeningHours(restaurants: seq<Seeded>, random: nat -> real) returns (docs: seq<OpeningHours>)
    requires forall k: nat :: 0.0 <= random(k) < 1.0
    ensures |docs| == 7 * |restaurants|
    ensures forall k :: 0 <= k < |docs| ==>
              && docs[k].restaurantId == restaurants[k / 7].id
              && docs[k].dayOfWeek == DAYS[k % 7]
              && SeededHours(docs[k], restaurants[k / 7].venueType)
  {
    docs := [];
    var next: nat := 0;
    for i := 0 to |restaurants|
      invariant |docs| == 7 * i
      invariant forall k :: 0 <= k < |docs| ==>
                  && docs[k].restaurantId == restaurants[k / 7].id
                  && docs[k].dayOfWeek == DAYS[k % 7]
                  && SeededHours(docs[k], restaurants[k / 7].venueType)
    {
      for d := 0 to 7
        invariant |docs| == 7 * i + d
        invariant forall k :: 0 <= k < |docs| ==>
                    && docs[k].restaurantId == restaurants[k / 7].id
                    && docs[k].dayOfWeek == DAYS[k % 7]
                    && SeededHours(docs[k], restaurants[k / 7].venueType)
      {
        var doc;
        doc, next := DayHours(restaurants[i], DAYS[d], random, next);
        DivMod7(i, d);
        docs := docs + [doc];
      }
    }
  }

  lemma DivMod7(i: nat, d: nat)
    requires d < 7
    ensures (7 * i + d) / 7 == i && (7 * i + d) % 7 == d
  {
  }
}
