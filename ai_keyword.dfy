/** The keyword side of the backend's intent detector: restaurant-name normalisation and the
    priority-ordered classifier that maps a chat message to a single query intent, or to none
    (in which case the language model is asked instead). */
module AiKeyword {
  import opened Wrappers
  import opened Text
  import opened JsValue
  import opened AiNames

  /** One query step of a plan: which collection to ask, with which filters, how many rows. */
  datatype Intent = Intent(target: Value, filters: Value, limit: int)

  /** `{ intents: [...] }`. */
  datatype Plan = Plan(intents: seq<Intent>)

  // ---------------------------------------------------------------------------------------
  // Keyword tables
  // ---------------------------------------------------------------------------------------

  const OPEN_NOW_KEYS: seq<string> := ["open now", "open right now", "currently open", "still open", "is open", "are open"]
  const OPEN_NOW_STOP: seq<string> := ["what", "which", "any", "some", "restaurants", "it", "they"]
  const RECOMMEND_KEYS: seq<string> := ["recommend", "suggest", "best restaurant", "near me"]
  const PROMOTION_KEYS: seq<string> := ["promotion", "deal", "discount", "offer", "sale", "happy hour"]
  const MENU_KEYS: seq<string> := ["menu", "dishes", "food", "drinks", "specials", "what do they serve", "what do they have"]
  const MENU_STOP: seq<string> := ["show", "the", "me", "what", "get", "see"]
  const HOURS_KEYS: seq<string> := ["opening hours", "opening hour", "hours", "open at", "close at", "what time", "when does"]
  const HOURS_STOP: seq<string> := ["what", "show", "tell", "give", "me", "the", "their"]
  const PRICE_KEYS: seq<string> := ["price", "cheap", "expensive", "cost", "budget", "luxury", "affordable", "mid-range", "premium"]

  /** The price tiers of the restaurant schema. */
  const PRICE_TIERS: seq<string> := ["BUDGET", "MID_RANGE", "PREMIUM", "LUXURY"]

  datatype CuisineEntry = CuisineEntry(keyword: string, field: string, value: string)

  const CUISINE_TABLE: seq<CuisineEntry> := [
    CuisineEntry("fast food", "type", "fast_food"),
    CuisineEntry("coffee", "type", "cafe"),
    CuisineEntry("cafe", "type", "cafe"),
    CuisineEntry("fine dining", "type", "fine_dining"),
    CuisineEntry("street food", "type", "street_food"),
    CuisineEntry("chinese", "cuisine", "Chinese"),
    CuisineEntry("japanese", "cuisine", "Japanese"),
    CuisineEntry("italian", "cuisine", "Italian"),
    CuisineEntry("western", "cuisine", "Western"),
    CuisineEntry("cambodian", "cuisine", "Cambodian"),
    CuisineEntry("seafood", "cuisine", "Seafood"),
    CuisineEntry("pizza", "category", "Pizza"),
    CuisineEntry("burger", "category", "Burger"),
    CuisineEntry("hot pot", "category", "Hot Pot"),
    CuisineEntry("buffet", "category", "Buffet"),
    CuisineEntry("steak", "cuisine", "Steakhouse")
  ]

  datatype AmbienceEntry = AmbienceEntry(keyword: string, tag: string)

  const AMBIENCE_TABLE: seq<AmbienceEntry> := [
    AmbienceEntry("romantic", "romantic"), AmbienceEntry("date", "romantic"),
    AmbienceEntry("anniversary", "romantic"), AmbienceEntry("couples", "romantic"),
    AmbienceEntry("valentine", "romantic"),
    AmbienceEntry("quiet", "quiet"), AmbienceEntry("peaceful", "quiet"), AmbienceEntry("calm", "quiet"),
    AmbienceEntry("relaxing", "quiet"), AmbienceEntry("tranquil", "quiet"),
    AmbienceEntry("family", "family-friendly"), AmbienceEntry("kids", "family-friendly"),
    AmbienceEntry("children", "family-friendly"), AmbienceEntry("family-friendly", "family-friendly"),
    AmbienceEntry("casual", "casual"), AmbienceEntry("relaxed", "casual"), AmbienceEntry("informal", "casual"),
    AmbienceEntry("chill", "casual"), AmbienceEntry("laid-back", "casual"),
    AmbienceEntry("lively", "lively"), AmbienceEntry("vibrant", "lively"), AmbienceEntry("energetic", "lively"),
    AmbienceEntry("bustling", "lively"), AmbienceEntry("fun", "lively"),
    AmbienceEntry("party", "festive"), AmbienceEntry("celebration", "festive"),
    AmbienceEntry("birthday", "festive"), AmbienceEntry("festive", "festive"),
    AmbienceEntry("elegant", "elegant"), AmbienceEntry("fancy", "elegant"), AmbienceEntry("classy", "elegant"),
    AmbienceEntry("sophisticated", "elegant"),
    AmbienceEntry("upscale", "upscale"), AmbienceEntry("luxurious", "upscale"), AmbienceEntry("high-end", "upscale"),
    AmbienceEntry("posh", "upscale"),
    AmbienceEntry("cozy", "cozy"), AmbienceEntry("warm", "cozy"), AmbienceEntry("comfortable", "cozy"),
    AmbienceEntry("intimate", "intimate"), AmbienceEntry("private", "intimate"),
    AmbienceEntry("work", "work-friendly"), AmbienceEntry("laptop", "work-friendly"),
    AmbienceEntry("study", "work-friendly"), AmbienceEntry("wifi", "work-friendly"),
    AmbienceEntry("remote work", "work-friendly"),
    AmbienceEntry("business", "business-friendly"), AmbienceEntry("meeting", "business-friendly"),
    AmbienceEntry("corporate", "business-friendly"),
    AmbienceEntry("outdoor", "outdoor"), AmbienceEntry("terrace", "outdoor"), AmbienceEntry("garden", "outdoor"),
    AmbienceEntry("patio", "outdoor"), AmbienceEntry("rooftop", "outdoor"),
    AmbienceEntry("scenic", "scenic"), AmbienceEntry("view", "scenic"), AmbienceEntry("beautiful view", "scenic"),
    AmbienceEntry("modern", "modern"), AmbienceEntry("trendy", "modern"), AmbienceEntry("contemporary", "modern"),
    AmbienceEntry("hipster", "modern"),
    AmbienceEntry("traditional", "traditional"), AmbienceEntry("classic", "traditional"),
    AmbienceEntry("authentic", "local-vibe"), AmbienceEntry("local", "local-vibe"),
    AmbienceEntry("instagram", "instagram-worthy"), AmbienceEntry("instagrammable", "instagram-worthy"),
    AmbienceEntry("aesthetic", "instagram-worthy"), AmbienceEntry("photogenic", "instagram-worthy"),
    AmbienceEntry("photo", "instagram-worthy"),
    AmbienceEntry("interactive", "interactive"), AmbienceEntry("diy", "interactive"),
    AmbienceEntry("cook yourself", "interactive"), AmbienceEntry("bbq", "interactive"),
    AmbienceEntry("quick", "quick-service"), AmbienceEntry("fast", "quick-service"),
    AmbienceEntry("grab and go", "quick-service"), AmbienceEntry("takeaway", "quick-service")
  ]

  // ---------------------------------------------------------------------------------------
  // Regex captures
  // ---------------------------------------------------------------------------------------

  /** Group 1 of the name-capturing patterns run on the original message (None: no match).
      `isOpen` and `openNow` are the two "open now" patterns; `menu` and `hours` hold one
      entry per name pattern of the menu and opening-hours groups, in pattern order. */
  datatype Captures = Captures(
    isOpen: Option<string>,
    openNow: Option<string>,
    menu: seq<Option<string>>,
    hours: seq<Option<string>>)

  // ---------------------------------------------------------------------------------------
  // Open now
  // ---------------------------------------------------------------------------------------

  /** The name asked about in an "is X open now" message: the first pattern's capture, else
      the second's, normalised; None when there is none or it is a stop word. */
  function OpenNowName(caps: Captures): (r: Option<string>)
    ensures r.Some? ==> r.value != "" && IsTrimmed(r.value) && ToLower(r.value) !in OPEN_NOW_STOP
  {
    var m := if caps.isOpen.Some? then caps.isOpen else caps.openNow;
    if m.Some? && m.value != "" && NormalizeName(m.value) != "" && ToLower(NormalizeName(m.value)) !in OPEN_NOW_STOP
    then Some(NormalizeName(m.value))
    else None
  }

  function NameFilters(name: Option<string>): Value
  {
    if name.Some? then Obj(map["restaurantName" := Str(name.value)]) else EMPTY_OBJECT
  }

  function OpenNowIntent(caps: Captures): Intent
  {
    var name := OpenNowName(caps);
    if name.Some? then Intent(Str("is_open_now"), NameFilters(name), 1)
    else Intent(Str("open_now"), EMPTY_OBJECT, 10)
  }

  // ---------------------------------------------------------------------------------------
  // Open at: open\s+(?:at|around|by)\s+(\d{1,2})(?::(\d{2}))?\s*(am|pm)?
  // ---------------------------------------------------------------------------------------

  datatype OpenAtMatch = OpenAtMatch(hour: string, minutes: Option<string>, ampm: Option<string>)

  predicate WellFormedOpenAt(m: OpenAtMatch)
  {
    1 <= |m.hour| <= 2 && AllDigits(m.hour) &&
    (m.minutes.Some? ==> |m.minutes.value| == 2 && AllDigits(m.minutes.value)) &&
    (m.ampm.Some? ==> m.ampm.value == "am" || m.ampm.value == "pm")
  }

  /** The words allowed between "open" and the hour, `(?:at|around|by)`. */
  const CONNECTORS: seq<string> := ["at", "around", "by"]

  /** Where a connector starting at `a` ends, or `a` when none starts there. The three words
      exclude each other, so at most one can start at `a`. */
  function ConnectorEnd(s: string, a: nat): (b: nat)
    requires a <= |s|
    ensures a <= b <= |s|
    ensures b == a <==> forall k :: 0 <= k < |CONNECTORS| ==> !OccursAt(s, CONNECTORS[k], a)
    ensures forall k :: 0 <= k < |CONNECTORS| && OccursAt(s, CONNECTORS[k], a) ==> b == a + |CONNECTORS[k]|
  {
    ConnectorsExclusive(s, a);
    assert CONNECTORS[0] == "at" && CONNECTORS[1] == "around" && CONNECTORS[2] == "by";
    if OccursAt(s, "at", a) then a + 2
    else if OccursAt(s, "around", a) then a + 6
    else if OccursAt(s, "by", a) then a + 2
    else a
  }

  /** No two of "at", "around" and "by" start at the same place. */
  lemma ConnectorsExclusive(s: string, a: nat)
    ensures OccursAt(s, "at", a) ==> !OccursAt(s, "around", a) && !OccursAt(s, "by", a)
    ensures OccursAt(s, "around", a) ==> !OccursAt(s, "by", a)
  {
    if OccursAt(s, "at", a) { CharsAt(s, "at", a); }
    if OccursAt(s, "around", a) { CharsAt(s, "around", a); }
    if OccursAt(s, "by", a) { CharsAt(s, "by", a); }
  }

  /** The characters of an occurrence are those of the word. */
  lemma CharsAt(s: string, w: string, a: nat)
    requires OccursAt(s, w, a)
    ensures forall j :: 0 <= j < |w| ==> s[a + j] == w[j]
    ensures |w| >= 2 ==> s[a] == w[0] && s[a + 1] == w[1]
  {
    forall j | 0 <= j < |w| ensures s[a + j] == w[j] {
      assert s[a..a + |w|][j] == s[a + j];
    }
  }

  /** `\s+(\d`: at least one white-space character from `c`, then a digit. */
  predicate GapThenDigit(s: string, c: nat)
    requires c <= |s|
  {
    c < SkipSpaces(s, c) < |s| && IsDigit(s[SkipSpaces(s, c)])
  }

  /** The pattern matched starting exactly at index `i` of the lower-cased message. Every
      quantifier after the hour digits is optional, so no backtracking is needed. */
  function OpenAtAt(s: string, i: nat): (m: Option<OpenAtMatch>)
    requires i <= |s|
    ensures m.Some? ==> WellFormedOpenAt(m.value) && OccursAt(s, "open", i)
  {
    if !OccursAt(s, "open", i) then None
    else
      var a := SkipSpaces(s, i + 4);
      var b := ConnectorEnd(s, a);
      if a == i + 4 || b == a || !GapThenDigit(s, b) then None
      else Some(TimeAt(s, SkipSpaces(s, b)))
  }

  /** When the pattern matches at `i`: "open", white space, one of the connectors, white space
      and a digit; the match is then read from that digit on. */
  lemma OpenAtAtMatches(s: string, i: nat)
    requires i <= |s|
    ensures OpenAtAt(s, i).Some? <==>
              OccursAt(s, "open", i) && i + 4 < SkipSpaces(s, i + 4) &&
              exists k :: 0 <= k < |CONNECTORS| && OccursAt(s, CONNECTORS[k], SkipSpaces(s, i + 4)) &&
                          GapThenDigit(s, SkipSpaces(s, i + 4) + |CONNECTORS[k]|)
    ensures OpenAtAt(s, i).Some? ==>
              var d := SkipSpaces(s, ConnectorEnd(s, SkipSpaces(s, i + 4)));
              d < |s| && IsDigit(s[d]) && OpenAtAt(s, i).value == TimeAt(s, d)
  {
    if OccursAt(s, "open", i) {
      var a := SkipSpaces(s, i + 4);
      var b := ConnectorEnd(s, a);
      if b > a {
        var k :| 0 <= k < |CONNECTORS| && OccursAt(s, CONNECTORS[k], a);
        assert b == a + |CONNECTORS[k]|;
      }
    }
  }

  /** The hour, optional minutes and optional suffix read from the first hour digit at `d`. */
  function TimeAt(s: string, d: nat): (m: OpenAtMatch)
    requires d < |s| && IsDigit(s[d])
    ensures WellFormedOpenAt(m)
  {
    var e := HourEnd(s, d);
    var mins := MinutesAt(s, e);
    var f := SkipSpaces(s, if mins.Some? then e + 3 else e);
    OpenAtMatch(s[d..e], mins, AmPmAt(s, f))
  }

  /** The end of the hour `\d{1,2}` whose first digit is at `d`: it is greedy, so it stops
      before two digits only at a non-digit or the end of the text. */
  function HourEnd(s: string, d: nat): (e: nat)
    requires d < |s| && IsDigit(s[d])
    ensures d < e <= d + 2 && e <= |s| && AllDigits(s[d..e])
    ensures e == d + 2 || e == |s| || !IsDigit(s[e])
  {
    if d + 1 < |s| && IsDigit(s[d + 1]) then d + 2 else d + 1
  }

  /** The minutes `(?::(\d{2}))?` after the hour ending at `e`: found exactly when a colon and
      two digits follow. */
  function MinutesAt(s: string, e: nat): (m: Option<string>)
    ensures m.Some? <==> e + 3 <= |s| && s[e] == ':' && IsDigit(s[e + 1]) && IsDigit(s[e + 2])
    ensures m.Some? ==> m.value == s[e + 1..e + 3] && |m.value| == 2 && AllDigits(m.value)
  {
    if e + 3 <= |s| && s[e] == ':' && IsDigit(s[e + 1]) && IsDigit(s[e + 2])
    then Some(s[e + 1..e + 3]) else None
  }

  /** The suffix `(am|pm)?` at `f`. */
  function AmPmAt(s: string, f: nat): (r: Option<string>)
    ensures r.Some? <==> OccursAt(s, "am", f) || OccursAt(s, "pm", f)
    ensures r.Some? ==> (r.value == "am" || r.value == "pm") && OccursAt(s, r.value, f)
  {
    if OccursAt(s, "am", f) then Some("am")
    else if OccursAt(s, "pm", f) then Some("pm")
    else None
  }

  /** The leftmost match at or after `i`. */
  function FindOpenAt(s: string, i: nat): (m: Option<OpenAtMatch>)
    requires i <= |s|
    ensures m.None? <==> forall j :: i <= j <= |s| ==> OpenAtAt(s, j).None?
    ensures m.Some? ==> WellFormedOpenAt(m.value)
    decreases |s| - i
  {
    if OpenAtAt(s, i).Some? then OpenAtAt(s, i)
    else if i == |s| then None
    else FindOpenAt(s, i + 1)
  }

  /** `j` is the leftmost position from `i` on where the pattern matches. */
  predicate LeftmostOpenAt(s: string, i: nat, j: nat)
  {
    i <= j <= |s| && OpenAtAt(s, j).Some? && forall k :: i <= k < j ==> OpenAtAt(s, k).None?
  }

  /** The match found is the one at the leftmost matching position from `i` on. */
  lemma {:induction false} FindOpenAtLeftmost(s: string, i: nat, j: nat)
    requires i <= |s|
    requires LeftmostOpenAt(s, i, j)
    ensures FindOpenAt(s, i) == OpenAtAt(s, j)
    decreases |s| - i
  {
    if j > i {
      assert OpenAtAt(s, i).None?;
      assert LeftmostOpenAt(s, i + 1, j);
      FindOpenAtLeftmost(s, i + 1, j);
    }
  }

  /** The 24-hour clock hour of an hour 1..12 read with an am/pm suffix. */
  function Clock24(h: nat, pm: bool): (r: nat)
    requires 1 <= h <= 12
    ensures r < 24
  {
    h % 12 + (if pm then 12 else 0)
  }

  /** The hour carried by the time filter. */
  function ConvertHour(hour: nat, ampm: Option<string>): nat
  {
    if ampm == Some("pm") && hour != 12 then hour + 12
    else if ampm == Some("am") && hour == 12 then 0
    else hour
  }

  /** The `time` filter: zero-padded hour, a colon and the minutes ("00" when absent). */
  function OpenAtTime(m: OpenAtMatch): string
    requires WellFormedOpenAt(m)
  {
    PadStart2(NatToString(ConvertHour(DigitsValue(m.hour), m.ampm))) + ":" +
    (if m.minutes.Some? then m.minutes.value else "00")
  }

  /** The filter is an "HH:MM" time: with a suffix and an hour from 1 to 12, HH is that hour on
      the 24-hour clock; without a suffix, HH is the hour as written, zero-padded. */
  lemma OpenAtTimeIsClockTime(m: OpenAtMatch)
    requires WellFormedOpenAt(m)
    requires m.ampm.Some? ==> 1 <= DigitsValue(m.hour) <= 12
    ensures var t := OpenAtTime(m);
            |t| == 5 && t[2] == ':' && AllDigits(t[..2]) &&
            t[3..] == (if m.minutes.Some? then m.minutes.value else "00")
    ensures m.ampm.Some? ==>
              DigitsValue(OpenAtTime(m)[..2]) == Clock24(DigitsValue(m.hour), m.ampm == Some("pm"))
    ensures m.ampm.None? ==> OpenAtTime(m)[..2] == PadStart2(m.hour)
  {
    OpenAtTimeShape(m);
    if m.ampm.Some? {
      ConvertHourIsClock24(DigitsValue(m.hour), m.ampm.value);
    } else {
      OpenAtTimeVerbatim(m);
    }
  }

  /** The time is two digits worth the converted hour, a colon and the minutes. */
  lemma OpenAtTimeShape(m: OpenAtMatch)
    requires WellFormedOpenAt(m)
    requires m.ampm.Some? ==> 1 <= DigitsValue(m.hour) <= 12
    ensures var t := OpenAtTime(m);
            |t| == 5 && t[2] == ':' && AllDigits(t[..2]) &&
            t[3..] == (if m.minutes.Some? then m.minutes.value else "00") &&
            DigitsValue(t[..2]) == ConvertHour(DigitsValue(m.hour), m.ampm)
  {
    var h := DigitsValue(m.hour);
    DigitsValueBound(m.hour);
    var c := ConvertHour(h, m.ampm);
    assert c < 100;
    TwoDigits(c);
    var hh := PadStart2(NatToString(c));
    var mm := if m.minutes.Some? then m.minutes.value else "00";
    var t := OpenAtTime(m);
    assert t == hh + ":" + mm;
    assert t[..2] == hh;
    assert t[3..] == mm;
  }

  /** With a suffix, an hour from 1 to 12 is moved to the 24-hour clock. */
  lemma ConvertHourIsClock24(h: nat, ampm: string)
    requires 1 <= h <= 12 && (ampm == "am" || ampm == "pm")
    ensures ConvertHour(h, Some(ampm)) == Clock24(h, ampm == "pm")
  {
  }

  /** Without a suffix the hour is kept as written. */
  lemma OpenAtTimeVerbatim(m: OpenAtMatch)
    requires WellFormedOpenAt(m) && m.ampm.None?
    ensures OpenAtTime(m)[..2] == PadStart2(m.hour)
  {
    var h := DigitsValue(m.hour);
    DigitsValueBound(m.hour);
    TwoDigits(h);
    var t := OpenAtTime(m);
    assert t[..2] == PadStart2(NatToString(h));
    if |m.hour| == 2 {
      TwoDigitsRoundTrip(m.hour);
    } else {
      assert NatToString(h) == [DigitChar(h)];
      assert m.hour == [m.hour[0]];
    }
  }

  /** "open at 7pm" matches at its start with hour "7", no minutes and "pm". */
  lemma SevenPmMatch()
    ensures OpenAtAt("open at 7pm", 0) == Some(OpenAtMatch("7", None, Some("pm")))
  {
    var s := "open at 7pm";
    assert OccursAt(s, "open", 0) by { assert s[0..4] == "open"; }
    assert SkipSpaces(s, 5) == 5;
    assert SkipSpaces(s, 4) == 5;
    assert OccursAt(s, "at", 5) by { assert s[5..7] == "at"; }
    assert ConnectorEnd(s, 5) == 7;
    assert SkipSpaces(s, 8) == 8;
    assert SkipSpaces(s, 7) == 8;
    assert HourEnd(s, 8) == 9;
    assert MinutesAt(s, 9).None?;
    assert SkipSpaces(s, 9) == 9;
    assert OccursAt(s, "pm", 9) by { assert s[9..11] == "pm"; }
    assert AmPmAt(s, 9) == Some("pm");
    assert s[8..9] == "7";
  }

  /** The match of "open at 7pm" is the leftmost one of the message. */
  lemma SevenPmFound()
    ensures FindOpenAt("open at 7pm", 0) == Some(OpenAtMatch("7", None, Some("pm")))
  {
    SevenPmMatch();
    FindOpenAtLeftmost("open at 7pm", 0, 0);
  }

  /** "7" with "pm" is the 19:00 of the 24-hour clock. */
  lemma SevenPmTime()
    ensures OpenAtTime(OpenAtMatch("7", None, Some("pm"))) == "19:00"
  {
    assert DigitsValue("7") == 7;
    assert NatToString(19) == "19";
  }

  /** "12 am" is midnight: the hour becomes "00". */
  lemma MidnightTime()
    ensures OpenAtTime(OpenAtMatch("12", None, Some("am"))) == "00:00"
  {
    assert DigitsValue("12") == 12 by { assert "12"[..1] == "1"; }
    assert NatToString(0) == "0";
  }

  /** Without white space after "open" the pattern does not match: "openat 7". */
  lemma NoSpaceNoMatch()
    ensures OpenAtAt("openat 7", 0).None?
  {
    var s := "openat 7";
    assert SkipSpaces(s, 4) == 4;
  }

  /** The hour kept in a local variable and moved to the 24-hour clock step by step. */
  method OpenAtTimeOf(m: OpenAtMatch) returns (time: string)
    requires WellFormedOpenAt(m)
    ensures time == OpenAtTime(m)
  {
    var hour := DigitsValue(m.hour);
    var minutes := if m.minutes.Some? then m.minutes.value else "00";
    if m.ampm == Some("pm") && hour != 12 {
      hour := hour + 12;
    }
    if m.ampm == Some("am") && hour == 12 {
      hour := 0;
    }
    time := PadStart2(NatToString(hour)) + ":" + minutes;
  }

  // ---------------------------------------------------------------------------------------
  // Restaurant-name extraction for the menu and opening-hours groups
  // ---------------------------------------------------------------------------------------

  /** `[?.!]+$` */
  predicate MenuTrailing(c: char) { c == '?' || c == '.' || c == '!' }

  /** `[?,!.\s]+$` */
  predicate HoursTrailing(c: char) { c == '?' || c == ',' || c == '!' || c == '.' || IsSpace(c) }

  /** The name a capture yields: trimmed, trailing punctuation removed, then normalised. */
  function Candidate(cap: Option<string>, drop: char -> bool): Option<string>
  {
    if cap.Some? && cap.value != "" then Some(NormalizeName(StripTrailing(Trim(cap.value), drop))) else None
  }

  /** A candidate is accepted when its JavaScript `length` (UTF-16 code units) is above one
      and it is not a stop word. */
  predicate Usable(name: string, stop: seq<string>)
  {
    Utf16Length(name) > 1 && ToLower(name) !in stop
  }

  /** The candidate of each capture, in pattern order. */
  function Candidates(caps: seq<Option<string>>, drop: char -> bool): (r: seq<Option<string>>)
    ensures |r| == |caps| && forall k :: 0 <= k < |caps| ==> r[k] == Candidate(caps[k], drop)
  {
    seq(|caps|, k requires 0 <= k < |caps| => Candidate(caps[k], drop))
  }

  /** Candidate `k` exists and is usable. */
  predicate UsableAt(cands: seq<Option<string>>, stop: seq<string>, k: int)
  {
    0 <= k < |cands| && cands[k].Some? && Usable(cands[k].value, stop)
  }

  /** The first usable candidate. */
  function FirstUsable(cands: seq<Option<string>>, stop: seq<string>): Option<string>
  {
    if |cands| == 0 then None
    else if cands[0].Some? && Usable(cands[0].value, stop) then cands[0]
    else FirstUsable(cands[1..], stop)
  }

  /** The name the patterns yield: the first usable candidate, in pattern order. */
  function FirstName(caps: seq<Option<string>>, drop: char -> bool, stop: seq<string>): Option<string>
  {
    FirstUsable(Candidates(caps, drop), stop)
  }

  /** Candidate `k` is the first usable one. */
  predicate FirstUsableAt(cands: seq<Option<string>>, stop: seq<string>, k: int)
  {
    UsableAt(cands, stop, k) && forall j :: 0 <= j < k ==> !UsableAt(cands, stop, j)
  }

  /** The extracted name is the candidate of the first pattern whose capture is usable;
      there is none exactly when no capture is usable. */
  lemma FirstNameCorrect(caps: seq<Option<string>>, drop: char -> bool, stop: seq<string>)
    ensures var cands := Candidates(caps, drop);
            && (FirstName(caps, drop, stop).None? <==> forall k :: 0 <= k < |caps| ==> !UsableAt(cands, stop, k))
            && (FirstName(caps, drop, stop).Some? ==>
                  exists k :: FirstUsableAt(cands, stop, k) && Candidate(caps[k], drop) == FirstName(caps, drop, stop))
  {
    var cands := Candidates(caps, drop);
    FirstUsableNone(cands, stop);
    FirstUsableFirst(cands, stop);
  }

  lemma {:induction false} FirstUsableNone(cands: seq<Option<string>>, stop: seq<string>)
    ensures FirstUsable(cands, stop).None? <==> forall k :: 0 <= k < |cands| ==> !UsableAt(cands, stop, k)
  {
    if |cands| > 0 && !UsableAt(cands, stop, 0) {
      var rest := cands[1..];
      FirstUsableNone(rest, stop);
      if FirstUsable(rest, stop).None? {
        forall k | 0 <= k < |cands| ensures !UsableAt(cands, stop, k) {
          if k > 0 {
            assert cands[k] == rest[k - 1] && !UsableAt(rest, stop, k - 1);
          }
        }
      } else {
        var k :| 0 <= k < |rest| && UsableAt(rest, stop, k);
        assert cands[k + 1] == rest[k] && UsableAt(cands, stop, k + 1);
      }
    }
  }

  lemma {:induction false} FirstUsableFirst(cands: seq<Option<string>>, stop: seq<string>)
    ensures FirstUsable(cands, stop).Some? ==>
              exists k :: FirstUsableAt(cands, stop, k) && cands[k] == FirstUsable(cands, stop)
  {
    if |cands| == 0 {
    } else if UsableAt(cands, stop, 0) {
      assert FirstUsableAt(cands, stop, 0);
    } else {
      var rest := cands[1..];
      FirstUsableFirst(rest, stop);
      if FirstUsable(rest, stop).Some? {
        var k :| FirstUsableAt(rest, stop, k) && rest[k] == FirstUsable(rest, stop);
        forall j | 1 <= j < k + 1 ensures !UsableAt(cands, stop, j) {
          assert cands[j] == rest[j - 1] && !UsableAt(rest, stop, j - 1);
        }
        assert FirstUsableAt(cands, stop, k + 1);
      }
    }
  }

  /** The pattern loop with its early `break`. */
  method ScanNames(caps: seq<Option<string>>, drop: char -> bool, stop: seq<string>) returns (name: Option<string>)
    ensures name == FirstName(caps, drop, stop)
  {
    ghost var cands := Candidates(caps, drop);
    name := None;
    var i := 0;
    while i < |caps|
      invariant 0 <= i <= |caps|
      invariant name.None?
      invariant FirstName(caps, drop, stop) == FirstUsable(cands[i..], stop)
    {
      var c := Candidate(caps[i], drop);
      assert cands[i..][0] == c;
      if c.Some? && Usable(c.value, stop) {
        name := c;
        return;
      }
      assert cands[i..][1..] == cands[i + 1..];
      i := i + 1;
    }
  }

  // ---------------------------------------------------------------------------------------
  // Price tier
  // ---------------------------------------------------------------------------------------

  /** The words of each tier, in the order `PriceTier` tries the tiers (PREMIUM has one word). */
  const BUDGET_WORDS: seq<string> := ["cheap", "budget", "affordable"]
  const LUXURY_WORDS: seq<string> := ["luxury", "expensive", "high-end"]
  const MID_RANGE_WORDS: seq<string> := ["mid-range", "moderate"]

  /** The tier named in the message: the first of BUDGET, LUXURY, PREMIUM and MID_RANGE one of
      whose words occurs, so a tier wins exactly when no earlier tier's word occurs. */
  function PriceTier(lower: string): (r: Option<string>)
    ensures r.Some? ==> r.value in PRICE_TIERS
    ensures r == Some("BUDGET") <==> ContainsAny(lower, BUDGET_WORDS)
    ensures r == Some("LUXURY") <==> !ContainsAny(lower, BUDGET_WORDS) && ContainsAny(lower, LUXURY_WORDS)
    ensures r == Some("PREMIUM") <==>
              !ContainsAny(lower, BUDGET_WORDS) && !ContainsAny(lower, LUXURY_WORDS) && Contains(lower, "premium")
    ensures r == Some("MID_RANGE") <==>
              !ContainsAny(lower, BUDGET_WORDS) && !ContainsAny(lower, LUXURY_WORDS) && !Contains(lower, "premium") &&
              ContainsAny(lower, MID_RANGE_WORDS)
    ensures r.None? <==>
              !ContainsAny(lower, BUDGET_WORDS) && !ContainsAny(lower, LUXURY_WORDS) && !Contains(lower, "premium") &&
              !ContainsAny(lower, MID_RANGE_WORDS)
  {
    AnyOfThree(lower, "cheap", "budget", "affordable");
    AnyOfThree(lower, "luxury", "expensive", "high-end");
    AnyOfTwo(lower, "mid-range", "moderate");
    if Contains(lower, "cheap") || Contains(lower, "budget") || Contains(lower, "affordable") then Some("BUDGET")
    else if Contains(lower, "luxury") || Contains(lower, "expensive") || Contains(lower, "high-end") then Some("LUXURY")
    else if Contains(lower, "premium") then Some("PREMIUM")
    else if Contains(lower, "mid-range") || Contains(lower, "moderate") then Some("MID_RANGE")
    else None
  }

  function PriceIntent(lower: string): Intent
  {
    var tier := PriceTier(lower);
    if tier.Some? then Intent(Str("restaurant"), Obj(map["priceTier" := Str(tier.value)]), 10)
    else Intent(Str("price_tier"), EMPTY_OBJECT, 5)
  }

  // ---------------------------------------------------------------------------------------
  // Cuisine
  // ---------------------------------------------------------------------------------------

  function CuisineFilters(e: CuisineEntry): Value
  {
    Obj(map[e.field := Str(e.value)])
  }

  /** Entry `j` is the first entry from `k` on whose keyword occurs. */
  predicate FirstCuisineHit(lower: string, k: nat, j: int)
  {
    k <= j < |CUISINE_TABLE| && Contains(lower, CUISINE_TABLE[j].keyword) &&
    forall i :: k <= i < j ==> !Contains(lower, CUISINE_TABLE[i].keyword)
  }

  /** The filters of the first table entry from `k` on whose keyword occurs. */
  function CuisineFrom(lower: string, k: nat): (r: Option<Value>)
    requires k <= |CUISINE_TABLE|
    ensures r.None? <==> forall j :: k <= j < |CUISINE_TABLE| ==> !Contains(lower, CUISINE_TABLE[j].keyword)
    ensures r.Some? ==> exists j :: k <= j < |CUISINE_TABLE| && Contains(lower, CUISINE_TABLE[j].keyword) &&
                                    r.value == CuisineFilters(CUISINE_TABLE[j])
    decreases |CUISINE_TABLE| - k
  {
    if k == |CUISINE_TABLE| then None
    else if Contains(lower, CUISINE_TABLE[k].keyword) then Some(CuisineFilters(CUISINE_TABLE[k]))
    else CuisineFrom(lower, k + 1)
  }

  /** The filters found are those of the first entry, in table order, whose keyword occurs. */
  lemma {:induction false} CuisineFromFirst(lower: string, k: nat)
    requires k <= |CUISINE_TABLE|
    ensures CuisineFrom(lower, k).Some? ==>
              exists j :: FirstCuisineHit(lower, k, j) && CuisineFrom(lower, k).value == CuisineFilters(CUISINE_TABLE[j])
    decreases |CUISINE_TABLE| - k
  {
    if k < |CUISINE_TABLE| && !Contains(lower, CUISINE_TABLE[k].keyword) {
      CuisineFromFirst(lower, k + 1);
      if CuisineFrom(lower, k + 1).Some? {
        var j :| FirstCuisineHit(lower, k + 1, j) && CuisineFrom(lower, k + 1).value == CuisineFilters(CUISINE_TABLE[j]);
        assert FirstCuisineHit(lower, k, j);
      }
    } else if k < |CUISINE_TABLE| {
      assert FirstCuisineHit(lower, k, k);
    }
  }

  /** The cuisine loop, returning from inside on the first hit. */
  method MatchCuisine(lower: string) returns (r: Option<Value>)
    ensures r == CuisineFrom(lower, 0)
  {
    for k := 0 to |CUISINE_TABLE|
      invariant CuisineFrom(lower, 0) == CuisineFrom(lower, k)
    {
      if Contains(lower, CUISINE_TABLE[k].keyword) {
        return Some(CuisineFilters(CUISINE_TABLE[k]));
      }
    }
    return None;
  }

  // ---------------------------------------------------------------------------------------
  // Ambience
  // ---------------------------------------------------------------------------------------

  /** The tags collected from the first `n` table entries: each tag whose keyword occurs,
      pushed once, at its first hit. */
  function CollectTags(lower: string, n: nat): seq<string>
    requires n <= |AMBIENCE_TABLE|
  {
    if n == 0 then []
    else
      var acc := CollectTags(lower, n - 1);
      var e := AMBIENCE_TABLE[n - 1];
      if Contains(lower, e.keyword) && e.tag !in acc then acc + [e.tag] else acc
  }

  predicate Distinct(s: seq<string>)
  {
    forall i, j :: 0 <= i < j < |s| ==> s[i] != s[j]
  }

  /** A table entry among the first `n` whose keyword occurs carries `tag`. */
  predicate TagHit(lower: string, n: nat, tag: string)
    requires n <= |AMBIENCE_TABLE|
  {
    exists j :: 0 <= j < n && AMBIENCE_TABLE[j].tag == tag && Contains(lower, AMBIENCE_TABLE[j].keyword)
  }

  /** The tags are distinct, and a tag is collected exactly when one of its keywords occurs. */
  lemma {:induction false} CollectTagsCorrect(lower: string, n: nat)
    requires n <= |AMBIENCE_TABLE|
    ensures Distinct(CollectTags(lower, n))
    ensures forall tag :: tag in CollectTags(lower, n) <==> TagHit(lower, n, tag)
  {
    if n > 0 {
      CollectTagsCorrect(lower, n - 1);
      var acc := CollectTags(lower, n - 1);
      var e := AMBIENCE_TABLE[n - 1];
      forall tag ensures tag in CollectTags(lower, n) <==> TagHit(lower, n, tag) {
        if TagHit(lower, n, tag) && !TagHit(lower, n - 1, tag) {
          var j :| 0 <= j < n && AMBIENCE_TABLE[j].tag == tag && Contains(lower, AMBIENCE_TABLE[j].keyword);
          assert j == n - 1;
        }
        if TagHit(lower, n - 1, tag) {
          var j :| 0 <= j < n - 1 && AMBIENCE_TABLE[j].tag == tag && Contains(lower, AMBIENCE_TABLE[j].keyword);
          assert TagHit(lower, n, tag);
        }
        if tag == e.tag && Contains(lower, e.keyword) {
          assert TagHit(lower, n, tag);
        }
      }
    }
  }

  /** The ambience loop: `includes` keeps the list free of duplicates. */
  method CollectAmbience(lower: string) returns (tags: seq<string>)
    ensures tags == CollectTags(lower, |AMBIENCE_TABLE|)
  {
    tags := [];
    for k := 0 to |AMBIENCE_TABLE|
      invariant tags == CollectTags(lower, k)
    {
      var e := AMBIENCE_TABLE[k];
      if Contains(lower, e.keyword) {
        if e.tag !in tags {
          tags := tags + [e.tag];
        }
      }
    }
  }

  function StrValues(tags: seq<string>): (r: seq<Value>)
    ensures |r| == |tags| && forall i :: 0 <= i < |tags| ==> r[i] == Str(tags[i])
  {
    seq(|tags|, i requires 0 <= i < |tags| => Str(tags[i]))
  }

  predicate WantsPrivateRoom(lower: string)
  {
    Contains(lower, "private room") || Contains(lower, "private dining")
  }

  /** One tag is stored as a string, several as a list; a private-room request adds a flag. */
  function AmbienceFilters(tags: seq<string>, wantsPrivate: bool): Value
  {
    var amb: map<string, Value> :=
      if |tags| == 0 then map[]
      else if |tags| == 1 then map["ambience" := Str(tags[0])]
      else map["ambience" := Arr(StrValues(tags))];
    Obj(if wantsPrivate then amb["hasPrivateRooms" := Bool(true)] else amb)
  }

  function AmbienceIntent(lower: string): Option<Intent>
  {
    var tags := CollectTags(lower, |AMBIENCE_TABLE|);
    if |tags| > 0 || WantsPrivateRoom(lower)
    then Some(Intent(Str("restaurant"), AmbienceFilters(tags, WantsPrivateRoom(lower)), 10))
    else None
  }

  // ---------------------------------------------------------------------------------------
  // detectIntentByKeyword
  // ---------------------------------------------------------------------------------------

  function Single(i: Intent): Plan { Plan([i]) }

  /** The classifier: the groups are tried in order and the first that fires decides the
      single intent; None when no group fires. */
  function KeywordIntent(msg: string, caps: Captures): (r: Option<Plan>)
    ensures r.Some? ==> |r.value.intents| == 1 && r.value.intents[0].filters.Obj?
  {
    var lower := ToLower(msg);
    if ContainsAny(lower, OPEN_NOW_KEYS) then Some(Single(OpenNowIntent(caps)))
    else if FindOpenAt(lower, 0).Some? then
      Some(Single(Intent(Str("open_at"), Obj(map["time" := Str(OpenAtTime(FindOpenAt(lower, 0).value))]), 10)))
    else if ContainsAny(lower, RECOMMEND_KEYS) then Some(Single(Intent(Str("restaurant"), EMPTY_OBJECT, 5)))
    else if ContainsAny(lower, PROMOTION_KEYS) then Some(Single(Intent(Str("promotion"), EMPTY_OBJECT, 10)))
    else if ContainsAny(lower, MENU_KEYS) then
      Some(Single(Intent(Str("menu"), NameFilters(FirstName(caps.menu, MenuTrailing, MENU_STOP)), 20)))
    else if ContainsAny(lower, HOURS_KEYS) then
      Some(Single(Intent(Str("opening_hours"), NameFilters(FirstName(caps.hours, HoursTrailing, HOURS_STOP)), 5)))
    else if ContainsAny(lower, PRICE_KEYS) then Some(Single(PriceIntent(lower)))
    else if CuisineFrom(lower, 0).Some? then Some(Single(Intent(Str("restaurant"), CuisineFrom(lower, 0).value, 10)))
    else if AmbienceIntent(lower).Some? then Some(Single(AmbienceIntent(lower).value))
    else None
  }

  /** `detectIntentByKeyword`, statement by statement. */
  method DetectIntentByKeyword(msg: string, caps: Captures) returns (r: Option<Plan>)
    ensures r == KeywordIntent(msg, caps)
  {
    var lower := ToLower(msg);
    if ContainsAny(lower, OPEN_NOW_KEYS) {
      return Some(Single(OpenNowIntent(caps)));
    }
    var openAt := FindOpenAt(lower, 0);
    if openAt.Some? {
      var time := OpenAtTimeOf(openAt.value);
      return Some(Single(Intent(Str("open_at"), Obj(map["time" := Str(time)]), 10)));
    }
    if ContainsAny(lower, RECOMMEND_KEYS) {
      return Some(Single(Intent(Str("restaurant"), EMPTY_OBJECT, 5)));
    }
    if ContainsAny(lower, PROMOTION_KEYS) {
      return Some(Single(Intent(Str("promotion"), EMPTY_OBJECT, 10)));
    }
    if ContainsAny(lower, MENU_KEYS) {
      var name := ScanNames(caps.menu, MenuTrailing, MENU_STOP);
      return Some(Single(Intent(Str("menu"), NameFilters(name), 20)));
    }
    if ContainsAny(lower, HOURS_KEYS) {
      var name := ScanNames(caps.hours, HoursTrailing, HOURS_STOP);
      return Some(Single(Intent(Str("opening_hours"), NameFilters(name), 5)));
    }
    if ContainsAny(lower, PRICE_KEYS) {
      return Some(Single(PriceIntent(lower)));
    }
    var cuisine := MatchCuisine(lower);
    if cuisine.Some? {
      return Some(Single(Intent(Str("restaurant"), cuisine.value, 10)));
    }
    var tags := CollectAmbience(lower);
    var wantsPrivate := WantsPrivateRoom(lower);
    if |tags| > 0 || wantsPrivate {
      return Some(Single(Intent(Str("restaurant"), AmbienceFilters(tags, wantsPrivate), 10)));
    }
    return None;
  }

  // ---------------------------------------------------------------------------------------
  // Properties of the classifier
  // ---------------------------------------------------------------------------------------

  /** Tags are only ever appended: the tags of a shorter table prefix are a prefix of the
      tags of a longer one, so the list is in order of each tag's first hit in the table. */
  lemma {:induction false} CollectTagsAppendOnly(lower: string, n: nat, m: nat)
    requires n <= m <= |AMBIENCE_TABLE|
    ensures CollectTags(lower, n) <= CollectTags(lower, m)
    decreases m - n
  {
    if n < m {
      CollectTagsAppendOnly(lower, n, m - 1);
    }
  }

  /** No tag is collected exactly when no ambience keyword occurs. */
  lemma NoTagsIff(lower: string)
    ensures |CollectTags(lower, |AMBIENCE_TABLE|)| == 0 <==>
            forall j :: 0 <= j < |AMBIENCE_TABLE| ==> !Contains(lower, AMBIENCE_TABLE[j].keyword)
  {
    var tags := CollectTags(lower, |AMBIENCE_TABLE|);
    CollectTagsCorrect(lower, |AMBIENCE_TABLE|);
    if |tags| > 0 {
      assert TagHit(lower, |AMBIENCE_TABLE|, tags[0]);
    }
    forall j | 0 <= j < |AMBIENCE_TABLE| && Contains(lower, AMBIENCE_TABLE[j].keyword) ensures |tags| > 0 {
      assert TagHit(lower, |AMBIENCE_TABLE|, AMBIENCE_TABLE[j].tag);
    }
  }

  /** Asking for a private room or private dining always brings the "intimate" tag along,
      because "private" is itself an ambience keyword. */
  lemma PrivateRoomMeansIntimate(lower: string)
    requires WantsPrivateRoom(lower)
    ensures "intimate" in CollectTags(lower, |AMBIENCE_TABLE|)
  {
    if Contains(lower, "private room") {
      assert OccursAt("private room", "private", 0);
      ContainsTransitive(lower, "private room", "private");
    } else {
      assert OccursAt("private dining", "private", 0);
      ContainsTransitive(lower, "private dining", "private");
    }
    CollectTagsCorrect(lower, |AMBIENCE_TABLE|);
    assert AMBIENCE_TABLE[40] == AmbienceEntry("private", "intimate");
    assert TagHit(lower, |AMBIENCE_TABLE|, "intimate");
  }

  /** The classifier gives no intent exactly when no group's keyword occurs and the open-at
      pattern does not match. */
  lemma KeywordIntentNoneIff(msg: string, caps: Captures)
    ensures var lower := ToLower(msg);
            KeywordIntent(msg, caps).None? <==>
              !ContainsAny(lower, OPEN_NOW_KEYS) && FindOpenAt(lower, 0).None? &&
              !ContainsAny(lower, RECOMMEND_KEYS) && !ContainsAny(lower, PROMOTION_KEYS) &&
              !ContainsAny(lower, MENU_KEYS) && !ContainsAny(lower, HOURS_KEYS) && !ContainsAny(lower, PRICE_KEYS) &&
              (forall j :: 0 <= j < |CUISINE_TABLE| ==> !Contains(lower, CUISINE_TABLE[j].keyword)) &&
              (forall j :: 0 <= j < |AMBIENCE_TABLE| ==> !Contains(lower, AMBIENCE_TABLE[j].keyword)) &&
              !WantsPrivateRoom(lower)
  {
    NoTagsIff(ToLower(msg));
  }

  /** Every message containing "fast food", "street food" or "seafood" also contains "food",
      a menu keyword, so those three cuisine entries can never decide the intent. */
  lemma FoodEntriesNeverFire(lower: string)
    requires !ContainsAny(lower, MENU_KEYS)
    ensures !Contains(lower, CUISINE_TABLE[0].keyword)
    ensures !Contains(lower, CUISINE_TABLE[4].keyword)
    ensures !Contains(lower, CUISINE_TABLE[10].keyword)
  {
    assert MENU_KEYS[2] == "food";
    if Contains(lower, "fast food") {
      assert OccursAt("fast food", "food", 5);
      ContainsTransitive(lower, "fast food", "food");
    }
    if Contains(lower, "street food") {
      assert OccursAt("street food", "food", 7);
      ContainsTransitive(lower, "street food", "food");
    }
    if Contains(lower, "seafood") {
      assert OccursAt("seafood", "food", 3);
      ContainsTransitive(lower, "seafood", "food");
    }
  }

  /** None of the groups before the cuisine table fires. */
  predicate ReachesCuisine(lower: string)
  {
    !ContainsAny(lower, OPEN_NOW_KEYS) && FindOpenAt(lower, 0).None? &&
    !ContainsAny(lower, RECOMMEND_KEYS) && !ContainsAny(lower, PROMOTION_KEYS) &&
    !ContainsAny(lower, MENU_KEYS) && !ContainsAny(lower, HOURS_KEYS) && !ContainsAny(lower, PRICE_KEYS)
  }

  /** Only the cuisine table produces a "type" or "cuisine" filter. */
  lemma OtherGroupsFilters(msg: string, caps: Captures)
    requires KeywordIntent(msg, caps).Some?
    requires !(ReachesCuisine(ToLower(msg)) && CuisineFrom(ToLower(msg), 0).Some?)
    ensures var f := KeywordIntent(msg, caps).value.intents[0].filters;
            f.Obj? && "type" !in f.fields && "cuisine" !in f.fields
  {
  }

  /** When the cuisine table decides, it is through an entry other than the three "food" ones. */
  lemma CuisineGroupFilters(msg: string, caps: Captures)
    requires ReachesCuisine(ToLower(msg)) && CuisineFrom(ToLower(msg), 0).Some?
    ensures exists j :: 0 <= j < |CUISINE_TABLE| && j != 0 && j != 4 && j != 10 &&
                        KeywordIntent(msg, caps).value.intents[0].filters == CuisineFilters(CUISINE_TABLE[j])
  {
    var lower := ToLower(msg);
    FoodEntriesNeverFire(lower);
    var j :| 0 <= j < |CUISINE_TABLE| && Contains(lower, CUISINE_TABLE[j].keyword) &&
             CuisineFrom(lower, 0).value == CuisineFilters(CUISINE_TABLE[j]);
    assert KeywordIntent(msg, caps).value.intents[0].filters == CuisineFilters(CUISINE_TABLE[j]);
  }

  /** A question reaching the cuisine table whose keyword occurs gets the `restaurant` intent
      with limit 10 and the filters of the first table entry whose keyword occurs. */
  lemma CuisineGroupIntent(msg: string, caps: Captures)
    requires ReachesCuisine(ToLower(msg)) && CuisineFrom(ToLower(msg), 0).Some?
    ensures exists j :: FirstCuisineHit(ToLower(msg), 0, j) &&
                        KeywordIntent(msg, caps) ==
                        Some(Plan([Intent(Str("restaurant"), CuisineFilters(CUISINE_TABLE[j]), 10)]))
  {
    var lower := ToLower(msg);
    CuisineFromFirst(lower, 0);
    var j :| FirstCuisineHit(lower, 0, j) && CuisineFrom(lower, 0).value == CuisineFilters(CUISINE_TABLE[j]);
    assert KeywordIntent(msg, caps) == Some(Plan([Intent(Str("restaurant"), CuisineFilters(CUISINE_TABLE[j]), 10)]));
  }

  /** Only entries 0, 4 and 10 carry the fast-food, street-food and seafood values. */
  lemma FoodEntryValues(j: nat)
    requires j < |CUISINE_TABLE| && j != 0 && j != 4 && j != 10
    ensures CUISINE_TABLE[j].value != "fast_food" && CUISINE_TABLE[j].value != "street_food" &&
            CUISINE_TABLE[j].value != "Seafood"
  {
  }

  lemma SingletonFilters(e: CuisineEntry, d: CuisineEntry)
    requires CuisineFilters(e) == CuisineFilters(d)
    ensures e.value == d.value
  {
    assert e.field in CuisineFilters(d).fields;
    assert CuisineFilters(d).fields[e.field] == Str(e.value);
  }

  /** No message is ever classified with the fast-food, street-food or seafood filters. */
  lemma DeadCuisineEntries(msg: string, caps: Captures)
    ensures var r := KeywordIntent(msg, caps);
            r.Some? ==> r.value.intents[0].filters != CuisineFilters(CUISINE_TABLE[0]) &&
                        r.value.intents[0].filters != CuisineFilters(CUISINE_TABLE[4]) &&
                        r.value.intents[0].filters != CuisineFilters(CUISINE_TABLE[10])
  {
    var lower := ToLower(msg);
    if KeywordIntent(msg, caps).Some? {
      if ReachesCuisine(lower) && CuisineFrom(lower, 0).Some? {
        CuisineGroupFilters(msg, caps);
        var j :| 0 <= j < |CUISINE_TABLE| && j != 0 && j != 4 && j != 10 &&
                 KeywordIntent(msg, caps).value.intents[0].filters == CuisineFilters(CUISINE_TABLE[j]);
        OtherEntryFilters(j);
      } else {
        OtherGroupsFilters(msg, caps);
        FoodEntryKeys();
      }
    }
  }

  /** The filters of any other cuisine entry differ from the three "food" entries' filters. */
  lemma OtherEntryFilters(j: nat)
    requires j < |CUISINE_TABLE| && j != 0 && j != 4 && j != 10
    ensures CuisineFilters(CUISINE_TABLE[j]) != CuisineFilters(CUISINE_TABLE[0])
    ensures CuisineFilters(CUISINE_TABLE[j]) != CuisineFilters(CUISINE_TABLE[4])
    ensures CuisineFilters(CUISINE_TABLE[j]) != CuisineFilters(CUISINE_TABLE[10])
  {
    FoodEntryValues(j);
    var f := CuisineFilters(CUISINE_TABLE[j]);
    if f == CuisineFilters(CUISINE_TABLE[0]) { SingletonFilters(CUISINE_TABLE[j], CUISINE_TABLE[0]); }
    if f == CuisineFilters(CUISINE_TABLE[4]) { SingletonFilters(CUISINE_TABLE[j], CUISINE_TABLE[4]); }
    if f == CuisineFilters(CUISINE_TABLE[10]) { SingletonFilters(CUISINE_TABLE[j], CUISINE_TABLE[10]); }
  }

  /** The three "food" entries filter on "type" or "cuisine". */
  lemma FoodEntryKeys()
    ensures "type" in CuisineFilters(CUISINE_TABLE[0]).fields
    ensures "type" in CuisineFilters(CUISINE_TABLE[4]).fields
    ensures "cuisine" in CuisineFilters(CUISINE_TABLE[10]).fields
  {
  }

  /** An open-now question gets `is_open_now` with limit 1 and only the restaurant's name as
      filter when a usable name was captured, and otherwise `open_now` with no filters and
      limit 10. Nothing is asked before the open-now keywords. */
  lemma OpenNowGroupIntent(msg: string, caps: Captures)
    requires ContainsAny(ToLower(msg), OPEN_NOW_KEYS)
    ensures KeywordIntent(msg, caps).Some? && |KeywordIntent(msg, caps).value.intents| == 1
    ensures var i := KeywordIntent(msg, caps).value.intents[0];
            && (OpenNowName(caps).Some? ==>
                  i.target == Str("is_open_now") && i.limit == 1 &&
                  i.filters == Obj(map["restaurantName" := Str(OpenNowName(caps).value)]))
            && (OpenNowName(caps).None? ==> i.target == Str("open_now") && i.limit == 10 && i.filters == EMPTY_OBJECT)
  {
  }

  /** A recommendation question that is not about opening times gets the `restaurant` intent
      with no filters and limit 5. */
  lemma RecommendGroupIntent(msg: string, caps: Captures)
    requires var lower := ToLower(msg);
             && !ContainsAny(lower, OPEN_NOW_KEYS) && FindOpenAt(lower, 0).None?
             && ContainsAny(lower, RECOMMEND_KEYS)
    ensures KeywordIntent(msg, caps) == Some(Plan([Intent(Str("restaurant"), EMPTY_OBJECT, 5)]))
  {
  }

  /** A promotion question reached after the earlier groups gets the `promotion` intent with
      no filters and limit 10. */
  lemma PromotionGroupIntent(msg: string, caps: Captures)
    requires var lower := ToLower(msg);
             && !ContainsAny(lower, OPEN_NOW_KEYS) && FindOpenAt(lower, 0).None?
             && !ContainsAny(lower, RECOMMEND_KEYS) && ContainsAny(lower, PROMOTION_KEYS)
    ensures KeywordIntent(msg, caps) == Some(Plan([Intent(Str("promotion"), EMPTY_OBJECT, 10)]))
  {
  }

  /** A menu question reached after the earlier groups gets the `menu` intent with limit 20,
      filtered by restaurant name exactly when a usable name was captured. */
  lemma MenuGroupIntent(msg: string, caps: Captures)
    requires var lower := ToLower(msg);
             && !ContainsAny(lower, OPEN_NOW_KEYS) && FindOpenAt(lower, 0).None?
             && !ContainsAny(lower, RECOMMEND_KEYS) && !ContainsAny(lower, PROMOTION_KEYS)
             && ContainsAny(lower, MENU_KEYS)
    ensures KeywordIntent(msg, caps).Some? && |KeywordIntent(msg, caps).value.intents| == 1
    ensures var i := KeywordIntent(msg, caps).value.intents[0];
            var name := FirstName(caps.menu, MenuTrailing, MENU_STOP);
            && i.target == Str("menu") && i.limit == 20
            && (name.Some? ==> i.filters == Obj(map["restaurantName" := Str(name.value)]))
            && (name.None? ==> i.filters == EMPTY_OBJECT)
  {
  }

  /** An opening-hours question reached after the earlier groups gets the `opening_hours`
      intent with limit 5, filtered by restaurant name exactly when a usable name was captured. */
  lemma HoursGroupIntent(msg: string, caps: Captures)
    requires var lower := ToLower(msg);
             && !ContainsAny(lower, OPEN_NOW_KEYS) && FindOpenAt(lower, 0).None?
             && !ContainsAny(lower, RECOMMEND_KEYS) && !ContainsAny(lower, PROMOTION_KEYS)
             && !ContainsAny(lower, MENU_KEYS) && ContainsAny(lower, HOURS_KEYS)
    ensures KeywordIntent(msg, caps).Some? && |KeywordIntent(msg, caps).value.intents| == 1
    ensures var i := KeywordIntent(msg, caps).value.intents[0];
            var name := FirstName(caps.hours, HoursTrailing, HOURS_STOP);
            && i.target == Str("opening_hours") && i.limit == 5
            && (name.Some? ==> i.filters == Obj(map["restaurantName" := Str(name.value)]))
            && (name.None? ==> i.filters == EMPTY_OBJECT)
  {
  }

  /** An open-at question (no open-now keyword) gets the `open_at` intent with limit 10 and
      nothing but a `time` filter: the time of the leftmost match, as `OpenAtTime` builds it
      (`OpenAtTimeIsClockTime` gives its clock reading). */
  lemma OpenAtGroupIntent(msg: string, caps: Captures)
    requires !ContainsAny(ToLower(msg), OPEN_NOW_KEYS) && FindOpenAt(ToLower(msg), 0).Some?
    ensures KeywordIntent(msg, caps) ==
            Some(Plan([Intent(Str("open_at"), Obj(map["time" := Str(OpenAtTime(FindOpenAt(ToLower(msg), 0).value))]), 10)]))
  {
  }

  /** A price question gets the `restaurant` intent with limit 10 and only a `priceTier` filter
      holding the tier `PriceTier` finds (the first of BUDGET, LUXURY, PREMIUM and MID_RANGE
      whose word occurs) when a tier word occurs, and otherwise the `price_tier` intent with no
      filters and limit 5. */
  lemma PriceGroupIntent(msg: string, caps: Captures)
    requires var lower := ToLower(msg);
             && !ContainsAny(lower, OPEN_NOW_KEYS) && FindOpenAt(lower, 0).None?
             && !ContainsAny(lower, RECOMMEND_KEYS) && !ContainsAny(lower, PROMOTION_KEYS)
             && !ContainsAny(lower, MENU_KEYS) && !ContainsAny(lower, HOURS_KEYS) && ContainsAny(lower, PRICE_KEYS)
    ensures var i := KeywordIntent(msg, caps).value.intents[0];
            && (i.target == Str("price_tier") <==> PriceTier(ToLower(msg)).None?)
            && (i.target == Str("price_tier") ==> i.filters == EMPTY_OBJECT && i.limit == 5)
            && (i.target != Str("price_tier") ==>
                  i.target == Str("restaurant") && i.limit == 10 && i.filters.fields.Keys == {"priceTier"} &&
                  i.filters.fields["priceTier"].Str? && i.filters.fields["priceTier"].s in PRICE_TIERS)
    ensures PriceTier(ToLower(msg)).Some? ==>
              KeywordIntent(msg, caps).value.intents[0].filters ==
              Obj(map["priceTier" := Str(PriceTier(ToLower(msg)).value)])
  {
  }

  /** An ambience question gets the `restaurant` intent with limit 10: one tag is stored as a
      string and several as a list of strings, and `hasPrivateRooms: true` is added exactly when
      a private room or private dining is asked for; no other filter is set. */
  lemma AmbienceGroupIntent(msg: string, caps: Captures)
    requires ReachesCuisine(ToLower(msg)) && CuisineFrom(ToLower(msg), 0).None?
    requires KeywordIntent(msg, caps).Some?
    ensures var lower := ToLower(msg);
            var tags := CollectTags(lower, |AMBIENCE_TABLE|);
            var i := KeywordIntent(msg, caps).value.intents[0];
            && i.target == Str("restaurant") && i.limit == 10
            && ("hasPrivateRooms" in i.filters.fields <==> WantsPrivateRoom(lower))
            && ("ambience" in i.filters.fields <==> |tags| > 0)
            && (|tags| == 1 ==> i.filters.fields["ambience"] == Str(tags[0]))
            && (|tags| > 1 ==> i.filters.fields["ambience"] == Arr(StrValues(tags)))
            && i.filters.fields.Keys <= {"ambience", "hasPrivateRooms"}
            && ("hasPrivateRooms" in i.filters.fields ==> i.filters.fields["hasPrivateRooms"] == Bool(true))
  {
  }
}
