/** The menu service: its own restaurant-name normaliser, the lookup of a restaurant by a
    loosely written name (exact match first, then partial), the menu search, and the full
    menus of one restaurant. */
module MenuService {
  import opened Wrappers
  import opened Text
  import opened JsValue
  import opened AiNames
  import opened Store

  /** The suffix words of this service's normaliser (no "'s" among them, and no articles). */
  const MENU_SUFFIX_WORDS: seq<string> := ["menu", "food", "restaurant", "place", "hours", "opening hours"]

  /** `normalizeRestaurantName` of the menu service: a falsy name is returned as it is; a
      truthy name that is not a string has no `replace` and throws (Rejected); otherwise the
      possessive 's and the suffix words are removed and the rest trimmed. */
  function NormalizeMenuName(name: Value): (r: Settled<Value>)
    ensures !Truthy(name) ==> r == Resolved(name)
    ensures r.Rejected? <==> Truthy(name) && !name.Str?
    ensures Truthy(name) && name.Str? ==> r.Resolved? && r.value.Str? && IsTrimmed(r.value.s) && |r.value.s| <= |name.s|
  {
    if !Truthy(name) then Resolved(name)
    else if !name.Str? then Rejected
    else
      var t := DropSuffixWords(MENU_SUFFIX_WORDS, DropPossessive(name.s));
      assert Contains(t, Trim(t));
      Resolved(Str(Trim(t)))
  }

  /** `findRestaurantByName`: nothing for a falsy name; otherwise the normalised name is looked
      up exactly (case-insensitively), then as a part of a restaurant's name. */
  method FindRestaurantByName(restaurants: seq<Restaurant>, restaurantName: Value) returns (rest: Settled<Option<Restaurant>>)
    ensures !Truthy(restaurantName) ==> rest == Resolved(None)
    ensures rest.Rejected? <==> NormalizeMenuName(restaurantName).Rejected?
    ensures Truthy(restaurantName) && restaurantName.Str? ==>
              var p := NormalizeMenuName(restaurantName).value.s;
              rest.Resolved? &&
              rest.value == (if FindOne(restaurants, Exact(p)).Some? then FindOne(restaurants, Exact(p))
                             else FindOne(restaurants, Partial(p)))
    ensures rest.Resolved? && rest.value.Some? ==>
              rest.value.value in restaurants &&
              NameMatches(rest.value.value, Partial(NormalizeMenuName(restaurantName).value.s))
  {
    if !Truthy(restaurantName) {
      return Resolved(None);
    }
    var normalized := NormalizeMenuName(restaurantName);
    if normalized.Rejected? {
      return Rejected;
    }
    var p := normalized.value.s;
    var found := FindOne(restaurants, Exact(p));
    if found.Some? {
      ExactIsPartial(found.value, p);
    } else {
      found := FindOne(restaurants, Partial(p));
    }
    return Resolved(found);
  }

  /** The menu search: an optional restaurant and an optional visibility. */
  datatype MenuQuery = MenuQuery(restaurantId: Option<Value>, visible: Option<bool>)

  predicate MenuMatches(m: Menu, q: MenuQuery)
  {
    (q.restaurantId.None? || q.restaurantId.value == IdValue(m.restaurantId)) &&
    (q.visible.None? || q.visible.value == m.visible)
  }

  /** `Menu.find(q)`: the matching menus in store order. */
  function Select(menus: seq<Menu>, q: MenuQuery): (r: seq<Menu>)
    ensures forall m :: m in r <==> m in menus && MenuMatches(m, q)
    ensures |r| <= |menus|
  {
    if |menus| == 0 then []
    else (if MenuMatches(menus[0], q) then [menus[0]] else []) + Select(menus[1..], q)
  }

  /** `findMenus`. `restaurantId` wins over `restaurantName`; a name that resolves to no
      restaurant gives no menus; `visible`, when given, is coerced to a boolean. Null filters
      throw (an absent `filters` defaults to `{}`). */
  method FindMenus(restaurants: seq<Restaurant>, menus: seq<Menu>, filters: Value, limit: int) returns (r: Settled<seq<Menu>>)
    ensures r.Rejected? <==> (filters.Null? ||
                              (!Truthy(Prop(filters, "restaurantId")) && Truthy(Prop(filters, "restaurantName")) &&
                               !Prop(filters, "restaurantName").Str?))
    ensures !filters.Null? && Truthy(Prop(filters, "restaurantId")) ==>
              r == Resolved(Limit(Select(menus, MenuQuery(Some(Prop(filters, "restaurantId")), VisibleOf(filters))), limit))
    ensures !filters.Null? && !Truthy(Prop(filters, "restaurantId")) && !Truthy(Prop(filters, "restaurantName")) ==>
              r == Resolved(Limit(Select(menus, MenuQuery(None, VisibleOf(filters))), limit))
    ensures !filters.Null? && !Truthy(Prop(filters, "restaurantId")) && Truthy(Prop(filters, "restaurantName")) &&
            Prop(filters, "restaurantName").Str? ==>
              var p := NormalizeMenuName(Prop(filters, "restaurantName")).value.s;
              var found := if FindOne(restaurants, Exact(p)).Some? then FindOne(restaurants, Exact(p))
                           else FindOne(restaurants, Partial(p));
              r == Resolved(if found.None? then []
                            else Limit(Select(menus, MenuQuery(Some(IdValue(found.value.id)), VisibleOf(filters))), limit))
    ensures r.Resolved? ==> forall m :: m in r.value ==> m in menus && (Prop(filters, "visible").Undefined? || m.visible == Truthy(Prop(filters, "visible")))
  {
    if filters.Null? {
      return Rejected;
    }
    var query := MenuQuery(None, None);
    if Truthy(Prop(filters, "restaurantId")) {
      query := query.(restaurantId := Some(Prop(filters, "restaurantId")));
    } else if Truthy(Prop(filters, "restaurantName")) {
      var rest := FindRestaurantByName(restaurants, Prop(filters, "restaurantName"));
      if rest.Rejected? {
        return Rejected;
      }
      if rest.value.None? {
        return Resolved([]);
      }
      query := query.(restaurantId := Some(IdValue(rest.value.value.id)));
    }
    if !Prop(filters, "visible").Undefined? {
      query := query.(visible := Some(Truthy(Prop(filters, "visible"))));
    }
    return Resolved(Limit(Select(menus, query), limit));
  }

  /** `Boolean(filters.visible)` when `visible` is defined. */
  function VisibleOf(filters: Value): Option<bool>
  {
    if Prop(filters, "visible").Undefined? then None else Some(Truthy(Prop(filters, "visible")))
  }

  /** One entry of `getFullMenuForRestaurant`: the restaurant's own name, the menu's name and
      description, and its items (`[]` when missing). */
  function MenuEntry(rest: Restaurant, m: Menu): (v: Value)
    ensures Prop(v, "restaurantName") == Str(rest.name)
    ensures Prop(v, "items") == Arr(if m.items.Some? then m.items.value else [])
  {
    Obj(map["restaurantName" := Str(rest.name), "menu" := Str(m.name), "description" := Str(m.description),
            "items" := Arr(if m.items.Some? then m.items.value else [])])
  }

  /** `getFullMenuForRestaurant`: the menus of the resolved restaurant (at most `limit`),
      each labelled with that restaurant's name; none when the name resolves to nothing. */
  method GetFullMenuForRestaurant(restaurants: seq<Restaurant>, menus: seq<Menu>, restaurantName: Value, limit: int)
    returns (r: Settled<seq<Value>>)
    ensures r.Rejected? <==> NormalizeMenuName(restaurantName).Rejected?
    ensures !Truthy(restaurantName) ==> r == Resolved([])
    ensures Truthy(restaurantName) && restaurantName.Str? ==>
              var p := NormalizeMenuName(restaurantName).value.s;
              var found := if FindOne(restaurants, Exact(p)).Some? then FindOne(restaurants, Exact(p))
                           else FindOne(restaurants, Partial(p));
              r.Resolved? && (found.None? ==> r.value == []) &&
              (found.Some? ==>
                 var rows := Limit(Select(menus, MenuQuery(Some(IdValue(found.value.id)), None)), limit);
                 |r.value| == |rows| && forall k :: 0 <= k < |rows| ==> r.value[k] == MenuEntry(found.value, rows[k]))
    ensures r.Resolved? ==> forall k :: 0 <= k < |r.value| ==> Prop(r.value[k], "restaurantName").Str?
  {
    var rest := FindRestaurantByName(restaurants, restaurantName);
    if rest.Rejected? {
      return Rejected;
    }
    if rest.value.None? {
      return Resolved([]);
    }
    var found := rest.value.value;
    var rows := Limit(Select(menus, MenuQuery(Some(IdValue(found.id)), None)), limit);
    var entries := seq(|rows|, k requires 0 <= k < |rows| => MenuEntry(found, rows[k]));
    return Resolved(entries);
  }

  /** Every entry comes from a menu of the restaurant the entry names. */
  lemma SelectByRestaurant(menus: seq<Menu>, id: nat, m: Menu)
    requires m in Select(menus, MenuQuery(Some(IdValue(id)), None))
    ensures m.restaurantId == id && m in menus
  {
  }

  /** "kfc menu" normalises to "kfc". */
  lemma MenuSuffixRemoved()
    ensures NormalizeMenuName(Str("kfc menu")) == Resolved(Str("kfc"))
  {
    NoPossessiveInKfcMenu();
    DropSuffixOfKfcMenu();
    LowerKfcIsTrimmed();
  }

  /** "KFC's" loses its possessive, as documented. */
  lemma PossessiveRemoved()
    ensures NormalizeMenuName(Str("KFC's")) == Resolved(Str("KFC"))
  {
    PossessiveOfKfc();
    NoMenuWordInKfc();
    KfcIsTrimmed();
  }

  lemma NoMenuWordInKfc()
    ensures DropSuffixWords(MENU_SUFFIX_WORDS, "KFC") == "KFC"
  {
    MenuWordsAreLong();
    NoSuffixWordIn(MENU_SUFFIX_WORDS, "KFC");
    DropSuffixWordsKeepsPlain(MENU_SUFFIX_WORDS, "KFC");
  }

  /** Unlike the intent detector's normaliser, this one keeps a leading article: "the kfc"
      stays "the kfc" here, while the intent detector reduces it to "kfc". */
  lemma ArticleKept()
    ensures NormalizeMenuName(Str("the kfc")) == Resolved(Str("the kfc"))
    ensures NormalizeName("the kfc") == "kfc"
  {
    MenuKeepsTheKfc();
    NormalizeTheKfc();
  }

  lemma MenuKeepsTheKfc()
    ensures NormalizeMenuName(Str("the kfc")) == Resolved(Str("the kfc"))
  {
    TheKfcKept();
    TheKfcIsTrimmed();
  }

  lemma TheKfcIsTrimmed()
    ensures Trim("the kfc") == "the kfc"
  {
    var s := "the kfc";
    assert s[0] == 't' && s[|s| - 1] == 'c';
    TrimOfTrimmed(s);
  }

  lemma TheKfcKept()
    ensures DropSuffixWords(MENU_SUFFIX_WORDS, DropPossessive("the kfc")) == "the kfc"
  {
    TheKfcHasNoApostrophe();
    NoMenuWordInTheKfc();
    DropSuffixWordsKeepsPlain(MENU_SUFFIX_WORDS, "the kfc");
  }

  lemma NoMenuWordInTheKfc()
    ensures forall i :: 0 <= i <= |"the kfc"| ==> SuffixWordAt(MENU_SUFFIX_WORDS, "the kfc", i) == 0
  {
    MenuWordsAreLong();
    NoSuffixWordIn(MENU_SUFFIX_WORDS, "the kfc");
  }

  /** A name that is only a suffix word normalises to the empty pattern. */
  lemma SuffixOnlyNameIsEmpty()
    ensures NormalizeMenuName(Str("menu")) == Resolved(Str(""))
  {
    NoPossessiveInMenu();
    DropMenuWord();
    TrimOfTrimmed("");
  }

  lemma NoPossessiveInKfcMenu()
    ensures DropPossessive("kfc menu") == "kfc menu"
  {
    var s := "kfc menu";
    assert forall i :: 0 <= i < |s| ==> s[i] != '\'';
    NoPossessiveIn(s);
  }

  lemma NoPossessiveInMenu()
    ensures DropPossessive("menu") == "menu"
  {
    var s := "menu";
    assert forall i :: 0 <= i < |s| ==> s[i] != '\'';
    NoPossessiveIn(s);
  }

  lemma DropMenuWord()
    ensures DropSuffixWords(MENU_SUFFIX_WORDS, "menu") == ""
  {
    var s := "menu";
    assert SkipSpaces(s, 0) == 0;
    assert OccursAtCI(s, MENU_SUFFIX_WORDS[0], 0);
    assert SuffixWordAt(MENU_SUFFIX_WORDS, s, 0) == 4;
    assert SkipSpaces(s, 4) == 4;
    assert s[4..] == "";
  }

  /** The empty pattern matches no name exactly but is part of every name, so a name made of
      a suffix word alone resolves to the first restaurant in the store. */
  lemma SuffixOnlyNameFindsFirstRestaurant(restaurants: seq<Restaurant>)
    requires |restaurants| > 0 && forall k :: 0 <= k < |restaurants| ==> restaurants[k].name != ""
    ensures FindOne(restaurants, Exact("")).None?
    ensures FindOne(restaurants, Partial("")) == Some(restaurants[0])
  {
    assert OccursAt(ToLower(restaurants[0].name), ToLower(""), 0);
    assert IsFirstHit(restaurants, Partial(""), 0);
  }

  lemma NoPossessiveIn(s: string)
    requires forall i :: 0 <= i < |s| ==> s[i] != '\''
    ensures DropPossessive(s) == s
    decreases |s|
  {
    if |s| > 0 {
      NoPossessiveIn(s[1..]);
    }
  }

  lemma MenuWordsAreLong()
    ensures forall k :: 0 <= k < |MENU_SUFFIX_WORDS| ==> |MENU_SUFFIX_WORDS[k]| >= 2
  {
  }

  lemma DropSuffixOfKfcMenu()
    ensures DropSuffixWords(MENU_SUFFIX_WORDS, "kfc menu") == "kfc"
  {
    DropSuffixOfFcMenu();
    assert "kfc menu"[1..] == "fc menu";
    NoWordAtStart("kfc menu");
    KeepsFirstCharThen(MENU_SUFFIX_WORDS, "kfc menu");
  }

  lemma DropSuffixOfFcMenu()
    ensures DropSuffixWords(MENU_SUFFIX_WORDS, "fc menu") == "fc"
  {
    DropSuffixOfCMenu();
    assert "fc menu"[1..] == "c menu";
    NoWordAtStart("fc menu");
    KeepsFirstCharThen(MENU_SUFFIX_WORDS, "fc menu");
  }

  lemma DropSuffixOfCMenu()
    ensures DropSuffixWords(MENU_SUFFIX_WORDS, "c menu") == "c"
  {
    DropMenuAfterSpace();
    assert "c menu"[1..] == " menu";
    NoWordAtStart("c menu");
    KeepsFirstCharThen(MENU_SUFFIX_WORDS, "c menu");
  }

  lemma NoWordAtStart(s: string)
    requires s in {"c menu", "fc menu", "kfc menu"}
    ensures SuffixWordAt(MENU_SUFFIX_WORDS, s, 0) == 0 && !IsSpace(s[0])
  {
    MenuWordsAreLong();
    NoSuffixWordAt(MENU_SUFFIX_WORDS, s, 0);
  }

  lemma DropMenuAfterSpace()
    ensures DropSuffixWords(MENU_SUFFIX_WORDS, " menu") == ""
  {
    var s := " menu";
    assert SkipSpaces(s, 0) == 1;
    assert s[1..5] == "menu";
    assert OccursAtCI(s, MENU_SUFFIX_WORDS[0], 1);
    assert SuffixWordAt(MENU_SUFFIX_WORDS, s, 1) == 4;
    assert SkipSpaces(s, 5) == 5;
  }
}
