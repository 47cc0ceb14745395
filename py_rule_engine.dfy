/** The Python chatbot's rule engine: an ordered keyword table searched against the
    lower-cased input; the first keyword that occurs decides the canned reply. */
module PyRuleEngine {
  import opened Wrappers
  import opened Text

  datatype Rule = Rule(keyword: string, reply: string)

  /** The table in its insertion order (a Python dict iterates in insertion order). */
  const RULES: seq<Rule> := [
    Rule("hello", "Hi there! How can I help you today?"),
    Rule("menu", "Our restaurant offers a variety of dishes \U{2014} would you like to see the full menu?"),
    Rule("hours", "We\U{2019}re open from 9 AM to 10 PM daily!"),
    Rule("location", "We are located at Street 123, Phnom Penh."),
    Rule("contact", "You can reach us at +855 12 345 678.")
  ]

  /** Rule `k` is the first rule of `rules` whose keyword occurs in `text`. */
  predicate IsFirstMatch(rules: seq<Rule>, text: string, k: int)
  {
    0 <= k < |rules| && Contains(text, rules[k].keyword) &&
    forall j :: 0 <= j < k ==> !Contains(text, rules[j].keyword)
  }

  /** The reply of the first rule whose keyword occurs in `text`, or None. */
  function FirstRule(rules: seq<Rule>, text: string): Option<string>
  {
    if |rules| == 0 then None
    else if Contains(text, rules[0].keyword) then Some(rules[0].reply)
    else FirstRule(rules[1..], text)
  }

  /** `FirstRule` is None exactly when no keyword occurs, and otherwise the reply of the first match. */
  lemma {:induction false} FirstRuleCorrect(rules: seq<Rule>, text: string)
    ensures FirstRule(rules, text).None? <==> forall k :: 0 <= k < |rules| ==> !Contains(text, rules[k].keyword)
    ensures FirstRule(rules, text).Some? ==>
              exists k :: IsFirstMatch(rules, text, k) && FirstRule(rules, text).value == rules[k].reply
  {
    if |rules| == 0 {
    } else if Contains(text, rules[0].keyword) {
      assert IsFirstMatch(rules, text, 0);
    } else {
      FirstRuleCorrect(rules[1..], text);
      var rest := FirstRule(rules[1..], text);
      if rest.Some? {
        var k :| IsFirstMatch(rules[1..], text, k) && rest.value == rules[1..][k].reply;
        assert IsFirstMatch(rules, text, k + 1);
      } else {
        forall k | 0 <= k < |rules| ensures !Contains(text, rules[k].keyword) {
          if k > 0 { assert rules[k] == rules[1..][k - 1]; }
        }
      }
    }
  }

  /** `get_rule_based_response`: the table is searched against the lower-cased input. */
  function GetRuleBasedResponse(userInput: string): (r: Option<string>)
    ensures r.None? <==> forall k :: 0 <= k < |RULES| ==> !Contains(ToLower(userInput), RULES[k].keyword)
    ensures r.Some? ==> exists k :: IsFirstMatch(RULES, ToLower(userInput), k) && r.value == RULES[k].reply
  {
    FirstRuleCorrect(RULES, ToLower(userInput));
    FirstRule(RULES, ToLower(userInput))
  }

  /** At most one rule is the first match, so the reply is a function of the winning keyword. */
  lemma FirstMatchUnique(rules: seq<Rule>, text: string, k1: int, k2: int)
    requires IsFirstMatch(rules, text, k1) && IsFirstMatch(rules, text, k2)
    ensures k1 == k2
  {
  }

  /** The reply is exactly the value paired with the first keyword that occurs. */
  lemma ReplyOfFirstMatch(userInput: string, k: int)
    requires IsFirstMatch(RULES, ToLower(userInput), k)
    ensures GetRuleBasedResponse(userInput) == Some(RULES[k].reply)
  {
    var r := GetRuleBasedResponse(userInput);
    assert r.Some?;
    var k' :| IsFirstMatch(RULES, ToLower(userInput), k') && r.value == RULES[k'].reply;
    FirstMatchUnique(RULES, ToLower(userInput), k, k');
  }

  /** Lower-casing is idempotent, so the reply does not depend on the input's letter case. */
  lemma {:induction false} CaseInsensitive(userInput: string)
    ensures GetRuleBasedResponse(ToLower(userInput)) == GetRuleBasedResponse(userInput)
  {
    assert ToLower(ToLower(userInput)) == ToLower(userInput) by {
      forall i | 0 <= i < |userInput| ensures Lower(Lower(userInput[i])) == Lower(userInput[i]) {
      }
    }
  }

  /** A message naming several keywords gets the reply of the earliest rule in the table. */
  lemma HelloBeatsMenu()
    ensures GetRuleBasedResponse("hello, show the menu") == Some(RULES[0].reply)
  {
    var s := "hello, show the menu";
    ToLowerOfNoUpper(s);
    assert OccursAt(ToLower(s), "hello", 0);
    ReplyOfFirstMatch(s, 0);
  }
}
