/** The backend's rule engine: canned replies for simple messages (greeting, thanks, help)
    and the post-retrieval rule that turns a database error or an empty result into a reply. */
module RuleEngine {
  import opened Wrappers
  import opened Text
  import opened JsValue

  const GREETING_REPLY := "Hello! How can I help you find a restaurant today?"
  const THANKS_REPLY := "You're welcome! Need more assistance?"
  const HELP_REPLY := "You can ask like 'Show me KFC menu' or 'cheap restaurants'."
  const DB_ERROR_REPLY := "Database error. Please try again later."
  const NO_MATCH_REPLY := "I couldn't find anything that matches. Try another name or filter."

  const GREETING_WORDS: seq<string> := ["hi", "hello", "hey"]

  /** Position `i` is a word boundary after a word character: end of text or a non-word character. */
  predicate BoundaryAfter(t: string, i: int)
    requires 0 <= i <= |t|
  {
    i == |t| || !IsWordChar(t[i])
  }

  /** `/(hi|hello|hey)\b/i` matches with the word starting at index `i`. */
  predicate GreetingAt(t: string, i: int)
  {
    exists w :: w in GREETING_WORDS && OccursAt(ToLower(t), w, i) && BoundaryAfter(t, i + |w|)
  }

  /** `isGreeting`: no word boundary is required before the word. */
  predicate IsGreeting(t: string)
  {
    exists i :: 0 <= i <= |t| && GreetingAt(t, i)
  }

  /** `isThanks`: `/(thank|thanks)/i`. */
  predicate IsThanks(t: string)
  {
    Contains(ToLower(t), "thank")
  }

  /** `isHelp`: `/(help|how do i|commands)/i`. */
  predicate IsHelp(t: string)
  {
    ContainsAny(ToLower(t), ["help", "how do i", "commands"])
  }

  /** The text `detectSimpleMessage` tests: `String(userMsg || '').trim().toLowerCase()`. */
  function SimpleText(userMsg: Value): string
  {
    ToLower(Trim(if Truthy(userMsg) then ToJsString(userMsg) else ""))
  }

  /** `detectSimpleMessage`: greeting beats thanks, thanks beats help; anything else is null. */
  function DetectSimpleMessage(userMsg: Value): (r: Option<string>)
    ensures IsNullish(userMsg) ==> r == None
    ensures r == Some(GREETING_REPLY) <==> IsGreeting(SimpleText(userMsg))
    ensures r == Some(THANKS_REPLY) <==> !IsGreeting(SimpleText(userMsg)) && IsThanks(SimpleText(userMsg))
    ensures r == Some(HELP_REPLY) <==>
              !IsGreeting(SimpleText(userMsg)) && !IsThanks(SimpleText(userMsg)) && IsHelp(SimpleText(userMsg))
    ensures r == None <==>
              !IsGreeting(SimpleText(userMsg)) && !IsThanks(SimpleText(userMsg)) && !IsHelp(SimpleText(userMsg))
  {
    NullishIsEmpty(userMsg);
    NoGreetingInEmpty();
    NoThanksInEmpty();
    NoHelpInEmpty();
    var t := SimpleText(userMsg);
    if IsGreeting(t) then Some(GREETING_REPLY)
    else if IsThanks(t) then Some(THANKS_REPLY)
    else if IsHelp(t) then Some(HELP_REPLY)
    else None
  }

  /** A missing message is matched as the empty text. */
  lemma NullishIsEmpty(userMsg: Value)
    ensures IsNullish(userMsg) ==> SimpleText(userMsg) == ""
  {
    TrimOfTrimmed("");
    assert ToLower("") == "";
  }

  /** The empty text passes none of the tests. */
  lemma NoGreetingInEmpty()
    ensures !IsGreeting("")
  {
    assert ToLower("") == "";
    forall i | 0 <= i <= 0 ensures !GreetingAt("", i) {
      forall w | w in GREETING_WORDS ensures !OccursAt("", w, i) {
        assert |w| > 0;
      }
    }
  }

  lemma NoThanksInEmpty()
    ensures !IsThanks("")
  {
    assert ToLower("") == "";
    NothingInEmpty("thank");
  }

  lemma NoHelpInEmpty()
    ensures !IsHelp("")
  {
    assert ToLower("") == "";
    var keys := ["help", "how do i", "commands"];
    forall k | 0 <= k < |keys| ensures !Contains("", keys[k]) {
      NothingInEmpty(keys[k]);
    }
  }

  lemma NothingInEmpty(w: string)
    requires w != ""
    ensures !Contains("", w)
  {
  }

  /** Trimmed text without upper-case letters: the canned reply is decided on the text itself. */
  lemma PlainText(t: string)
    requires t != [] && IsTrimmed(t)
    requires forall i :: 0 <= i < |t| ==> !('A' <= t[i] <= 'Z')
    ensures SimpleText(Str(t)) == t && ToLower(t) == t
  {
    var v := Str(t);
    assert Truthy(v) && ToJsString(v) == t;
    TrimOfTrimmed(t);
    ToLowerOfNoUpper(t);
  }

  /** "chi" greets: the greeting pattern has no leading word boundary, so a word that merely
      ends in "hi", "hello" or "hey" counts. */
  lemma GreetingNeedsNoLeadingBoundary()
    ensures DetectSimpleMessage(Str("chi")) == Some(GREETING_REPLY)
  {
    GreetsAt("chi", 1);
  }

  /** A greeting wins over thanks and help in the same message. */
  lemma GreetingBeatsThanks()
    ensures DetectSimpleMessage(Str("hi, thanks for the help")) == Some(GREETING_REPLY)
  {
    GreetsAt("hi, thanks for the help", 0);
  }

  /** A plain text with "hi" at `i` followed by a non-word character (or the end) greets. */
  lemma GreetsAt(t: string, i: nat)
    requires t != [] && IsTrimmed(t)
    requires forall i :: 0 <= i < |t| ==> !('A' <= t[i] <= 'Z')
    requires i + 2 <= |t| && t[i..i + 2] == "hi" && BoundaryAfter(t, i + 2)
    ensures DetectSimpleMessage(Str(t)) == Some(GREETING_REPLY)
  {
    PlainText(t);
    assert OccursAt(ToLower(t), "hi", i);
    assert GreetingAt(t, i);
  }

  /** A word merely starting with "hi" is no greeting: the boundary after the word is required. */
  lemma GreetingNeedsTrailingBoundary()
    ensures DetectSimpleMessage(Str("hip")) == None
  {
    var t := "hip";
    PlainText(t);
    NoReplyFor(t);
  }

  /** "hip" passes none of the three tests. */
  lemma NoReplyFor(t: string)
    requires t == "hip"
    ensures !IsGreeting(t) && !IsThanks(t) && !IsHelp(t)
  {
    ToLowerOfNoUpper(t);
    assert ToLower(t) == t;
    forall i | 0 <= i <= |t| ensures !GreetingAt(t, i) {
      assert !OccursAt(t, "hello", i) && !OccursAt(t, "hey", i);
      if i == 1 { assert t[1] == 'i' && t[2] == 'p'; }
      assert OccursAt(t, "hi", i) ==> i == 0;
      assert !BoundaryAfter(t, 2);
    }
    assert !Contains(ToLower(t), "thank");
    assert !Contains(ToLower(t), "help") && !Contains(ToLower(t), "how do i") && !Contains(ToLower(t), "commands");
  }

  /** `handleRule`: `parsed` and `userMsg` play no part; a truthy `err` wins over any `data`;
      otherwise the no-match reply is given exactly for an empty array. */
  function HandleRule(parsed: Value, userMsg: Value, data: Value, err: Value): (r: Option<string>)
    ensures Truthy(err) ==> r == Some(DB_ERROR_REPLY)
    ensures !Truthy(err) ==> (r == Some(NO_MATCH_REPLY) <==> data == Arr([]))
    ensures !Truthy(err) ==> (r == None <==> data != Arr([]))
  {
    if Truthy(err) then Some(DB_ERROR_REPLY)
    else if data.Arr? && |data.items| == 0 then Some(NO_MATCH_REPLY)
    else None
  }
}
