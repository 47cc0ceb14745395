/** Restaurant-name normalisation of the backend's intent detector: a possessive "'s", a
    leading article and suffix words such as "menu" are removed, and the rest is trimmed. */
module AiNames {
  import opened Text

  /** `'s` followed by a word boundary starts at `i` (letter case ignored). */
  predicate PossessiveAt(s: string, i: nat)
  {
    i + 2 <= |s| && s[i] == '\'' && Lower(s[i + 1]) == 's' && (i + 2 == |s| || !IsWordChar(s[i + 2]))
  }

  /** `replace(/'s\b/gi, '')`: every possessive `'s` is removed, scanning left to right. */
  function DropPossessive(s: string): (r: string)
    ensures |r| <= |s|
    decreases |s|
  {
    if |s| == 0 then s
    else if PossessiveAt(s, 0) then DropPossessive(s[2..])
    else [s[0]] + DropPossessive(s[1..])
  }

  /** The possessive pass removes only apostrophes and the letter s: every other character
      is kept as often as it occurs, and nothing is added. */
  lemma {:induction false} DropPossessiveKeeps(s: string)
    ensures multiset(DropPossessive(s)) <= multiset(s)
    ensures forall c :: c != '\'' && Lower(c) != 's' ==> multiset(DropPossessive(s))[c] == multiset(s)[c]
    decreases |s|
  {
    if |s| > 0 {
      var r := DropPossessive(s);
      if PossessiveAt(s, 0) {
        DropPossessiveKeeps(s[2..]);
        assert r == DropPossessive(s[2..]);
        assert s == [s[0], s[1]] + s[2..];
        assert multiset(s) == multiset{s[0], s[1]} + multiset(s[2..]);
      } else {
        DropPossessiveKeeps(s[1..]);
        assert r == [s[0]] + DropPossessive(s[1..]);
        assert s == [s[0]] + s[1..];
        assert multiset(s) == multiset{s[0]} + multiset(s[1..]);
      }
    }
  }

  /** Each removal takes out one apostrophe and one letter s. */
  lemma {:induction false} DropPossessivePairs(s: string)
    ensures Quotes(DropPossessive(s)) <= Quotes(s)
    ensures |s| == |DropPossessive(s)| + 2 * (Quotes(s) - Quotes(DropPossessive(s)))
    decreases |s|
  {
    if |s| > 0 {
      if PossessiveAt(s, 0) {
        var t := s[2..];
        assert DropPossessive(s) == DropPossessive(t);
        DropPossessivePairs(t);
        assert s == [s[0]] + s[1..] && s[1..] == [s[1]] + t;
        QuotesCons(s[0], s[1..]);
        QuotesCons(s[1], t);
        assert Quotes(s) == Quotes(t) + 1;
      } else {
        var t := s[1..];
        var r := DropPossessive(t);
        assert DropPossessive(s) == [s[0]] + r;
        DropPossessivePairs(t);
        assert s == [s[0]] + t;
        QuotesCons(s[0], t);
        QuotesCons(s[0], r);
      }
    }
  }

  /** How many apostrophes `s` holds. */
  function Quotes(s: string): nat
  {
    multiset(s)['\'']
  }

  lemma QuotesCons(c: char, t: string)
    ensures Quotes([c] + t) == Quotes(t) + (if c == '\'' then 1 else 0)
  {
    assert multiset([c] + t) == multiset{c} + multiset(t);
  }

  /** The articles `/^(?:the|a|an)\s+/i` looks for, in the order the alternation tries them. */
  const ARTICLES: seq<string> := ["the", "a", "an"]

  /** The article `w` starts `s` and white space follows it. */
  predicate ArticleAt(s: string, w: string)
  {
    OccursAtCI(s, w, 0) && |w| < |s| && IsSpace(s[|w|])
  }

  /** Length of the leading article and the white space after it, 0 when there is none
      (`/^(?:the|a|an)\s+/i`: only at the very start, and at least one space is required). */
  function ArticleLength(s: string): (n: nat)
    ensures n <= |s|
    ensures n > 0 ==> IsSpace(s[n - 1]) && (n == |s| || !IsSpace(s[n]))
    ensures n > 0 ==> exists k :: 0 <= k < |ARTICLES| && ArticleAt(s, ARTICLES[k]) && n == SkipSpaces(s, |ARTICLES[k]|)
    ensures n == 0 <==> forall k :: 0 <= k < |ARTICLES| ==> !ArticleAt(s, ARTICLES[k])
  {
    if OccursAtCI(s, "the", 0) && 3 < |s| && IsSpace(s[3]) then
      assert ArticleAt(s, ARTICLES[0]);
      SkipSpaces(s, 3)
    else if OccursAtCI(s, "a", 0) && 1 < |s| && IsSpace(s[1]) then
      assert ArticleAt(s, ARTICLES[1]);
      SkipSpaces(s, 1)
    else if OccursAtCI(s, "an", 0) && 2 < |s| && IsSpace(s[2]) then
      assert ArticleAt(s, ARTICLES[2]);
      SkipSpaces(s, 2)
    else 0
  }

  /** `replace(/^(?:the|a|an)\s+/gi, '')`: the text is kept exactly when it starts with no
      article followed by white space; otherwise the article and all the white space after
      it are removed, and nothing else. */
  function DropArticle(s: string): (r: string)
    ensures |r| <= |s| && r == s[|s| - |r|..]
    ensures r == s <==> forall k :: 0 <= k < |ARTICLES| ==> !ArticleAt(s, ARTICLES[k])
    ensures r != s ==> exists k :: 0 <= k < |ARTICLES| && ArticleAt(s, ARTICLES[k]) && r == s[SkipSpaces(s, |ARTICLES[k]|)..]
    ensures r != s ==> r == [] || !IsSpace(r[0])
  {
    var n := ArticleLength(s);
    assert n > 0 ==> |s[n..]| < |s|;
    s[n..]
  }

  /** The suffix words of the intent detector's normaliser. */
  const SUFFIX_WORDS: seq<string> := ["menu", "food", "restaurant", "place", "hours", "opening hours", "'s"]

  /** Length of the first word of `words` that starts at `i`, 0 when none does. */
  function SuffixWordAt(words: seq<string>, s: string, i: nat): (n: nat)
    ensures n > 0 ==> exists k :: 0 <= k < |words| && n == |words[k]| && OccursAtCI(s, words[k], i)
    ensures n == 0 ==> forall k :: 0 <= k < |words| ==> |words[k]| == 0 || !OccursAtCI(s, words[k], i)
  {
    SuffixWordFrom(words, s, i, 0)
  }

  function SuffixWordFrom(words: seq<string>, s: string, i: nat, k: nat): (n: nat)
    requires k <= |words|
    ensures n > 0 ==> exists j :: k <= j < |words| && n == |words[j]| && OccursAtCI(s, words[j], i)
    ensures n == 0 ==> forall j :: k <= j < |words| ==> |words[j]| == 0 || !OccursAtCI(s, words[j], i)
    decreases |words| - k
  {
    if k == |words| then 0
    else if |words[k]| > 0 && OccursAtCI(s, words[k], i) then |words[k]|
    else SuffixWordFrom(words, s, i, k + 1)
  }

  /** `replace(/\s*(w1|w2|...)\s*` + `/gi, '')` for the alternatives `words`: a match starts
      wherever the run of white space from the current position ends in one of the words,
      and swallows the white space after that word too. */
  function DropSuffixWords(words: seq<string>, s: string): (r: string)
    ensures |r| <= |s|
    decreases |s|
  {
    if |s| == 0 then s
    else
      var q := SkipSpaces(s, 0);
      var n := SuffixWordAt(words, s, q);
      if n > 0 then DropSuffixWords(words, s[SkipSpaces(s, q + n)..])
      else [s[0]] + DropSuffixWords(words, s[1..])
  }

  /** `normalizeRestaurantName` of the intent detector: possessive, leading article and
      suffix words removed, then trimmed; "" is returned unchanged. */
  function NormalizeName(name: string): (r: string)
    ensures IsTrimmed(r)
    ensures |r| <= |name|
    ensures name == "" ==> r == ""
  {
    if name == "" then name
    else
      var t := DropSuffixWords(SUFFIX_WORDS, DropArticle(DropPossessive(name)));
      assert Contains(t, Trim(t));
      Trim(t)
  }

  /** The two examples documented with `normalizeRestaurantName`. */
  lemma NormalizeNameExamples()
    ensures NormalizeName("KFC's") == "KFC"
    ensures NormalizeName("the KFC") == "KFC"
  {
    PossessiveOfKfc();
    KfcIsNormal();
    ArticleOfTheKfc();
  }

  /** "the kfc" loses its article: the intent detector's normaliser gives "kfc". */
  lemma NormalizeTheKfc()
    ensures NormalizeName("the kfc") == "kfc"
  {
    var s := "the kfc";
    TheKfcHasNoApostrophe();
    assert OccursAtCI(s, "the", 0) && IsSpace(s[3]);
    assert SkipSpaces(s, 3) == 4;
    assert DropArticle(s) == "kfc";
    NoSuffixWordsInLowerKfc();
    LowerKfcIsTrimmed();
  }

  lemma TheKfcHasNoApostrophe()
    ensures DropPossessive("the kfc") == "the kfc"
  {
    var s := "the kfc";
    assert forall i :: 0 <= i < |s| ==> s[i] != '\'';
    NoApostropheKept(s);
  }

  lemma LowerKfcIsTrimmed()
    ensures Trim("kfc") == "kfc"
  {
    var k := "kfc";
    assert k[0] == 'k' && k[|k| - 1] == 'c';
    TrimOfTrimmed(k);
  }

  lemma NoSuffixWordsInLowerKfc()
    ensures DropSuffixWords(SUFFIX_WORDS, "kfc") == "kfc"
  {
    SuffixWordsAreLong();
    NoSuffixWordIn(SUFFIX_WORDS, "kfc");
    DropSuffixWordsKeepsPlain(SUFFIX_WORDS, "kfc");
  }

  lemma PossessiveOfKfc()
    ensures DropPossessive("KFC's") == "KFC"
  {
    assert !PossessiveAt("KFC's", 0) && "KFC's"[1..] == "FC's";
    assert !PossessiveAt("FC's", 0) && "FC's"[1..] == "C's";
    assert !PossessiveAt("C's", 0) && "C's"[1..] == "'s";
    assert PossessiveAt("'s", 0) && "'s"[2..] == "";
  }

  lemma ArticleOfTheKfc()
    ensures DropPossessive("the KFC") == "the KFC"
    ensures DropArticle("the KFC") == "KFC"
  {
    NoPossessiveInTheKfc();
    ArticleLengthOfTheKfc();
  }

  lemma NoPossessiveInTheKfc()
    ensures DropPossessive("the KFC") == "the KFC"
  {
    var s := "the KFC";
    assert forall i :: 0 <= i < |s| ==> s[i] != '\'';
    NoApostropheKept(s);
  }

  /** A text without an apostrophe has no possessive to drop. */
  lemma {:induction false} NoApostropheKept(s: string)
    requires forall i :: 0 <= i < |s| ==> s[i] != '\''
    ensures DropPossessive(s) == s
    decreases |s|
  {
    if |s| > 0 {
      NoApostropheKept(s[1..]);
      assert [s[0]] + s[1..] == s;
    }
  }

  lemma ArticleLengthOfTheKfc()
    ensures ArticleLength("the KFC") == 4
  {
    var s := "the KFC";
    assert OccursAtCI(s, "the", 0) && IsSpace(s[3]);
    assert SkipSpaces(s, 3) == 4;
  }

  /** "KFC" has no article, no suffix word and no surrounding white space. */
  lemma KfcIsNormal()
    ensures DropArticle("KFC") == "KFC" && DropSuffixWords(SUFFIX_WORDS, "KFC") == "KFC" && Trim("KFC") == "KFC"
  {
    NoArticleInKfc();
    NoSuffixWordsInKfc();
    KfcIsTrimmed();
  }

  lemma KfcIsTrimmed()
    ensures Trim("KFC") == "KFC"
  {
    var k := "KFC";
    assert k[0] == 'K' && k[|k| - 1] == 'C';
    TrimOfTrimmed(k);
  }

  lemma NoArticleInKfc()
    ensures DropArticle("KFC") == "KFC"
  {
    NotOccursAtCI("KFC", "the", 0, 0);
    NotOccursAtCI("KFC", "a", 0, 0);
    NotOccursAtCI("KFC", "an", 0, 0);
    assert ArticleLength("KFC") == 0;
  }

  lemma NoSuffixWordsInKfc()
    ensures DropSuffixWords(SUFFIX_WORDS, "KFC") == "KFC"
  {
    SuffixWordsAreLong();
    NoSuffixWordIn(SUFFIX_WORDS, "KFC");
    DropSuffixWordsKeepsPlain(SUFFIX_WORDS, "KFC");
  }

  lemma SuffixWordsAreLong()
    ensures forall k :: 0 <= k < |SUFFIX_WORDS| ==> |SUFFIX_WORDS[k]| >= 2
  {
  }

  /** A word is found at `i` of `s[1..]` exactly when it is found at `i + 1` of `s`. */
  lemma {:induction false} SuffixWordShift(words: seq<string>, s: string, i: nat, k: nat)
    requires 0 < |s| && k <= |words|
    ensures SuffixWordFrom(words, s[1..], i, k) == SuffixWordFrom(words, s, i + 1, k)
    decreases |words| - k
  {
    if k < |words| {
      var w := words[k];
      if i + 1 + |w| <= |s| {
        assert s[1..][i..i + |w|] == s[i + 1..i + 1 + |w|];
      }
      assert OccursAtCI(s[1..], w, i) == OccursAtCI(s, w, i + 1);
      SuffixWordShift(words, s, i, k + 1);
    }
  }

  lemma SuffixWordAtShift(words: seq<string>, s: string, i: nat)
    requires 0 < |s|
    ensures SuffixWordAt(words, s[1..], i) == SuffixWordAt(words, s, i + 1)
  {
    SuffixWordShift(words, s, i, 0);
  }

  /** A text in which no suffix word starts anywhere is left unchanged by the suffix pass. */
  lemma {:induction false} DropSuffixWordsKeepsPlain(words: seq<string>, s: string)
    requires forall i :: 0 <= i <= |s| ==> SuffixWordAt(words, s, i) == 0
    ensures DropSuffixWords(words, s) == s
    decreases |s|
  {
    if |s| > 0 {
      var t := s[1..];
      assert SuffixWordAt(words, s, SkipSpaces(s, 0)) == 0;
      forall i | 0 <= i <= |t| ensures SuffixWordAt(words, t, i) == 0 {
        SuffixWordAtShift(words, s, i);
        assert SuffixWordAt(words, s, i + 1) == 0;
      }
      DropSuffixWordsKeepsPlain(words, t);
      assert s == [s[0]] + t;
    }
  }

  /** A prefix without white space in which no suffix word starts is kept as it is, and the
      pass goes on with the rest. */
  lemma {:induction false} DropSuffixWordsKeepsPrefix(words: seq<string>, x: string, t: string)
    requires forall i :: 0 <= i < |x| ==> !IsSpace(x[i]) && SuffixWordAt(words, x + t, i) == 0
    ensures DropSuffixWords(words, x + t) == x + DropSuffixWords(words, t)
    decreases |x|
  {
    if |x| == 0 {
      assert x + t == t;
    } else {
      PlainFirstStep(words, x, t);
      PlainPrefixShift(words, x, t);
      DropSuffixWordsKeepsPrefix(words, x[1..], t);
      assert x == [x[0]] + x[1..];
    }
  }

  lemma PlainFirstStep(words: seq<string>, x: string, t: string)
    requires 0 < |x| && !IsSpace(x[0]) && SuffixWordAt(words, x + t, 0) == 0
    ensures DropSuffixWords(words, x + t) == [x[0]] + DropSuffixWords(words, x[1..] + t)
  {
    var s := x + t;
    assert s[0] == x[0] && s[1..] == x[1..] + t;
    KeepsFirstCharThen(words, s);
  }

  lemma PlainPrefixShift(words: seq<string>, x: string, t: string)
    requires 0 < |x|
    requires forall i :: 0 <= i < |x| ==> !IsSpace(x[i]) && SuffixWordAt(words, x + t, i) == 0
    ensures forall i :: 0 <= i < |x[1..]| ==> !IsSpace(x[1..][i]) && SuffixWordAt(words, x[1..] + t, i) == 0
  {
    var s := x + t;
    assert s[1..] == x[1..] + t;
    forall i | 0 <= i < |x[1..]| ensures !IsSpace(x[1..][i]) && SuffixWordAt(words, x[1..] + t, i) == 0 {
      assert x[1..][i] == x[i + 1];
      SuffixWordAtShift(words, s, i);
    }
  }

  /** A name without white space followed by " menu" loses exactly the " menu", provided no
      suffix word starts inside the name. */
  lemma TrailingMenuDropped(x: string)
    requires forall i :: 0 <= i < |x| ==> !IsSpace(x[i]) && SuffixWordAt(SUFFIX_WORDS, x + " menu", i) == 0
    ensures DropSuffixWords(SUFFIX_WORDS, x + " menu") == x
  {
    DropSuffixWordsKeepsPrefix(SUFFIX_WORDS, x, " menu");
    MenuAfterSpace();
  }

  lemma MenuAfterSpace()
    ensures DropSuffixWords(SUFFIX_WORDS, " menu") == ""
  {
    var s := " menu";
    assert SkipSpaces(s, 0) == 1;
    assert OccursAtCI(s, SUFFIX_WORDS[0], 1);
    assert SuffixWordAt(SUFFIX_WORDS, s, 1) == 4;
    assert SkipSpaces(s, 5) == 5;
  }

  /** No word starts anywhere in `s` when, at each position, each word is too long or differs
      in its first two characters. */
  lemma NoSuffixWordIn(words: seq<string>, s: string)
    requires forall k :: 0 <= k < |words| ==> |words[k]| >= 2
    requires forall i, k :: 0 <= i < |s| && 0 <= k < |words| ==>
               i + |words[k]| > |s| || Lower(s[i]) != words[k][0] ||
               (i + 1 < |s| && Lower(s[i + 1]) != words[k][1])
    ensures forall i :: 0 <= i <= |s| ==> SuffixWordAt(words, s, i) == 0
  {
    forall i | 0 <= i < |s| ensures SuffixWordAt(words, s, i) == 0 {
      NoSuffixWordAt(words, s, i);
    }
    NoSuffixWordAtEnd(words, s);
  }

  /** No word of positive length starts at the very end of a text. */
  lemma NoSuffixWordAtEnd(words: seq<string>, s: string)
    ensures SuffixWordAt(words, s, |s|) == 0
  {
    forall k | 0 <= k < |words| && |words[k]| > 0 ensures !OccursAtCI(s, words[k], |s|) {
    }
  }

  /** A first character that is neither white space nor the start of a word is kept. */
  lemma KeepsFirstCharThen(words: seq<string>, s: string)
    requires |s| > 0 && !IsSpace(s[0]) && SuffixWordAt(words, s, 0) == 0
    ensures DropSuffixWords(words, s) == [s[0]] + DropSuffixWords(words, s[1..])
  {
  }

  /** No word starts at `i` when each one is too long or differs in its first two characters. */
  lemma NoSuffixWordAt(words: seq<string>, s: string, i: nat)
    requires i < |s|
    requires forall k :: 0 <= k < |words| ==> |words[k]| >= 2
    requires forall k :: 0 <= k < |words| ==>
               i + |words[k]| > |s| || Lower(s[i]) != words[k][0] ||
               (i + 1 < |s| && Lower(s[i + 1]) != words[k][1])
    ensures SuffixWordAt(words, s, i) == 0
  {
    forall k | 0 <= k < |words| ensures !OccursAtCI(s, words[k], i) {
      if i + |words[k]| <= |s| {
        if Lower(s[i]) != words[k][0] {
          NotOccursAtCI(s, words[k], i, 0);
        } else {
          NotOccursAtCI(s, words[k], i, 1);
        }
      }
    }
  }
}
