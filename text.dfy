/** String helpers with the semantics of the JavaScript built-ins the core uses:
    `toLowerCase` (restricted to ASCII letters), `includes`, `trim`, `indexOf`, `slice`, `split`,
    `join`, `padStart` and the decimal rendering of integers. */
module Text {

  /** The characters matched by JavaScript's `\s` and removed by `trim`. */
  predicate IsSpace(c: char)
  {
    || c == ' ' || c == '\t' || c == '\n' || c == '\r' || c == '\U{000B}' || c == '\U{000C}'
    || c == '\U{00A0}' || c == '\U{1680}' || ('\U{2000}' <= c <= '\U{200A}')
    || c == '\U{2028}' || c == '\U{2029}' || c == '\U{202F}' || c == '\U{205F}'
    || c == '\U{3000}' || c == '\U{FEFF}'
  }

  /** JavaScript's `\w` (no Unicode flag): ASCII letters, digits and underscore. */
  predicate IsWordChar(c: char)
  {
    ('a' <= c <= 'z') || ('A' <= c <= 'Z') || ('0' <= c <= '9') || c == '_'
  }

  predicate IsDigit(c: char) { '0' <= c <= '9' }

  predicate AllDigits(s: string) { forall i :: 0 <= i < |s| ==> IsDigit(s[i]) }

  /** Lower-case mapping of ASCII letters; every other character is unchanged. */
  function Lower(c: char): (d: char)
    ensures 'A' <= c <= 'Z' ==> d as int == c as int + 32
    ensures !('A' <= c <= 'Z') ==> d == c
  {
    if 'A' <= c <= 'Z' then (c as int + 32) as char else c
  }

  /** `toLowerCase` restricted to ASCII: JavaScript also lower-cases other letters (the
      Kelvin sign becomes "k", and "İ" becomes two code units), which this model does not. */
  function ToLower(s: string): (r: string)
    ensures |r| == |s|
    ensures forall i :: 0 <= i < |s| ==> r[i] == Lower(s[i])
  {
    seq(|s|, i requires 0 <= i < |s| => Lower(s[i]))
  }

  lemma ToLowerSlice(s: string, a: nat, b: nat)
    requires a <= b <= |s|
    ensures ToLower(s)[a..b] == ToLower(s[a..b])
  {
  }

  /** Text without upper-case ASCII letters is its own lower-case form. */
  lemma ToLowerOfNoUpper(s: string)
    requires forall i :: 0 <= i < |s| ==> !('A' <= s[i] <= 'Z')
    ensures ToLower(s) == s
  {
  }

  lemma ToLowerConcat(s: string, t: string)
    ensures ToLower(s + t) == ToLower(s) + ToLower(t)
  {
  }

  /** `sub` occurs in `s` starting at index `i`. */
  predicate OccursAt(s: string, sub: string, i: int)
  {
    0 <= i && i + |sub| <= |s| && s[i..i + |sub|] == sub
  }

  /** `s.includes(sub)`. */
  predicate Contains(s: string, sub: string)
  {
    exists i :: 0 <= i <= |s| && OccursAt(s, sub, i)
  }

  /** `keys.some(k => s.includes(k))`. */
  predicate ContainsAny(s: string, keys: seq<string>)
  {
    exists k :: 0 <= k < |keys| && Contains(s, keys[k])
  }

  /** `[a, b, c].some(k => s.includes(k))` is the disjunction of the three tests. */
  lemma AnyOfThree(s: string, a: string, b: string, c: string)
    ensures ContainsAny(s, [a, b, c]) <==> Contains(s, a) || Contains(s, b) || Contains(s, c)
  {
    var ks := [a, b, c];
    if Contains(s, a) { assert Contains(s, ks[0]); }
    if Contains(s, b) { assert Contains(s, ks[1]); }
    if Contains(s, c) { assert Contains(s, ks[2]); }
  }

  /** `[a, b].some(k => s.includes(k))` is the disjunction of the two tests. */
  lemma AnyOfTwo(s: string, a: string, b: string)
    ensures ContainsAny(s, [a, b]) <==> Contains(s, a) || Contains(s, b)
  {
    var ks := [a, b];
    if Contains(s, a) { assert Contains(s, ks[0]); }
    if Contains(s, b) { assert Contains(s, ks[1]); }
  }

  /** If `big` occurs in `s` and `small` occurs in `big`, then `small` occurs in `s`. */
  lemma ContainsTransitive(s: string, big: string, small: string)
    requires Contains(s, big) && Contains(big, small)
    ensures Contains(s, small)
  {
    var i :| 0 <= i <= |s| && OccursAt(s, big, i);
    var k :| 0 <= k <= |big| && OccursAt(big, small, k);
    assert i + |big| <= |s| && s[i..i + |big|] == big;
    assert k + |small| <= |big| && big[k..k + |small|] == small;
    forall j | 0 <= j < |small| ensures s[i + k + j] == small[j] {
      assert small[j] == big[k + j] == s[i + k + j];
    }
    assert s[i + k..i + k + |small|] == small;
    assert OccursAt(s, small, i + k);
  }

  lemma ContainsSelf(s: string)
    ensures Contains(s, s)
  {
    assert OccursAt(s, s, 0);
  }

  /** Removes leading white space. */
  function TrimStart(s: string): (r: string)
    ensures |r| <= |s| && r == s[|s| - |r|..]
    ensures r == [] || !IsSpace(r[0])
    ensures forall i :: 0 <= i < |s| - |r| ==> IsSpace(s[i])
  {
    if |s| > 0 && IsSpace(s[0]) then TrimStart(s[1..]) else s
  }

  /** Removes trailing white space. */
  function TrimEnd(s: string): (r: string)
    ensures |r| <= |s| && r == s[..|r|]
    ensures r == [] || !IsSpace(r[|r| - 1])
    ensures forall i :: |r| <= i < |s| ==> IsSpace(s[i])
  {
    if |s| > 0 && IsSpace(s[|s| - 1]) then TrimEnd(s[..|s| - 1]) else s
  }

  predicate IsTrimmed(s: string)
  {
    s == [] || (!IsSpace(s[0]) && !IsSpace(s[|s| - 1]))
  }

  /** True when every character is white space (so `trim()` gives ""). */
  predicate IsBlank(s: string)
  {
    forall i :: 0 <= i < |s| ==> IsSpace(s[i])
  }

  /** `s.trim()`: a trimmed slice of `s`; `TrimMargins` says which slice. */
  function Trim(s: string): (r: string)
    ensures IsTrimmed(r)
    ensures Contains(s, r)
  {
    var t := TrimStart(s);
    assert OccursAt(s, TrimEnd(t), |s| - |t|);
    TrimEnd(t)
  }

  /** `trim` removes exactly a blank prefix and a blank suffix: its result is the slice of `s`
      between two all-white-space margins. */
  lemma TrimMargins(s: string)
    ensures exists a :: 0 <= a <= |s| - |Trim(s)| && Trim(s) == s[a..a + |Trim(s)|] &&
                        IsBlank(s[..a]) && IsBlank(s[a + |Trim(s)|..])
  {
    var t := TrimStart(s);
    var r := TrimEnd(t);
    var a := |s| - |t|;
    assert r == Trim(s);
    assert r == s[a..a + |r|];
    assert IsBlank(s[..a]);
    assert s[a + |r|..] == t[|r|..];
    TrimEndMargin(t);
  }

  lemma TrimEndMargin(t: string)
    ensures IsBlank(t[|TrimEnd(t)|..])
  {
    var tail := t[|TrimEnd(t)|..];
    forall i | 0 <= i < |tail| ensures IsSpace(tail[i]) {
      assert tail[i] == t[|TrimEnd(t)| + i];
    }
  }

  lemma TrimEmptyIffBlank(s: string)
    ensures Trim(s) == "" <==> IsBlank(s)
  {
    var t := TrimStart(s);
    if IsBlank(s) {
      assert |t| == 0;
    } else {
      var k :| 0 <= k < |s| && !IsSpace(s[k]);
      var j := k - (|s| - |t|);
      assert 0 <= j < |t| && t[j] == s[k];
      assert |TrimEnd(t)| > j;
    }
  }

  lemma TrimOfTrimmed(s: string)
    requires IsTrimmed(s)
    ensures Trim(s) == s
  {
  }

  /** The end of the run of white space starting at `i` (`\s*` matched greedily from `i`). */
  function SkipSpaces(s: string, i: nat): (j: nat)
    requires i <= |s|
    ensures i <= j <= |s|
    ensures forall k :: i <= k < j ==> IsSpace(s[k])
    ensures j == |s| || !IsSpace(s[j])
    decreases |s| - i
  {
    if i < |s| && IsSpace(s[i]) then SkipSpaces(s, i + 1) else i
  }

  /** Removes the longest suffix made of characters satisfying `drop` (a `[...]+$` replace). */
  function StripTrailing(s: string, drop: char -> bool): (r: string)
    ensures |r| <= |s| && r == s[..|r|]
    ensures r == [] || !drop(r[|r| - 1])
    ensures forall i :: |r| <= i < |s| ==> drop(s[i])
  {
    if |s| > 0 && drop(s[|s| - 1]) then StripTrailing(s[..|s| - 1], drop) else s
  }

  /** `kw` occurs at index `i` of `s`, ignoring ASCII letter case (`kw` is lower-case). */
  predicate OccursAtCI(s: string, kw: string, i: int)
  {
    0 <= i && i + |kw| <= |s| && ToLower(s[i..i + |kw|]) == kw
  }

  /** A case-insensitive match fails as soon as one character differs. */
  lemma NotOccursAtCI(s: string, kw: string, i: nat, j: nat)
    requires i + j < |s| && j < |kw| && Lower(s[i + j]) != kw[j]
    ensures !OccursAtCI(s, kw, i)
  {
    if i + |kw| <= |s| {
      assert ToLower(s[i..i + |kw|])[j] == Lower(s[i + j]);
    }
  }

  /** Index of the first occurrence of `c`, or -1 (`indexOf`). */
  function IndexOf(s: string, c: char): (i: int)
    ensures -1 <= i < |s|
    ensures i == -1 <==> c !in s
    ensures i >= 0 ==> s[i] == c && c !in s[..i]
  {
    if |s| == 0 then -1
    else if s[0] == c then 0
    else
      var j := IndexOf(s[1..], c);
      if j == -1 then -1 else j + 1
  }

  /** Index of the last occurrence of `c`, or -1 (`lastIndexOf`). */
  function LastIndexOf(s: string, c: char): (i: int)
    ensures -1 <= i < |s|
    ensures i == -1 <==> c !in s
    ensures i >= 0 ==> s[i] == c && c !in s[i + 1..]
  {
    if |s| == 0 then -1
    else if s[|s| - 1] == c then |s| - 1
    else LastIndexOf(s[..|s| - 1], c)
  }

  /** `s.slice(a, b)` for in-range indices: empty when `b <= a`. */
  function Slice(s: string, a: nat, b: nat): (r: string)
    requires a <= |s| && b <= |s|
    ensures b <= a ==> r == ""
    ensures a < b ==> r == s[a..b]
  {
    if b <= a then "" else s[a..b]
  }

  function DigitChar(d: nat): (c: char)
    requires d < 10
    ensures IsDigit(c) && c as int - '0' as int == d
  {
    ('0' as int + d) as char
  }

  /** JavaScript's `length`: UTF-16 code units, so a character above U+FFFF counts twice. */
  function Utf16Length(s: string): (r: nat)
    ensures |s| <= r <= 2 * |s|
  {
    if s == "" then 0 else (if s[0] as int > 0xFFFF then 2 else 1) + Utf16Length(s[1..])
  }

  /** Text made only of characters up to U+FFFF has as many code units as characters. */
  lemma {:induction false} Utf16LengthOfBmp(s: string)
    requires forall i :: 0 <= i < |s| ==> s[i] as int <= 0xFFFF
    ensures Utf16Length(s) == |s|
  {
    if s != "" {
      Utf16LengthOfBmp(s[1..]);
    }
  }

  /** One character above U+FFFF, such as an emoji, is two code units long. */
  lemma Utf16LengthOfAstral(c: char)
    requires c as int > 0xFFFF
    ensures Utf16Length([c]) == 2
  {
    assert [c][1..] == "";
  }

  /** The decimal rendering of a natural number (`String(n)`). */
  function NatToString(n: nat): (r: string)
    ensures 1 <= |r| && AllDigits(r)
    ensures (|r| == 1) == (n < 10)
    ensures n >= 10 ==> r[0] != '0'
    decreases n
  {
    if n < 10 then [DigitChar(n)] else NatToString(n / 10) + [DigitChar(n % 10)]
  }

  /** `String(i)` for an integer. */
  function IntToString(i: int): string
  {
    if i < 0 then "-" + NatToString(-i) else NatToString(i)
  }

  /** The value of a string of decimal digits (`parseInt` / `Number` on such a string). */
  function DigitsValue(s: string): nat
    requires AllDigits(s)
  {
    if s == [] then 0 else DigitsValue(s[..|s| - 1]) * 10 + (s[|s| - 1] as int - '0' as int)
  }

  lemma {:induction false} DigitsValueOfNatToString(n: nat)
    ensures DigitsValue(NatToString(n)) == n
    decreases n
  {
    if n >= 10 {
      var r := NatToString(n);
      DigitsValueOfNatToString(n / 10);
      assert r[..|r| - 1] == NatToString(n / 10);
    }
  }

  lemma {:induction false} DigitsValueBound(s: string)
    requires AllDigits(s)
    ensures |s| == 1 ==> DigitsValue(s) < 10
    ensures |s| == 2 ==> DigitsValue(s) < 100
    ensures |s| == 2 && s[0] == '0' ==> DigitsValue(s) == s[1] as int - '0' as int
    ensures |s| == 2 && s[0] != '0' ==> DigitsValue(s) >= 10
  {
    if |s| == 2 {
      assert s[..1][..0] == [];
      assert DigitsValue(s[..1]) == s[0] as int - '0' as int;
      assert DigitsValue(s) == DigitsValue(s[..1]) * 10 + (s[1] as int - '0' as int);
    }
  }

  /** `s.padStart(2, "0")`. */
  function PadStart2(s: string): (r: string)
    ensures |s| >= 2 ==> r == s
    ensures |s| < 2 ==> |r| == 2 && r[2 - |s|..] == s && forall i :: 0 <= i < 2 - |s| ==> r[i] == '0'
  {
    if |s| >= 2 then s else if |s| == 1 then "0" + s else "00"
  }

  /** Two-digit zero-padded rendering of a number below 100. */
  lemma TwoDigits(n: nat)
    requires n < 100
    ensures |PadStart2(NatToString(n))| == 2
    ensures AllDigits(PadStart2(NatToString(n)))
    ensures DigitsValue(PadStart2(NatToString(n))) == n
  {
    var s := NatToString(n);
    DigitsValueOfNatToString(n);
    if n >= 10 {
      assert NatToString(n / 10) == [DigitChar(n / 10)];
    }
    var p := PadStart2(s);
    if n < 10 {
      assert p == ['0', s[0]];
      assert p[..1] == ['0'];
      assert s[..0] == [];
    }
  }

  /** Rendering a two-digit string's value back gives the same string. */
  lemma {:induction false} TwoDigitsRoundTrip(s: string)
    requires |s| == 2 && AllDigits(s)
    ensures PadStart2(NatToString(DigitsValue(s))) == s
  {
    var v := DigitsValue(s);
    DigitsValueBound(s);
    assert s[..1][..0] == [];
    assert v == (s[0] as int - '0' as int) * 10 + (s[1] as int - '0' as int);
    if s[0] == '0' {
      assert NatToString(v) == [DigitChar(v)];
    } else {
      assert NatToString(v / 10) == [DigitChar(v / 10)];
    }
  }

  /** `parts.join(sep)`. */
  function Join(parts: seq<string>, sep: string): string
  {
    if |parts| == 0 then ""
    else if |parts| == 1 then parts[0]
    else parts[0] + sep + Join(parts[1..], sep)
  }

  /** Every part occurs in the joined text. */
  lemma {:induction false} JoinContainsPart(parts: seq<string>, sep: string, i: nat)
    requires i < |parts|
    ensures Contains(Join(parts, sep), parts[i])
  {
    var j := Join(parts, sep);
    if |parts| == 1 {
      assert OccursAt(j, parts[0], 0);
    } else if i == 0 {
      assert j == parts[0] + (sep + Join(parts[1..], sep));
      assert j[..|parts[0]|] == parts[0];
      assert OccursAt(j, parts[0], 0);
    } else {
      JoinContainsPart(parts[1..], sep, i - 1);
      var rest := Join(parts[1..], sep);
      var pre := parts[0] + sep;
      assert j == pre + rest;
      var k :| 0 <= k <= |rest| && OccursAt(rest, parts[1..][i - 1], k);
      assert parts[1..][i - 1] == parts[i];
      assert j[|pre| + k..|pre| + k + |parts[i]|] == rest[k..k + |parts[i]|];
      assert OccursAt(j, parts[i], |pre| + k);
    }
  }

  /** `s.split("\n")`: the pieces between line feeds (at least one). */
  function SplitLines(s: string): (r: seq<string>)
    ensures |r| >= 1
    ensures forall k :: 0 <= k < |r| ==> '\n' !in r[k]
    decreases |s|
  {
    var i := IndexOf(s, '\n');
    if i == -1 then [s] else [s[..i]] + SplitLines(s[i + 1..])
  }

  /** Joining the lines with line feeds gives back the text. */
  lemma {:induction false} JoinSplitLines(s: string)
    ensures Join(SplitLines(s), "\n") == s
    decreases |s|
  {
    var i := IndexOf(s, '\n');
    if i != -1 {
      var rest := SplitLines(s[i + 1..]);
      calc {
        Join(SplitLines(s), "\n");
        Join([s[..i]] + rest, "\n");
        { JoinCons(s[..i], rest, "\n"); }
        s[..i] + "\n" + Join(rest, "\n");
        { JoinSplitLines(s[i + 1..]); }
        s[..i] + "\n" + s[i + 1..];
        { SplitAround(s, i); }
        s;
      }
    }
  }

  /** A text is its part before position `i`, the character there and the part after it. */
  lemma SplitAround(s: string, i: nat)
    requires i < |s|
    ensures s[..i] + [s[i]] + s[i + 1..] == s
  {
  }

  /** Joining a part in front of at least one other puts the separator between them. */
  lemma JoinCons(a: string, r: seq<string>, sep: string)
    requires |r| >= 1
    ensures Join([a] + r, sep) == a + sep + Join(r, sep)
  {
    assert ([a] + r)[1..] == r;
  }

  /** Lexicographic order on characters taken as whole code points; JavaScript's default
      `sort` compares UTF-16 code units, which orders characters above U+FFFF differently. */
  predicate StrLe(a: string, b: string)
  {
    if a == [] then true
    else if b == [] then false
    else if a[0] == b[0] then StrLe(a[1..], b[1..])
    else a[0] < b[0]
  }

  lemma {:induction false} StrLeTotal(a: string, b: string)
    ensures StrLe(a, b) || StrLe(b, a)
  {
    if a != [] && b != [] && a[0] == b[0] {
      StrLeTotal(a[1..], b[1..]);
    }
  }

  lemma {:induction false} StrLeAntisymmetric(a: string, b: string)
    requires StrLe(a, b) && StrLe(b, a)
    ensures a == b
  {
    if a != [] && b != [] {
      StrLeAntisymmetric(a[1..], b[1..]);
      assert a == [a[0]] + a[1..];
      assert b == [b[0]] + b[1..];
    }
  }

  lemma {:induction false} StrLeTransitive(a: string, b: string, c: string)
    requires StrLe(a, b) && StrLe(b, c)
    ensures StrLe(a, c)
  {
    if a != [] && b != [] && c != [] && a[0] == b[0] && b[0] == c[0] {
      StrLeTransitive(a[1..], b[1..], c[1..]);
    }
  }
}
