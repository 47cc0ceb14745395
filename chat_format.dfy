/** The chat window's formatter for bot messages: a reply is cut into lines; lines starting
    with "- " or "* " become bullet items, lines starting with "1. " numbered items, blank
    lines breaks and the rest paragraphs; inside a line `**bold**` and `*italic*` runs are
    styled. Consecutive items of one kind are gathered into one list. */
module ChatFormat {
  import opened Wrappers
  import opened Text

  // ---------------------------------------------------------------------------------------
  // Inline styling
  // ---------------------------------------------------------------------------------------

  datatype Style = Strong | Em

  /** A piece of a formatted line: unstyled text, or the inside of a styled run. */
  datatype Inline = Plain(text: string) | Styled(style: Style, text: string)

  /** What a line renders to: its pieces, or the line itself when there are none. */
  datatype Content = Parts(parts: seq<Inline>) | Verbatim(line: string)

  /** A run `[start, end)`: the opening marker at `start`, the closing marker at `end`. */
  datatype Span = Span(start: nat, end: nat)

  /** Characters JavaScript's `.` does not match. */
  predicate LineTerminator(c: char)
  {
    c == '\n' || c == '\r' || c == '\U{2028}' || c == '\U{2029}'
  }

  /** Length of a style's marker: `**` or `*`. */
  function Width(st: Style): (w: nat)
    ensures w == 1 || w == 2
  {
    if st == Strong then 2 else 1
  }

  function Marker(st: Style): (m: string)
    ensures |m| == Width(st)
  {
    if st == Strong then "**" else "*"
  }

  /** A marker of style `st` at `i`. Bold: `\*\*`. Italic: `(?<!\*)\*(?!\*)`, a single
      asterisk with no asterisk on either side. */
  predicate MarkAt(s: string, i: int, st: Style)
  {
    match st
    case Strong => 0 <= i && i + 2 <= |s| && s[i] == '*' && s[i + 1] == '*'
    case Em =>
      0 <= i < |s| && s[i] == '*' && (i == 0 || s[i - 1] != '*') && (i + 1 == |s| || s[i + 1] != '*')
  }

  /** No line terminator in `s[a..b]`. */
  predicate OneLine(s: string, a: int, b: int)
    requires 0 <= a <= b <= |s|
  {
    forall m :: a <= m < b ==> !LineTerminator(s[m])
  }

  /** The pattern `marker (.+?) marker` matches `s` at `sp`: a non-empty one-line inside and
      no closing marker earlier than `sp.end` (the inside is matched lazily). */
  predicate IsMatch(s: string, st: Style, sp: Span)
  {
    && sp.start + Width(st) < sp.end <= |s|
    && MarkAt(s, sp.start, st) && MarkAt(s, sp.end, st)
    && OneLine(s, sp.start + Width(st), sp.end)
    && forall k :: sp.start + Width(st) < k < sp.end ==> !MarkAt(s, k, st)
  }

  /** The first closing marker at or after `j`, provided no line terminator comes before it. */
  function CloseFrom(s: string, j: nat, st: Style): (r: Option<nat>)
    requires j <= |s|
    ensures r.Some? ==> j <= r.value && r.value + Width(st) <= |s| && MarkAt(s, r.value, st)
    decreases |s| - j
  {
    if MarkAt(s, j, st) then Some(j)
    else if j == |s| || LineTerminator(s[j]) then None
    else CloseFrom(s, j + 1, st)
  }

  /** The closing marker found is the first one after `j` and the line does not end before
      it; none is found only when every marker after `j` lies past a line terminator. */
  lemma {:induction false} CloseFromCorrect(s: string, j: nat, st: Style)
    requires j <= |s|
    ensures CloseFrom(s, j, st).Some? ==> OneLine(s, j, CloseFrom(s, j, st).value)
    ensures CloseFrom(s, j, st).Some? ==> forall k :: j <= k < CloseFrom(s, j, st).value ==> !MarkAt(s, k, st)
    ensures CloseFrom(s, j, st).None? ==> forall k :: j <= k <= |s| && OneLine(s, j, k) ==> !MarkAt(s, k, st)
    decreases |s| - j
  {
    if !MarkAt(s, j, st) && j < |s| && !LineTerminator(s[j]) {
      CloseFromCorrect(s, j + 1, st);
      var r := CloseFrom(s, j + 1, st);
      if r.Some? {
        assert OneLine(s, j, r.value);
      } else {
        forall k | j <= k <= |s| && OneLine(s, j, k) ensures !MarkAt(s, k, st) {
          if k > j {
            assert OneLine(s, j + 1, k);
          }
        }
      }
    }
  }

  /** The leftmost match starting at or after `i`. */
  function MatchFrom(s: string, i: nat, st: Style): (r: Option<Span>)
    requires i <= |s|
    ensures r.Some? ==> i <= r.value.start && r.value.start + Width(st) < r.value.end && r.value.end + Width(st) <= |s|
    decreases |s| - i
  {
    if i == |s| then None
    else
      var close := CloseAfterOpening(s, i, st);
      if close.Some? then Some(Span(i, close.value)) else MatchFrom(s, i + 1, st)
  }

  /** The closing marker of a run opened at `i`: the opening marker and a first inside
      character that is no line terminator, then the first closing marker on the line. */
  function CloseAfterOpening(s: string, i: nat, st: Style): (r: Option<nat>)
    requires i < |s|
    ensures r.Some? ==> i + Width(st) < r.value && r.value + Width(st) <= |s|
  {
    if MarkAt(s, i, st) && i + Width(st) < |s| && !LineTerminator(s[i + Width(st)])
    then CloseFrom(s, i + Width(st) + 1, st) else None
  }

  /** A run opened at `i` matches exactly up to the closing marker found for it. */
  lemma CloseAfterOpeningCorrect(s: string, i: nat, st: Style)
    requires i < |s|
    ensures CloseAfterOpening(s, i, st).Some? ==> IsMatch(s, st, Span(i, CloseAfterOpening(s, i, st).value))
    ensures CloseAfterOpening(s, i, st).None? ==> forall sp: Span :: sp.start == i ==> !IsMatch(s, st, sp)
  {
    var w := Width(st);
    var close := CloseAfterOpening(s, i, st);
    if i + w < |s| {
      CloseFromCorrect(s, i + w + 1, st);
    }
    if close.Some? {
      assert OneLine(s, i + w, close.value);
    } else {
      forall sp: Span | sp.start == i ensures !IsMatch(s, st, sp) {
        if sp.start + w < sp.end <= |s| && MarkAt(s, i, st) && OneLine(s, i + w, sp.end) {
          assert OneLine(s, i + w + 1, sp.end);
        }
      }
    }
  }

  /** `MatchFrom` finds a match, and no match starts between `i` and it; or there is none. */
  lemma {:induction false} MatchFromCorrect(s: string, i: nat, st: Style)
    requires i <= |s|
    ensures MatchFrom(s, i, st).Some? ==> IsMatch(s, st, MatchFrom(s, i, st).value)
    ensures MatchFrom(s, i, st).Some? ==>
              forall sp: Span :: i <= sp.start < MatchFrom(s, i, st).value.start ==> !IsMatch(s, st, sp)
    ensures MatchFrom(s, i, st).None? ==> forall sp: Span :: i <= sp.start ==> !IsMatch(s, st, sp)
    decreases |s| - i
  {
    if i < |s| {
      CloseAfterOpeningCorrect(s, i, st);
      if CloseAfterOpening(s, i, st).None? {
        MatchFromCorrect(s, i + 1, st);
      }
    } else {
      forall sp: Span | i <= sp.start ensures !IsMatch(s, st, sp) {
      }
    }
  }

  /** `remaining.match(pattern)`: the leftmost match in `s`, if any. */
  function FindMatch(s: string, st: Style): (r: Option<Span>)
    ensures r.Some? ==> r.value.start + Width(st) < r.value.end && r.value.end + Width(st) <= |s|
  {
    MatchFrom(s, 0, st)
  }

  /** The match found is a match and the leftmost one; no match is found only when there is none. */
  lemma FindMatchCorrect(s: string, st: Style)
    ensures FindMatch(s, st).Some? ==> IsMatch(s, st, FindMatch(s, st).value)
    ensures FindMatch(s, st).Some? ==>
              forall sp: Span :: sp.start < FindMatch(s, st).value.start ==> !IsMatch(s, st, sp)
    ensures FindMatch(s, st).None? <==> forall sp: Span :: !IsMatch(s, st, sp)
  {
    MatchFromCorrect(s, 0, st);
  }

  /** The styled run `formatInline` picks next. */
  datatype Run = Run(style: Style, span: Span)

  /** The run styled next: bold when it starts no later than the first italic run. */
  function NextRun(s: string): (r: Option<Run>)
    ensures r.Some? ==> r.value.span.start + Width(r.value.style) < r.value.span.end
                        && r.value.span.end + Width(r.value.style) <= |s|
  {
    var b := FindMatch(s, Strong);
    var t := FindMatch(s, Em);
    if b.Some? && (t.None? || b.value.start <= t.value.start) then Some(Run(Strong, b.value))
    else if t.Some? then Some(Run(Em, t.value))
    else None
  }

  /** The run picked is a match; an italic run is picked only when no bold run starts at or
      before it, a bold run only when no italic run starts before it; none only when neither
      pattern matches. */
  lemma NextRunCorrect(s: string)
    ensures NextRun(s).None? <==> (forall sp: Span :: !IsMatch(s, Strong, sp)) && (forall sp: Span :: !IsMatch(s, Em, sp))
    ensures NextRun(s).Some? ==> IsMatch(s, NextRun(s).value.style, NextRun(s).value.span)
    ensures NextRun(s).Some? && NextRun(s).value.style == Em ==>
              forall sp: Span :: sp.start <= NextRun(s).value.span.start ==> !IsMatch(s, Strong, sp)
    ensures NextRun(s).Some? && NextRun(s).value.style == Strong ==>
              forall sp: Span :: sp.start < NextRun(s).value.span.start ==> !IsMatch(s, Em, sp)
  {
    FindMatchCorrect(s, Strong);
    FindMatchCorrect(s, Em);
  }

  /** The plain text before a run, as a piece when it is not empty. */
  function Lead(s: string, start: nat): (r: seq<Inline>)
    requires start <= |s|
  {
    if start > 0 then [Plain(s[..start])] else []
  }

  /** The pieces `formatInline` emits for `s`, in order. */
  function InlineParts(s: string): (r: seq<Inline>)
    ensures |r| == 0 <==> s == ""
    ensures forall k :: 0 <= k < |r| ==> r[k].text != ""
    decreases |s|
  {
    if s == "" then []
    else
      var next := NextRun(s);
      if next.None? then [Plain(s)]
      else
        Emitted(s, next.value) + InlineParts(After(s, next.value))
  }

  /** `formatInline`: the pieces, or the line itself when it yields none. */
  function FormatInline(line: string): (r: Content)
    ensures r.Verbatim? <==> line == ""
  {
    var parts := InlineParts(line);
    if |parts| > 0 then Parts(parts) else Verbatim(line)
  }

  /** The markdown a piece was cut from. */
  function Source(p: Inline): string
  {
    match p
    case Plain(t) => t
    case Styled(st, t) => Marker(st) + t + Marker(st)
  }

  /** The markdown a sequence of pieces was cut from. */
  function Render(parts: seq<Inline>): string
  {
    if |parts| == 0 then "" else Source(parts[0]) + Render(parts[1..])
  }

  lemma {:induction false} RenderAppend(a: seq<Inline>, b: seq<Inline>)
    ensures Render(a + b) == Render(a) + Render(b)
  {
    if |a| > 0 {
      assert (a + b)[0] == a[0];
      assert (a + b)[1..] == a[1..] + b;
      RenderAppend(a[1..], b);
    } else {
      assert a + b == b;
    }
  }

  /** A marker of style `st` spells `Marker(st)`. */
  lemma MarkerAt(s: string, i: int, st: Style)
    requires MarkAt(s, i, st)
    ensures 0 <= i && i + Width(st) <= |s| && s[i..i + Width(st)] == Marker(st)
  {
  }

  /** A run between two markers spells marker, inside, marker. */
  lemma RunSpelling(s: string, st: Style, sp: Span)
    requires sp.start + Width(st) <= sp.end && sp.end + Width(st) <= |s|
    requires s[sp.start..sp.start + Width(st)] == Marker(st) && s[sp.end..sp.end + Width(st)] == Marker(st)
    ensures s[sp.start..sp.end + Width(st)] == Source(Styled(st, s[sp.start + Width(st)..sp.end]))
  {
    var w := Width(st);
    SliceThree(s, sp.start, sp.start + w, sp.end, sp.end + w);
    var t := s[sp.start + w..sp.end];
    var m := Marker(st);
    calc {
      s[sp.start..sp.end + w];
      m + t + m;
      Source(Styled(st, t));
    }
  }

  lemma SliceThree(s: string, a: nat, b: nat, c: nat, d: nat)
    requires a <= b <= c <= d <= |s|
    ensures s[a..d] == s[a..b] + s[b..c] + s[c..d]
  {
  }

  /** The run picked next spells marker, inside, marker. */
  lemma NextRunSpelling(s: string)
    requires NextRun(s).Some?
    ensures var run := NextRun(s).value;
            s[run.span.start..run.span.end + Width(run.style)]
            == Source(Styled(run.style, s[run.span.start + Width(run.style)..run.span.end]))
  {
    var run := NextRun(s).value;
    NextRunMarkers(s, run);
    RunSpelling(s, run.style, run.span);
  }

  lemma NextRunMarkers(s: string, run: Run)
    requires NextRun(s) == Some(run)
    ensures run.span.end + Width(run.style) <= |s|
    ensures s[run.span.start..run.span.start + Width(run.style)] == Marker(run.style)
    ensures s[run.span.end..run.span.end + Width(run.style)] == Marker(run.style)
  {
    NextRunMarks(s);
    MarkerAt(s, run.span.start, run.style);
    MarkerAt(s, run.span.end, run.style);
  }

  /** The run picked next has a marker at either end. */
  lemma NextRunMarks(s: string)
    requires NextRun(s).Some?
    ensures MarkAt(s, NextRun(s).value.span.start, NextRun(s).value.style)
    ensures MarkAt(s, NextRun(s).value.span.end, NextRun(s).value.style)
  {
    MatchFromMarks(s, 0, Strong);
    MatchFromMarks(s, 0, Em);
  }

  lemma {:induction false} MatchFromMarks(s: string, i: nat, st: Style)
    requires i <= |s|
    ensures MatchFrom(s, i, st).Some? ==>
              MarkAt(s, MatchFrom(s, i, st).value.start, st) && MarkAt(s, MatchFrom(s, i, st).value.end, st)
    decreases |s| - i
  {
    if i < |s| && CloseAfterOpening(s, i, st).None? {
      MatchFromMarks(s, i + 1, st);
    }
  }

  /** One step of `InlineParts`: the text before the next run, the run's inside, and the
      pieces of what follows its closing marker. */
  lemma InlinePartsStep(s: string)
    requires s != ""
    ensures NextRun(s).None? ==> InlineParts(s) == [Plain(s)]
    ensures NextRun(s).Some? ==>
              InlineParts(s) == Emitted(s, NextRun(s).value) + InlineParts(After(s, NextRun(s).value))
  {
  }

  /** The pieces emitted for run `run` of `s`: the text before it, then its inside. */
  function Emitted(s: string, run: Run): seq<Inline>
    requires run.span.start + Width(run.style) <= run.span.end <= |s|
  {
    Lead(s, run.span.start) + [Styled(run.style, s[run.span.start + Width(run.style)..run.span.end])]
  }

  /** What follows the closing marker of run `run` of `s`. */
  function After(s: string, run: Run): string
    requires run.span.end + Width(run.style) <= |s|
  {
    s[run.span.end + Width(run.style)..]
  }

  /** Styling loses no character: putting the markers back around the styled pieces gives
      back the line. */
  lemma {:induction false} RenderInlineParts(s: string)
    ensures Render(InlineParts(s)) == s
    decreases |s|
  {
    if s != "" {
      var next := NextRun(s);
      if next.Some? {
        RenderInlineParts(After(s, next.value));
        RenderStep(s, next.value);
      } else {
        InlinePartsStep(s);
        RenderOne(Plain(s));
      }
    }
  }

  /** If the text after the next run renders back, so does the whole text. */
  lemma RenderStep(s: string, run: Run)
    requires s != "" && NextRun(s) == Some(run)
    requires Render(InlineParts(After(s, run))) == After(s, run)
    ensures Render(InlineParts(s)) == s
  {
    InlinePartsStep(s);
    var em, rest := Emitted(s, run), After(s, run);
    calc {
      Render(InlineParts(s));
      Render(em + InlineParts(rest));
      { RenderAppend(em, InlineParts(rest)); }
      Render(em) + Render(InlineParts(rest));
      Render(em) + rest;
      { NextRunSpelling(s); RenderEmitted(s, run); }
      s[..run.span.end + Width(run.style)] + rest;
      { SplitAt(s, run.span.end + Width(run.style)); }
      s;
    }
  }

  lemma SplitAt(s: string, i: nat)
    requires i <= |s|
    ensures s[..i] + s[i..] == s
  {
  }

  /** The pieces emitted for a run, rendered, give back the text up to its closing marker. */
  lemma RenderEmitted(s: string, run: Run)
    requires run.span.start + Width(run.style) <= run.span.end && run.span.end + Width(run.style) <= |s|
    requires s[run.span.start..run.span.end + Width(run.style)]
             == Source(Styled(run.style, s[run.span.start + Width(run.style)..run.span.end]))
    ensures Render(Emitted(s, run)) == s[..run.span.end + Width(run.style)]
  {
    var st, sp, w := run.style, run.span, Width(run.style);
    var piece := Styled(st, s[sp.start + w..sp.end]);
    var head := Lead(s, sp.start);
    calc {
      Render(Emitted(s, run));
      Render(head + [piece]);
      { RenderSnoc(head, piece); }
      Render(head) + Source(piece);
      { RenderLead(s, sp.start); }
      s[..sp.start] + s[sp.start..sp.end + w];
      { SliceJoin(s, sp.start, sp.end + w); }
      s[..sp.end + w];
    }
  }

  lemma RenderSnoc(head: seq<Inline>, piece: Inline)
    ensures Render(head + [piece]) == Render(head) + Source(piece)
  {
    RenderOne(piece);
    RenderAppend(head, [piece]);
  }

  lemma RenderOne(p: Inline)
    ensures Render([p]) == Source(p)
  {
    assert Render([p]) == Source(p) + Render([]);
  }

  lemma RenderLead(s: string, start: nat)
    requires start <= |s|
    ensures Render(Lead(s, start)) == s[..start]
  {
    if start > 0 {
      RenderOne(Plain(s[..start]));
    }
  }

  /** A prefix of `s` is its two pieces cut at `i`. */
  lemma SliceJoin(s: string, i: nat, j: nat)
    requires i <= j <= |s|
    ensures s[..i] + s[i..j] == s[..j]
  {
  }

  /** One turn of `formatInline`'s loop: the pieces emitted for the next run (or for the whole
      rest when no pattern matches), and the text left after it. */
  method Advance(remaining: string) returns (emitted: seq<Inline>, after: string)
    requires remaining != ""
    ensures |after| < |remaining|
    ensures InlineParts(remaining) == emitted + InlineParts(after)
  {
    var next := NextRun(remaining);
    InlinePartsStep(remaining);
    if next.Some? {
      emitted := Emitted(remaining, next.value);
      after := After(remaining, next.value);
    } else {
      emitted := [Plain(remaining)];
      after := "";
    }
  }

  /** The loop of `formatInline`: while text remains, emit the text before the next styled run,
      the run's inside, and continue after its closing marker. */
  method FormatInlineLoop(line: string) returns (r: Content)
    ensures r == FormatInline(line)
  {
    var parts: seq<Inline> := [];
    var remaining := line;
    while remaining != ""
      invariant parts + InlineParts(remaining) == InlineParts(line)
      decreases |remaining|
    {
      var emitted, after := Advance(remaining);
      AppendAssoc(parts, emitted, InlineParts(after));
      parts := parts + emitted;
      remaining := after;
    }
    assert parts == InlineParts(line);
    if |parts| > 0 {
      r := Parts(parts);
    } else {
      r := Verbatim(line);
    }
  }

  lemma AppendAssoc<T>(a: seq<T>, b: seq<T>, c: seq<T>)
    ensures (a + b) + c == a + (b + c)
  {
  }

  /** For a given opening marker there is at most one match: the inside is matched lazily. */
  lemma MatchUnique(s: string, st: Style, a: Span, b: Span)
    requires IsMatch(s, st, a) && IsMatch(s, st, b) && a.start == b.start
    ensures a == b
  {
  }

  /** The match found is the one starting at `sp.start` when no match starts earlier. */
  lemma FindsLeftmost(s: string, st: Style, sp: Span)
    requires IsMatch(s, st, sp)
    requires forall k: nat, e: nat :: k < sp.start ==> !IsMatch(s, st, Span(k, e))
    ensures FindMatch(s, st) == Some(sp)
  {
    FindMatchCorrect(s, st);
    var f := FindMatch(s, st).value;
    assert f.start <= sp.start;
    MatchUnique(s, st, f, sp);
  }

  /** Bold and italic runs are styled and the text between them kept as it is. */
  lemma StyledExample(s: string)
    requires s == "**a** *b*"
    ensures InlineParts(s) == [Styled(Strong, "a"), Plain(" "), Styled(Em, "b")]
  {
    var first, second := Run(Strong, Span(0, 3)), Run(Em, Span(1, 3));
    var rest := " *b*";
    StrongRunFirst(s);
    EmRunAfter(rest);
    InlinePartsStep(s);
    InlinePartsStep(rest);
  }

  /** In `**a** *b*` the bold run `**a**` comes first. */
  lemma StrongRunFirst(s: string)
    requires s == "**a** *b*"
    ensures NextRun(s) == Some(Run(Strong, Span(0, 3)))
    ensures Emitted(s, Run(Strong, Span(0, 3))) == [Styled(Strong, "a")]
    ensures After(s, Run(Strong, Span(0, 3))) == " *b*"
  {
    assert s[2..3] == "a";
    assert IsMatch(s, Strong, Span(0, 3));
    FindsLeftmost(s, Strong, Span(0, 3));
  }

  /** What remains, ` *b*`, has no bold run; its first italic run is `*b*`. */
  lemma EmRunAfter(r: string)
    requires r == " *b*"
    ensures NextRun(r) == Some(Run(Em, Span(1, 3)))
    ensures Emitted(r, Run(Em, Span(1, 3))) == [Plain(" "), Styled(Em, "b")]
    ensures After(r, Run(Em, Span(1, 3))) == ""
  {
    assert r[..1] == " " && r[2..3] == "b";
    FindMatchCorrect(r, Strong);
    assert forall sp: Span :: !IsMatch(r, Strong, sp) by {
      forall sp: Span ensures !IsMatch(r, Strong, sp) {
        assert !MarkAt(r, sp.start, Strong);
      }
    }
    assert IsMatch(r, Em, Span(1, 3));
    FindsLeftmost(r, Em, Span(1, 3));
  }

  // ---------------------------------------------------------------------------------------
  // Lines and lists
  // ---------------------------------------------------------------------------------------

  /** `ul` or `ol`. */
  datatype ListKind = Bullets | Numbered

  /** What `formatMessage` emits: a paragraph, a break, or a list with its items. */
  datatype Element = Para(content: Content) | Break | List(kind: ListKind, items: seq<Content>)

  /** How a line is read once trimmed: a list item with its text after the marker, a blank
      line, or the text of a paragraph. */
  datatype Line = Item(kind: ListKind, text: string) | Blank | Text(text: string)

  /** Where the text of a bullet item starts in the trimmed line `t` (`^[-*]\s+`), or 0. */
  function BulletPrefix(t: string): (n: nat)
    ensures n <= |t|
    ensures n > 0 <==> |t| >= 2 && (t[0] == '-' || t[0] == '*') && IsSpace(t[1])
    ensures n > 0 ==> n >= 2 && forall k :: 1 <= k < n ==> IsSpace(t[k])
    ensures n > 0 ==> n == |t| || !IsSpace(t[n])
  {
    if |t| >= 2 && (t[0] == '-' || t[0] == '*') && IsSpace(t[1]) then SkipSpaces(t, 1) else 0
  }

  /** The end of the run of digits starting at `i`. */
  function DigitsEnd(t: string, i: nat): (j: nat)
    requires i <= |t|
    ensures i <= j <= |t| && (j == |t| || !IsDigit(t[j]))
    ensures forall k :: i <= k < j ==> IsDigit(t[k])
    decreases |t| - i
  {
    if i < |t| && IsDigit(t[i]) then DigitsEnd(t, i + 1) else i
  }

  /** Where the text of a numbered item starts in the trimmed line `t` (`^\d+\.\s+`), or 0. */
  function NumberPrefix(t: string): (n: nat)
    ensures n <= |t|
    ensures n > 0 <==> var d := DigitsEnd(t, 0); 0 < d && d + 1 < |t| && t[d] == '.' && IsSpace(t[d + 1])
    ensures n > 0 ==>
              var d := DigitsEnd(t, 0);
              d + 2 <= n && (forall k :: 0 <= k < d ==> IsDigit(t[k])) && t[d] == '.' &&
              (forall k :: d < k < n ==> IsSpace(t[k])) && (n == |t| || !IsSpace(t[n]))
  {
    var d := DigitsEnd(t, 0);
    if 0 < d && d + 1 < |t| && t[d] == '.' && IsSpace(t[d + 1]) then SkipSpaces(t, d + 1) else 0
  }

  /** In a trimmed line, the text after a list marker is trimmed and not empty. */
  lemma ItemTextTrimmed(t: string, n: nat)
    requires IsTrimmed(t) && 0 < n <= |t| && IsSpace(t[n - 1]) && (n == |t| || !IsSpace(t[n]))
    ensures t[n..] != "" && IsTrimmed(t[n..])
  {
  }

  /** How `formatMessage` reads a line: the bullet test first, then the numbered test, then
      blank or paragraph. */
  function Classify(line: string): (r: Line)
    ensures r == Blank <==> IsBlank(line)
    ensures r.Text? ==> r.text == Trim(line) && r.text != ""
    ensures r.Item? ==> r.text != "" && IsTrimmed(r.text)
    ensures r.Item? ==> Contains(line, r.text)
    ensures r.Item? && r.kind == Bullets <==> BulletPrefix(Trim(line)) > 0
    ensures r.Item? && r.kind == Numbered <==> BulletPrefix(Trim(line)) == 0 && NumberPrefix(Trim(line)) > 0
    ensures r.Item? ==>
              r.text == Trim(line)[(if r.kind == Bullets then BulletPrefix(Trim(line)) else NumberPrefix(Trim(line)))..]
    ensures r.Text? <==> BulletPrefix(Trim(line)) == 0 && NumberPrefix(Trim(line)) == 0 && !IsBlank(line)
  {
    var t := Trim(line);
    TrimEmptyIffBlank(line);
    var b := BulletPrefix(t);
    var n := NumberPrefix(t);
    if b > 0 then
      ItemTextTrimmed(t, b);
      ItemContained(line, t, b);
      Item(Bullets, t[b..])
    else if n > 0 then
      ItemTextTrimmed(t, n);
      ItemContained(line, t, n);
      Item(Numbered, t[n..])
    else if t == "" then Blank
    else Text(t)
  }

  lemma ItemContained(line: string, t: string, n: nat)
    requires Contains(line, t) && n <= |t|
    ensures Contains(line, t[n..])
  {
    var k :| 0 <= k <= |line| && OccursAt(line, t, k);
    assert OccursAt(t, t[n..], n);
    ContainsTransitive(line, t, t[n..]);
  }

  /** The variables `formatMessage` keeps while it walks the lines. */
  datatype Progress = Progress(elements: seq<Element>, listItems: seq<Content>, listType: Option<ListKind>)

  const START := Progress([], [], None)

  /** The kind a flushed list gets: `ol` only when the pending type says so. */
  function KindOf(listType: Option<ListKind>): (k: ListKind)
    ensures listType.Some? ==> k == listType.value
  {
    if listType == Some(Numbered) then Numbered
    else assert listType.Some? ==> listType.value != Numbered; Bullets
  }

  /** `flushList`: pending items, if any, become one list element. */
  function Flush(p: Progress): (r: Progress)
    ensures r.listItems == []
    ensures |p.listItems| > 0 ==> r.elements == p.elements + [List(KindOf(p.listType), p.listItems)] && r.listType == None
    ensures |p.listItems| == 0 ==> r == p
  {
    if |p.listItems| > 0 then Progress(p.elements + [List(KindOf(p.listType), p.listItems)], [], None) else p
  }

  /** One step of the walk over the lines. */
  function Step(p: Progress, line: string): Progress
  {
    Apply(p, Classify(line))
  }

  /** The step for a line read as `c`: an item joins the pending list (after a flush when
      its kind differs); a blank line or a paragraph flushes and is appended. */
  function Apply(p: Progress, c: Line): Progress
  {
    match c
    case Item(k, text) =>
      var q := if p.listType != Some(k) then Flush(p) else p;
      Progress(q.elements, q.listItems + [FormatInline(text)], Some(k))
    case Blank =>
      var q := Flush(p);
      Progress(q.elements + [Break], q.listItems, q.listType)
    case Text(text) =>
      var q := Flush(p);
      Progress(q.elements + [Para(FormatInline(text))], q.listItems, q.listType)
  }

  /** The state after walking `lines` from the start. */
  function Walk(lines: seq<string>): Progress
  {
    if |lines| == 0 then START else Step(Walk(lines[..|lines| - 1]), lines[|lines| - 1])
  }

  /** `formatMessage`: null for an empty text; otherwise the elements after the last line and
      a final flush. */
  function Format(text: string): (r: Option<seq<Element>>)
    ensures r.None? <==> text == ""
  {
    if text == "" then None else Some(Flush(Walk(SplitLines(text))).elements)
  }

  /** The closures of `formatMessage` with the variables they share. */
  class Formatter {
    var elements: seq<Element>
    var listItems: seq<Content>
    var listType: Option<ListKind>

    function Snapshot(): Progress
      reads this
    {
      Progress(elements, listItems, listType)
    }

    constructor()
      ensures Snapshot() == START
    {
      elements := [];
      listItems := [];
      listType := None;
    }

    /** `flushList`. */
    method FlushList()
      modifies this
      ensures Snapshot() == Flush(old(Snapshot()))
    {
      if |listItems| > 0 {
        if listType == Some(Numbered) {
          elements := elements + [List(Numbered, listItems)];
        } else {
          elements := elements + [List(Bullets, listItems)];
        }
        listItems := [];
        listType := None;
      }
    }

    /** An item line: a flush first when its kind differs from the pending list's, then the
        formatted text joins the pending items. */
    method AddItem(kind: ListKind, text: string)
      modifies this
      ensures Snapshot() == Apply(old(Snapshot()), Item(kind, text))
    {
      if listType != Some(kind) {
        FlushList();
      }
      listType := Some(kind);
      var content := FormatInlineLoop(text);
      listItems := listItems + [content];
    }

    /** A blank line: a flush, then a break. */
    method AddBreak()
      modifies this
      ensures Snapshot() == Apply(old(Snapshot()), Blank)
    {
      FlushList();
      elements := elements + [Break];
    }

    /** A text line: a flush, then a paragraph of the formatted text. */
    method AddParagraph(text: string)
      modifies this
      ensures Snapshot() == Apply(old(Snapshot()), Text(text))
    {
      FlushList();
      var content := FormatInlineLoop(text);
      elements := elements + [Para(content)];
    }

    /** The body of the `forEach` over the lines. */
    method AddLine(line: string)
      modifies this
      ensures Snapshot() == Step(old(Snapshot()), line)
    {
      var read := ReadLine(line);
      match read
      case Item(kind, text) => AddItem(kind, text);
      case Blank => AddBreak();
      case Text(text) => AddParagraph(text);
    }
  }

  /** The tests `formatMessage` makes on a line, in its order: the bullet marker, the number
      marker, then empty or not. */
  method ReadLine(line: string) returns (read: Line)
    ensures read == Classify(line)
  {
    var trimmed := Trim(line);
    var bullet := BulletPrefix(trimmed);
    if bullet > 0 {
      return Item(Bullets, trimmed[bullet..]);
    }
    var number := NumberPrefix(trimmed);
    if number > 0 {
      return Item(Numbered, trimmed[number..]);
    }
    if trimmed == "" {
      return Blank;
    }
    return Text(trimmed);
  }

  lemma WalkStep(lines: seq<string>, i: nat)
    requires i < |lines|
    ensures Walk(lines[..i + 1]) == Step(Walk(lines[..i]), lines[i])
  {
    assert lines[..i + 1][..i] == lines[..i];
  }

  /** `formatMessage`, walking the lines with a `Formatter`. */
  method FormatMessage(text: string) returns (r: Option<seq<Element>>)
    ensures r == Format(text)
  {
    if text == "" {
      return None;
    }
    var lines := SplitLines(text);
    var f := new Formatter();
    for i := 0 to |lines|
      invariant f.Snapshot() == Walk(lines[..i])
    {
      WalkStep(lines, i);
      f.AddLine(lines[i]);
    }
    f.FlushList();
    assert lines[..|lines|] == lines;
    r := Some(f.elements);
  }

  // ---------------------------------------------------------------------------------------
  // What the walk keeps
  // ---------------------------------------------------------------------------------------

  /** Items with the kind of list they sit in. */
  function Tag(k: ListKind, items: seq<Content>): (r: seq<(ListKind, Content)>)
    ensures |r| == |items| && forall i :: 0 <= i < |r| ==> r[i] == (k, items[i])
  {
    seq(|items|, i requires 0 <= i < |items| => (k, items[i]))
  }

  /** The list items of `lines`, tagged with the kind of their marker, in order. */
  function ItemsOf(lines: seq<string>): seq<(ListKind, Content)>
  {
    if |lines| == 0 then []
    else
      var c := Classify(lines[|lines| - 1]);
      ItemsOf(lines[..|lines| - 1]) + (if c.Item? then [(c.kind, FormatInline(c.text))] else [])
  }

  /** The breaks and paragraphs `lines` call for, in order. */
  function BlocksOf(lines: seq<string>): seq<Element>
  {
    if |lines| == 0 then []
    else
      var c := Classify(lines[|lines| - 1]);
      BlocksOf(lines[..|lines| - 1])
      + (match c
         case Item(_, _) => []
         case Blank => [Break]
         case Text(t) => [Para(FormatInline(t))])
  }

  /** The items of the lists among `es`, tagged with their list's kind, in order. */
  function Listed(es: seq<Element>): seq<(ListKind, Content)>
  {
    if |es| == 0 then []
    else
      var e := es[|es| - 1];
      Listed(es[..|es| - 1]) + (if e.List? then Tag(e.kind, e.items) else [])
  }

  /** The elements of `es` that are not lists, in order. */
  function Blocks(es: seq<Element>): seq<Element>
  {
    if |es| == 0 then []
    else
      var e := es[|es| - 1];
      Blocks(es[..|es| - 1]) + (if e.List? then [] else [e])
  }

  /** The items still waiting for a flush. */
  function Pending(p: Progress): seq<(ListKind, Content)>
  {
    Tag(KindOf(p.listType), p.listItems)
  }

  /** No two lists stand next to each other with the same kind. */
  predicate Separated(es: seq<Element>)
  {
    forall k :: 0 <= k && k + 1 < |es| && es[k].List? && es[k + 1].List? ==> es[k].kind != es[k + 1].kind
  }

  /** Every list has an item. */
  predicate ListsNonEmpty(es: seq<Element>)
  {
    forall k :: 0 <= k < |es| && es[k].List? ==> |es[k].items| > 0
  }

  /** What holds between lines: a list type is pending exactly when items are; the lists so
      far are separated and not empty; and when the last element is a list, items of another
      kind are pending. */
  predicate Invariant(p: Progress)
  {
    && (p.listType.Some? <==> |p.listItems| > 0)
    && Separated(p.elements) && ListsNonEmpty(p.elements)
    && (|p.elements| > 0 && p.elements[|p.elements| - 1].List? ==>
          p.listType.Some? && p.listType.value != p.elements[|p.elements| - 1].kind)
  }

  lemma ListedSnoc(es: seq<Element>, e: Element)
    ensures Listed(es + [e]) == Listed(es) + (if e.List? then Tag(e.kind, e.items) else [])
    ensures Blocks(es + [e]) == Blocks(es) + (if e.List? then [] else [e])
  {
    assert (es + [e])[..|es|] == es;
  }

  lemma TagSnoc(k: ListKind, items: seq<Content>, c: Content)
    ensures Tag(k, items + [c]) == Tag(k, items) + [(k, c)]
  {
  }

  /** A flush moves the pending items into the lists and leaves the other elements alone. */
  lemma FlushKeeps(p: Progress)
    requires p.listType.Some? <==> |p.listItems| > 0
    ensures Listed(Flush(p).elements) + Pending(Flush(p)) == Listed(p.elements) + Pending(p)
    ensures Blocks(Flush(p).elements) == Blocks(p.elements)
  {
    if |p.listItems| > 0 {
      ListedSnoc(p.elements, List(KindOf(p.listType), p.listItems));
    }
  }

  /** A flush keeps the lists separated and not empty, when the pending kind differs from the
      last list's. */
  lemma FlushInvariant(p: Progress)
    requires Invariant(p)
    ensures Separated(Flush(p).elements) && ListsNonEmpty(Flush(p).elements)
    ensures Flush(p).listType == None && Flush(p).listItems == []
  {
  }

  /** One line adds its item, or its break or paragraph, and nothing else. */
  lemma StepKeeps(p: Progress, c: Line)
    requires Invariant(p)
    ensures var q := Apply(p, c);
            && Listed(q.elements) + Pending(q)
               == Listed(p.elements) + Pending(p) + (if c.Item? then [(c.kind, FormatInline(c.text))] else [])
            && Blocks(q.elements)
               == Blocks(p.elements)
                  + (match c
                     case Item(_, _) => []
                     case Blank => [Break]
                     case Text(t) => [Para(FormatInline(t))])
  {
    var f := Flush(p);
    FlushKeeps(p);
    match c
    case Item(k, t) =>
      if p.listType != Some(k) {
        assert Listed(f.elements) == Listed(p.elements) + Pending(p);
        TagSnoc(k, f.listItems, FormatInline(t));
      } else {
        TagSnoc(k, p.listItems, FormatInline(t));
      }
    case Blank =>
      ListedSnoc(f.elements, Break);
    case Text(t) =>
      ListedSnoc(f.elements, Para(FormatInline(t)));
  }

  /** One line keeps the invariant. */
  lemma StepInvariant(p: Progress, c: Line)
    requires Invariant(p)
    ensures Invariant(Apply(p, c))
  {
    FlushInvariant(p);
    var f := Flush(p);
    var q := Apply(p, c);
    if c.Item? && p.listType != Some(c.kind) && |p.listItems| > 0 {
      assert f.elements[|f.elements| - 1].kind == p.listType.value;
    }
  }

  /** Walking the lines loses no list item and no paragraph: the lists hold the items of the
      list lines in order, each with its marker's kind, and the other elements are the breaks
      and paragraphs of the other lines in order. */
  lemma {:induction false} WalkKeeps(lines: seq<string>)
    ensures Invariant(Walk(lines))
    ensures Listed(Walk(lines).elements) + Pending(Walk(lines)) == ItemsOf(lines)
    ensures Blocks(Walk(lines).elements) == BlocksOf(lines)
  {
    if |lines| > 0 {
      var init := lines[..|lines| - 1];
      WalkKeeps(init);
      StepKeeps(Walk(init), Classify(lines[|lines| - 1]));
      StepInvariant(Walk(init), Classify(lines[|lines| - 1]));
    }
  }

  /** The message's lists hold exactly its list lines' items, in order and each under its
      marker's kind; its other elements are its blank and text lines in order; no list is empty
      and two lists of the same kind are never adjacent (a run of same-kind items is one list). */
  lemma FormatKeepsLines(text: string)
    requires text != ""
    ensures var es := Format(text).value;
            && Listed(es) == ItemsOf(SplitLines(text))
            && Blocks(es) == BlocksOf(SplitLines(text))
            && Separated(es) && ListsNonEmpty(es)
  {
    var p := Walk(SplitLines(text));
    WalkKeeps(SplitLines(text));
    FlushKeeps(p);
    FlushInvariant(p);
    var q := Flush(p);
    assert Pending(q) == [];
    if |p.listItems| > 0 {
      var n := |p.elements|;
      assert q.elements[n].kind == KindOf(p.listType) == p.listType.value;
    }
  }
}
