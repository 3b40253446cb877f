/**
 * `srt_to_plain_text`: three regular-expression rewrites that turn a
 * SubRip file into running text, followed by `strip`.
 *
 *   1. a line made only of digits, at a line start and ended by a newline,
 *      is removed (the sequence numbers);
 *   2. two `HH:MM:SS,mmm` stamps joined by ` --> ` and followed by a
 *      newline are removed wherever they occur (the timing lines);
 *   3. every run of three or more newlines becomes two.
 *
 * Each rewrite is modelled as Python's `re.sub` scans: left to right, a
 * match is replaced and the scan resumes after it, otherwise one character
 * is copied. Digits are the ASCII digits.
 */
module SrtText {
  import opened Strings

  // ---------------------------------------------------------------------
  // Stage 1: sequence numbers
  // ---------------------------------------------------------------------

  /** The length of the run of digits that `s` starts with. */
  function LeadingDigits(s: string): (k: nat)
    ensures k <= |s|
    ensures forall i :: 0 <= i < k ==> IsDigit(s[i])
    ensures k < |s| ==> !IsDigit(s[k])
  {
    if s != [] && IsDigit(s[0]) then 1 + LeadingDigits(s[1..]) else 0
  }

  /** `\d+\n` matches at the start of `s`. */
  predicate NumberLineAt(s: string)
  {
    var k := LeadingDigits(s);
    0 < k < |s| && s[k] == '\n'
  }

  /**
   * Stage 1 on the rest `s` of the input; `bol` says whether the scan is at
   * a line start (the start of the input or just after a newline), where
   * `^` matches under `re.MULTILINE`.
   */
  function DropNumberLines(s: string, bol: bool): string
    decreases |s|
  {
    if s == [] then []
    else if bol && NumberLineAt(s) then DropNumberLines(s[LeadingDigits(s) + 1..], true)
    else [s[0]] + DropNumberLines(s[1..], s[0] == '\n')
  }

  // ---------------------------------------------------------------------
  // Stage 2: timing lines
  // ---------------------------------------------------------------------

  /** The shape of a timing line, `d` standing for one digit. */
  const TimingTemplate: string := "dd:dd:dd,ddd --> dd:dd:dd,ddd\n"

  predicate FitsTemplate(p: char, c: char)
  {
    if p == 'd' then IsDigit(c) else c == p
  }

  /** The timing pattern matches at the start of `s`. */
  predicate TimingLineAt(s: string)
  {
    |TimingTemplate| <= |s| && forall k :: 0 <= k < |TimingTemplate| ==> FitsTemplate(TimingTemplate[k], s[k])
  }

  /** Stage 2: every match of the timing pattern, wherever it starts, is removed. */
  function DropTimingLines(s: string): string
    decreases |s|
  {
    if s == [] then []
    else if TimingLineAt(s) then DropTimingLines(s[|TimingTemplate|..])
    else [s[0]] + DropTimingLines(s[1..])
  }

  // ---------------------------------------------------------------------
  // Stage 3: blank-line runs
  // ---------------------------------------------------------------------

  /** The length of the run of newlines that `s` starts with. */
  function LeadingNewlines(s: string): (k: nat)
    ensures k <= |s|
    ensures forall i :: 0 <= i < k ==> s[i] == '\n'
    ensures k < |s| ==> s[k] != '\n'
  {
    if s != [] && s[0] == '\n' then 1 + LeadingNewlines(s[1..]) else 0
  }

  /** Three newlines in a row start at position `i`. */
  predicate BlankRunAt(s: string, i: nat)
    requires i + 2 < |s|
  {
    s[i] == '\n' && s[i + 1] == '\n' && s[i + 2] == '\n'
  }

  /** No three newlines in a row. */
  predicate NoBlankRun(s: string)
  {
    forall i: nat :: i + 2 < |s| ==> !BlankRunAt(s, i)
  }

  /**
   * Stage 3: each maximal run of three or more newlines becomes exactly
   * two. The result has no run of three, and it starts with as many
   * newlines as the input, capped at two.
   */
  function SqueezeBlankLines(s: string): (r: string)
    ensures NoBlankRun(r)
    ensures var k := LeadingNewlines(s);
      LeadingNewlines(r) == if k >= 3 then 2 else k
    decreases |s|
  {
    if s == [] then []
    else if LeadingNewlines(s) >= 3 then
      var rest := SqueezeBlankLines(s[LeadingNewlines(s)..]);
      NoBlankRunPair(rest);
      "\n\n" + rest
    else
      var rest := SqueezeBlankLines(s[1..]);
      NoBlankRunCons(s[0], rest);
      [s[0]] + rest
  }

  /** Two newlines before text with no blank run make no blank run. */
  lemma NoBlankRunPair(rest: string)
    requires NoBlankRun(rest) && LeadingNewlines(rest) == 0
    ensures NoBlankRun("\n\n" + rest)
  {
    var t := "\n\n" + rest;
    forall k: nat | k + 2 < |t|
      ensures !BlankRunAt(t, k)
    {
      if k >= 2 {
        assert t[k] == rest[k - 2] && t[k + 1] == rest[k - 1] && t[k + 2] == rest[k];
        assert !BlankRunAt(rest, k - 2);
      } else {
        assert t[2] == rest[0];
      }
    }
  }

  /** One character before text with no blank run makes none, unless it completes three newlines. */
  lemma NoBlankRunCons(x: char, rest: string)
    requires NoBlankRun(rest)
    requires x == '\n' ==> LeadingNewlines(rest) < 2
    ensures NoBlankRun([x] + rest)
  {
    var t := [x] + rest;
    forall k: nat | k + 2 < |t|
      ensures !BlankRunAt(t, k)
    {
      if k >= 1 {
        assert t[k] == rest[k - 1] && t[k + 1] == rest[k] && t[k + 2] == rest[k + 1];
        assert !BlankRunAt(rest, k - 1);
      } else {
        assert t[0] == x && t[1] == rest[0] && t[2] == rest[1];
      }
    }
  }

  /** A piece of a string without a blank run has none either. */
  lemma NoBlankRunSlice(s: string, i: nat, j: nat)
    requires i <= j <= |s| && NoBlankRun(s)
    ensures NoBlankRun(s[i..j])
  {
    var t := s[i..j];
    forall k: nat | k + 2 < |t|
      ensures !BlankRunAt(t, k)
    {
      assert t[k] == s[i + k] && t[k + 1] == s[i + k + 1] && t[k + 2] == s[i + k + 2];
      assert !BlankRunAt(s, i + k);
    }
  }

  /** Stripping cannot create a blank run. */
  lemma StripKeepsNoBlankRun(s: string)
    requires NoBlankRun(s)
    ensures NoBlankRun(Strip(s))
  {
    var i, j := SkipSpaces(s, 0), SkipSpacesBack(s, |s|);
    if i < |s| {
      NoBlankRunSlice(s, i, j);
    }
  }

  /** The three rewrites, before the final `strip`. */
  function Rewritten(srt: string): (r: string)
    ensures NoBlankRun(r)
  {
    SqueezeBlankLines(DropTimingLines(DropNumberLines(srt, true)))
  }

  /**
   * `srt_to_plain_text`: the three stages, then `strip`. The text has no
   * leading or trailing whitespace and no run of three newlines.
   */
  function SrtToPlainText(srt: string): (text: string)
    ensures text != [] ==> !IsSpace(text[0]) && !IsSpace(text[|text| - 1])
    ensures NoBlankRun(text)
  {
    var r := Rewritten(srt);
    StripKeepsNoBlankRun(r);
    Strip(r)
  }

  // ---------------------------------------------------------------------
  // Well-formed SubRip input
  // ---------------------------------------------------------------------

  /** One cue of a SubRip file: sequence number, timing line (without its newline), lines of text. */
  datatype Cue = Cue(index: nat, timing: string, lines: seq<string>)

  /** The cue's text: its lines joined by newlines. */
  function CueText(c: Cue): string
  {
    Join(c.lines, "\n")
  }

  /**
   * A line of cue text: non-empty, not all digits, and with no tail that
   * reads as a timing line.
   */
  predicate WellFormedLine(l: string)
  {
    && l != [] && '\n' !in l && !AllDigits(l)
    && forall p :: 0 <= p <= |l| ==> !TimingLineAt(l[p..] + "\n")
  }

  /** A cue whose timing line has the pattern's shape and whose text is one or more such lines. */
  predicate WellFormedCue(c: Cue)
  {
    && |c.timing| + 1 == |TimingTemplate| && TimingLineAt(c.timing + "\n")
    && WellFormedLines(c.lines)
  }

  /** One or more lines of cue text. */
  predicate WellFormedLines(ls: seq<string>)
  {
    ls != [] && forall n :: 0 <= n < |ls| ==> WellFormedLine(ls[n])
  }

  predicate WellFormedCues(cues: seq<Cue>)
  {
    forall n :: 0 <= n < |cues| ==> WellFormedCue(cues[n])
  }

  /**
   * A SubRip file: each cue as its sequence number, its timing line and its
   * text lines, each on a line of its own, then a blank line.
   */
  function SrtOf(cues: seq<Cue>): string
  {
    if cues == [] then []
    else
      var c := cues[0];
      NatToString(c.index) + ("\n" + (c.timing + ("\n" + (CueText(c) + ("\n\n" + SrtOf(cues[1..]))))))
  }

  /** The cues with their sequence numbers gone (what stage 1 leaves). */
  function TimedTexts(cues: seq<Cue>): string
  {
    if cues == [] then []
    else cues[0].timing + ("\n" + (CueText(cues[0]) + ("\n\n" + TimedTexts(cues[1..]))))
  }

  /** The cue texts, each followed by a blank line (what stage 2 leaves). */
  function TextBlocks(cues: seq<Cue>): string
  {
    if cues == [] then [] else CueText(cues[0]) + ("\n\n" + TextBlocks(cues[1..]))
  }

  function Texts(cues: seq<Cue>): (ts: seq<string>)
    ensures |ts| == |cues| && forall n :: 0 <= n < |cues| ==> ts[n] == CueText(cues[n])
  {
    seq(|cues|, n requires 0 <= n < |cues| => CueText(cues[n]))
  }

  // Several lines of text

  /** Text of two or more lines is its first line, a newline, and the text of the others. */
  lemma JoinLinesSplit(ls: seq<string>, rest: string)
    requires |ls| > 1
    ensures Join(ls, "\n") + ("\n\n" + rest) == ls[0] + ("\n" + (Join(ls[1..], "\n") + ("\n\n" + rest)))
  {
    var j := Join(ls[1..], "\n");
    assert Join(ls, "\n") == ls[0] + "\n" + j;
    Regroup(ls[0], "\n", j, "\n\n" + rest);
  }

  lemma Regroup(a: string, b: string, c: string, d: string)
    ensures (a + b + c) + d == a + (b + (c + d))
  {
  }

  /** Text starts with the first character of its first line. */
  lemma JoinFirstChar(ls: seq<string>)
    requires ls != [] && ls[0] != []
    ensures Join(ls, "\n") != [] && Join(ls, "\n")[0] == ls[0][0]
  {
    if |ls| > 1 {
      assert Join(ls, "\n") == ls[0] + ("\n" + Join(ls[1..], "\n"));
    }
  }

  lemma WellFormedTail(ls: seq<string>)
    requires WellFormedLines(ls) && |ls| > 1
    ensures WellFormedLines(ls[1..])
  {
    forall n | 0 <= n < |ls[1..]| ensures WellFormedLine(ls[1..][n]) {
      assert ls[1..][n] == ls[n + 1];
    }
  }

  // Stage 1 on well-formed input

  lemma {:induction false} LeadingDigitsOfNumber(ds: string, rest: string)
    requires AllDigits(ds) && rest != [] && !IsDigit(rest[0])
    ensures LeadingDigits(ds + rest) == |ds|
  {
    if ds != [] {
      assert (ds + rest)[1..] == ds[1..] + rest;
      LeadingDigitsOfNumber(ds[1..], rest);
    } else {
      assert ds + rest == rest;
    }
  }

  /** A line that is not a sequence number is copied through, newline included. */
  lemma {:induction false} CopyLine(line: string, rest: string, bol: bool)
    requires '\n' !in line
    requires bol ==> !NumberLineAt(line + ("\n" + rest))
    ensures DropNumberLines(line + ("\n" + rest), bol) == line + ("\n" + DropNumberLines(rest, true))
  {
    var s := line + ("\n" + rest);
    if line == [] {
      assert s == "\n" + rest && s[1..] == rest;
    } else {
      assert s[0] == line[0] && s[1..] == line[1..] + ("\n" + rest);
      CopyLine(line[1..], rest, false);
    }
  }

  /** A text line that is not all digits is no sequence number. */
  lemma TextNotNumberLine(text: string, rest: string)
    requires '\n' !in text && !AllDigits(text)
    ensures !NumberLineAt(text + rest)
  {
    var s := text + rest;
    var k := LeadingDigits(s);
    assert forall i :: 0 <= i < |text| ==> s[i] == text[i];
    assert k < |text| && s[k] == text[k];
  }

  /** A timing line is no sequence number: its third character is `:`. */
  lemma TimingNotNumberLine(s: string)
    requires TimingLineAt(s)
    ensures !NumberLineAt(s)
  {
    assert FitsTemplate(TimingTemplate[0], s[0]) && FitsTemplate(TimingTemplate[1], s[1]);
    assert FitsTemplate(TimingTemplate[2], s[2]);
    assert IsDigit(s[0]) && IsDigit(s[1]) && s[2] == ':';
    assert LeadingDigits(s) == 2;
  }

  /** Only the first `|TimingTemplate|` characters decide a timing match. */
  lemma TimingLineOfCue(t: string, rest: string)
    requires |t| + 1 == |TimingTemplate| && TimingLineAt(t + "\n")
    ensures TimingLineAt(t + ("\n" + rest))
  {
    assert forall k :: 0 <= k < |TimingTemplate| ==> (t + ("\n" + rest))[k] == (t + "\n")[k];
  }

  /** Only the last character of a timing line is a newline. */
  lemma TemplateNewlines(k: nat)
    requires k < |TimingTemplate|
    ensures FitsTemplate(TimingTemplate[k], '\n') <==> k == |TimingTemplate| - 1
  {
  }

  /** A timing line has no newline before its last character. */
  lemma TimingHasNoNewline(t: string)
    requires |t| + 1 == |TimingTemplate| && TimingLineAt(t + "\n")
    ensures '\n' !in t
  {
    forall k | 0 <= k < |t|
      ensures t[k] != '\n'
    {
      assert (t + "\n")[k] == t[k];
      TemplateNewlines(k);
    }
  }

  /** A blank line is copied through by stage 1. */
  lemma DropNumberLinesBlank(rest: string)
    ensures DropNumberLines("\n\n" + rest, true) == "\n\n" + DropNumberLines(rest, true)
  {
    var s := "\n\n" + rest;
    assert s[0] == '\n' && s[1..] == "\n" + rest;
    assert ("\n" + rest)[1..] == rest;
  }

  lemma DropNumberLinesCue(c: Cue, rest: string)
    requires WellFormedCue(c)
    ensures var tail := c.timing + ("\n" + (CueText(c) + ("\n\n" + rest)));
      DropNumberLines(NatToString(c.index) + ("\n" + tail), true)
      == c.timing + ("\n" + (CueText(c) + ("\n\n" + DropNumberLines(rest, true))))
  {
    var ds := NatToString(c.index);
    var x := CueText(c) + ("\n\n" + rest);
    var tail := c.timing + ("\n" + x);
    var s := ds + ("\n" + tail);
    LeadingDigitsOfNumber(ds, "\n" + tail);
    assert s[|ds| + 1..] == tail;
    TimingLineOfCue(c.timing, x);
    TimingNotNumberLine(tail);
    TimingHasNoNewline(c.timing);
    CopyLine(c.timing, x, true);
    DropNumberLinesText(c.lines, rest);
  }

  /** The last line of a cue's text, then the blank line, are copied through by stage 1. */
  lemma DropNumberLinesLastLine(l: string, rest: string)
    requires WellFormedLine(l)
    ensures DropNumberLines(l + ("\n\n" + rest), true) == l + ("\n\n" + DropNumberLines(rest, true))
  {
    TextNotNumberLine(l, "\n\n" + rest);
    assert "\n\n" + rest == "\n" + ("\n" + rest);
    CopyLine(l, "\n" + rest, true);
    DropNumberLinesBlank(rest);
    assert ("\n\n" + rest)[1..] == "\n" + rest;
  }

  /** Stage 1 copies a cue's text lines and the blank line after them. */
  lemma {:induction false} DropNumberLinesText(ls: seq<string>, rest: string)
    requires WellFormedLines(ls)
    ensures DropNumberLines(Join(ls, "\n") + ("\n\n" + rest), true)
      == Join(ls, "\n") + ("\n\n" + DropNumberLines(rest, true))
    decreases |ls|
  {
    var l := ls[0];
    if |ls| == 1 {
      DropNumberLinesLastLine(l, rest);
    } else {
      var tail := ls[1..];
      var y := Join(tail, "\n") + ("\n\n" + rest);
      var r := DropNumberLines(rest, true);
      assert Join(ls, "\n") + ("\n\n" + rest) == l + ("\n" + y) by { JoinLinesSplit(ls, rest); }
      assert DropNumberLines(l + ("\n" + y), true) == l + ("\n" + DropNumberLines(y, true)) by {
        TextNotNumberLine(l, "\n" + y);
        CopyLine(l, y, true);
      }
      assert DropNumberLines(y, true) == Join(tail, "\n") + ("\n\n" + r) by {
        WellFormedTail(ls);
        DropNumberLinesText(tail, rest);
      }
      assert Join(ls, "\n") + ("\n\n" + r) == l + ("\n" + (Join(tail, "\n") + ("\n\n" + r))) by {
        JoinLinesSplit(ls, r);
      }
    }
  }

  lemma {:induction false} DropNumberLinesOfSrt(cues: seq<Cue>)
    requires WellFormedCues(cues)
    ensures DropNumberLines(SrtOf(cues), true) == TimedTexts(cues)
  {
    if cues != [] {
      DropNumberLinesCue(cues[0], SrtOf(cues[1..]));
      DropNumberLinesOfSrt(cues[1..]);
    }
  }

  // Stage 2 on well-formed input

  /** Characters at which no timing match starts are copied through. */
  lemma {:induction false} KeepUnmatched(a: string, b: string)
    requires forall p :: 0 <= p < |a| ==> !TimingLineAt(a[p..] + b)
    ensures DropTimingLines(a + b) == a + DropTimingLines(b)
  {
    if a != [] {
      assert a[0..] == a;
      assert (a + b)[1..] == a[1..] + b;
      assert forall p :: 0 <= p < |a| - 1 ==> a[1..][p..] == a[p + 1..];
      KeepUnmatched(a[1..], b);
    } else {
      assert a + b == b;
    }
  }

  /** No timing match starts inside a line of cue text. */
  lemma NoTimingInLine(l: string, rest: string, p: nat)
    requires WellFormedLine(l)
    requires p < |l|
    ensures !TimingLineAt(l[p..] + ("\n" + rest))
  {
    var s := l[p..] + ("\n" + rest);
    var m := |l| - p;
    if m + 1 < |TimingTemplate| {
      assert s[m] == '\n';
      TemplateNewlines(m);
    } else if m + 1 == |TimingTemplate| {
      assert forall k :: 0 <= k < |TimingTemplate| ==> s[k] == (l[p..] + "\n")[k];
    } else {
      var e := |TimingTemplate| - 1;
      assert s[e] == l[p + e];
      assert l[p + e] in l;
      TemplateNewlines(e);
    }
  }

  /** A timing match cannot start at a newline. */
  lemma DropTimingLinesNewline(rest: string)
    ensures DropTimingLines("\n" + rest) == "\n" + DropTimingLines(rest)
  {
    var s := "\n" + rest;
    TemplateNewlines(0);
    assert s[0] == '\n' && !TimingLineAt(s);
    assert s[1..] == rest;
  }

  /** A line of cue text and its newline are copied through by stage 2. */
  lemma DropTimingLinesLine(l: string, rest: string)
    requires WellFormedLine(l)
    ensures DropTimingLines(l + ("\n" + rest)) == l + ("\n" + DropTimingLines(rest))
  {
    forall p | 0 <= p < |l|
      ensures !TimingLineAt(l[p..] + ("\n" + rest))
    {
      NoTimingInLine(l, rest, p);
    }
    KeepUnmatched(l, "\n" + rest);
    DropTimingLinesNewline(rest);
  }

  /** Stage 2 copies a cue's text lines and the blank line after them. */
  lemma {:induction false} DropTimingLinesText(ls: seq<string>, rest: string)
    requires WellFormedLines(ls)
    ensures DropTimingLines(Join(ls, "\n") + ("\n\n" + rest)) == Join(ls, "\n") + ("\n\n" + DropTimingLines(rest))
    decreases |ls|
  {
    if |ls| == 1 {
      assert "\n\n" + rest == "\n" + ("\n" + rest);
      DropTimingLinesLine(ls[0], "\n" + rest);
      DropTimingLinesNewline(rest);
    } else {
      WellFormedTail(ls);
      DropTimingLinesText(ls[1..], rest);
      DropTimingLinesTextStep(ls, rest);
    }
  }

  /** The inductive step of `DropTimingLinesText`: the first line is copied, then the rest. */
  lemma DropTimingLinesTextStep(ls: seq<string>, rest: string)
    requires WellFormedLines(ls) && |ls| > 1
    requires DropTimingLines(Join(ls[1..], "\n") + ("\n\n" + rest))
      == Join(ls[1..], "\n") + ("\n\n" + DropTimingLines(rest))
    ensures DropTimingLines(Join(ls, "\n") + ("\n\n" + rest)) == Join(ls, "\n") + ("\n\n" + DropTimingLines(rest))
  {
    var l, tail := ls[0], ls[1..];
    var y := Join(tail, "\n") + ("\n\n" + rest);
    var r := DropTimingLines(rest);
    assert Join(ls, "\n") + ("\n\n" + rest) == l + ("\n" + y) by { JoinLinesSplit(ls, rest); }
    assert DropTimingLines(l + ("\n" + y)) == l + ("\n" + DropTimingLines(y)) by { DropTimingLinesLine(l, y); }
    assert Join(ls, "\n") + ("\n\n" + r) == l + ("\n" + (Join(tail, "\n") + ("\n\n" + r))) by {
      JoinLinesSplit(ls, r);
    }
  }

  lemma DropTimingLinesCue(c: Cue, rest: string)
    requires WellFormedCue(c)
    ensures DropTimingLines(c.timing + ("\n" + (CueText(c) + ("\n\n" + rest))))
      == CueText(c) + ("\n\n" + DropTimingLines(rest))
  {
    var x := CueText(c) + ("\n\n" + rest);
    var s := c.timing + ("\n" + x);
    TimingLineOfCue(c.timing, x);
    assert s[|TimingTemplate|..] == x;
    DropTimingLinesText(c.lines, rest);
  }

  lemma {:induction false} DropTimingLinesOfTimed(cues: seq<Cue>)
    requires WellFormedCues(cues)
    ensures DropTimingLines(TimedTexts(cues)) == TextBlocks(cues)
  {
    if cues != [] {
      DropTimingLinesCue(cues[0], TimedTexts(cues[1..]));
      DropTimingLinesOfTimed(cues[1..]);
    }
  }

  // Stage 3 on well-formed input

  /** A character other than a newline is copied and the rest is squeezed. */
  lemma SqueezeStep(x: char, rest: string)
    requires x != '\n'
    ensures SqueezeBlankLines([x] + rest) == [x] + SqueezeBlankLines(rest)
  {
    var u := [x] + rest;
    assert u[0] == x && u[1..] == rest;
    assert LeadingNewlines(u) == 0;
  }

  /** One more leading non-newline character keeps the equation of `SqueezeKeepsLine`. */
  lemma SqueezeCons(x: char, a: string, b: string)
    requires x != '\n'
    requires SqueezeBlankLines(a + b) == a + SqueezeBlankLines(b)
    ensures SqueezeBlankLines(([x] + a) + b) == ([x] + a) + SqueezeBlankLines(b)
  {
    assert ([x] + a) + b == [x] + (a + b);
    SqueezeStep(x, a + b);
  }

  lemma {:induction false} SqueezeKeepsLine(a: string, b: string)
    requires '\n' !in a
    ensures SqueezeBlankLines(a + b) == a + SqueezeBlankLines(b)
    decreases |a|
  {
    if a != [] {
      assert a[0] in a;
      assert forall c :: c in a[1..] ==> c in a;
      SqueezeKeepsLine(a[1..], b);
      SqueezeCons(a[0], a[1..], b);
      assert [a[0]] + a[1..] == a;
    } else {
      assert a + b == b;
    }
  }

  /** A single newline followed by text is left alone. */
  lemma SqueezeSingleNewline(rest: string)
    requires rest == [] || rest[0] != '\n'
    ensures SqueezeBlankLines("\n" + rest) == "\n" + SqueezeBlankLines(rest)
  {
    var v := "\n" + rest;
    assert v[0] == '\n' && v[1..] == rest;
    assert LeadingNewlines(v) == 1;
  }

  /** A blank line followed by text is left alone. */
  lemma SqueezeBlankPair(rest: string)
    requires rest == [] || rest[0] != '\n'
    ensures SqueezeBlankLines("\n\n" + rest) == "\n\n" + SqueezeBlankLines(rest)
  {
    var u := "\n\n" + rest;
    assert u[0] == '\n' && u[1] == '\n' && u[2..] == rest;
    assert LeadingNewlines(u) == 2;
    var v := u[1..];
    assert v[0] == '\n' && v[1..] == rest;
    assert LeadingNewlines(v) == 1;
  }

  lemma SqueezeCue(text: string, rest: string)
    requires '\n' !in text
    requires rest == [] || rest[0] != '\n'
    ensures SqueezeBlankLines(text + ("\n\n" + rest)) == text + ("\n\n" + SqueezeBlankLines(rest))
  {
    SqueezeKeepsLine(text, "\n\n" + rest);
    SqueezeBlankPair(rest);
  }

  /** Stage 3 copies a cue's text lines and the blank line after them. */
  lemma {:induction false} SqueezeText(ls: seq<string>, rest: string)
    requires WellFormedLines(ls)
    requires rest == [] || rest[0] != '\n'
    ensures SqueezeBlankLines(Join(ls, "\n") + ("\n\n" + rest)) == Join(ls, "\n") + ("\n\n" + SqueezeBlankLines(rest))
    decreases |ls|
  {
    var l := ls[0];
    if |ls| == 1 {
      SqueezeCue(l, rest);
    } else {
      var tail := ls[1..];
      var y := Join(tail, "\n") + ("\n\n" + rest);
      var r := SqueezeBlankLines(rest);
      WellFormedTail(ls);
      assert Join(ls, "\n") + ("\n\n" + rest) == l + ("\n" + y) by { JoinLinesSplit(ls, rest); }
      assert y[0] != '\n' by {
        JoinFirstChar(tail);
        assert tail[0][0] in tail[0];
      }
      assert SqueezeBlankLines(l + ("\n" + y)) == l + ("\n" + SqueezeBlankLines(y)) by {
        SqueezeKeepsLine(l, "\n" + y);
        SqueezeSingleNewline(y);
      }
      assert SqueezeBlankLines(y) == Join(tail, "\n") + ("\n\n" + r) by { SqueezeText(tail, rest); }
      assert Join(ls, "\n") + ("\n\n" + r) == l + ("\n" + (Join(tail, "\n") + ("\n\n" + r))) by {
        JoinLinesSplit(ls, r);
      }
    }
  }

  lemma {:induction false} SqueezeTextBlocks(cues: seq<Cue>)
    requires WellFormedCues(cues)
    ensures SqueezeBlankLines(TextBlocks(cues)) == TextBlocks(cues)
  {
    if cues != [] {
      var rest := TextBlocks(cues[1..]);
      if cues[1..] != [] {
        var ls := cues[1].lines;
        assert WellFormedLine(ls[0]);
        JoinFirstChar(ls);
        assert ls[0][0] in ls[0];
        assert rest[0] == ls[0][0];
      }
      SqueezeText(cues[0].lines, rest);
      SqueezeTextBlocks(cues[1..]);
    }
  }

  lemma {:induction false} TextBlocksJoin(cues: seq<Cue>)
    requires cues != []
    ensures TextBlocks(cues) == Join(Texts(cues), "\n\n") + "\n\n"
  {
    if |cues| > 1 {
      TextBlocksJoin(cues[1..]);
      assert Texts(cues)[1..] == Texts(cues[1..]);
    }
  }

  /** The three rewrites leave each cue's text followed by one blank line. */
  lemma RewrittenOfWellFormed(cues: seq<Cue>)
    requires WellFormedCues(cues)
    ensures Rewritten(SrtOf(cues)) == TextBlocks(cues)
  {
    StagesOfWellFormed(cues);
    RewrittenStages(SrtOf(cues), TimedTexts(cues), TextBlocks(cues));
  }

  /** Stage 1 leaves `timed`, stage 2 then leaves `text`, and stage 3 keeps it. */
  predicate Stages(srt: string, timed: string, text: string)
  {
    && DropNumberLines(srt, true) == timed
    && DropTimingLines(timed) == text
    && SqueezeBlankLines(text) == text
  }

  lemma StagesOfWellFormed(cues: seq<Cue>)
    requires WellFormedCues(cues)
    ensures Stages(SrtOf(cues), TimedTexts(cues), TextBlocks(cues))
  {
    DropNumberLinesOfSrt(cues);
    DropTimingLinesOfTimed(cues);
    SqueezeTextBlocks(cues);
  }

  /** `Rewritten` is the three stages in order. */
  lemma RewrittenStages(srt: string, timed: string, text: string)
    requires Stages(srt, timed, text)
    ensures Rewritten(srt) == text
  {
  }

  /**
   * On a well-formed SubRip file the plain text is exactly the cue texts,
   * separated by one blank line, and stripped; the lines of one cue stay
   * separated by single newlines.
   */
  lemma SrtOfWellFormed(cues: seq<Cue>)
    requires WellFormedCues(cues)
    ensures SrtToPlainText(SrtOf(cues)) == Strip(Join(Texts(cues), "\n\n"))
  {
    RewrittenOfWellFormed(cues);
    StripTextBlocks(cues);
  }

  lemma StripTextBlocks(cues: seq<Cue>)
    ensures Strip(TextBlocks(cues)) == Strip(Join(Texts(cues), "\n\n"))
  {
    if cues != [] {
      TextBlocksJoin(cues);
      StripTrailingSpace(Join(Texts(cues), "\n\n"), "\n\n");
    }
  }

  // ---------------------------------------------------------------------
  // A last line without a newline is kept
  // ---------------------------------------------------------------------

  /** A final line with no newline after it is copied unless it is a sequence number line. */
  lemma {:induction false} CopyLastLine(line: string, bol: bool)
    requires '\n' !in line
    requires bol ==> !NumberLineAt(line)
    ensures DropNumberLines(line, bol) == line
  {
    if line != [] {
      CopyLastLine(line[1..], false);
    }
  }

  /** Text shorter than a timing line holds no timing match. */
  lemma {:induction false} ShortTextKept(s: string)
    requires |s| < |TimingTemplate|
    ensures DropTimingLines(s) == s
  {
    if s != [] {
      ShortTextKept(s[1..]);
    }
  }

  /** A run of digits holds no timing match: a timing line has `:` third. */
  lemma {:induction false} DigitsKept(s: string)
    requires AllDigits(s)
    ensures DropTimingLines(s) == s
  {
    if s != [] {
      assert !TimingLineAt(s) by {
        if |TimingTemplate| <= |s| {
          assert !FitsTemplate(TimingTemplate[2], s[2]);
        }
      }
      DigitsKept(s[1..]);
    }
  }

  /**
   * Both patterns need a newline at the end of the line, so a file whose
   * last line is a sequence number without a newline keeps it.
   */
  lemma UnterminatedNumberKept(n: nat)
    ensures SrtToPlainText(NatToString(n)) == NatToString(n)
  {
    var ds := NatToString(n);
    assert LeadingDigits(ds) == |ds| by {
      LeadingDigitsAll(ds);
    }
    CopyLastLine(ds[1..], false);
    assert DropNumberLines(ds, true) == ds;
    DigitsKept(ds);
    assert ds + [] == ds;
    SqueezeKeepsLine(ds, []);
    StripNoOuterSpace(ds);
  }

  lemma {:induction false} LeadingDigitsAll(ds: string)
    requires AllDigits(ds)
    ensures LeadingDigits(ds) == |ds|
  {
    if ds != [] {
      LeadingDigitsAll(ds[1..]);
    }
  }

  /** The same holds for a timing line on the last line of the file. */
  lemma UnterminatedTimingKept(n: nat, t: string)
    requires |t| + 1 == |TimingTemplate| && TimingLineAt(t + "\n")
    ensures SrtToPlainText(NatToString(n) + ("\n" + t)) == t
  {
    NumberLineDropped(NatToString(n), t);
    TimingLastLine(t);
    assert Rewritten(NatToString(n) + ("\n" + t)) == t;
  }

  lemma NumberLineDropped(ds: string, rest: string)
    requires ds != [] && AllDigits(ds)
    ensures DropNumberLines(ds + ("\n" + rest), true) == DropNumberLines(rest, true)
  {
    var s := ds + ("\n" + rest);
    LeadingDigitsOfNumber(ds, "\n" + rest);
    assert s[|ds| + 1..] == rest;
  }

  lemma TimingLastLine(t: string)
    requires |t| + 1 == |TimingTemplate| && TimingLineAt(t + "\n")
    ensures DropNumberLines(t, true) == t && DropTimingLines(t) == t
    ensures SqueezeBlankLines(t) == t && Strip(t) == t
  {
    TimingHasNoNewline(t);
    TimingStartsWithDigits(t);
    CopyLastLine(t, true);
    ShortTextKept(t);
    assert t + [] == t;
    SqueezeKeepsLine(t, []);
    TimingEndsWithDigit(t);
    StripNoOuterSpace(t);
  }

  lemma TimingStartsWithDigits(t: string)
    requires |t| + 1 == |TimingTemplate| && TimingLineAt(t + "\n")
    ensures !NumberLineAt(t)
  {
    assert (t + "\n")[0] == t[0] && (t + "\n")[1] == t[1] && (t + "\n")[2] == t[2];
    assert FitsTemplate(TimingTemplate[0], t[0]) && FitsTemplate(TimingTemplate[1], t[1]);
    assert FitsTemplate(TimingTemplate[2], t[2]);
    assert LeadingDigits(t) == 2;
  }

  lemma TimingEndsWithDigit(t: string)
    requires |t| + 1 == |TimingTemplate| && TimingLineAt(t + "\n")
    ensures !IsSpace(t[0]) && !IsSpace(t[|t| - 1])
  {
    assert (t + "\n")[0] == t[0] && (t + "\n")[|t| - 1] == t[|t| - 1];
    assert FitsTemplate(TimingTemplate[0], t[0]);
    assert FitsTemplate(TimingTemplate[|t| - 1], t[|t| - 1]);
  }
}
