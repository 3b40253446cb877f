/**
 * The few Python `str` operations the pipeline relies on, over `seq<char>`:
 * whitespace stripping, `split()`, `' '.join`, whitespace collapsing,
 * character search and decimal digits. The scans work on positions of the
 * original string.
 */
module Strings {

  /**
   * `c.isspace()` in Python 3: the characters that `str.strip()`,
   * `str.split()` and the regular-expression class `\s` treat as whitespace.
   */
  predicate IsSpace(c: char)
  {
    ('\t' <= c <= '\r') || ('\U{1c}' <= c <= ' ') || c == '\U{85}' || c == '\U{a0}'
    || c == '\U{1680}' || ('\U{2000}' <= c <= '\U{200a}') || c == '\U{2028}'
    || c == '\U{2029}' || c == '\U{202f}' || c == '\U{205f}' || c == '\U{3000}'
  }

  predicate IsDigit(c: char)
  {
    '0' <= c <= '9'
  }

  predicate AllDigits(s: string)
  {
    forall k :: 0 <= k < |s| ==> IsDigit(s[k])
  }

  predicate NoSpace(s: string)
  {
    forall k :: 0 <= k < |s| ==> !IsSpace(s[k])
  }

  /** `s.startswith(p)` */
  predicate StartsWith(s: string, p: string)
  {
    |p| <= |s| && s[..|p|] == p
  }

  /** `s[:n]` for a non-negative `n`: Python slicing never fails on a short string. */
  function Take(s: string, n: nat): (r: string)
    ensures |r| == (if |s| < n then |s| else n)
    ensures r == s[..|r|]
  {
    if n <= |s| then s[..n] else s
  }

  // ---------------------------------------------------------------------
  // Scanning
  // ---------------------------------------------------------------------

  /** The first position at or after `i` that is not whitespace (or `|s|`). */
  function SkipSpaces(s: string, i: nat): (j: nat)
    requires i <= |s|
    ensures i <= j <= |s|
    ensures forall k :: i <= k < j ==> IsSpace(s[k])
    ensures j < |s| ==> !IsSpace(s[j])
    decreases |s| - i
  {
    if i < |s| && IsSpace(s[i]) then SkipSpaces(s, i + 1) else i
  }

  /** The first position at or after `i` that is whitespace (or `|s|`). */
  function SkipWord(s: string, i: nat): (j: nat)
    requires i <= |s|
    ensures i <= j <= |s|
    ensures forall k :: i <= k < j ==> !IsSpace(s[k])
    ensures j < |s| ==> IsSpace(s[j])
    decreases |s| - i
  {
    if i < |s| && !IsSpace(s[i]) then SkipWord(s, i + 1) else i
  }

  /** The smallest `r <= j` such that `s[r..j]` is all whitespace. */
  function SkipSpacesBack(s: string, j: nat): (r: nat)
    requires j <= |s|
    ensures r <= j
    ensures forall k :: r <= k < j ==> IsSpace(s[k])
    ensures r > 0 ==> !IsSpace(s[r - 1])
  {
    if j > 0 && IsSpace(s[j - 1]) then SkipSpacesBack(s, j - 1) else j
  }

  /** The scan stops at the first non-space character. */
  lemma SkipSpacesIs(s: string, i: nat, j: nat)
    requires i <= j <= |s|
    requires forall k :: i <= k < j ==> IsSpace(s[k])
    requires j < |s| ==> !IsSpace(s[j])
    ensures SkipSpaces(s, i) == j
  {
  }

  lemma SkipWordIs(s: string, i: nat, j: nat)
    requires i <= j <= |s|
    requires forall k :: i <= k < j ==> !IsSpace(s[k])
    requires j < |s| ==> IsSpace(s[j])
    ensures SkipWord(s, i) == j
  {
  }

  lemma SkipSpacesBackIs(s: string, r: nat, j: nat)
    requires r <= j <= |s|
    requires forall k :: r <= k < j ==> IsSpace(s[k])
    requires r > 0 ==> !IsSpace(s[r - 1])
    ensures SkipSpacesBack(s, j) == r
  {
  }

  // ---------------------------------------------------------------------
  // Stripping
  // ---------------------------------------------------------------------

  /**
   * `s.strip()`: the result is the piece of `s` between the first and the
   * last non-whitespace character, and is empty when `s` is all whitespace.
   */
  function Strip(s: string): (r: string)
    ensures var i, j := SkipSpaces(s, 0), SkipSpacesBack(s, |s|);
      if i < |s| then i < j && r == s[i..j] else r == []
    ensures r != [] ==> !IsSpace(r[0]) && !IsSpace(r[|r| - 1])
  {
    var i := SkipSpaces(s, 0);
    var j := SkipSpacesBack(s, |s|);
    if i < |s| then s[i..j]
    else []
  }

  /** A string whose outer characters are not whitespace is its own strip. */
  lemma StripNoOuterSpace(s: string)
    requires s != [] ==> !IsSpace(s[0]) && !IsSpace(s[|s| - 1])
    ensures Strip(s) == s
  {
    if s != [] {
      SkipSpacesIs(s, 0, 0);
      SkipSpacesBackIs(s, |s|, |s|);
    }
  }

  /** Stripping is idempotent. */
  lemma StripIdempotent(s: string)
    ensures Strip(Strip(s)) == Strip(s)
  {
    StripNoOuterSpace(Strip(s));
  }

  /** The strip is empty exactly when the string is all whitespace. */
  lemma StripEmpty(s: string)
    ensures Strip(s) == [] <==> forall k :: 0 <= k < |s| ==> IsSpace(s[k])
  {
  }

  /** Stripping whitespace that surrounds a piece with non-space ends. */
  lemma StripAround(lead: string, j: string, tail: string)
    requires forall k :: 0 <= k < |lead| ==> IsSpace(lead[k])
    requires forall k :: 0 <= k < |tail| ==> IsSpace(tail[k])
    requires j != [] && !IsSpace(j[0]) && !IsSpace(j[|j| - 1])
    ensures Strip(lead + j + tail) == j
  {
    var s := lead + j + tail;
    SkipSpacesIs(s, 0, |lead|);
    SkipSpacesBackIs(s, |lead| + |j|, |s|);
    assert s[|lead|..|lead| + |j|] == j;
  }

  /** Trailing whitespace does not change the strip. */
  lemma StripTrailingSpace(a: string, t: string)
    requires forall k :: 0 <= k < |t| ==> IsSpace(t[k])
    ensures Strip(a + t) == Strip(a)
  {
    var s := a + t;
    var i := SkipSpaces(a, 0);
    if i < |a| {
      var r := Strip(a);
      var j := SkipSpacesBack(a, |a|);
      assert i < j && r == a[i..j];
      SkipSpacesPrefix(a, t, i);
      SkipSpacesBackSuffix(a, t, j);
      assert s[i..j] == a[i..j];
    } else {
      assert forall k :: 0 <= k < |s| ==> IsSpace(s[k]) by {
        assert forall k :: 0 <= k < |a| ==> s[k] == a[k];
        assert forall k :: |a| <= k < |s| ==> s[k] == t[k - |a|];
      }
      StripEmpty(s);
      StripEmpty(a);
    }
  }

  lemma SkipSpacesPrefix(a: string, t: string, i: nat)
    requires i < |a| && SkipSpaces(a, 0) == i
    ensures SkipSpaces(a + t, 0) == i
  {
    var s := a + t;
    assert forall k :: 0 <= k <= i ==> s[k] == a[k];
    SkipSpacesIs(s, 0, i);
  }

  lemma SkipSpacesBackSuffix(a: string, t: string, j: nat)
    requires forall k :: 0 <= k < |t| ==> IsSpace(t[k])
    requires 0 < j <= |a| && SkipSpacesBack(a, |a|) == j
    ensures SkipSpacesBack(a + t, |a + t|) == j
  {
    var s := a + t;
    assert forall k :: j <= k < |s| ==> IsSpace(s[k]) by {
      assert forall k :: j <= k < |a| ==> s[k] == a[k];
      assert forall k :: |a| <= k < |s| ==> s[k] == t[k - |a|];
    }
    assert s[j - 1] == a[j - 1];
    SkipSpacesBackIs(s, j, |s|);
  }

  // ---------------------------------------------------------------------
  // Words: Python's `s.split()` with no argument
  // ---------------------------------------------------------------------

  predicate IsWordList(ws: seq<string>)
  {
    forall n :: 0 <= n < |ws| ==> ws[n] != [] && NoSpace(ws[n])
  }

  /** The words of `s[i..]`: the maximal runs of non-whitespace, in order. */
  function WordsFrom(s: string, i: nat): (ws: seq<string>)
    requires i <= |s|
    ensures IsWordList(ws)
    decreases |s| - i
  {
    var b := SkipSpaces(s, i);
    if b == |s| then []
    else
      var e := SkipWord(s, b);
      [s[b..e]] + WordsFrom(s, e)
  }

  /** `s.split()`: every word is non-empty and holds no whitespace. */
  function Words(s: string): (ws: seq<string>)
    ensures IsWordList(ws)
  {
    WordsFrom(s, 0)
  }

  /** `sep.join(parts)` */
  function Join(parts: seq<string>, sep: string): (r: string)
    ensures |parts| == 1 ==> r == parts[0]
  {
    if parts == [] then []
    else if |parts| == 1 then parts[0]
    else parts[0] + sep + Join(parts[1..], sep)
  }

  /** The words of every element of `parts`, concatenated in order. */
  function WordsOfAll(parts: seq<string>): seq<string>
  {
    if parts == [] then [] else Words(parts[0]) + WordsOfAll(parts[1..])
  }

  lemma WordsFromSkip(s: string, i: nat)
    requires i <= |s|
    ensures WordsFrom(s, SkipSpaces(s, i)) == WordsFrom(s, i)
  {
    var b := SkipSpaces(s, i);
    SkipSpacesIs(s, b, b);
  }

  /** Skipping spaces in the second half of a concatenation is skipping them in `b`. */
  lemma SkipSpacesShift(a: string, b: string, k: nat)
    requires k <= |b|
    ensures SkipSpaces(a + b, |a| + k) == |a| + SkipSpaces(b, k)
  {
    var s, j := a + b, SkipSpaces(b, k);
    forall m | |a| + k <= m < |a| + j ensures IsSpace(s[m]) {
      assert s[m] == b[m - |a|];
    }
    if j < |b| { assert s[|a| + j] == b[j]; }
    SkipSpacesIs(s, |a| + k, |a| + j);
  }

  /** The same for skipping a word. */
  lemma SkipWordShift(a: string, b: string, k: nat)
    requires k <= |b|
    ensures SkipWord(a + b, |a| + k) == |a| + SkipWord(b, k)
  {
    var s, j := a + b, SkipWord(b, k);
    forall m | |a| + k <= m < |a| + j ensures !IsSpace(s[m]) {
      assert s[m] == b[m - |a|];
    }
    if j < |b| { assert s[|a| + j] == b[j]; }
    SkipWordIs(s, |a| + k, |a| + j);
  }

  /** A slice of the second half of a concatenation is a slice of `b`. */
  lemma SliceOfSecond(a: string, b: string, i: nat, j: nat)
    requires i <= j <= |b|
    ensures (a + b)[|a| + i..|a| + j] == b[i..j]
  {
    var s := a + b;
    assert |s[|a| + i..|a| + j]| == j - i;
    forall m | 0 <= m < j - i ensures s[|a| + i..|a| + j][m] == b[i..j][m] {
      assert s[|a| + i + m] == b[i + m];
    }
  }

  /** One step of the word scan: the next word, then the words after it. */
  lemma WordsFromStep(s: string, i: nat, b: nat, e: nat)
    requires i <= |s| && b == SkipSpaces(s, i) < |s| && e == SkipWord(s, b)
    ensures WordsFrom(s, i) == [s[b..e]] + WordsFrom(s, e)
  {
  }

  /** The word scan ends when only whitespace is left. */
  lemma WordsFromEnd(s: string, i: nat)
    requires i <= |s| && SkipSpaces(s, i) == |s|
    ensures WordsFrom(s, i) == []
  {
  }

  /** Word lists with equal first words and equal tails are equal. */
  lemma SameFirstWord(w: string, v: string, ws: seq<string>, vs: seq<string>)
    requires w == v && ws == vs
    ensures [w] + ws == [v] + vs
  {
  }

  /** Scanning the second half of a concatenation is scanning `b` itself. */
  lemma {:induction false} WordsFromShift(a: string, b: string, k: nat)
    requires k <= |b|
    ensures WordsFrom(a + b, |a| + k) == WordsFrom(b, k)
    decreases |b| - k
  {
    var s := a + b;
    var bb := SkipSpaces(b, k);
    SkipSpacesShift(a, b, k);
    if bb < |b| {
      var e := SkipWord(b, bb);
      SkipWordShift(a, b, bb);
      WordsFromShift(a, b, e);
      WordsFromShiftWord(a, b, k, bb, e);
    } else {
      WordsFromShiftEnd(a, b, k);
    }
  }

  /** When a word is left in `b`, both scans find it and then agree on the rest. */
  lemma WordsFromShiftWord(a: string, b: string, k: nat, bb: nat, e: nat)
    requires k <= |b| && bb == SkipSpaces(b, k) < |b| && e == SkipWord(b, bb)
    requires SkipSpaces(a + b, |a| + k) == |a| + bb && SkipWord(a + b, |a| + bb) == |a| + e
    requires WordsFrom(a + b, |a| + e) == WordsFrom(b, e)
    ensures WordsFrom(a + b, |a| + k) == WordsFrom(b, k)
  {
    var s := a + b;
    var sk, sb, se := |a| + k, |a| + bb, |a| + e;
    var w, v := s[sb..se], b[bb..e];
    var ws, vs := WordsFrom(s, se), WordsFrom(b, e);
    assert WordsFrom(s, sk) == [w] + ws by { WordsFromStep(s, sk, sb, se); }
    assert WordsFrom(b, k) == [v] + vs by { WordsFromStep(b, k, bb, e); }
    assert w == v by { SliceOfSecond(a, b, bb, e); }
    SameFirstWord(w, v, ws, vs);
  }

  /** When only whitespace is left in `b`, neither scan finds a word. */
  lemma WordsFromShiftEnd(a: string, b: string, k: nat)
    requires k <= |b| && SkipSpaces(b, k) == |b|
    requires SkipSpaces(a + b, |a| + k) == |a| + SkipSpaces(b, k)
    ensures WordsFrom(a + b, |a| + k) == WordsFrom(b, k) == []
  {
    WordsFromEnd(a + b, |a| + k);
    WordsFromEnd(b, k);
  }

  /** When `a[i..]` is all whitespace, the words of `(a + b)[i..]` are those of `b`. */
  lemma WordsFromBlankThenB(a: string, b: string, i: nat)
    requires i <= |a| && SkipSpaces(a, i) == |a|
    ensures WordsFrom(a, i) == []
    ensures WordsFrom(a + b, i) == Words(b)
  {
    var s := a + b;
    var bb := SkipSpaces(b, 0);
    SkipSpacesIs(s, i, |a| + bb);
    WordsFromSkip(s, i);
    WordsFromShift(a, b, bb);
    WordsFromSkip(b, 0);
  }

  /** A word of `a` that starts at `i` is also a word of `a + b` when the halves meet at whitespace. */
  lemma WordInPrefix(a: string, b: string, i: nat)
    requires i < |a| && SkipSpaces(a, i) < |a|
    requires IsSpace(a[|a| - 1]) || b == [] || IsSpace(b[0])
    ensures var ba := SkipSpaces(a, i); var e := SkipWord(a, ba);
      WordsFrom(a, i) == [a[ba..e]] + WordsFrom(a, e)
      && WordsFrom(a + b, i) == [a[ba..e]] + WordsFrom(a + b, e)
  {
    var s := a + b;
    var ba := SkipSpaces(a, i);
    SkipSpacesIs(s, i, ba);
    var e := SkipWord(a, ba);
    if e == |a| {
      SkipWordIs(s, ba, |a|);
    } else {
      SkipWordIs(s, ba, e);
    }
    assert s[ba..e] == a[ba..e];
  }

  /**
   * The words of `a + b` from a position inside `a` are the words of `a`
   * from there followed by the words of `b`, provided the halves meet at
   * whitespace (or one of them is empty).
   */
  lemma {:induction false} WordsFromAppend(a: string, b: string, i: nat)
    requires i <= |a|
    requires a == [] || IsSpace(a[|a| - 1]) || b == [] || IsSpace(b[0])
    ensures WordsFrom(a + b, i) == WordsFrom(a, i) + Words(b)
    decreases |a| - i
  {
    var ba := SkipSpaces(a, i);
    if ba == |a| {
      WordsFromBlankThenB(a, b, i);
    } else {
      WordInPrefix(a, b, i);
      var e := SkipWord(a, ba);
      WordsFromAppend(a, b, e);
    }
  }

  /** Words of a concatenation whose halves meet at whitespace. */
  lemma WordsAppend(a: string, b: string)
    requires a == [] || IsSpace(a[|a| - 1]) || b == [] || IsSpace(b[0])
    ensures Words(a + b) == Words(a) + Words(b)
  {
    WordsFromAppend(a, b, 0);
  }

  /** A single non-empty word splits into itself. */
  lemma WordsOfWord(w: string)
    requires w != [] && NoSpace(w)
    ensures Words(w) == [w]
  {
    SkipSpacesIs(w, 0, 0);
    SkipWordIs(w, 0, |w|);
    SkipSpacesIs(w, |w|, |w|);
    assert WordsFrom(w, |w|) == [];
    assert w[0..|w|] == w;
  }

  /** Splitting `' '.join(parts)` yields the words of the parts, in order. */
  lemma {:induction false} WordsOfJoin(parts: seq<string>)
    ensures Words(Join(parts, " ")) == WordsOfAll(parts)
  {
    if parts == [] {
    } else if |parts| == 1 {
      assert WordsOfAll(parts) == Words(parts[0]) + WordsOfAll([]);
    } else {
      var rest := Join(parts[1..], " ");
      assert Join(parts, " ") == parts[0] + (" " + rest);
      WordsAppend(parts[0], " " + rest);
      WordsAppend(" ", rest);
      assert Words(" ") == [] by {
        SkipSpacesIs(" ", 0, 1);
      }
      WordsOfJoin(parts[1..]);
    }
  }

  lemma {:induction false} WordsOfAllWords(ws: seq<string>)
    requires IsWordList(ws)
    ensures WordsOfAll(ws) == ws
  {
    if ws != [] {
      WordsOfWord(ws[0]);
      WordsOfAllWords(ws[1..]);
      assert ws == [ws[0]] + ws[1..];
    }
  }

  /** Joining a word list with single spaces and splitting again gives it back. */
  lemma WordsJoinRoundTrip(ws: seq<string>)
    requires IsWordList(ws)
    ensures Words(Join(ws, " ")) == ws
  {
    WordsOfJoin(ws);
    WordsOfAllWords(ws);
  }

  /** The joined words neither start nor end with whitespace. */
  lemma {:induction false} JoinWordsEnds(ws: seq<string>)
    requires IsWordList(ws) && ws != []
    ensures var j := Join(ws, " "); j != [] && !IsSpace(j[0]) && !IsSpace(j[|j| - 1])
  {
    if |ws| > 1 {
      JoinWordsEnds(ws[1..]);
      var j := Join(ws, " ");
      var tail := Join(ws[1..], " ");
      assert j == ws[0] + " " + tail;
      assert j[0] == ws[0][0];
      assert j[|j| - 1] == tail[|tail| - 1];
    }
  }

  // ---------------------------------------------------------------------
  // Collapsing whitespace: `re.sub(r'\s+', ' ', s)`
  // ---------------------------------------------------------------------

  /** `s[i..]` with every maximal run of whitespace replaced by one space. */
  function CollapseFrom(s: string, i: nat): string
    requires i <= |s|
    decreases |s| - i
  {
    if i == |s| then []
    else if IsSpace(s[i]) then " " + CollapseFrom(s, SkipSpaces(s, i))
    else [s[i]] + CollapseFrom(s, i + 1)
  }

  /** `re.sub(r'\s+', ' ', s)` */
  function CollapseSpaces(s: string): string
  {
    CollapseFrom(s, 0)
  }

  /** The transcript clean-up: single-space collapse followed by `strip()`. */
  function Normalize(s: string): string
  {
    Strip(CollapseSpaces(s))
  }

  lemma {:induction false} CollapseWord(s: string, i: nat)
    requires i <= |s|
    ensures CollapseFrom(s, i) == s[i..SkipWord(s, i)] + CollapseFrom(s, SkipWord(s, i))
    decreases |s| - i
  {
    if i < |s| && !IsSpace(s[i]) {
      CollapseWord(s, i + 1);
      assert s[i..SkipWord(s, i)] == [s[i]] + s[i + 1..SkipWord(s, i + 1)];
    }
  }

  /** The words from the start of a word: that word, then the words after it. */
  lemma WordsFromWordStart(s: string, i: nat)
    requires i < |s| && !IsSpace(s[i])
    ensures WordsFrom(s, i) == [s[i..SkipWord(s, i)]] + WordsFrom(s, SkipWord(s, i))
  {
    SkipSpacesIs(s, i, i);
  }

  lemma JoinCons(w: string, ws: seq<string>, sep: string)
    requires ws != []
    ensures Join([w] + ws, sep) == w + sep + Join(ws, sep)
  {
    assert ([w] + ws)[1..] == ws;
  }

  /** A suffix that starts with a non-space character holds at least one word. */
  lemma WordsFromNonEmpty(s: string, i: nat)
    requires i < |s| && !IsSpace(s[i])
    ensures WordsFrom(s, i) != []
  {
    SkipSpacesIs(s, i, i);
  }

  /**
   * From a position that is not whitespace, collapsing gives the words
   * joined by single spaces, plus one space when `s` ends in whitespace.
   */
  lemma {:induction false} CollapseFromWord(s: string, i: nat)
    requires i <= |s|
    requires i < |s| ==> !IsSpace(s[i])
    ensures CollapseFrom(s, i) == Join(WordsFrom(s, i), " ")
      + (if i < |s| && IsSpace(s[|s| - 1]) then " " else "")
    decreases |s| - i
  {
    if i < |s| {
      var e := SkipWord(s, i);
      var w := s[i..e];
      CollapseWord(s, i);
      WordsFromWordStart(s, i);
      if e < |s| {
        var m := SkipSpaces(s, e);
        WordsFromSkip(s, e);
        if m < |s| {
          CollapseFromWord(s, m);
          WordsFromNonEmpty(s, m);
          JoinCons(w, WordsFrom(s, m), " ");
        }
      }
    }
  }

  /**
   * The clean-up is exactly "split on whitespace, join with one space":
   * no leading or trailing whitespace and single spaces between the words.
   */
  lemma NormalizeIsJoinedWords(s: string)
    ensures Normalize(s) == Join(Words(s), " ")
  {
    var m := SkipSpaces(s, 0);
    WordsFromSkip(s, 0);
    CollapseFromWord(s, m);
    var j := Join(Words(s), " ");
    var tail: string := if m < |s| && IsSpace(s[|s| - 1]) then " " else "";
    var lead: string := if s != [] && IsSpace(s[0]) then " " else "";
    assert CollapseSpaces(s) == lead + j + tail;
    if Words(s) == [] {
      assert lead + j + tail == lead + tail;
    } else {
      JoinWordsEnds(Words(s));
      StripAround(lead, j, tail);
    }
  }

  /** Splitting the cleaned-up text gives the words of the raw text. */
  lemma NormalizeKeepsWords(s: string)
    ensures Words(Normalize(s)) == Words(s)
  {
    NormalizeIsJoinedWords(s);
    WordsJoinRoundTrip(Words(s));
  }

  // ---------------------------------------------------------------------
  // Searching and splitting on one character
  // ---------------------------------------------------------------------

  /** `s.find(c, i)`: the first index at or after `i` holding `c`, or -1. */
  function IndexFrom(s: string, c: char, i: nat): (r: int)
    ensures r == -1 || (i <= r < |s| && s[r] == c)
    ensures forall k :: i <= k < (if r < 0 then |s| else r) ==> s[k] != c
    decreases |s| - i
  {
    if i >= |s| then -1 else if s[i] == c then i else IndexFrom(s, c, i + 1)
  }

  /** `s.find(c)` */
  function IndexOf(s: string, c: char): (r: int)
    ensures r == -1 || (0 <= r < |s| && s[r] == c)
    ensures forall k :: 0 <= k < (if r < 0 then |s| else r) ==> s[k] != c
  {
    IndexFrom(s, c, 0)
  }

  /** The first occurrence is unique: any index meeting the contract of `IndexFrom` is its result. */
  lemma IndexFromIs(s: string, c: char, i: nat, r: int)
    requires r == -1 || (i <= r < |s| && s[r] == c)
    requires forall k :: i <= k < (if r < 0 then |s| else r) ==> s[k] != c
    ensures IndexFrom(s, c, i) == r
  {
  }

  /** `s.rfind(c)` restricted to `s[..j]`: the last index below `j` holding `c`, or -1. */
  function LastIndexBefore(s: string, c: char, j: nat): (r: int)
    requires j <= |s|
    ensures r == -1 || (0 <= r < j && s[r] == c)
    ensures forall k :: r < k < j ==> s[k] != c
  {
    if j == 0 then -1 else if s[j - 1] == c then j - 1 else LastIndexBefore(s, c, j - 1)
  }

  /** `s.rfind(c)` */
  function LastIndexOf(s: string, c: char): (r: int)
    ensures r == -1 || (0 <= r < |s| && s[r] == c)
    ensures forall k :: r < k < |s| ==> s[k] != c
  {
    LastIndexBefore(s, c, |s|)
  }

  /** `sub` occurs in `s` starting at index `i`. */
  predicate OccursAt(s: string, sub: string, i: nat)
  {
    i + |sub| <= |s| && s[i..i + |sub|] == sub
  }

  /** `sub in s` for strings. */
  predicate Contains(s: string, sub: string)
  {
    exists i :: 0 <= i <= |s| - |sub| && OccursAt(s, sub, i)
  }

  /** The pieces of `s[i..]` between occurrences of `c`. */
  function SplitFrom(s: string, c: char, i: nat): (parts: seq<string>)
    requires i <= |s|
    ensures |parts| >= 1
    ensures forall n :: 0 <= n < |parts| ==> c !in parts[n]
    ensures i + |parts[0]| <= |s| && parts[0] == s[i..i + |parts[0]|]
    decreases |s| - i
  {
    var k := IndexFrom(s, c, i);
    if k < 0 then [s[i..]] else [s[i..k]] + SplitFrom(s, c, k + 1)
  }

  /** `s.split(c)`: there is always at least one piece. */
  function SplitOn(s: string, c: char): (parts: seq<string>)
    ensures |parts| >= 1
    ensures forall n :: 0 <= n < |parts| ==> c !in parts[n]
    ensures |parts[0]| <= |s| && parts[0] == s[..|parts[0]|]
  {
    SplitFrom(s, c, 0)
  }

  /** Splitting the joined pieces again gives the pieces back, when none holds the separator. */
  lemma SplitJoin(parts: seq<string>, c: char)
    requires |parts| >= 1
    requires forall n :: 0 <= n < |parts| ==> c !in parts[n]
    ensures SplitOn(Join(parts, [c]), c) == parts
  {
    var s := Join(parts, [c]);
    assert s[0..] == s;
    SplitFromJoin(s, 0, parts, c);
  }

  lemma {:induction false} SplitFromJoin(s: string, i: nat, parts: seq<string>, c: char)
    requires i <= |s| && |parts| >= 1
    requires forall n :: 0 <= n < |parts| ==> c !in parts[n]
    requires s[i..] == Join(parts, [c])
    ensures SplitFrom(s, c, i) == parts
    decreases |parts|
  {
    if |parts| == 1 {
      LastPiece(s, i, parts[0], c);
      assert parts == [parts[0]];
    } else {
      var p, tail := parts[0], parts[1..];
      var rest := Join(tail, [c]);
      assert Join(parts, [c]) == p + [c] + rest;
      var k := i + |p|;
      FirstPiece(s, i, p, c, rest);
      NoSeparatorTail(parts, c);
      SplitFromJoin(s, k + 1, tail, c);
      SplitFromStep(s, c, i, k, p, tail);
      assert parts == [p] + tail;
    }
  }

  lemma NoSeparatorTail(parts: seq<string>, c: char)
    requires |parts| >= 1
    requires forall n :: 0 <= n < |parts| ==> c !in parts[n]
    ensures forall n :: 0 <= n < |parts[1..]| ==> c !in parts[1..][n]
  {
    assert forall n :: 0 <= n < |parts[1..]| ==> parts[1..][n] == parts[n + 1];
  }

  /** Where the search finds the separator, the split is that piece and the split of the rest. */
  lemma SplitFromStep(s: string, c: char, i: nat, k: nat, p: string, tail: seq<string>)
    requires i <= k < |s| && IndexFrom(s, c, i) == k
    requires s[i..k] == p && SplitFrom(s, c, k + 1) == tail
    ensures SplitFrom(s, c, i) == [p] + tail
  {
  }

  /** A last piece without the separator is the whole rest, found by no search. */
  lemma LastPiece(s: string, i: nat, p: string, c: char)
    requires i <= |s| && s[i..] == p && c !in p
    ensures SplitFrom(s, c, i) == [p]
  {
    assert forall k :: i <= k < |s| ==> s[k] == p[k - i];
    IndexFromIs(s, c, i, -1);
  }

  /** A first piece followed by the separator ends where the search stops. */
  lemma FirstPiece(s: string, i: nat, p: string, c: char, rest: string)
    requires i <= |s| && s[i..] == p + [c] + rest && c !in p
    ensures i + |p| < |s| && IndexFrom(s, c, i) == i + |p|
    ensures s[i..i + |p|] == p && s[i + |p| + 1..] == rest
  {
    var t := s[i..];
    var k := i + |p|;
    assert t[|p|] == c;
    assert forall j :: i <= j < k ==> s[j] == t[j - i] && t[j - i] == p[j - i];
    IndexFromIs(s, c, i, k);
    assert s[i..k] == t[..|p|] == p;
    assert s[k + 1..] == t[|p| + 1..] == rest;
  }

  /** `s.replace(a, b)` for single characters. */
  function ReplaceChar(s: string, a: char, b: char): (r: string)
    ensures |r| == |s|
    ensures forall k :: 0 <= k < |s| ==> r[k] == if s[k] == a then b else s[k]
    ensures a !in s ==> r == s
  {
    seq(|s|, k requires 0 <= k < |s| => if s[k] == a then b else s[k])
  }

  /** `s.replace(c, "")` */
  function RemoveChar(s: string, c: char): (r: string)
    ensures c !in r
    ensures c !in s ==> r == s
  {
    if s == [] then []
    else if s[0] == c then RemoveChar(s[1..], c)
    else
      assert s == [s[0]] + s[1..];
      [s[0]] + RemoveChar(s[1..], c)
  }

  // ---------------------------------------------------------------------
  // Decimal numbers
  // ---------------------------------------------------------------------

  /** `int(ds)` for a string of ASCII digits (leading zeros allowed). */
  function DigitsValue(ds: string): (n: nat)
    requires AllDigits(ds)
  {
    if ds == [] then 0
    else 10 * DigitsValue(ds[..|ds| - 1]) + (ds[|ds| - 1] as int - '0' as int)
  }

  function DigitChar(d: nat): (c: char)
    requires d < 10
    ensures IsDigit(c) && c as int - '0' as int == d
  {
    ('0' as int + d) as char
  }

  /** `str(n)` for a natural number: its decimal digits, no leading zero. */
  function NatToString(n: nat): (s: string)
    ensures s != [] && AllDigits(s)
    ensures |s| > 1 ==> s[0] != '0'
  {
    if n < 10 then [DigitChar(n)]
    else NatToString(n / 10) + [DigitChar(n % 10)]
  }

  /** Reading back the digits of `str(n)` gives `n`. */
  lemma {:induction false} DigitsValueOfNatToString(n: nat)
    ensures DigitsValue(NatToString(n)) == n
  {
    var s := NatToString(n);
    if n >= 10 {
      DigitsValueOfNatToString(n / 10);
      assert s[..|s| - 1] == NatToString(n / 10);
    }
  }
}
