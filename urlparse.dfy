/**
 * The parts of Python's `urllib.parse` that video-id extraction depends on:
 * `urlparse` (scheme, network location, path, parameters, query, fragment)
 * and `parse_qs` without blank values. Percent-decoding is not modelled.
 */
module UrlParse {
  import opened Wrappers
  import opened Strings

  datatype ParseResult = ParseResult(
    scheme: string, netloc: string, path: string, params: string, query: string, fragment: string)

  predicate IsAsciiAlpha(c: char)
  {
    'a' <= c <= 'z' || 'A' <= c <= 'Z'
  }

  /** Letters, digits, `+`, `-` and `.`: the characters allowed in a scheme. */
  predicate IsSchemeChar(c: char)
  {
    IsAsciiAlpha(c) || IsDigit(c) || c == '+' || c == '-' || c == '.'
  }

  /** The C0 control characters and the space, which are removed from the front of a URL. */
  predicate IsC0OrSpace(c: char)
  {
    c <= ' '
  }

  /** Tab, carriage return and line feed, which are removed from anywhere in a URL. */
  predicate IsUnsafe(c: char)
  {
    c == '\t' || c == '\r' || c == '\n'
  }

  function LowerAscii(s: string): (r: string)
    ensures |r| == |s|
    ensures forall k :: 0 <= k < |s| ==> r[k] == if 'A' <= s[k] <= 'Z' then (s[k] as int + 32) as char else s[k]
  {
    seq(|s|, k requires 0 <= k < |s| => if 'A' <= s[k] <= 'Z' then (s[k] as int + 32) as char else s[k])
  }

  function SkipC0(s: string, i: nat): (j: nat)
    requires i <= |s|
    ensures i <= j <= |s|
    ensures forall k :: i <= k < j ==> IsC0OrSpace(s[k])
    ensures j < |s| ==> !IsC0OrSpace(s[j])
    decreases |s| - i
  {
    if i < |s| && IsC0OrSpace(s[i]) then SkipC0(s, i + 1) else i
  }

  /** The string with every tab, carriage return and line feed removed. */
  function RemoveUnsafe(s: string): (r: string)
    ensures forall k :: 0 <= k < |r| ==> !IsUnsafe(r[k])
    ensures (forall k :: 0 <= k < |s| ==> !IsUnsafe(s[k])) ==> r == s
  {
    if s == [] then []
    else if IsUnsafe(s[0]) then RemoveUnsafe(s[1..])
    else
      assert s == [s[0]] + s[1..];
      [s[0]] + RemoveUnsafe(s[1..])
  }

  /** The clean-up `urlsplit` does before parsing. */
  function Sanitize(url: string): (r: string)
    ensures Clean(r)
  {
    RemoveUnsafe(url[SkipC0(url, 0)..])
  }

  /** A scheme is taken when the text before the first `:` starts with a letter and holds only scheme characters. */
  predicate HasScheme(url: string)
  {
    var i := IndexOf(url, ':');
    i > 0 && IsAsciiAlpha(url[0]) && forall k :: 0 <= k < i ==> IsSchemeChar(url[k])
  }

  /**
   * The end of the network location that starts at `start`: the first of
   * `/`, `?` and `#` at or after it, or the end of the string.
   */
  function NetlocEnd(url: string, start: nat): (d: nat)
    requires start <= |url|
    ensures start <= d <= |url|
    ensures forall k :: start <= k < d ==> url[k] != '/' && url[k] != '?' && url[k] != '#'
    ensures d < |url| ==> url[d] == '/' || url[d] == '?' || url[d] == '#'
  {
    var a := IndexFrom(url, '/', start);
    var b := IndexFrom(url, '?', start);
    var c := IndexFrom(url, '#', start);
    var d0 := |url|;
    var d1 := if a >= 0 && a < d0 then a else d0;
    var d2 := if b >= 0 && b < d1 then b else d1;
    if c >= 0 && c < d2 then c else d2
  }

  /** No tab, carriage return or line feed. */
  predicate Clean(s: string)
  {
    forall k :: 0 <= k < |s| ==> !IsUnsafe(s[k])
  }

  lemma CleanSlice(s: string, i: nat, j: nat)
    requires i <= j <= |s|
    ensures Clean(s) ==> Clean(s[i..j])
  {
    assert forall k :: 0 <= k < j - i ==> s[i..j][k] == s[i + k];
  }

  /**
   * `s.split(c, 1)` as `urlsplit` uses it: the text before the first `c`
   * and the text after it, or `s` and the empty string when `c` is absent.
   */
  function SplitOnce(s: string, c: char): (r: (string, string))
    ensures c !in r.0
    ensures c in s ==> s == r.0 + [c] + r.1
    ensures c !in s ==> r == (s, "")
    ensures Clean(s) ==> Clean(r.0)
  {
    var i := IndexOf(s, c);
    if i < 0 then (s, "")
    else
      assert s == s[..i] + [c] + s[i + 1..];
      CleanSlice(s, 0, i);
      (s[..i], s[i + 1..])
  }

  /** The scheme and the text after its `:`, or the empty scheme and `url`. */
  function SplitScheme(url: string): (r: (string, string))
    ensures HasScheme(url) ==> exists i :: 0 < i < |url| && url[i] == ':' && r == (LowerAscii(url[..i]), url[i + 1..])
    ensures !HasScheme(url) ==> r == ("", url)
    ensures Clean(url) ==> Clean(r.1)
  {
    if HasScheme(url) then
      var i := IndexOf(url, ':');
      CleanSlice(url, i + 1, |url|);
      (LowerAscii(url[..i]), url[i + 1..])
    else ("", url)
  }

  /**
   * `_splitnetloc` after a leading `//`: the network location and the rest,
   * or an empty location and `rest` itself when `rest` does not start with `//`.
   */
  function SplitLocation(rest: string): (r: (string, string))
    ensures '/' !in r.0 && '?' !in r.0 && '#' !in r.0
    ensures |rest| >= 2 && rest[..2] == "//" ==> rest == "//" + r.0 + r.1
    ensures !(|rest| >= 2 && rest[..2] == "//") ==> r == ("", rest)
    ensures r.1 == [] || r.1[0] == '/' || r.1[0] == '?' || r.1[0] == '#' || r == ("", rest)
    ensures Clean(rest) ==> Clean(r.1)
  {
    if |rest| >= 2 && rest[..2] == "//" then
      var d := NetlocEnd(rest, 2);
      assert rest == rest[..2] + rest[2..d] + rest[d..];
      CleanSlice(rest, d, |rest|);
      (rest[2..d], rest[d..])
    else ("", rest)
  }

  /** Fragment, then query, split off the text after the network location. */
  function SplitTail(after: string): (r: (string, string, string))
    ensures '?' !in r.0 && '#' !in r.0 && '#' !in r.1
    ensures Clean(after) ==> Clean(r.0)
  {
    var (beforeFragment, fragment) := SplitOnce(after, '#');
    var (path, query) := SplitOnce(beforeFragment, '?');
    assert '#' !in query by {
      if '?' in beforeFragment {
        assert beforeFragment == path + ['?'] + query;
      }
    }
    (path, query, fragment)
  }

  /**
   * `urlsplit(url)`, with `None` for the `ValueError` raised when the
   * network location holds only one of `[` and `]`.
   */
  function UrlSplit(url0: string): (r: Option<ParseResult>)
    ensures r.Some? ==> '/' !in r.value.netloc && '?' !in r.value.netloc && '#' !in r.value.netloc
    ensures r.Some? ==> '?' !in r.value.path && '#' !in r.value.path && '#' !in r.value.query
    ensures r.Some? ==> r.value.params == [] && Clean(r.value.path)
  {
    var (scheme, rest) := SplitScheme(Sanitize(url0));
    var (netloc, after) := SplitLocation(rest);
    if ('[' in netloc) != (']' in netloc) then None
    else
      var (path, query, fragment) := SplitTail(after);
      Some(ParseResult(scheme, netloc, path, "", query, fragment))
  }

  /** The schemes whose paths may carry `;parameters`. */
  predicate UsesParams(scheme: string)
  {
    scheme in {"", "ftp", "hdl", "prospero", "http", "imap", "https", "shttp", "rtsp",
               "rtsps", "rtspu", "sip", "sips", "mms", "sftp", "tel"}
  }

  /** `_splitparams(path)`: parameters start at the first `;` after the last `/`. */
  function SplitParams(path: string): (r: (string, string))
    requires ';' in path
    ensures |r.0| <= |path| && r.0 == path[..|r.0|]
  {
    if '/' in path then
      var i := IndexFrom(path, ';', LastIndexOf(path, '/'));
      if i < 0 then (path, "") else (path[..i], path[i + 1..])
    else
      var i := IndexOf(path, ';');
      (path[..i], path[i + 1..])
  }

  /** `urlparse(url)`: `urlsplit` then the parameters split off the path. */
  function UrlParseOf(url: string): (r: Option<ParseResult>)
    ensures r.Some? ==> '/' !in r.value.netloc && '?' !in r.value.netloc && '#' !in r.value.netloc
    ensures r.Some? ==> '?' !in r.value.path && '#' !in r.value.path && Clean(r.value.path)
    ensures r.None? <==> UrlSplit(url).None?
  {
    match UrlSplit(url)
    case None => None
    case Some(p) =>
      if UsesParams(p.scheme) && ';' in p.path then
        var (path, params) := SplitParams(p.path);
        CleanSlice(p.path, 0, |path|);
        Some(p.(path := path, params := params))
      else Some(p)
  }

  // ---------------------------------------------------------------------
  // Query strings
  // ---------------------------------------------------------------------

  /**
   * The pair kept for one `&`-separated field of a query, if any: fields
   * without `=` and fields with an empty value are dropped; `+` stands for
   * a space.
   */
  function QueryField(field: string): (r: Option<(string, string)>)
    ensures r.Some? ==> r.value.1 != []
  {
    var e := IndexOf(field, '=');
    if e < 0 || e + 1 == |field| then None
    else Some((ReplaceChar(field[..e], '+', ' '), ReplaceChar(field[e + 1..], '+', ' ')))
  }

  function QueryFields(fields: seq<string>): (pairs: seq<(string, string)>)
    ensures forall n :: 0 <= n < |pairs| ==> pairs[n].1 != []
  {
    if fields == [] then []
    else
      var rest := QueryFields(fields[1..]);
      match QueryField(fields[0])
      case Some(p) => [p] + rest
      case None => rest
  }

  /** `parse_qsl(query)`: the kept name/value pairs in order. */
  function QueryPairs(query: string): (pairs: seq<(string, string)>)
    ensures forall n :: 0 <= n < |pairs| ==> pairs[n].1 != []
  {
    if query == [] then [] else QueryFields(SplitOn(query, '&'))
  }

  /** The index of the first pair named `name`, or -1. */
  function FirstIndex(pairs: seq<(string, string)>, name: string, i: nat): (r: int)
    ensures r == -1 || (i <= r < |pairs| && pairs[r].0 == name)
    ensures forall m :: i <= m < (if r < 0 then |pairs| else r) ==> pairs[m].0 != name
    decreases |pairs| - i
  {
    if i >= |pairs| then -1 else if pairs[i].0 == name then i else FirstIndex(pairs, name, i + 1)
  }

  /** `parse_qs(query).get(name, [None])[0]`: the first value given for `name`. */
  function FirstValue(pairs: seq<(string, string)>, name: string): (r: Option<string>)
    ensures r.None? <==> forall n :: 0 <= n < |pairs| ==> pairs[n].0 != name
    ensures r.Some? ==> exists n :: (0 <= n < |pairs| && pairs[n] == (name, r.value)
      && forall m :: 0 <= m < n ==> pairs[m].0 != name)
  {
    var i := FirstIndex(pairs, name, 0);
    if i < 0 then None else Some(pairs[i].1)
  }
}

module UrlForms {
  import opened Wrappers
  import opened Strings
  import opened UrlParse

  /** `scheme://netloc` followed by a path and an optional `?query`. */
  function ComposeUrl(scheme: string, netloc: string, path: string, query: Option<string>): string
  {
    scheme + "://" + netloc + path + (if query.Some? then "?" + query.value else "")
  }

  /** A scheme as `urlsplit` returns it: a letter, then scheme characters, no upper case. */
  predicate IsLowerScheme(s: string)
  {
    s != [] && IsAsciiAlpha(s[0]) && forall k :: 0 <= k < |s| ==> IsSchemeChar(s[k]) && !('A' <= s[k] <= 'Z')
  }

  predicate ValidNetloc(n: string)
  {
    (forall k :: 0 <= k < |n| ==> n[k] != '/' && n[k] != '?' && n[k] != '#' && !IsUnsafe(n[k]))
    && (('[' in n) <==> (']' in n))
  }

  predicate ValidPath(p: string)
  {
    (p == [] || p[0] == '/') && forall k :: 0 <= k < |p| ==> p[k] != '?' && p[k] != '#' && !IsUnsafe(p[k])
  }

  predicate ValidQuery(q: string)
  {
    forall k :: 0 <= k < |q| ==> q[k] != '#' && !IsUnsafe(q[k])
  }

  lemma SanitizeClean(url: string)
    requires url != [] && !IsC0OrSpace(url[0])
    requires forall k :: 0 <= k < |url| ==> !IsUnsafe(url[k])
    ensures Sanitize(url) == url
  {
    assert SkipC0(url, 0) == 0;
    assert url[0..] == url;
  }

  lemma LowerAsciiLower(s: string)
    requires forall k :: 0 <= k < |s| ==> !('A' <= s[k] <= 'Z')
    ensures LowerAscii(s) == s
  {
  }

  /** Splitting at the first `c` is unique: the part before it cannot contain `c`. */
  lemma SplitUnique(a: string, b: string, a': string, b': string, c: char)
    requires a + [c] + b == a' + [c] + b'
    requires c !in a && c !in a'
    ensures a == a' && b == b'
  {
    var s := a + [c] + b;
    assert s[|a|] == c && s[|a'|] == c;
    assert forall k :: 0 <= k < |a| ==> s[k] == a[k];
    assert forall k :: 0 <= k < |a'| ==> s[k] == a'[k];
    assert |a| == |a'|;
    assert a == s[..|a|] && a' == s[..|a'|];
    assert b == s[|a| + 1..] && b' == s[|a'| + 1..];
  }

  lemma SchemeOfComposed(scheme: string, rest: string)
    requires IsLowerScheme(scheme)
    ensures SplitScheme(scheme + ":" + rest) == (scheme, rest)
  {
    var url := scheme + ":" + rest;
    IndexFromIs(url, ':', 0, |scheme|);
    assert HasScheme(url);
    assert url[..|scheme|] == scheme && url[|scheme| + 1..] == rest;
    LowerAsciiLower(scheme);
  }

  lemma NetlocOfComposed(netloc: string, after: string)
    requires forall k :: 0 <= k < |netloc| ==> netloc[k] != '/' && netloc[k] != '?' && netloc[k] != '#'
    requires after == [] || after[0] == '/' || after[0] == '?'
    ensures SplitLocation("//" + netloc + after) == (netloc, after)
  {
    var rest := "//" + netloc + after;
    assert rest[..2] == "//";
    var d := NetlocEnd(rest, 2);
    var n := 2 + |netloc|;
    assert forall k :: 2 <= k < n ==> rest[k] == netloc[k - 2];
    assert n < |rest| ==> rest[n] == after[0];
    assert d == n;
    assert rest[2..d] == netloc && rest[d..] == after;
  }

  /** The text after the network location: a path and an optional `?query`. */
  lemma AfterNetlocSplits(path: string, query: Option<string>)
    requires ValidPath(path)
    requires query.Some? ==> ValidQuery(query.value)
    ensures var after := path + (if query.Some? then "?" + query.value else "");
      (forall k :: 0 <= k < |after| ==> !IsUnsafe(after[k]))
      && SplitTail(after) == (path, query.GetOr(""), "")
  {
    var qpart: string := if query.Some? then "?" + query.value else "";
    var after := path + qpart;
    forall k | 0 <= k < |after|
      ensures after[k] != '#' && !IsUnsafe(after[k])
    {
      if k < |path| {
        assert after[k] == path[k];
      } else if k > |path| {
        assert after[k] == query.value[k - |path| - 1];
      }
    }
    assert '#' !in after;
    assert SplitOnce(after, '#') == (after, "");
    var pq := SplitOnce(after, '?');
    if query.Some? {
      assert after == path + ['?'] + query.value;
      assert '?' in after by { assert after[|path|] == '?'; }
      SplitUnique(path, query.value, pq.0, pq.1, '?');
    } else {
      assert after == path;
    }
  }

  lemma ComposedIsClean(scheme: string, netloc: string, after: string)
    requires IsLowerScheme(scheme) && ValidNetloc(netloc)
    requires forall k :: 0 <= k < |after| ==> !IsUnsafe(after[k])
    ensures Sanitize(scheme + ":" + ("//" + netloc + after)) == scheme + ":" + ("//" + netloc + after)
  {
    var url := scheme + ":" + ("//" + netloc + after);
    forall k | 0 <= k < |url|
      ensures !IsUnsafe(url[k])
    {
      if k < |scheme| {
        assert url[k] == scheme[k];
      } else if k < |scheme| + 3 {
      } else if k < |scheme| + 3 + |netloc| {
        assert url[k] == netloc[k - |scheme| - 3];
      } else {
        assert url[k] == after[k - |scheme| - 3 - |netloc|];
      }
    }
    SanitizeClean(url);
  }

  /**
   * The shape every supported video URL has: splitting it gives back the
   * scheme, network location, path and query it was made of.
   */
  lemma UrlSplitComposed(scheme: string, netloc: string, path: string, query: Option<string>)
    requires IsLowerScheme(scheme) && ValidNetloc(netloc) && ValidPath(path)
    requires query.Some? ==> ValidQuery(query.value)
    ensures UrlSplit(ComposeUrl(scheme, netloc, path, query))
      == Some(ParseResult(scheme, netloc, path, "", query.GetOr(""), ""))
  {
    var after := path + (if query.Some? then "?" + query.value else "");
    var rest := "//" + netloc + after;
    assert ComposeUrl(scheme, netloc, path, query) == scheme + ":" + rest;
    AfterNetlocSplits(path, query);
    ComposedIsClean(scheme, netloc, after);
    SchemeOfComposed(scheme, rest);
    NetlocOfComposed(netloc, after);
  }

  /** With no `;` in the path, `urlparse` agrees with `urlsplit`. */
  lemma UrlParseComposed(scheme: string, netloc: string, path: string, query: Option<string>)
    requires IsLowerScheme(scheme) && ValidNetloc(netloc) && ValidPath(path)
    requires query.Some? ==> ValidQuery(query.value)
    requires ';' !in path
    ensures UrlParseOf(ComposeUrl(scheme, netloc, path, query))
      == Some(ParseResult(scheme, netloc, path, "", query.GetOr(""), ""))
  {
    UrlSplitComposed(scheme, netloc, path, query);
  }
}
