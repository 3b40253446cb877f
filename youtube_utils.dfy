/**
 * The YouTube utilities: recognising a video id in the URL shapes the tool
 * accepts, reading `PTnHnMnS` durations, and choosing and cleaning a
 * transcript from the unofficial transcript API. The SubRip conversion is
 * in module `SrtText`.
 */
module YouTubeUtils {
  import opened Wrappers
  import opened Strings
  import opened UrlParse
  import opened UrlForms

  // ---------------------------------------------------------------------
  // Video ids
  // ---------------------------------------------------------------------

  predicate IsIdChar(c: char)
  {
    IsAsciiAlpha(c) || IsDigit(c) || c == '_' || c == '-'
  }

  /** Exactly eleven characters from `[A-Za-z0-9_-]`. */
  predicate IsVideoId(s: string)
  {
    |s| == 11 && forall k :: 0 <= k < |s| ==> IsIdChar(s[k])
  }

  /**
   * `re.match(r'^[a-zA-Z0-9_-]{11}$', s)`: `$` also matches just before a
   * final line feed.
   */
  predicate MatchesIdPattern(s: string)
  {
    IsVideoId(s) || (|s| == 12 && s[11] == '\n' && IsVideoId(s[..11]))
  }

  /** On a string that does not end in a line feed the pattern means exactly "is an id". */
  lemma MatchesIdPatternNoNewline(s: string)
    requires s == [] || s[|s| - 1] != '\n'
    ensures MatchesIdPattern(s) <==> IsVideoId(s)
  {
  }

  /**
   * `/(embed|v)/([a-zA-Z0-9_-]{11})` tried at position `i` of the path:
   * the eleven characters after `/embed/` or `/v/`, if they are id characters.
   */
  function EmbedAt(path: string, i: nat): (r: Option<string>)
    ensures r.Some? ==> IsVideoId(r.value)
  {
    if OccursAt(path, "/embed/", i) && i + 18 <= |path| && IsVideoId(path[i + 7..i + 18]) then
      Some(path[i + 7..i + 18])
    else if OccursAt(path, "/v/", i) && i + 14 <= |path| && IsVideoId(path[i + 3..i + 14]) then
      Some(path[i + 3..i + 14])
    else None
  }

  /** The leftmost position at or after `i` where the embed pattern matches, or -1. */
  function EmbedPos(path: string, i: nat): (r: int)
    ensures r == -1 || (i <= r < |path| && EmbedAt(path, r).Some?)
    ensures forall k :: i <= k < (if r < 0 then |path| else r) ==> EmbedAt(path, k).None?
    decreases |path| - i
  {
    if i >= |path| then -1 else if EmbedAt(path, i).Some? then i else EmbedPos(path, i + 1)
  }

  /** `re.search(r'/(embed|v)/([a-zA-Z0-9_-]{11})', path).group(2)`, or `None` without a match. */
  function SearchEmbed(path: string): (r: Option<string>)
    ensures r.Some? ==> IsVideoId(r.value)
    ensures r.None? <==> forall k :: 0 <= k < |path| ==> EmbedAt(path, k).None?
  {
    var k := EmbedPos(path, 0);
    if k < 0 then None else EmbedAt(path, k)
  }

  /** The first position at or after `i` that does not hold `c`. */
  function SkipChar(s: string, c: char, i: nat): (j: nat)
    requires i <= |s|
    ensures i <= j <= |s|
    ensures forall k :: i <= k < j ==> s[k] == c
    ensures j < |s| ==> s[j] != c
    decreases |s| - i
  {
    if i < |s| && s[i] == c then SkipChar(s, c, i + 1) else i
  }

  /** The id of a short link: `path.lstrip('/').split('?')[0]` when it matches the id pattern. */
  function ShortLinkId(path: string): (r: Option<string>)
    ensures r.Some? ==> MatchesIdPattern(r.value)
    ensures r.Some? && Clean(path) ==> IsVideoId(r.value)
  {
    var rest := path[SkipChar(path, '/', 0)..];
    var vid := SplitOn(rest, '?')[0];
    assert forall k :: 0 <= k < |vid| ==> vid[k] == rest[k];
    if MatchesIdPattern(vid) then Some(vid) else None
  }

  /** A `youtube.com` host with path exactly `/watch`. */
  predicate IsWatchPage(p: ParseResult)
  {
    Contains(p.netloc, "youtube.com") && p.path == "/watch"
  }

  /** The three URL shapes, tried in order on the parsed URL. */
  function IdFromParsed(p: ParseResult): (r: Option<string>)
    ensures r.Some? ==> r.value != []
    ensures r.Some? && !IsWatchPage(p) && Clean(p.path) ==>
      IsVideoId(r.value)
  {
    if IsWatchPage(p) then FirstValue(QueryPairs(p.query), "v")
    else
      var embedded := if Contains(p.netloc, "youtube.com") then SearchEmbed(p.path) else None;
      if embedded.Some? then embedded
      else if Contains(p.netloc, "youtu.be") then ShortLinkId(p.path)
      else None
  }

  /**
   * `extract_video_id(url)`: a bare id is returned as it is; otherwise the
   * URL is parsed and one of the three shapes must apply. Any exception of
   * the parser yields `None`, so the function is total.
   */
  function ExtractVideoId(url: string): (r: Option<string>)
    ensures IsVideoId(Strip(url)) ==> r == Some(Strip(url))
    ensures r.Some? ==> r.value != []
    ensures r.Some? && !IsVideoId(r.value) ==>
      UrlParseOf(Strip(url)).Some? && IsWatchPage(UrlParseOf(Strip(url)).value)
  {
    if url == [] then None
    else
      var u := Strip(url);
      MatchesIdPatternNoNewline(u);
      if MatchesIdPattern(u) then Some(u)
      else
        match UrlParseOf(u)
        case None => None
        case Some(p) => IdFromParsed(p)
  }

  /** `validate_url(url)`: the URL is valid exactly when an id can be extracted from it. */
  function ValidateUrl(url: string): (b: bool)
    ensures b <==> ExtractVideoId(url).Some?
    ensures IsVideoId(Strip(url)) ==> b
  {
    ExtractVideoId(url).Some?
  }

  /** An empty or all-blank input has no id. */
  lemma BlankUrlNone(url: string)
    requires Strip(url) == []
    ensures ExtractVideoId(url) == None
  {
    if url != [] {
      var p := UrlParseOf([]);
      if p.Some? {
        assert !Contains(p.value.netloc, "youtube.com") && !Contains(p.value.netloc, "youtu.be");
      }
    }
  }

  // ---------------------------------------------------------------------
  // The accepted URL shapes
  // ---------------------------------------------------------------------

  /** A URL with a scheme is never mistaken for a bare id: its `:` is not an id character. */
  lemma ComposedNotBareId(scheme: string, netloc: string, path: string, query: Option<string>)
    requires IsLowerScheme(scheme)
    ensures !MatchesIdPattern(ComposeUrl(scheme, netloc, path, query))
  {
    var url := ComposeUrl(scheme, netloc, path, query);
    assert url[|scheme|] == ':';
    if 11 <= |url| <= 12 {
      assert url[..11][|scheme|] == ':';
    }
  }

  /** Strip leaves such a URL alone when its last character is not whitespace. */
  lemma ComposedStripped(scheme: string, netloc: string, path: string, query: Option<string>)
    requires IsLowerScheme(scheme)
    requires var url := ComposeUrl(scheme, netloc, path, query); !IsSpace(url[|url| - 1])
    ensures Strip(ComposeUrl(scheme, netloc, path, query)) == ComposeUrl(scheme, netloc, path, query)
  {
    StripNoOuterSpace(ComposeUrl(scheme, netloc, path, query));
  }

  /**
   * A `watch` URL on a `youtube.com` host gives the first `v` value of its
   * query, verbatim and without any length check, or `None` without one.
   */
  lemma WatchUrlId(scheme: string, netloc: string, query: string)
    requires IsLowerScheme(scheme) && ValidNetloc(netloc) && ValidQuery(query)
    requires Contains(netloc, "youtube.com")
    requires var url := ComposeUrl(scheme, netloc, "/watch", Some(query)); !IsSpace(url[|url| - 1])
    ensures ExtractVideoId(ComposeUrl(scheme, netloc, "/watch", Some(query)))
      == FirstValue(QueryPairs(query), "v")
  {
    ComposedStripped(scheme, netloc, "/watch", Some(query));
    ComposedNotBareId(scheme, netloc, "/watch", Some(query));
    UrlParseComposed(scheme, netloc, "/watch", Some(query));
  }

  /**
   * Any other path on a `youtube.com` host gives the leftmost `/embed/<id>`
   * or `/v/<id>` match. Without a match the host falls through to the
   * short-link test, which only a host also containing `youtu.be` passes;
   * otherwise the result is `None`.
   */
  lemma EmbedUrlId(scheme: string, netloc: string, path: string, query: Option<string>)
    requires IsLowerScheme(scheme) && ValidNetloc(netloc) && ValidPath(path) && ';' !in path
    requires query.Some? ==> ValidQuery(query.value)
    requires Contains(netloc, "youtube.com") && path != "/watch"
    requires var url := ComposeUrl(scheme, netloc, path, query); !IsSpace(url[|url| - 1])
    ensures SearchEmbed(path).Some? ==>
      ExtractVideoId(ComposeUrl(scheme, netloc, path, query)) == SearchEmbed(path)
    ensures SearchEmbed(path).None? && !Contains(netloc, "youtu.be") ==>
      ExtractVideoId(ComposeUrl(scheme, netloc, path, query)) == None
    ensures SearchEmbed(path).None? && Contains(netloc, "youtu.be") ==>
      ExtractVideoId(ComposeUrl(scheme, netloc, path, query)) == ShortLinkId(path)
  {
    ComposedStripped(scheme, netloc, path, query);
    ComposedNotBareId(scheme, netloc, path, query);
    UrlParseComposed(scheme, netloc, path, query);
  }

  /** A `youtu.be` host (and no `youtube.com`) gives the short-link id of the path, if it is one. */
  lemma ShortUrlId(scheme: string, netloc: string, path: string, query: Option<string>)
    requires IsLowerScheme(scheme) && ValidNetloc(netloc) && ValidPath(path) && ';' !in path
    requires query.Some? ==> ValidQuery(query.value)
    requires Contains(netloc, "youtu.be") && !Contains(netloc, "youtube.com")
    requires var url := ComposeUrl(scheme, netloc, path, query); !IsSpace(url[|url| - 1])
    ensures ExtractVideoId(ComposeUrl(scheme, netloc, path, query)) == ShortLinkId(path)
  {
    ComposedStripped(scheme, netloc, path, query);
    ComposedNotBareId(scheme, netloc, path, query);
    UrlParseComposed(scheme, netloc, path, query);
  }

  /** Any other host gives `None`. */
  lemma OtherHostNone(scheme: string, netloc: string, path: string, query: Option<string>)
    requires IsLowerScheme(scheme) && ValidNetloc(netloc) && ValidPath(path) && ';' !in path
    requires query.Some? ==> ValidQuery(query.value)
    requires !Contains(netloc, "youtu.be") && !Contains(netloc, "youtube.com")
    requires var url := ComposeUrl(scheme, netloc, path, query); !IsSpace(url[|url| - 1])
    ensures ExtractVideoId(ComposeUrl(scheme, netloc, path, query)) == None
  {
    ComposedStripped(scheme, netloc, path, query);
    ComposedNotBareId(scheme, netloc, path, query);
    UrlParseComposed(scheme, netloc, path, query);
  }

  lemma EmbedPathId(id: string)
    requires IsVideoId(id)
    ensures SearchEmbed("/embed/" + id) == Some(id)
    ensures SearchEmbed("/v/" + id) == Some(id)
  {
    var e := "/embed/" + id;
    assert OccursAt(e, "/embed/", 0) && e[7..18] == id;
    var v := "/v/" + id;
    assert OccursAt(v, "/v/", 0) && v[3..14] == id;
  }

  lemma ShortPathId(id: string)
    requires IsVideoId(id)
    ensures ShortLinkId("/" + id) == Some(id)
  {
    var path := "/" + id;
    assert SkipChar(path, '/', 0) == 1 by {
      assert path[1] == id[0];
    }
    assert path[1..] == id;
    IndexFromIs(id, '?', 0, -1);
  }

  lemma BareIdStays(id: string)
    requires IsVideoId(id)
    ensures ExtractVideoId(id) == Some(id)
  {
    StripNoOuterSpace(id);
  }

  // ---------------------------------------------------------------------
  // The sample URLs of the module's self-test
  // ---------------------------------------------------------------------

  const SampleId := "dQw4w9WgXcQ"

  lemma SampleIdIsId()
    ensures IsVideoId(SampleId)
  {
  }

  lemma SampleHost()
    ensures IsLowerScheme("https")
    ensures ValidNetloc("www.youtube.com") && Contains("www.youtube.com", "youtube.com")
  {
    assert OccursAt("www.youtube.com", "youtube.com", 4);
  }

  lemma SampleQuery()
    ensures ValidQuery("v=dQw4w9WgXcQ")
    ensures FirstValue(QueryPairs("v=dQw4w9WgXcQ"), "v") == Some(SampleId)
  {
    SampleQueryClean();
    SampleQueryPairs();
    var pairs := QueryPairs("v=dQw4w9WgXcQ");
    assert pairs[0] == ("v", SampleId);
  }

  /** The sample query holds only id characters and `=`. */
  lemma SampleQueryClean()
    ensures ValidQuery("v=dQw4w9WgXcQ")
  {
    var q := "v=" + SampleId;
    SampleIdIsId();
    assert forall k :: 2 <= k < |q| ==> q[k] == SampleId[k - 2];
    assert forall k :: 0 <= k < |q| ==> q[k] != '#' && !IsUnsafe(q[k]);
    assert q == "v=dQw4w9WgXcQ";
  }

  /** The sample query is one field, `v`. */
  lemma SampleQueryPairs()
    ensures QueryPairs("v=dQw4w9WgXcQ") == [("v", SampleId)]
  {
    var q := "v=dQw4w9WgXcQ";
    IndexFromIs(q, '&', 0, -1);
    assert SplitOn(q, '&') == [q];
    SampleQueryField();
  }

  lemma SampleQueryField()
    ensures QueryField("v=dQw4w9WgXcQ") == Some(("v", SampleId))
  {
    var q := "v=dQw4w9WgXcQ";
    IndexFromIs(q, '=', 0, 1);
    assert q[..1] == "v";
    assert q[2..] == SampleId;
  }

  /** The sample `https://www.youtube.com/watch?v=dQw4w9WgXcQ`, written as its parts. */
  lemma SampleWatchUrl()
    ensures ExtractVideoId(ComposeUrl("https", "www.youtube.com", "/watch", Some("v=dQw4w9WgXcQ"))) == Some(SampleId)
  {
    SampleHost();
    SampleQuery();
    WatchUrlId("https", "www.youtube.com", "v=dQw4w9WgXcQ");
  }

  /** The parts above spell the sample URLs. */
  lemma SampleWatchSpelling()
    ensures ComposeUrl("https", "www.youtube.com", "/watch", Some("v=dQw4w9WgXcQ"))
      == "https://www.youtube.com/watch?v=dQw4w9WgXcQ"
  {
    SampleHostSpelling();
    var head := "https://www.youtube.com";
    assert head + "/watch" == "https://www.youtube.com/watch";
    assert "?" + "v=dQw4w9WgXcQ" == "?v=dQw4w9WgXcQ";
    assert "https://www.youtube.com/watch" + "?v=dQw4w9WgXcQ" == "https://www.youtube.com/watch?v=dQw4w9WgXcQ";
  }

  lemma SampleEmbedSpelling()
    ensures ComposeUrl("https", "www.youtube.com", "/embed/dQw4w9WgXcQ", None)
      == "https://www.youtube.com/embed/dQw4w9WgXcQ"
  {
    SampleHostSpelling();
    assert "https://www.youtube.com" + "/embed/dQw4w9WgXcQ" == "https://www.youtube.com/embed/dQw4w9WgXcQ";
  }

  lemma SampleHostSpelling()
    ensures "https" + "://" + "www.youtube.com" == "https://www.youtube.com"
  {
    assert "https" + "://" == "https://";
  }

  lemma SampleShortSpelling()
    ensures "https://youtu.be/dQw4w9WgXcQ" == ComposeUrl("https", "youtu.be", "/" + SampleId, None)
  {
    assert "https" + "://" == "https://";
    assert "https://" + "youtu.be" == "https://youtu.be";
    assert "/" + SampleId == "/dQw4w9WgXcQ";
    assert "https://youtu.be" + "/dQw4w9WgXcQ" == "https://youtu.be/dQw4w9WgXcQ";
  }

  lemma SampleShortUrl()
    ensures ExtractVideoId("https://youtu.be/dQw4w9WgXcQ") == Some(SampleId)
  {
    SampleShortSpelling();
    SampleShortHost();
    SampleIdIsId();
    ShortUrlId("https", "youtu.be", "/" + SampleId, None);
    ShortPathId(SampleId);
  }

  lemma SampleShortHost()
    ensures Contains("youtu.be", "youtu.be")
  {
    assert OccursAt("youtu.be", "youtu.be", 0);
  }

  lemma SampleBareId()
    ensures ExtractVideoId("dQw4w9WgXcQ") == Some(SampleId)
  {
    BareIdStays(SampleId);
  }

  /** The sample `https://www.youtube.com/embed/dQw4w9WgXcQ`, written as its parts. */
  lemma SampleEmbedUrl()
    ensures ExtractVideoId(ComposeUrl("https", "www.youtube.com", "/embed/" + SampleId, None)) == Some(SampleId)
  {
    SampleHost();
    SampleIdIsId();
    EmbedPathId(SampleId);
    SampleEmbedPath();
    EmbedUrlId("https", "www.youtube.com", "/embed/" + SampleId, None);
  }

  /** The sample embed path is a clean path and the URL ends in a letter. */
  lemma SampleEmbedPath()
    ensures var path := "/embed/" + SampleId;
      && ValidPath(path) && ';' !in path && path != "/watch"
      && var url := ComposeUrl("https", "www.youtube.com", path, None); !IsSpace(url[|url| - 1])
  {
    var path := "/embed/" + SampleId;
    SampleIdIsId();
    assert forall k :: 7 <= k < |path| ==> path[k] == SampleId[k - 7];
    assert |path| != |"/watch"|;
    var url := ComposeUrl("https", "www.youtube.com", path, None);
    assert url[|url| - 1] == path[|path| - 1] == 'Q';
  }

  lemma SampleOtherHost()
    ensures ExtractVideoId("https://invalid.com/video") == None
  {
    var host := "invalid.com";
    assert "https://invalid.com/video" == ComposeUrl("https", host, "/video", None);
    forall i | 0 <= i <= |host| - |"youtu.be"|
      ensures !OccursAt(host, "youtu.be", i)
    {
      assert host[i..i + 8][0] == host[i] != 'y';
    }
    assert !OccursAt(host, "youtube.com", 0) by {
      assert host[0..11][0] == 'i';
    }
    OtherHostNone("https", host, "/video", None);
  }

  // ---------------------------------------------------------------------
  // ISO 8601 durations: `PT(?:(\d+)H)?(?:(\d+)M)?(?:(\d+)S)?` matched at the start
  // ---------------------------------------------------------------------

  /** The end of the run of digits that starts at `i`. */
  function SkipDigits(s: string, i: nat): (j: nat)
    requires i <= |s|
    ensures i <= j <= |s|
    ensures forall k :: i <= k < j ==> IsDigit(s[k])
    ensures j < |s| ==> !IsDigit(s[j])
    decreases |s| - i
  {
    if i < |s| && IsDigit(s[i]) then SkipDigits(s, i + 1) else i
  }

  /**
   * The optional group `(?:(\d+)U)?` at position `i`: the number and the
   * position after the unit letter when the whole digit run is followed by
   * `unit`, and `(0, i)` otherwise (the group is skipped).
   */
  function Component(s: string, i: nat, unit: char): (r: (nat, nat))
    requires i <= |s|
    ensures i <= r.1 <= |s|
    ensures r.1 == i ==> r.0 == 0
  {
    var j := SkipDigits(s, i);
    if i < j && j < |s| && s[j] == unit then (DigitsValue(s[i..j]), j + 1) else (0, i)
  }

  /**
   * `parse_iso_duration(d)`: hours, minutes and seconds of a leading
   * `PTnHnMnS` (each part optional) as a number of seconds; a string not
   * starting with `PT` gives 0.
   */
  function ParseIsoDuration(d: string): (seconds: nat)
    ensures !StartsWith(d, "PT") ==> seconds == 0
  {
    if !StartsWith(d, "PT") then 0
    else
      var (h, i) := Component(d, 2, 'H');
      var (m, j) := Component(d, i, 'M');
      var (sec, _) := Component(d, j, 'S');
      h * 3600 + m * 60 + sec
  }

  /** One part of a duration as YouTube writes it: the number then its unit, or nothing. */
  function RenderPart(n: Option<nat>, unit: char): string
  {
    if n.Some? then NatToString(n.value) + [unit] else ""
  }

  /** `PTnHnMnS` with the given parts present. */
  function DurationString(h: Option<nat>, m: Option<nat>, sec: Option<nat>): string
  {
    "PT" + RenderPart(h, 'H') + RenderPart(m, 'M') + RenderPart(sec, 'S')
  }

  /** The digit run of `b` seen from inside `a + b`. */
  lemma SkipDigitsShift(a: string, b: string, k: nat)
    requires k <= |b|
    ensures SkipDigits(a + b, |a| + k) == |a| + SkipDigits(b, k)
    decreases |b| - k
  {
    if k < |b| && IsDigit(b[k]) {
      SkipDigitsShift(a, b, k + 1);
    }
  }

  /** The first digit run of `rest` is not followed by `unit`. */
  predicate NotFollowedBy(rest: string, unit: char)
  {
    var j := SkipDigits(rest, 0);
    j == |rest| || rest[j] != unit
  }

  lemma RenderedNotFollowedBy(n: Option<nat>, u: char, rest: string, unit: char)
    requires !IsDigit(u) && u != unit
    requires NotFollowedBy(rest, unit)
    ensures NotFollowedBy(RenderPart(n, u) + rest, unit)
  {
    if n.Some? {
      var ds := NatToString(n.value);
      var t := ds + [u] + rest;
      assert t == ds + ([u] + rest);
      SkipDigitsShift(ds, [u] + rest, 0);
      assert SkipDigits(ds, 0) == 0 + |ds| by {
        SkipDigitsAll(ds);
      }
      assert SkipDigits(t, 0) == |ds| by {
        SkipDigitsPrefix(ds, [u] + rest);
      }
    } else {
      assert RenderPart(n, u) + rest == rest;
    }
  }

  lemma SkipDigitsAll(ds: string)
    requires AllDigits(ds)
    ensures SkipDigits(ds, 0) == |ds|
  {
    SkipDigitsFrom(ds, 0);
  }

  lemma {:induction false} SkipDigitsFrom(ds: string, i: nat)
    requires AllDigits(ds) && i <= |ds|
    ensures SkipDigits(ds, i) == |ds|
    decreases |ds| - i
  {
    if i < |ds| {
      SkipDigitsFrom(ds, i + 1);
    }
  }

  /** A run of digits followed by a non-digit ends exactly there. */
  lemma SkipDigitsPrefix(ds: string, rest: string)
    requires AllDigits(ds)
    requires rest != [] && !IsDigit(rest[0])
    ensures SkipDigits(ds + rest, 0) == |ds|
  {
    SkipDigitsPrefixFrom(ds, rest, 0);
  }

  lemma {:induction false} SkipDigitsPrefixFrom(ds: string, rest: string, i: nat)
    requires AllDigits(ds) && i <= |ds|
    requires rest != [] && !IsDigit(rest[0])
    ensures SkipDigits(ds + rest, i) == |ds|
    decreases |ds| - i
  {
    var s := ds + rest;
    if i < |ds| {
      assert s[i] == ds[i];
      SkipDigitsPrefixFrom(ds, rest, i + 1);
    } else {
      assert s[i] == rest[0];
    }
  }

  /** The digit scan stops at the first non-digit. */
  lemma SkipDigitsIs(s: string, i: nat, j: nat)
    requires i <= j <= |s|
    requires forall k :: i <= k < j ==> IsDigit(s[k])
    requires j < |s| ==> !IsDigit(s[j])
    ensures SkipDigits(s, i) == j
  {
  }

  /** A digit run followed by its unit is read as its number. */
  lemma ComponentAtDigits(s: string, i: nat, j: nat, unit: char)
    requires i < j < |s|
    requires forall k :: i <= k < j ==> IsDigit(s[k])
    requires s[j] == unit && !IsDigit(unit)
    ensures Component(s, i, unit) == (DigitsValue(s[i..j]), j + 1)
  {
    SkipDigitsIs(s, i, j);
  }

  /** A part that is absent is skipped, leaving the position where it is. */
  lemma ComponentAbsent(pre: string, unit: char, rest: string)
    requires NotFollowedBy(rest, unit)
    ensures Component(pre + rest, |pre|, unit) == (0, |pre|)
  {
    SkipDigitsShift(pre, rest, 0);
  }

  /** Reading one rendered part back at position `|pre|`. */
  lemma ComponentOfRendered(pre: string, n: Option<nat>, unit: char, rest: string)
    requires !IsDigit(unit)
    requires n.None? ==> NotFollowedBy(rest, unit)
    ensures var s := pre + RenderPart(n, unit) + rest;
      Component(s, |pre|, unit) == (n.GetOr(0), |pre| + |RenderPart(n, unit)|)
  {
    if n.Some? {
      var ds := NatToString(n.value);
      var s := pre + RenderPart(n, unit) + rest;
      var j := |pre| + |ds|;
      assert forall k :: |pre| <= k < j ==> s[k] == ds[k - |pre|];
      assert s[j] == unit;
      assert s[|pre|..j] == ds;
      ComponentAtDigits(s, |pre|, j, unit);
      DigitsValueOfNatToString(n.value);
    } else {
      assert pre + RenderPart(n, unit) + rest == pre + rest;
      ComponentAbsent(pre, unit, rest);
    }
  }

  lemma HoursPart(h: Option<nat>, m: Option<nat>, sec: Option<nat>, d: string, i: nat)
    requires d == DurationString(h, m, sec) && i == 2 + |RenderPart(h, 'H')|
    ensures 2 <= |d| && Component(d, 2, 'H') == (h.GetOr(0), i)
  {
    var rest := RenderPart(m, 'M') + RenderPart(sec, 'S');
    HoursRestClear(m, sec);
    assert DurationString(h, m, sec) == "PT" + RenderPart(h, 'H') + rest;
    ComponentOfRendered("PT", h, 'H', rest);
  }

  /** What follows the hours part never reads as an hours part. */
  lemma HoursRestClear(m: Option<nat>, sec: Option<nat>)
    ensures NotFollowedBy(RenderPart(m, 'M') + RenderPart(sec, 'S'), 'H')
  {
    var ss := RenderPart(sec, 'S');
    RenderedNotFollowedBy(sec, 'S', "", 'H');
    assert ss + "" == ss;
    RenderedNotFollowedBy(m, 'M', ss, 'H');
  }

  lemma MinutesPart(h: Option<nat>, m: Option<nat>, sec: Option<nat>, d: string, i: nat, j: nat)
    requires d == DurationString(h, m, sec)
    requires i == 2 + |RenderPart(h, 'H')| && j == i + |RenderPart(m, 'M')|
    ensures i <= |d| && Component(d, i, 'M') == (m.GetOr(0), j)
  {
    var pre, ms, ss := "PT" + RenderPart(h, 'H'), RenderPart(m, 'M'), RenderPart(sec, 'S');
    RenderedNotFollowedBy(sec, 'S', "", 'M');
    assert ss + "" == ss;
    ComponentOfRendered(pre, m, 'M', ss);
    assert DurationString(h, m, sec) == pre + ms + ss;
    assert |pre| == 2 + |RenderPart(h, 'H')|;
  }

  lemma SecondsPart(h: Option<nat>, m: Option<nat>, sec: Option<nat>, d: string, j: nat)
    requires d == DurationString(h, m, sec)
    requires j == 2 + |RenderPart(h, 'H')| + |RenderPart(m, 'M')|
    ensures j <= |d| && Component(d, j, 'S').0 == sec.GetOr(0)
  {
    assert d == ("PT" + RenderPart(h, 'H') + RenderPart(m, 'M')) + RenderPart(sec, 'S') + "";
    ComponentOfRendered("PT" + RenderPart(h, 'H') + RenderPart(m, 'M'), sec, 'S', "");
  }

  /**
   * Parsing a rendered duration gives back `h*3600 + m*60 + s`, with each
   * absent part counted as 0.
   */
  lemma ParseRenderedDuration(h: Option<nat>, m: Option<nat>, sec: Option<nat>)
    ensures ParseIsoDuration(DurationString(h, m, sec)) == h.GetOr(0) * 3600 + m.GetOr(0) * 60 + sec.GetOr(0)
  {
    var d := DurationString(h, m, sec);
    DurationStartsPT(h, m, sec);
    var i := 2 + |RenderPart(h, 'H')|;
    var j := i + |RenderPart(m, 'M')|;
    var hv, mv, sv := h.GetOr(0), m.GetOr(0), sec.GetOr(0);
    HoursPart(h, m, sec, d, i);
    MinutesPart(h, m, sec, d, i, j);
    SecondsPart(h, m, sec, d, j);
    ParseOfParts(d, i, j, hv, mv, sv);
  }

  lemma DurationStartsPT(h: Option<nat>, m: Option<nat>, sec: Option<nat>)
    ensures StartsWith(DurationString(h, m, sec), "PT")
  {
    var d := DurationString(h, m, sec);
    assert d[..2] == "PT";
  }

  /** The parse result assembled from the three parts read one after another. */
  lemma ParseOfParts(d: string, i: nat, j: nat, h: nat, m: nat, sec: nat)
    requires StartsWith(d, "PT") && i <= |d|
    requires Component(d, 2, 'H') == (h, i)
    requires Component(d, i, 'M') == (m, j)
    requires Component(d, j, 'S').0 == sec
    ensures ParseIsoDuration(d) == h * 3600 + m * 60 + sec
  {
  }

  lemma DurationExampleSpelling()
    ensures DurationString(Some(1), Some(2), Some(10)) == "PT1H2M10S"
  {
    assert NatToString(10) == "10";
  }

  /** The example of the source's documentation: `PT1H2M10S` is 3730 seconds. */
  lemma DurationExample()
    ensures ParseIsoDuration("PT1H2M10S") == 3730
  {
    ParseRenderedDuration(Some(1), Some(2), Some(10));
    DurationExampleSpelling();
  }

  // ---------------------------------------------------------------------
  // Transcripts from the unofficial transcript API
  // ---------------------------------------------------------------------

  /** The exceptions the transcript API raises, each caught by its own handler. */
  datatype ApiError = TranscriptsDisabled | NoTranscriptFound | VideoUnavailable | OtherError(message: string)

  /** What `fetch()` of a transcript answers: the texts of its entries, or an exception. */
  datatype Fetch = Fetched(texts: seq<string>) | FetchFailed(error: ApiError)

  datatype Transcript = Transcript(languageCode: string, isGenerated: bool, fetch: Fetch)

  /**
   * What `list_transcripts(video_id)` answers: the manually created and the
   * generated transcripts in their listing order, or an exception. The
   * transcript library keys each kind by language code, so a code occurs at
   * most once among `manual` and at most once among `generated`
   * (`UniqueCodes`); taking the first transcript with a code is then the
   * same as the library's lookup by that code.
   */
  datatype Listing = Listed(manual: seq<Transcript>, generated: seq<Transcript>) | ListFailed(error: ApiError)

  /** No two transcripts in `ts` share a language code. */
  predicate UniqueCodes(ts: seq<Transcript>)
  {
    forall i, j :: 0 <= i < j < |ts| ==> ts[i].languageCode != ts[j].languageCode
  }

  /** The `result` dict of `get_video_captions`. */
  datatype CaptionResult = CaptionResult(
    success: bool,
    transcript: Option<string>,
    language: Option<string>,
    isAutoGenerated: Option<bool>,
    wordCount: nat,
    error: Option<string>)

  /** The message each handler writes into `result['error']`. */
  function ErrorMessage(e: ApiError): string
  {
    match e
    case TranscriptsDisabled => "Transcripts are disabled for this video"
    case NoTranscriptFound => "No transcript found in any language"
    case VideoUnavailable => "Video is unavailable"
    case OtherError(msg) => "Unexpected error: " + msg
  }

  /** The position of the first transcript in `ts` for language `code`. */
  function FindLanguage(ts: seq<Transcript>, code: string): (r: Option<nat>)
    ensures r.None? <==> forall i :: 0 <= i < |ts| ==> ts[i].languageCode != code
    ensures r.Some? ==>
      && r.value < |ts| && ts[r.value].languageCode == code
      && forall i :: 0 <= i < r.value ==> ts[i].languageCode != code
  {
    if ts == [] then None
    else if ts[0].languageCode == code then Some(0)
    else
      var r := FindLanguage(ts[1..], code);
      if r.Some? then Some(r.value + 1) else None
  }

  /**
   * The transcript chosen, with the value given to `is_auto_generated`: a
   * manual English one, else a generated English one, else the first one
   * listed with its own flag; `None` when nothing is listed.
   */
  function SelectTranscript(manual: seq<Transcript>, generated: seq<Transcript>): (r: Option<(Transcript, bool)>)
    ensures r.Some? ==> r.value.0 in manual || r.value.0 in generated
    ensures r.None? <==> manual == [] && generated == []
  {
    var m := FindLanguage(manual, "en");
    if m.Some? then Some((manual[m.value], false))
    else
      var g := FindLanguage(generated, "en");
      if g.Some? then Some((generated[g.value], true))
      else
        var available := manual + generated;
        if available != [] then Some((available[0], available[0].isGenerated)) else None
  }

  /** The cleaned text: entries joined by spaces, whitespace runs collapsed, ends stripped. */
  function CleanTranscript(texts: seq<string>): string
  {
    Normalize(Join(texts, " "))
  }

  /** The result `get_video_captions` returns for what the transcript API answers. */
  function VideoCaptions(listing: Listing): (r: CaptionResult)
    ensures r.success <==> r.error.None?
    ensures r.success ==> r.transcript.Some? && r.wordCount == |Words(r.transcript.value)|
    ensures !r.success ==> r.transcript.None? && r.wordCount == 0
  {
    var empty := CaptionResult(false, None, None, None, 0, None);
    match listing
    case ListFailed(e) => empty.(error := Some(ErrorMessage(e)))
    case Listed(manual, generated) =>
      match SelectTranscript(manual, generated)
      case None => empty.(error := Some("No transcripts available"))
      case Some((t, auto)) =>
        match t.fetch
        case FetchFailed(e) => empty.(isAutoGenerated := Some(auto), error := Some(ErrorMessage(e)))
        case Fetched(texts) =>
          var text := CleanTranscript(texts);
          empty.(success := true, transcript := Some(text), language := Some(t.languageCode),
                 isAutoGenerated := Some(auto), wordCount := |Words(text)|)
  }

  /**
   * `get_video_captions(video_id)` with the transcript API's answer for
   * `video_id` given as `listing`: the result dict is filled in step by
   * step along the fallbacks.
   */
  method GetVideoCaptions(listing: Listing) returns (r: CaptionResult)
    ensures r == VideoCaptions(listing)
  {
    r := CaptionResult(false, None, None, None, 0, None);
    if listing.ListFailed? {
      r := r.(error := Some(ErrorMessage(listing.error)));
      return;
    }
    var chosen: Transcript;
    var m := FindLanguage(listing.manual, "en");
    if m.Some? {
      chosen := listing.manual[m.value];
      r := r.(isAutoGenerated := Some(false));
    } else {
      var g := FindLanguage(listing.generated, "en");
      if g.Some? {
        chosen := listing.generated[g.value];
        r := r.(isAutoGenerated := Some(true));
      } else {
        var available := listing.manual + listing.generated;
        if available != [] {
          chosen := available[0];
          r := r.(isAutoGenerated := Some(chosen.isGenerated));
        } else {
          r := r.(error := Some("No transcripts available"));
          return;
        }
      }
    }
    match chosen.fetch
    case FetchFailed(e) =>
      r := r.(error := Some(ErrorMessage(e)));
    case Fetched(texts) =>
      var full := Join(texts, " ");
      full := Normalize(full);
      r := r.(success := true, transcript := Some(full), language := Some(chosen.languageCode),
              wordCount := |Words(full)|);
  }

  /** The four tiers of the transcript choice. */
  lemma SelectionOrder(manual: seq<Transcript>, generated: seq<Transcript>)
    ensures var sel := SelectTranscript(manual, generated);
      && ((exists i :: 0 <= i < |manual| && manual[i].languageCode == "en") ==>
            sel.Some? && sel.value.0 in manual && sel.value.0.languageCode == "en" && !sel.value.1)
      && ((forall i :: 0 <= i < |manual| ==> manual[i].languageCode != "en")
            && (exists i :: 0 <= i < |generated| && generated[i].languageCode == "en") ==>
            sel.Some? && sel.value.0 in generated && sel.value.0.languageCode == "en" && sel.value.1)
      && ((forall i :: 0 <= i < |manual| ==> manual[i].languageCode != "en")
            && (forall i :: 0 <= i < |generated| ==> generated[i].languageCode != "en")
            && manual + generated != [] ==>
            sel == Some(((manual + generated)[0], (manual + generated)[0].isGenerated)))
      && (sel.None? <==> manual == [] && generated == [])
  {
    var m := FindLanguage(manual, "en");
    if m.None? && FindLanguage(generated, "en").None? && manual + generated == [] {
      assert manual == [] && generated == [];
    }
  }

  /**
   * A successful result holds the cleaned text: the entries' words joined
   * by single spaces. Its words are the words of the entries, one entry
   * after another, and `word_count` counts them.
   */
  lemma CaptionWords(listing: Listing)
    ensures var r := VideoCaptions(listing);
      r.success ==>
        && listing.Listed?
        && var sel := SelectTranscript(listing.manual, listing.generated);
        && sel.Some? && sel.value.0.fetch.Fetched?
        && var texts := sel.value.0.fetch.texts;
        && r.transcript == Some(Join(WordsOfAll(texts), " "))
        && Words(r.transcript.value) == WordsOfAll(texts)
        && r.wordCount == |WordsOfAll(texts)|
  {
    var r := VideoCaptions(listing);
    if r.success {
      var sel := SelectTranscript(listing.manual, listing.generated);
      var texts := sel.value.0.fetch.texts;
      var joined := Join(texts, " ");
      NormalizeIsJoinedWords(joined);
      NormalizeKeepsWords(joined);
      WordsOfJoin(texts);
    }
  }

  /**
   * A result is a success exactly when a transcript was chosen and fetched;
   * otherwise it carries an error message and no text, and
   * `is_auto_generated` is set only once a transcript was chosen. Each
   * failure carries its own message: the listing's error, "No transcripts
   * available", or the fetch's error; a chosen transcript sets
   * `is_auto_generated` to the flag of its choice, and a fetched one gives
   * its language code and its cleaned text.
   */
  lemma CaptionOutcome(listing: Listing)
    ensures var r := VideoCaptions(listing);
      && (r.success <==>
            && listing.Listed?
            && var sel := SelectTranscript(listing.manual, listing.generated);
            && sel.Some? && sel.value.0.fetch.Fetched?)
      && (r.success <==> r.error.None?)
      && (!r.success ==> r.transcript.None? && r.language.None? && r.wordCount == 0)
      && (r.isAutoGenerated.Some? <==>
            listing.Listed? && SelectTranscript(listing.manual, listing.generated).Some?)
    ensures listing.ListFailed? ==> VideoCaptions(listing).error == Some(ErrorMessage(listing.error))
    ensures listing.Listed? && listing.manual == [] && listing.generated == [] ==>
      VideoCaptions(listing).error == Some("No transcripts available")
    ensures listing.Listed? ==>
      var r := VideoCaptions(listing);
      var sel := SelectTranscript(listing.manual, listing.generated);
      sel.Some? ==>
        && r.isAutoGenerated == Some(sel.value.1)
        && (sel.value.0.fetch.FetchFailed? ==> r.error == Some(ErrorMessage(sel.value.0.fetch.error)))
        && (sel.value.0.fetch.Fetched? ==>
              && r.language == Some(sel.value.0.languageCode)
              && r.transcript == Some(CleanTranscript(sel.value.0.fetch.texts)))
  {
  }
}
