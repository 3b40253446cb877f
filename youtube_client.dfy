/**
 * The YouTube Data API client: metadata, caption listing and caption
 * download, each charging its fixed quota cost after a successful call,
 * and the three-step caption workflow built on them.
 *
 * The remote `execute()` of each request is not modelled: each method takes
 * the answer the API gave to that request (a response or an `HttpError`).
 */
module YouTubeApi {
  import opened Wrappers
  import opened Strings
  import opened YouTubeUtils
  import opened SrtText

  // ---------------------------------------------------------------------
  // Remote answers
  // ---------------------------------------------------------------------

  /** The fields of a `videos.list` item's `snippet` that the client reads. */
  datatype Snippet = Snippet(
    title: string,
    channelId: string,
    channelTitle: string,
    publishedAt: string,
    defaultAudioLanguage: Option<string>,
    defaultLanguage: Option<string>,
    description: Option<string>)

  /** The item's `statistics`, each count already read as a number; `None` when the key is absent. */
  datatype Statistics = Statistics(viewCount: Option<nat>, likeCount: Option<nat>, commentCount: Option<nat>)

  datatype VideoItem = VideoItem(snippet: Snippet, duration: string, statistics: Statistics)

  /** The answer to `videos.list`: the `items` of the response (empty when absent), or an `HttpError`. */
  datatype VideosAnswer = VideosOk(items: seq<VideoItem>) | VideosHttpError

  datatype CaptionItem = CaptionItem(id: string, language: string, name: Option<string>, trackKind: string)

  /** The answer to `captions.list`. */
  datatype CaptionsAnswer = CaptionsOk(items: seq<CaptionItem>) | CaptionsHttpError

  /** The answer to `captions.download`: the SubRip text, or an `HttpError`. */
  datatype DownloadAnswer = Downloaded(content: string) | DownloadHttpError

  // ---------------------------------------------------------------------
  // Records the client builds
  // ---------------------------------------------------------------------

  datatype Metadata = Metadata(
    videoId: string,
    title: string,
    channelId: string,
    channelName: string,
    publishedAt: string,
    duration: nat,
    language: string,
    viewCount: nat,
    likeCount: nat,
    commentCount: nat,
    description: string)

  datatype Track = Track(id: string, language: string, name: string, isAutoGenerated: bool)

  /** The `result` dict of `get_video_captions`. */
  datatype CaptionsResult = CaptionsResult(
    success: bool,
    metadata: Option<Metadata>,
    transcript: Option<string>,
    language: Option<string>,
    isAutoGenerated: Option<bool>,
    wordCount: nat,
    error: Option<string>)

  /** Quota units per request kind. */
  const VideosListCost: nat := 1
  const CaptionsListCost: nat := 50
  const CaptionsDownloadCost: nat := 200

  // ---------------------------------------------------------------------
  // Metadata
  // ---------------------------------------------------------------------

  /** The language: `defaultAudioLanguage`, else `defaultLanguage`, else `unknown`. */
  function LanguageOf(s: Snippet): string
  {
    s.defaultAudioLanguage.GetOr(s.defaultLanguage.GetOr("unknown"))
  }

  /** The metadata record of the first item. */
  function MetadataOfItem(videoId: string, item: VideoItem): (m: Metadata)
    ensures m.videoId == videoId && m.title == item.snippet.title
    ensures |m.description| <= 500
    ensures m.description == Take(item.snippet.description.GetOr(""), 500)
  {
    var sn, st := item.snippet, item.statistics;
    Metadata(videoId, sn.title, sn.channelId, sn.channelTitle, sn.publishedAt,
      ParseIsoDuration(item.duration), LanguageOf(sn),
      st.viewCount.GetOr(0), st.likeCount.GetOr(0), st.commentCount.GetOr(0),
      Take(sn.description.GetOr(""), 500))
  }

  /** `get_video_metadata`: `None` on an `HttpError` or when no item came back. */
  function MetadataOf(videoId: string, answer: VideosAnswer): (m: Option<Metadata>)
    ensures m.Some? <==> answer.VideosOk? && answer.items != []
  {
    match answer
    case VideosHttpError => None
    case VideosOk(items) => if items == [] then None else Some(MetadataOfItem(videoId, items[0]))
  }

  /** The quota a `videos.list` request costs: charged only when `execute()` returned. */
  function MetadataCost(answer: VideosAnswer): (n: nat)
    ensures n <= VideosListCost
  {
    if answer.VideosOk? then VideosListCost else 0
  }

  /**
   * The metadata defaults: absent counts are 0, the language falls back
   * twice, the description is at most the first 500 characters, and the
   * duration is the ISO 8601 duration in seconds.
   */
  lemma MetadataDefaults(videoId: string, answer: VideosAnswer)
    requires answer.VideosOk? && answer.items != []
    ensures var m := MetadataOf(videoId, answer).value;
      var item := answer.items[0];
      && (item.statistics.viewCount.None? ==> m.viewCount == 0)
      && (item.statistics.likeCount.None? ==> m.likeCount == 0)
      && (item.statistics.commentCount.None? ==> m.commentCount == 0)
      && (item.snippet.defaultAudioLanguage.Some? ==> m.language == item.snippet.defaultAudioLanguage.value)
      && (item.snippet.defaultAudioLanguage.None? && item.snippet.defaultLanguage.Some? ==>
            m.language == item.snippet.defaultLanguage.value)
      && (item.snippet.defaultAudioLanguage.None? && item.snippet.defaultLanguage.None? ==>
            m.language == "unknown")
      && (item.snippet.description.None? ==> m.description == "")
      && (item.snippet.description.Some? ==> m.description == item.snippet.description.value[..|m.description|])
      && m.duration == ParseIsoDuration(item.duration)
  {
  }

  // ---------------------------------------------------------------------
  // Caption tracks
  // ---------------------------------------------------------------------

  /** One listed caption track; it is auto-generated when its kind is `asr`. */
  function TrackOf(item: CaptionItem): (t: Track)
    ensures t.isAutoGenerated <==> item.trackKind == "asr"
    ensures t.id == item.id && t.language == item.language
  {
    Track(item.id, item.language, item.name.GetOr(""), item.trackKind == "asr")
  }

  /** `list_captions`: every listed item in order, or nothing on an `HttpError`. */
  function TracksOf(answer: CaptionsAnswer): (ts: seq<Track>)
    ensures answer.CaptionsHttpError? ==> ts == []
    ensures answer.CaptionsOk? ==>
      |ts| == |answer.items| && forall i :: 0 <= i < |ts| ==> ts[i] == TrackOf(answer.items[i])
  {
    match answer
    case CaptionsHttpError => []
    case CaptionsOk(items) => seq(|items|, i requires 0 <= i < |items| => TrackOf(items[i]))
  }

  function ListCost(answer: CaptionsAnswer): (n: nat)
    ensures n <= CaptionsListCost
  {
    if answer.CaptionsOk? then CaptionsListCost else 0
  }

  /** The tracks whose auto-generated flag is `auto`, in listing order. */
  function KindTracks(ts: seq<Track>, auto: bool): seq<Track>
  {
    if ts == [] then []
    else (if ts[0].isAutoGenerated == auto then [ts[0]] else []) + KindTracks(ts[1..], auto)
  }

  predicate IsEnglish(t: Track)
  {
    StartsWith(t.language, "en")
  }

  /** The first track whose language starts with `en`. */
  function FirstEnglish(ts: seq<Track>): (r: Option<nat>)
    ensures r.None? <==> forall i :: 0 <= i < |ts| ==> !IsEnglish(ts[i])
    ensures r.Some? ==>
      && r.value < |ts| && IsEnglish(ts[r.value])
      && forall i :: 0 <= i < r.value ==> !IsEnglish(ts[i])
  {
    if ts == [] then None
    else if IsEnglish(ts[0]) then Some(0)
    else
      var r := FirstEnglish(ts[1..]);
      if r.Some? then Some(r.value + 1) else None
  }

  /**
   * `get_best_caption_track` once the tracks are listed: split into manual
   * and auto-generated tracks, then manual English, any manual, auto
   * English, any auto.
   */
  function BestTrack(captions: seq<Track>): Option<Track>
  {
    if captions == [] then None
    else
      var manual, auto := KindTracks(captions, false), KindTracks(captions, true);
      var me := FirstEnglish(manual);
      if me.Some? then Some(manual[me.value])
      else if manual != [] then Some(manual[0])
      else
        var ae := FirstEnglish(auto);
        if ae.Some? then Some(auto[ae.value])
        else if auto != [] then Some(auto[0])
        else None
  }

  /** A track of the given kind, and English when `english` holds. */
  predicate InTier(t: Track, auto: bool, english: bool)
  {
    t.isAutoGenerated == auto && (english ==> IsEnglish(t))
  }

  /** The position in the whole listing of the first track of a tier. */
  function FirstInTier(ts: seq<Track>, auto: bool, english: bool): (r: Option<nat>)
    ensures r.None? <==> forall i :: 0 <= i < |ts| ==> !InTier(ts[i], auto, english)
    ensures r.Some? ==>
      && r.value < |ts| && InTier(ts[r.value], auto, english)
      && forall i :: 0 <= i < r.value ==> !InTier(ts[i], auto, english)
  {
    if ts == [] then None
    else if InTier(ts[0], auto, english) then Some(0)
    else
      var r := FirstInTier(ts[1..], auto, english);
      if r.Some? then Some(r.value + 1) else None
  }

  /**
   * The documented priority read directly on the listing: the first manual
   * English track, else the first manual track, else the first auto
   * English track, else the first auto track.
   */
  function TierChoice(ts: seq<Track>): Option<Track>
  {
    var t1 := FirstInTier(ts, false, true);
    var t2 := FirstInTier(ts, false, false);
    var t3 := FirstInTier(ts, true, true);
    var t4 := FirstInTier(ts, true, false);
    if t1.Some? then Some(ts[t1.value])
    else if t2.Some? then Some(ts[t2.value])
    else if t3.Some? then Some(ts[t3.value])
    else if t4.Some? then Some(ts[t4.value])
    else None
  }

  /** The first English track of one kind, found in the split list, is the first of its tier. */
  lemma {:induction false} FirstEnglishOfKind(ts: seq<Track>, auto: bool)
    ensures var k := KindTracks(ts, auto);
      var e, t := FirstEnglish(k), FirstInTier(ts, auto, true);
      e.Some? == t.Some? && (e.Some? ==> k[e.value] == ts[t.value])
  {
    if ts != [] {
      FirstEnglishOfKind(ts[1..], auto);
      var k, k1 := KindTracks(ts, auto), KindTracks(ts[1..], auto);
      var e1, t1 := FirstEnglish(k1), FirstInTier(ts[1..], auto, true);
      if ts[0].isAutoGenerated == auto {
        assert k == [ts[0]] + k1;
        if IsEnglish(ts[0]) {
          assert FirstEnglish(k) == Some(0) && FirstInTier(ts, auto, true) == Some(0);
        } else {
          assert k[1..] == k1;
          assert FirstInTier(ts, auto, true) == if t1.Some? then Some(t1.value + 1) else None;
          assert FirstEnglish(k) == if e1.Some? then Some(e1.value + 1) else None;
        }
      } else {
        assert k == k1;
        assert FirstInTier(ts, auto, true) == if t1.Some? then Some(t1.value + 1) else None;
      }
    }
  }

  /** The split list of one kind starts with the first track of that kind. */
  lemma {:induction false} FirstOfKind(ts: seq<Track>, auto: bool)
    ensures var k, t := KindTracks(ts, auto), FirstInTier(ts, auto, false);
      (k != []) == t.Some? && (k != [] ==> k[0] == ts[t.value])
  {
    if ts != [] {
      FirstOfKind(ts[1..], auto);
      var k, k1 := KindTracks(ts, auto), KindTracks(ts[1..], auto);
      var t1 := FirstInTier(ts[1..], auto, false);
      if ts[0].isAutoGenerated != auto {
        assert k == k1;
        if t1.Some? {
          assert FirstInTier(ts, auto, false) == Some(t1.value + 1);
        }
      }
    }
  }

  /** Partitioning and scanning, as the client does, gives the documented priority. */
  lemma BestTrackIsTierChoice(captions: seq<Track>)
    ensures BestTrack(captions) == TierChoice(captions)
  {
    FirstEnglishOfKind(captions, false);
    FirstEnglishOfKind(captions, true);
    FirstOfKind(captions, false);
    FirstOfKind(captions, true);
    if captions != [] {
      var t := captions[0];
      assert InTier(t, false, false) || InTier(t, true, false);
    }
  }

  /** The chosen track is one of the listed tracks, and there is one exactly when any is listed. */
  lemma BestTrackMember(captions: seq<Track>)
    ensures BestTrack(captions).Some? ==> BestTrack(captions).value in captions
    ensures BestTrack(captions).None? <==> captions == []
  {
    BestTrackIsTierChoice(captions);
    if captions != [] {
      var t := captions[0];
      assert InTier(t, false, false) || InTier(t, true, false);
    }
  }

  // ---------------------------------------------------------------------
  // Download
  // ---------------------------------------------------------------------

  /** `download_caption`: the plain text of the SubRip content, or `None` on an `HttpError`. */
  function DownloadOf(answer: DownloadAnswer): (text: Option<string>)
    ensures text.Some? <==> answer.Downloaded?
    ensures answer.Downloaded? ==> text == Some(SrtToPlainText(answer.content))
  {
    match answer
    case DownloadHttpError => None
    case Downloaded(content) => Some(SrtToPlainText(content))
  }

  function DownloadCost(answer: DownloadAnswer): (n: nat)
    ensures n <= CaptionsDownloadCost
  {
    if answer.Downloaded? then CaptionsDownloadCost else 0
  }

  // ---------------------------------------------------------------------
  // The caption workflow
  // ---------------------------------------------------------------------

  /**
   * `get_video_captions`: the result and the quota it costs, for the
   * answers of the three requests. A step that fails stops the workflow,
   * so the later requests are not made and cost nothing.
   */
  function CaptionsWorkflow(videoId: string, meta: VideosAnswer, caps: CaptionsAnswer, dl: DownloadAnswer)
    : (CaptionsResult, nat)
  {
    var empty := CaptionsResult(false, None, None, None, None, 0, None);
    var m := MetadataOf(videoId, meta);
    if m.None? then (empty.(error := Some("Video not found or inaccessible")), MetadataCost(meta))
    else
      var r1 := empty.(metadata := m);
      var track := BestTrack(TracksOf(caps));
      var cost2 := MetadataCost(meta) + ListCost(caps);
      if track.None? then (r1.(error := Some("No captions available")), cost2)
      else
        var r2 := r1.(language := Some(track.value.language), isAutoGenerated := Some(track.value.isAutoGenerated));
        var text := DownloadOf(dl);
        var cost3 := cost2 + DownloadCost(dl);
        if text.None? || text.value == "" then (r2.(error := Some("Failed to download caption")), cost3)
        else (r2.(transcript := text, wordCount := |Words(text.value)|, success := true), cost3)
  }

  /**
   * The workflow succeeds exactly when every step does (and the text is
   * not empty); a full success costs 1 + 50 + 200 = 251 units, and a
   * metadata failure at most 1.
   */
  lemma WorkflowOutcome(videoId: string, meta: VideosAnswer, caps: CaptionsAnswer, dl: DownloadAnswer)
    ensures var (r, cost) := CaptionsWorkflow(videoId, meta, caps, dl);
      && (r.success <==>
            && meta.VideosOk? && meta.items != []
            && caps.CaptionsOk? && caps.items != []
            && dl.Downloaded? && SrtToPlainText(dl.content) != "")
      && (r.success ==> cost == 251 && r.transcript == Some(SrtToPlainText(dl.content)))
      && (r.success ==> r.wordCount == |Words(r.transcript.value)|)
      && (r.success <==> r.error.None?)
      && (MetadataOf(videoId, meta).None? ==> cost <= 1 && r.error == Some("Video not found or inaccessible"))
      && cost <= 251
  {
    BestTrackMember(TracksOf(caps));
  }

  /** The error of each failing step. */
  lemma WorkflowErrors(videoId: string, meta: VideosAnswer, caps: CaptionsAnswer, dl: DownloadAnswer)
    requires MetadataOf(videoId, meta).Some?
    ensures var (r, cost) := CaptionsWorkflow(videoId, meta, caps, dl);
      && r.metadata == MetadataOf(videoId, meta)
      && (TracksOf(caps) == [] ==> r.error == Some("No captions available") && cost == 1 + ListCost(caps))
      && (TracksOf(caps) != [] ==>
            var t := BestTrack(TracksOf(caps)).value;
            && r.language == Some(t.language) && r.isAutoGenerated == Some(t.isAutoGenerated)
            && (DownloadOf(dl).None? || DownloadOf(dl) == Some("") ==>
                  r.error == Some("Failed to download caption") && cost == 51 + DownloadCost(dl)))
  {
    BestTrackMember(TracksOf(caps));
  }

  // ---------------------------------------------------------------------
  // The client
  // ---------------------------------------------------------------------

  /** The client and the quota it has used so far. */
  class YouTubeClient {
    var quotaUsed: nat

    constructor ()
      ensures quotaUsed == 0
    {
      quotaUsed := 0;
    }

    /** `get_video_metadata`, charging 1 unit when `execute()` returned. */
    method GetVideoMetadata(videoId: string, answer: VideosAnswer) returns (m: Option<Metadata>)
      modifies this
      ensures m == MetadataOf(videoId, answer)
      ensures quotaUsed == old(quotaUsed) + MetadataCost(answer)
    {
      if answer.VideosHttpError? {
        return None;
      }
      quotaUsed := quotaUsed + VideosListCost;
      if answer.items == [] {
        return None;
      }
      m := Some(MetadataOfItem(videoId, answer.items[0]));
    }

    /** `list_captions`, charging 50 units when `execute()` returned. */
    method ListCaptions(answer: CaptionsAnswer) returns (captions: seq<Track>)
      modifies this
      ensures captions == TracksOf(answer)
      ensures quotaUsed == old(quotaUsed) + ListCost(answer)
    {
      if answer.CaptionsHttpError? {
        return [];
      }
      quotaUsed := quotaUsed + CaptionsListCost;
      captions := [];
      var items := answer.items;
      for i := 0 to |items|
        invariant |captions| == i
        invariant forall k :: 0 <= k < i ==> captions[k] == TrackOf(items[k])
      {
        captions := captions + [TrackOf(items[i])];
      }
    }

    /** `download_caption`, charging 200 units when `execute()` returned. */
    method DownloadCaption(answer: DownloadAnswer) returns (text: Option<string>)
      modifies this
      ensures text == DownloadOf(answer)
      ensures quotaUsed == old(quotaUsed) + DownloadCost(answer)
    {
      if answer.DownloadHttpError? {
        return None;
      }
      quotaUsed := quotaUsed + CaptionsDownloadCost;
      text := Some(SrtToPlainText(answer.content));
    }

    /** `get_best_caption_track`: list the tracks, then choose. */
    method GetBestCaptionTrack(answer: CaptionsAnswer) returns (track: Option<Track>)
      modifies this
      ensures track == BestTrack(TracksOf(answer))
      ensures quotaUsed == old(quotaUsed) + ListCost(answer)
    {
      var captions := ListCaptions(answer);
      track := BestTrack(captions);
    }

    /** `get_video_captions`: the three steps, stopping at the first failure. */
    method GetVideoCaptions(videoId: string, meta: VideosAnswer, caps: CaptionsAnswer, dl: DownloadAnswer)
      returns (r: CaptionsResult)
      modifies this
      ensures (r, quotaUsed - old(quotaUsed)) == CaptionsWorkflow(videoId, meta, caps, dl)
      ensures quotaUsed >= old(quotaUsed)
    {
      r := CaptionsResult(false, None, None, None, None, 0, None);
      var metadata := GetVideoMetadata(videoId, meta);
      if metadata.None? {
        r := r.(error := Some("Video not found or inaccessible"));
        return;
      }
      r := r.(metadata := metadata);
      var track := GetBestCaptionTrack(caps);
      if track.None? {
        r := r.(error := Some("No captions available"));
        return;
      }
      r := r.(language := Some(track.value.language), isAutoGenerated := Some(track.value.isAutoGenerated));
      var transcript := DownloadCaption(dl);
      if transcript.None? || transcript.value == "" {
        r := r.(error := Some("Failed to download caption"));
        return;
      }
      r := r.(transcript := transcript, wordCount := |Words(transcript.value)|, success := true);
    }
  }
}
