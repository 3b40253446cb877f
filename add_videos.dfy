/**
 * The ingestion pipeline of the Add Videos page: `process_video_url`
 * takes one URL through id extraction, the duplicate check, the metadata
 * request, the video insert, the transcript fetch, the transcript insert
 * and the motif coding, stopping at the first step that fails; the batch
 * form splits the pasted text into URLs, runs each one and counts the
 * successes.
 *
 * The remote services are a `Remote` value: the metadata answer and the
 * transcript listing per video id, the environment's API key, and the
 * completion answer per user prompt.
 */
module AddVideos {
  import opened Wrappers
  import opened Strings
  import opened Models
  import opened Database
  import Utils = YouTubeUtils
  import Api = YouTubeApi
  import Coder = AiCoder
  import MotifSchema

  /** What the remote services answer. */
  datatype Remote = Remote(
    videos: string -> Api.VideosAnswer,
    transcripts: string -> Utils.Listing,
    apiKey: Option<string>,
    completions: string -> Coder.CoderAnswer)

  /**
   * The dictionary `process_video_url` returns: a success with the id and
   * title, or a failure with its message; `videoCreated` tells whether the
   * `video_created` key is present.
   */
  datatype ProcessResult =
    | Success(videoId: string, title: Option<string>)
    | Failure(error: string, videoCreated: bool)

  /** The store afterwards, the quota units charged, the result, and the coding request if one was sent. */
  datatype Step = Step(store: Store, quota: nat, result: ProcessResult, request: Option<Coder.ChatRequest>)

  const InvalidUrl: string := "Invalid YouTube URL"
  const AlreadyStored: string := "Video already in database"
  const MetadataFailed: string := "Failed to fetch metadata"
  const NoCaptionsPrefix: string := "No captions available: "
  /** The message of the `AttributeError` raised by `model_dump()` on a missing coding. */
  const NoCodingMessage: string := "'NoneType' object has no attribute 'model_dump'"
  const ProcessingSeconds: nat := 3

  /** A value as an f-string shows it: `None` for a missing one. */
  function Shown(s: Option<string>): string
  {
    if s.Some? then s.value else "None"
  }

  /** A column value as a dictionary entry that is present, possibly `None`. */
  function EntryOf<T>(o: Option<T>): (f: Field<T>)
    ensures o.Some? <==> f.Given?
    ensures o.Some? ==> f.value == o.value
    ensures !f.Missing?
  {
    if o.Some? then Given(o.value) else Null
  }

  /** The message an exception out of `code_transcript` carries. */
  function CodingErrorText(e: Coder.CodingError): string
  {
    match e
    case RemoteError(message) => message
    case SchemaError(fields) => "validation error for MotifCoding: " + Join(fields, ", ")
  }

  /**
   * The `video_data` of the insert. The duration entry reads the key
   * `duration_seconds`, which the metadata does not have, so it is always
   * `None`.
   */
  function VideoDataOf(videoId: string, url: string, m: Api.Metadata): (d: VideoData)
    ensures d.videoId == videoId && d.url == url && d.duration.None?
    ensures d.status == Some(Processing) && d.hasCaptions == Some(false)
  {
    VideoData(videoId, url, Some(m.title), Some(m.channelName), Some(m.channelId), Some(m.description),
      if m.publishedAt != [] then Some(m.publishedAt) else None,
      None,
      Some(m.language), Some(m.viewCount), Some(m.likeCount), Some(m.commentCount),
      Some(Processing), Some(false), None)
  }

  /** The updates written to a video whose captions could not be fetched. */
  function NoCaptionsUpdates(caption: Utils.CaptionResult): seq<Update>
  {
    [SetStatus(Some(NoCaptions)), SetErrorMessage(caption.error)]
  }

  function TranscriptDataOf(caption: Utils.CaptionResult): TranscriptData
  {
    TranscriptData(caption.language, caption.isAutoGenerated, caption.transcript, Some(caption.wordCount))
  }

  /** The metadata handed to the coder: the video row's title, channel and duration. */
  function PromptMetadataOf(v: Video): Coder.PromptMetadata
  {
    Coder.PromptMetadata(EntryOf(v.title), EntryOf(v.channelName), EntryOf(v.duration))
  }

  function CodingDataOf(coding: MotifSchema.MotifCoding, coder: Coder.MotifCoder, text: string): CodingData
  {
    CodingData(Some(coding), Some(coder.model), Some(Coder.EstimateTokens(text).totalTokens), Some(ProcessingSeconds))
  }

  /** `process_video_url` on store `s`: the checks before anything is written. */
  function Process(s: Store, url: string, remote: Remote): (r: Step)
    ensures r.quota <= Api.VideosListCost
    ensures var id := Utils.ExtractVideoId(url);
      (id.None? || Duplicate(s, id.value)) ==> r.store == s && r.quota == 0 && r.request.None?
  {
    var id := Utils.ExtractVideoId(url);
    if id.None? then Step(s, 0, Failure(InvalidUrl, false), None)
    else if Duplicate(s, id.value) then Step(s, 0, Failure(AlreadyStored, false), None)
    else
      var answer := remote.videos(id.value);
      var metadata := Api.MetadataOf(id.value, answer);
      if metadata.None? then Step(s, Api.MetadataCost(answer), Failure(MetadataFailed, false), None)
      else Ingest(s, VideoDataOf(id.value, url, metadata.value), Api.MetadataCost(answer), remote)
  }

  /** From the video insert on: the captions decide whether a transcript is stored. */
  function Ingest(s: Store, data: VideoData, cost: nat, remote: Remote): (r: Step)
    ensures r.quota == cost
  {
    var s1 := AddVideo(s, data);
    var caption := Utils.VideoCaptions(remote.transcripts(data.videoId));
    if !caption.success then
      Step(UpdateVideoIn(s1, data.videoId, NoCaptionsUpdates(caption)), cost,
        Failure(NoCaptionsPrefix + Shown(caption.error), true), None)
    else
      Utils.CaptionOutcome(remote.transcripts(data.videoId));
      StoreTranscript(s1, NewVideo(s, data), caption, cost, remote)
  }

  /**
   * The record a successful run appends: one more coding after `before`'s,
   * with the next key, linked to the video and its transcript, with the
   * coder's model, the estimate for `text`, 3 seconds and a valid record.
   */
  predicate CodedOnce(before: Store, after: Store, videoPk: nat, transcriptPk: nat, model: string, text: string)
  {
    && |after.codings| == |before.codings| + 1
    && after.codings[..|before.codings|] == before.codings
    && var c := after.codings[|before.codings|];
    && c.id == NextPk(before.codings, CodingPk)
    && c.videoId == videoPk && c.transcriptId == Some(transcriptPk)
    && c.modelUsed == Some(model)
    && c.tokensUsed == Some(Coder.EstimateTokens(text).totalTokens)
    && c.processingTime == Some(ProcessingSeconds)
    && c.codingResults.Some? && MotifSchema.Valid(c.codingResults.value)
  }

  /**
   * From the transcript insert on. The transcript is stored (and its video
   * marked captioned) before the coder is made; without an API key the run
   * stops there.
   */
  function StoreTranscript(s1: Store, video: Video, caption: Utils.CaptionResult, cost: nat, remote: Remote): (r: Step)
    requires caption.transcript.Some?
    ensures r.quota == cost
    ensures var tdata := TranscriptDataOf(caption);
      && r.store.transcripts == s1.transcripts + [NewTranscript(s1, video.id, tdata)]
      && r.store.videos == AddTranscript(s1, video.id, tdata).videos
      && r.store.clock == s1.clock
    ensures r.request.None? <==> Coder.NewMotifCoder(None, remote.apiKey).Err?
    ensures r.request.None? ==> r.result == Failure(Coder.MissingKeyMessage, false)
    ensures r.request.Some? ==>
      r.request.value == Coder.ChatRequest(Coder.DefaultModel, Coder.SystemPrompt,
        Coder.UserPrompt(Coder.Truncate(caption.transcript.value), PromptMetadataOf(video)))
    ensures !r.result.Success? ==> r.result.Failure? && !r.result.videoCreated && r.store.codings == s1.codings
    ensures r.result.Success? ==>
      && r.result == Success(video.videoId, video.title)
      && CodedOnce(s1, r.store, video.id, NextPk(s1.transcripts, TranscriptPk), Coder.DefaultModel, caption.transcript.value)
  {
    var tdata := TranscriptDataOf(caption);
    var s2 := AddTranscript(s1, video.id, tdata);
    var coder := Coder.NewMotifCoder(None, remote.apiKey);
    if coder.Err? then Step(s2, cost, Failure(coder.message, false), None)
    else Code(s2, video, NewTranscript(s1, video.id, tdata).id, caption.transcript.value, coder.value, cost, remote)
  }

  /**
   * The coding request and what its answer yields: a record is written only
   * for a completion that passes the schema; a failed call is reported with
   * its message, an unparsed one with the error `model_dump()` raises on
   * `None`.
   */
  function Code(s2: Store, video: Video, transcriptPk: nat, text: string, coder: Coder.MotifCoder, cost: nat, remote: Remote): (r: Step)
    ensures r.quota == cost
    ensures r.request == Some(Coder.CodingRequest(coder, text, PromptMetadataOf(video)))
    ensures r.store.videos == s2.videos && r.store.transcripts == s2.transcripts && r.store.clock == s2.clock
    ensures var answer := remote.completions(r.request.value.userPrompt);
      && (r.result.Success? <==> Coder.CodingOf(answer).Coded?)
      && (answer.CallFailed? ==> r.result == Failure(answer.message, false))
      && (answer.NotParsed? ==> r.result == Failure(NoCodingMessage, false))
    ensures !r.result.Success? ==> r.store == s2 && r.result.Failure? && !r.result.videoCreated
    ensures r.result.Success? ==>
      && r.result == Success(video.videoId, video.title)
      && CodedOnce(s2, r.store, video.id, transcriptPk, coder.model, text)
  {
    var request := Coder.CodingRequest(coder, text, PromptMetadataOf(video));
    match Coder.CodingOf(remote.completions(request.userPrompt))
    case CodingFailed(e) => Step(s2, cost, Failure(CodingErrorText(e), false), Some(request))
    case NoCoding => Step(s2, cost, Failure(NoCodingMessage, false), Some(request))
    case Coded(coding) =>
      var s3 := AddCoding(s2, video.id, transcriptPk, CodingDataOf(coding, coder, text));
      assert s3.codings[..|s2.codings|] == s2.codings;
      Step(s3, cost, Success(video.videoId, video.title), Some(request))
  }

  /** The step of the coding stage for each outcome of the answer. */
  lemma CodeOutcome(s2: Store, video: Video, transcriptPk: nat, text: string, coder: Coder.MotifCoder, cost: nat, remote: Remote)
    ensures var q := Coder.CodingRequest(coder, text, PromptMetadataOf(video));
      var c := Coder.CodingOf(remote.completions(q.userPrompt));
      var r := Code(s2, video, transcriptPk, text, coder, cost, remote);
      && (c.CodingFailed? ==> r == Step(s2, cost, Failure(CodingErrorText(c.error), false), Some(q)))
      && (c.NoCoding? ==> r == Step(s2, cost, Failure(NoCodingMessage, false), Some(q)))
      && (c.Coded? ==>
            r == Step(AddCoding(s2, video.id, transcriptPk, CodingDataOf(c.coding, coder, text)), cost,
                   Success(video.videoId, video.title), Some(q)))
  {
  }

  // ---------------------------------------------------------------------
  // Properties of one run
  // ---------------------------------------------------------------------

  /** The run reached the video insert: a valid new id whose metadata arrived. */
  predicate Inserts(s: Store, url: string, remote: Remote)
  {
    var id := Utils.ExtractVideoId(url);
    && id.Some? && !Duplicate(s, id.value)
    && Api.MetadataOf(id.value, remote.videos(id.value)).Some?
  }

  /** The `video_data` such a run inserts. */
  function InsertedData(s: Store, url: string, remote: Remote): (d: VideoData)
    requires Inserts(s, url, remote)
    ensures Some(d.videoId) == Utils.ExtractVideoId(url)
  {
    var id := Utils.ExtractVideoId(url).value;
    VideoDataOf(id, url, Api.MetadataOf(id, remote.videos(id)).value)
  }

  /** The captions result for the URL's id; a success always carries the text. */
  function CaptionOf(url: string, remote: Remote): (c: Utils.CaptionResult)
    requires Utils.ExtractVideoId(url).Some?
    ensures c.success <==> c.error.None?
    ensures c.success ==> c.transcript.Some?
  {
    var listing := remote.transcripts(Utils.ExtractVideoId(url).value);
    Utils.CaptionOutcome(listing);
    Utils.VideoCaptions(listing)
  }

  /** A run that inserts is the insert stage on one unit of quota. */
  lemma ProcessIngests(s: Store, url: string, remote: Remote)
    requires Inserts(s, url, remote)
    ensures Process(s, url, remote) == Ingest(s, InsertedData(s, url, remote), 1, remote)
  {
  }

  /**
   * Runs that stop before the insert write nothing: an invalid URL or a
   * stored id costs no quota, a failed metadata request at most one unit.
   */
  lemma EarlyExits(s: Store, url: string, remote: Remote)
    ensures var id := Utils.ExtractVideoId(url);
      var r := Process(s, url, remote);
      && (id.None? ==> r == Step(s, 0, Failure(InvalidUrl, false), None))
      && (id.Some? && Duplicate(s, id.value) ==> r == Step(s, 0, Failure(AlreadyStored, false), None))
      && (id.Some? && !Duplicate(s, id.value) && Api.MetadataOf(id.value, remote.videos(id.value)).None? ==>
            r.store == s && r.quota <= 1 && r.result == Failure(MetadataFailed, false) && r.request.None?)
      && (!Inserts(s, url, remote) ==> r.store == s && r.request.None? && r.result.Failure? && !r.result.videoCreated)
  {
  }

  /** Every run is charged at most one unit of quota, and one that inserts exactly one. */
  lemma QuotaOfRun(s: Store, url: string, remote: Remote)
    ensures Process(s, url, remote).quota <= 1
    ensures Inserts(s, url, remote) ==> Process(s, url, remote).quota == 1
  {
  }

  /** The two ways on from the insert: the no-captions update, or the transcript stage. */
  lemma IngestCases(s: Store, d: VideoData, cost: nat, remote: Remote)
    ensures var caption := Utils.VideoCaptions(remote.transcripts(d.videoId));
      && (!caption.success ==>
            && caption.error.Some?
            && Ingest(s, d, cost, remote)
               == Step(UpdateVideoIn(AddVideo(s, d), d.videoId, NoCaptionsUpdates(caption)), cost,
                    Failure(NoCaptionsPrefix + caption.error.value, true), None))
      && (caption.success ==>
            && caption.transcript.Some?
            && Ingest(s, d, cost, remote) == StoreTranscript(AddVideo(s, d), NewVideo(s, d), caption, cost, remote))
  {
    Utils.CaptionOutcome(remote.transcripts(d.videoId));
  }

  /** The new video after the no-captions update: status `no_captions`, the caption error as its message. */
  lemma NoCaptionsUpdate(s: Store, d: VideoData, caption: Utils.CaptionResult)
    requires Consistent(s) && !Duplicate(s, d.videoId)
    ensures var t := UpdateVideoIn(AddVideo(s, d), d.videoId, NoCaptionsUpdates(caption));
      && t.transcripts == s.transcripts && t.codings == s.codings
      && VideoById(t, d.videoId) == Some(NewVideo(s, d).(status := Some(NoCaptions), errorMessage := caption.error))
  {
    CreateThenGet(s, d, d.videoId);
    var s1 := AddVideo(s, d);
    var us := NoCaptionsUpdates(caption);
    UpdateVideoEffect(s1, d.videoId, us);
    var v := NewVideo(s, d);
    assert us[..1][..0] == [] && us[..1] == [us[0]];
    assert ApplyAll(v, us[..1]) == Apply(v, us[0]);
    assert ApplyAll(v, us) == Apply(Apply(v, us[0]), us[1]);
  }

  /**
   * Without captions the new video is kept with status `no_captions` and
   * the caption error as its message; the result says the video was
   * created, and no transcript or coding is written.
   */
  lemma NoCaptionsPath(s: Store, url: string, remote: Remote)
    requires Consistent(s) && Inserts(s, url, remote) && !CaptionOf(url, remote).success
    ensures var r := Process(s, url, remote);
      var caption := CaptionOf(url, remote);
      var d := InsertedData(s, url, remote);
      && caption.error.Some?
      && r.result == Failure(NoCaptionsPrefix + caption.error.value, true)
      && r.store.transcripts == s.transcripts && r.store.codings == s.codings
      && r.request.None?
      && VideoById(r.store, d.videoId) == Some(NewVideo(s, d).(status := Some(NoCaptions), errorMessage := caption.error))
  {
    var d := InsertedData(s, url, remote);
    ProcessIngests(s, url, remote);
    IngestCases(s, d, 1, remote);
    NoCaptionsUpdate(s, d, CaptionOf(url, remote));
  }

  /** Same YouTube ids position by position give the same lookup. */
  lemma SameKeysSameIndex(a: seq<Video>, b: seq<Video>, videoId: string)
    requires |a| == |b|
    requires forall k :: 0 <= k < |a| ==> a[k].videoId == b[k].videoId
    ensures VideoIndex(a, videoId) == VideoIndex(b, videoId)
  {
    var x := VideoIndex(a, videoId);
    if x.Some? {
      assert b[x.value].videoId == videoId;
    }
  }

  /** After the transcript insert the new video is found, completed and captioned. */
  lemma CaptionedAfterTranscript(s: Store, d: VideoData, tdata: TranscriptData)
    requires Consistent(s) && !Duplicate(s, d.videoId)
    ensures VideoById(AddTranscript(AddVideo(s, d), NewVideo(s, d).id, tdata), d.videoId) == Some(MarkCaptioned(NewVideo(s, d)))
  {
    CreateThenGet(s, d, d.videoId);
    AddVideoConsistent(s, d);
    var s1 := AddVideo(s, d);
    var v := NewVideo(s, d);
    var s2 := AddTranscript(s1, v.id, tdata);
    AddTranscriptEffect(s1, v.id, tdata);
    var n := |s.videos|;
    assert s1.videos[n] == v;
    assert VideoIndex(s1.videos, d.videoId) == Some(n);
    SameKeysSameIndex(s1.videos, s2.videos, d.videoId);
  }

  /**
   * With captions, the transcript stored is the cleaned text with its word
   * count, owned by the new video, which ends up completed and captioned
   * whatever happens afterwards.
   */
  lemma TranscriptStored(s: Store, url: string, remote: Remote)
    requires Consistent(s) && Inserts(s, url, remote) && CaptionOf(url, remote).success
    ensures var r := Process(s, url, remote);
      var d := InsertedData(s, url, remote);
      var v := NewVideo(s, d);
      && r.store.transcripts[..|s.transcripts|] == s.transcripts
      && |r.store.transcripts| == |s.transcripts| + 1
      && var t := r.store.transcripts[|s.transcripts|];
      && t.id == NextPk(s.transcripts, TranscriptPk) && t.videoId == v.id
      && t.rawText == CaptionOf(url, remote).transcript && t.rawText.Some?
      && t.wordCount == Some(|Words(t.rawText.value)|)
      && VideoById(r.store, d.videoId) == Some(MarkCaptioned(v))
  {
    var d := InsertedData(s, url, remote);
    var caption := CaptionOf(url, remote);
    ProcessIngests(s, url, remote);
    IngestCases(s, d, 1, remote);
    Utils.CaptionWords(remote.transcripts(d.videoId));
    Utils.CaptionOutcome(remote.transcripts(d.videoId));
    CaptionedAfterTranscript(s, d, TranscriptDataOf(caption));
    var r := Process(s, url, remote);
    assert r.store.transcripts[..|s.transcripts|] == s.transcripts;
  }

  /** Where a run's result comes from: nothing succeeds or sends a request before the transcript stage. */
  lemma ResultStages(s: Store, url: string, remote: Remote)
    ensures var r := Process(s, url, remote);
      (r.result.Success? || r.request.Some?) ==>
        && Inserts(s, url, remote) && CaptionOf(url, remote).success
        && CaptionOf(url, remote).transcript.Some?
        && r == StoreTranscript(AddVideo(s, InsertedData(s, url, remote)), NewVideo(s, InsertedData(s, url, remote)),
                  CaptionOf(url, remote), 1, remote)
  {
    EarlyExits(s, url, remote);
    if Inserts(s, url, remote) {
      ProcessIngests(s, url, remote);
      IngestCases(s, InsertedData(s, url, remote), 1, remote);
    }
  }

  /**
   * A successful run wrote one video, one transcript and exactly one
   * coding, linked to both, with the default model, the estimate for the
   * full transcript (before any cut) and 3 seconds; the coding is a valid
   * record.
   */
  lemma SuccessfulRun(s: Store, url: string, remote: Remote)
    requires Process(s, url, remote).result.Success?
    ensures Inserts(s, url, remote) && CaptionOf(url, remote).success
    ensures var r := Process(s, url, remote);
      var d := InsertedData(s, url, remote);
      && r.result == Success(d.videoId, d.title)
      && |r.store.videos| == |s.videos| + 1
      && |r.store.transcripts| == |s.transcripts| + 1
      && CodedOnce(s, r.store, NewVideo(s, d).id, NextPk(s.transcripts, TranscriptPk),
           Coder.DefaultModel, CaptionOf(url, remote).transcript.value)
  {
    ResultStages(s, url, remote);
    StageSuccess(s, InsertedData(s, url, remote), CaptionOf(url, remote), remote, Process(s, url, remote));
  }

  /** The transcript stage after the insert of `d`, when it succeeds. */
  lemma StageSuccess(s: Store, d: VideoData, caption: Utils.CaptionResult, remote: Remote, r: Step)
    requires caption.transcript.Some?
    requires r == StoreTranscript(AddVideo(s, d), NewVideo(s, d), caption, 1, remote) && r.result.Success?
    ensures && r.result == Success(d.videoId, d.title)
      && |r.store.videos| == |s.videos| + 1
      && |r.store.transcripts| == |s.transcripts| + 1
      && CodedOnce(s, r.store, NewVideo(s, d).id, NextPk(s.transcripts, TranscriptPk), Coder.DefaultModel, caption.transcript.value)
  {
    var s1 := AddVideo(s, d);
    var tdata := TranscriptDataOf(caption);
    AddTranscriptLength(s1, NewVideo(s, d).id, tdata);
  }

  /** A transcript insert keeps the number of videos. */
  lemma AddTranscriptLength(s: Store, videoPk: nat, d: TranscriptData)
    ensures |AddTranscript(s, videoPk, d).videos| == |s.videos|
  {
  }

  /**
   * A run that reaches the transcript stage but not a record, because no
   * key is found or the completion fails or does not pass the schema,
   * reports a failure without `video_created`, keeps the transcript and
   * writes no coding.
   */
  lemma CodingStepFailure(s: Store, url: string, remote: Remote)
    requires Inserts(s, url, remote) && CaptionOf(url, remote).success
    requires !Process(s, url, remote).result.Success?
    ensures var r := Process(s, url, remote);
      && r.result.Failure? && !r.result.videoCreated
      && r.store.codings == s.codings
      && |r.store.transcripts| == |s.transcripts| + 1
  {
    ProcessIngests(s, url, remote);
    IngestCases(s, InsertedData(s, url, remote), 1, remote);
  }

  /**
   * A request is sent only once the transcript is stored and a key is
   * found; it carries the video's title and channel and, since the
   * duration entry is always `None`, the text `None` for the duration; the
   * transcript in it is the cut one.
   */
  lemma RequestOfRun(s: Store, url: string, remote: Remote)
    requires Process(s, url, remote).request.Some?
    ensures Inserts(s, url, remote) && CaptionOf(url, remote).success
    ensures remote.apiKey.Some? && remote.apiKey.value != []
    ensures var q := Process(s, url, remote).request.value;
      var d := InsertedData(s, url, remote);
      var meta := Coder.PromptMetadata(EntryOf(d.title), EntryOf(d.channelName), Null);
      && q.model == Coder.DefaultModel && q.systemPrompt == Coder.SystemPrompt
      && q.userPrompt == Coder.UserPrompt(Coder.Truncate(CaptionOf(url, remote).transcript.value), meta)
      && Coder.RenderCount(meta.duration) == "None"
  {
    ResultStages(s, url, remote);
    StageRequest(s, InsertedData(s, url, remote), CaptionOf(url, remote), remote, Process(s, url, remote));
  }

  /** The request the transcript stage after the insert of `d` sends, if any. */
  lemma StageRequest(s: Store, d: VideoData, caption: Utils.CaptionResult, remote: Remote, r: Step)
    requires caption.transcript.Some? && d.duration.None?
    requires r == StoreTranscript(AddVideo(s, d), NewVideo(s, d), caption, 1, remote) && r.request.Some?
    ensures remote.apiKey.Some? && remote.apiKey.value != []
    ensures var q := r.request.value;
      var meta := Coder.PromptMetadata(EntryOf(d.title), EntryOf(d.channelName), Null);
      && q.model == Coder.DefaultModel && q.systemPrompt == Coder.SystemPrompt
      && q.userPrompt == Coder.UserPrompt(Coder.Truncate(caption.transcript.value), meta)
  {
    assert PromptMetadataOf(NewVideo(s, d)) == Coder.PromptMetadata(EntryOf(d.title), EntryOf(d.channelName), Null);
  }

  /** Every video has one of the documented statuses. */
  predicate DocumentedStatuses(s: Store)
  {
    forall i :: 0 <= i < |s.videos| ==> s.videos[i].status.Some? && s.videos[i].status.value in Statuses
  }

  /** A transcript insert marks at most one video completed, so statuses stay documented. */
  lemma AddTranscriptStatuses(s: Store, videoPk: nat, d: TranscriptData)
    requires Consistent(s) && DocumentedStatuses(s)
    ensures DocumentedStatuses(AddTranscript(s, videoPk, d))
  {
    AddTranscriptEffect(s, videoPk, d);
  }

  /** The no-captions update writes `no_captions`. */
  lemma NoCaptionsStatuses(s: Store, videoId: string, caption: Utils.CaptionResult)
    requires Consistent(s) && DocumentedStatuses(s)
    ensures DocumentedStatuses(UpdateVideoIn(s, videoId, NoCaptionsUpdates(caption)))
  {
    var us := NoCaptionsUpdates(caption);
    UpdateVideoEffect(s, videoId, us);
    var i := VideoIndex(s.videos, videoId);
    if i.Some? {
      ApplyAllColumns(s.videos[i.value], us, StatusColumn);
    }
  }

  /** The insert stage writes only documented statuses. */
  lemma IngestKeepsStatuses(s: Store, d: VideoData, cost: nat, remote: Remote)
    requires Consistent(s) && DocumentedStatuses(s) && !Duplicate(s, d.videoId) && d.status == Some(Processing)
    ensures DocumentedStatuses(Ingest(s, d, cost, remote).store)
  {
    IngestCases(s, d, cost, remote);
    AddVideoConsistent(s, d);
    var s1 := AddVideo(s, d);
    assert DocumentedStatuses(s1) by {
      forall i | 0 <= i < |s1.videos| ensures s1.videos[i].status.Some? && s1.videos[i].status.value in Statuses {
        if i < |s.videos| {
          assert s1.videos[i] == s.videos[i];
        }
      }
    }
    var caption := Utils.VideoCaptions(remote.transcripts(d.videoId));
    if !caption.success {
      NoCaptionsStatuses(s1, d.videoId, caption);
    } else {
      AddTranscriptStatuses(s1, NewVideo(s, d).id, TranscriptDataOf(caption));
    }
  }

  /** The pipeline writes only documented statuses. */
  lemma ProcessKeepsStatuses(s: Store, url: string, remote: Remote)
    requires Consistent(s) && DocumentedStatuses(s)
    ensures DocumentedStatuses(Process(s, url, remote).store)
  {
    if Inserts(s, url, remote) {
      ProcessIngests(s, url, remote);
      IngestKeepsStatuses(s, InsertedData(s, url, remote), 1, remote);
    }
  }

  /** Appending the coding of a successful run keeps the coding keys ascending. */
  lemma CodedOnceAscending(before: Store, after: Store, videoPk: nat, transcriptPk: nat, model: string, text: string)
    requires Ascending(before.codings, CodingPk) && CodedOnce(before, after, videoPk, transcriptPk, model, text)
    ensures Ascending(after.codings, CodingPk)
  {
    var c := after.codings[|before.codings|];
    assert after.codings == before.codings + [c];
    AppendAscending(before.codings, c, CodingPk);
  }

  /** The transcript stage keeps the store's invariant. */
  lemma StoreTranscriptConsistent(s1: Store, video: Video, caption: Utils.CaptionResult, cost: nat, remote: Remote)
    requires Consistent(s1) && caption.transcript.Some?
    ensures Consistent(StoreTranscript(s1, video, caption, cost, remote).store)
  {
    var tdata := TranscriptDataOf(caption);
    AddTranscriptConsistent(s1, video.id, tdata);
    var s2 := AddTranscript(s1, video.id, tdata);
    var r := StoreTranscript(s1, video, caption, cost, remote);
    assert r.store.videos == s2.videos && r.store.transcripts == s2.transcripts && r.store.clock == s2.clock;
    if r.result.Success? {
      CodedOnceAscending(s1, r.store, video.id, NextPk(s1.transcripts, TranscriptPk), Coder.DefaultModel,
        caption.transcript.value);
    }
  }

  /** The insert stage keeps the store's invariant. */
  lemma IngestConsistent(s: Store, d: VideoData, cost: nat, remote: Remote)
    requires Consistent(s) && !Duplicate(s, d.videoId)
    ensures Consistent(Ingest(s, d, cost, remote).store)
  {
    IngestCases(s, d, cost, remote);
    AddVideoConsistent(s, d);
    var s1 := AddVideo(s, d);
    var caption := Utils.VideoCaptions(remote.transcripts(d.videoId));
    if !caption.success {
      var us := NoCaptionsUpdates(caption);
      UpdateVideoEffect(s1, d.videoId, us);
      SameVideoKeysConsistent(s1, UpdateVideoIn(s1, d.videoId, us));
    } else {
      StoreTranscriptConsistent(s1, NewVideo(s, d), caption, cost, remote);
    }
  }

  /** Every run keeps the store's invariant. */
  lemma ProcessConsistent(s: Store, url: string, remote: Remote)
    requires Consistent(s)
    ensures Consistent(Process(s, url, remote).store)
  {
    EarlyExits(s, url, remote);
    if Inserts(s, url, remote) {
      ProcessIngests(s, url, remote);
      IngestConsistent(s, InsertedData(s, url, remote), 1, remote);
    }
  }

  /**
   * `process_video_url(url, youtube_client, ...)` against the database
   * `db`: each step is the corresponding client, caption, database or
   * coder call, in the page's order.
   */
  method ProcessVideoUrl(url: string, client: Api.YouTubeClient, db: Database, remote: Remote)
    returns (result: ProcessResult, request: Option<Coder.ChatRequest>)
    requires db.Valid()
    modifies client, db
    ensures db.Valid()
    ensures var step := Process(old(db.State()), url, remote);
      && db.State() == step.store && client.quotaUsed == old(client.quotaUsed) + step.quota
      && result == step.result && request == step.request
  {
    ghost var s := db.State();
    var videoId := Utils.ExtractVideoId(url);
    if videoId.None? {
      return Failure(InvalidUrl, false), None;
    }
    var existing := VideoById(db.State(), videoId.value);
    if existing.Some? {
      return Failure(AlreadyStored, false), None;
    }
    ghost var videosAnswer := remote.videos(videoId.value);
    var metadata := client.GetVideoMetadata(videoId.value, remote.videos(videoId.value));
    if metadata.None? {
      return Failure(MetadataFailed, false), None;
    }
    var data := VideoDataOf(videoId.value, url, metadata.value);
    ghost var cost := Api.MetadataCost(videosAnswer);
    assert Process(s, url, remote) == Ingest(s, data, cost, remote);
    IngestCases(s, data, cost, remote);
    var created := db.CreateVideo(data);
    var video := created.value;
    var caption := Utils.GetVideoCaptions(remote.transcripts(videoId.value));
    if !caption.success {
      var _ := db.UpdateVideo(videoId.value, NoCaptionsUpdates(caption));
      return Failure(NoCaptionsPrefix + Shown(caption.error), true), None;
    }
    ghost var s1 := db.State();
    var tdata := TranscriptDataOf(caption);
    var transcript := db.CreateTranscript(video.id, tdata);
    var coder := Coder.NewMotifCoder(None, remote.apiKey);
    if coder.Err? {
      return Failure(coder.message, false), None;
    }
    var text := caption.transcript.value;
    assert Process(s, url, remote) == Code(db.State(), video, transcript.id, text, coder.value, cost, remote);
    result, request := CodeAndSave(db, video, transcript.id, text, coder.value, cost, remote);
  }

  /**
   * The coding step of `process_video_url`: `code_transcript` with the
   * video's metadata, then, for a record, the token estimate and
   * `create_motif_coding`.
   */
  method CodeAndSave(db: Database, video: Video, transcriptPk: nat, text: string, coder: Coder.MotifCoder,
                     ghost cost: nat, remote: Remote)
    returns (result: ProcessResult, request: Option<Coder.ChatRequest>)
    requires db.Valid()
    modifies db
    ensures db.Valid()
    ensures var step := Code(old(db.State()), video, transcriptPk, text, coder, cost, remote);
      db.State() == step.store && result == step.result && request == step.request
  {
    ghost var s2 := db.State();
    var meta := PromptMetadataOf(video);
    var completion := remote.completions(Coder.CodingRequest(coder, text, meta).userPrompt);
    var sent, coding := Coder.CodeTranscript(coder, text, meta, completion);
    CodeOutcome(s2, video, transcriptPk, text, coder, cost, remote);
    request := Some(sent);
    match coding
    case CodingFailed(e) =>
      result := Failure(CodingErrorText(e), false);
    case NoCoding =>
      result := Failure(NoCodingMessage, false);
    case Coded(c) =>
      var estimate := Coder.EstimateTokens(text);
      var data := CodingData(Some(c), Some(coder.model), Some(estimate.totalTokens), Some(ProcessingSeconds));
      assert data == CodingDataOf(c, coder, text);
      var _ := db.CreateMotifCoding(video.id, transcriptPk, data);
      result := Success(video.videoId, video.title);
  }

  // ---------------------------------------------------------------------
  // The batch form
  // ---------------------------------------------------------------------

  /** The stripped lines that are not empty, in order. */
  function NonEmptyStripped(lines: seq<string>): (urls: seq<string>)
    ensures forall i :: 0 <= i < |urls| ==> urls[i] != [] && Strip(urls[i]) == urls[i]
    ensures |urls| <= |lines|
  {
    if lines == [] then []
    else
      var rest := NonEmptyStripped(lines[1..]);
      var u := Strip(lines[0]);
      StripIdempotent(lines[0]);
      if u != [] then [u] + rest else rest
  }

  /** The URLs of the pasted text: one per line that is not blank, stripped. */
  function BatchUrls(text: string): (urls: seq<string>)
    ensures forall i :: 0 <= i < |urls| ==> urls[i] != [] && Strip(urls[i]) == urls[i]
    ensures |urls| <= |SplitOn(text, '\n')|
  {
    NonEmptyStripped(SplitOn(text, '\n'))
  }

  lemma {:induction false} NonEmptyStrippedKeeps(urls: seq<string>)
    requires forall i :: 0 <= i < |urls| ==> urls[i] != [] && Strip(urls[i]) == urls[i]
    ensures NonEmptyStripped(urls) == urls
  {
    if urls != [] {
      NonEmptyStrippedKeeps(urls[1..]);
    }
  }

  /** URLs pasted one per line come back exactly, in order. */
  lemma BatchUrlsOfLines(urls: seq<string>)
    requires |urls| >= 1
    requires forall i :: 0 <= i < |urls| ==> urls[i] != [] && Strip(urls[i]) == urls[i] && '\n' !in urls[i]
    ensures BatchUrls(Join(urls, "\n")) == urls
  {
    SplitJoin(urls, '\n');
    NonEmptyStrippedKeeps(urls);
  }

  /** Blank lines contribute nothing. */
  lemma {:induction false} BlankLinesDropped(lines: seq<string>)
    requires forall i :: 0 <= i < |lines| ==> Strip(lines[i]) == []
    ensures NonEmptyStripped(lines) == []
  {
    if lines != [] {
      BlankLinesDropped(lines[1..]);
    }
  }

  datatype BatchRun = BatchRun(store: Store, quota: nat, results: seq<ProcessResult>)

  /** The URLs run in order, each on the store the previous one left. */
  function RunBatch(s: Store, urls: seq<string>, remote: Remote): (b: BatchRun)
    ensures |b.results| == |urls|
  {
    if urls == [] then BatchRun(s, 0, [])
    else
      var before := RunBatch(s, urls[..|urls| - 1], remote);
      var step := Process(before.store, urls[|urls| - 1], remote);
      BatchRun(step.store, before.quota + step.quota, before.results + [step.result])
  }

  /** One more URL of a batch is one more run on the store the prefix left. */
  lemma RunBatchPrefix(s: Store, urls: seq<string>, i: nat, remote: Remote)
    requires i < |urls|
    ensures var b := RunBatch(s, urls[..i], remote);
      var step := Process(b.store, urls[i], remote);
      RunBatch(s, urls[..i + 1], remote) == BatchRun(step.store, b.quota + step.quota, b.results + [step.result])
  {
    assert urls[..i + 1][..i] == urls[..i];
  }

  /** `sum(1 for r in results if r['success'])`. */
  function SuccessCount(results: seq<ProcessResult>): (n: nat)
    ensures n <= |results|
  {
    if results == [] then 0
    else SuccessCount(results[..|results| - 1]) + (if results[|results| - 1].Success? then 1 else 0)
  }

  /** Each URL's result is that of its run on the store its predecessors left. */
  lemma {:induction false} BatchResultAt(s: Store, urls: seq<string>, remote: Remote, i: nat)
    requires i < |urls|
    ensures RunBatch(s, urls, remote).results[i] == Process(RunBatch(s, urls[..i], remote).store, urls[i], remote).result
    decreases |urls|
  {
    if i < |urls| - 1 {
      var init := urls[..|urls| - 1];
      BatchResultAt(s, init, remote, i);
      assert init[..i] == urls[..i];
    } else {
      assert urls[..|urls| - 1] == urls[..i];
    }
  }

  /** A batch keeps the store's invariant and charges at most one unit per URL. */
  lemma {:induction false} BatchConsistent(s: Store, urls: seq<string>, remote: Remote)
    requires Consistent(s)
    ensures Consistent(RunBatch(s, urls, remote).store)
    ensures RunBatch(s, urls, remote).quota <= |urls|
  {
    if urls != [] {
      var init := urls[..|urls| - 1];
      BatchConsistent(s, init, remote);
      ProcessConsistent(RunBatch(s, init, remote).store, urls[|urls| - 1], remote);
      QuotaOfRun(RunBatch(s, init, remote).store, urls[|urls| - 1], remote);
    }
  }

  /** The count is the number of successful results. */
  lemma {:induction false} SuccessCountIsSuccesses(results: seq<ProcessResult>)
    ensures SuccessCount(results) == |set i | 0 <= i < |results| && results[i].Success?|
  {
    if results != [] {
      var n := |results| - 1;
      var init := results[..n];
      SuccessCountIsSuccesses(init);
      var a := set i | 0 <= i < n && init[i].Success?;
      var b := set i | 0 <= i < |results| && results[i].Success?;
      assert a == set i | 0 <= i < n && results[i].Success?;
      if results[n].Success? {
        assert b == a + {n};
      } else {
        assert b == a;
      }
    }
  }

  /**
   * The batch: the pasted text is split into URLs, each is processed in
   * order with one result per URL, and the successes are counted.
   */
  method ProcessBatch(urlsText: string, client: Api.YouTubeClient, db: Database, remote: Remote)
    returns (results: seq<ProcessResult>, successCount: nat)
    requires db.Valid()
    modifies client, db
    ensures db.Valid()
    ensures var b := RunBatch(old(db.State()), BatchUrls(urlsText), remote);
      && db.State() == b.store && client.quotaUsed == old(client.quotaUsed) + b.quota
      && results == b.results
    ensures |results| == |BatchUrls(urlsText)|
    ensures successCount == SuccessCount(results)
  {
    var urls := BatchUrls(urlsText);
    ghost var s := db.State();
    ghost var q := client.quotaUsed;
    results := [];
    for i := 0 to |urls|
      invariant db.Valid()
      invariant var b := RunBatch(s, urls[..i], remote);
        db.State() == b.store && client.quotaUsed == q + b.quota && results == b.results
    {
      RunBatchPrefix(s, urls, i, remote);
      var result, _ := ProcessVideoUrl(urls[i], client, db, remote);
      results := results + [result];
    }
    assert urls[..|urls|] == urls;
    successCount := 0;
    for k := 0 to |results|
      invariant successCount == SuccessCount(results[..k])
    {
      assert results[..k + 1][..k] == results[..k];
      if results[k].Success? {
        successCount := successCount + 1;
      }
    }
    assert results[..|results|] == results;
  }
}
