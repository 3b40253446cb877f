/**
 * The three tables' rows (`videos`, `transcripts`, `motif_codings`), the
 * documented status values and the `to_dict` projections. Primary keys
 * and foreign keys are naturals; a row's `created_at` is the store's
 * insertion clock (see module Database); nullable columns are `Option`s.
 */
module Models {
  import opened Wrappers
  import opened Strings
  import MotifSchema

  /** A `videos` row. `videoId` is the YouTube id, `id` the primary key. */
  datatype Video = Video(
    id: nat,
    videoId: string,
    url: string,
    title: Option<string>,
    channelName: Option<string>,
    channelId: Option<string>,
    description: Option<string>,
    publishedAt: Option<string>,
    duration: Option<nat>,
    language: Option<string>,
    viewCount: Option<nat>,
    likeCount: Option<nat>,
    commentCount: Option<nat>,
    status: Option<string>,
    hasCaptions: Option<bool>,
    errorMessage: Option<string>,
    createdAt: nat)

  /** A `transcripts` row; `videoId` is the owning video's primary key. */
  datatype Transcript = Transcript(
    id: nat,
    videoId: nat,
    language: Option<string>,
    isAutoGenerated: Option<bool>,
    rawText: Option<string>,
    wordCount: Option<nat>)

  /** A `motif_codings` row: the owning video is required, the transcript is not. */
  datatype MotifCoding = MotifCoding(
    id: nat,
    videoId: nat,
    transcriptId: Option<nat>,
    codingResults: Option<MotifSchema.MotifCoding>,
    modelUsed: Option<string>,
    tokensUsed: Option<nat>,
    processingTime: Option<nat>)

  // ---------------------------------------------------------------------
  // Status values and column defaults
  // ---------------------------------------------------------------------

  const Pending: string := "pending"
  const Processing: string := "processing"
  const Completed: string := "completed"
  const Failed: string := "failed"
  const NoCaptions: string := "no_captions"

  /** The documented statuses; the column itself accepts any text. */
  const Statuses: set<string> := {Pending, Processing, Completed, Failed, NoCaptions}

  /** The column default fires when an insert leaves `status` out or sets it to `None`. */
  function StatusOnInsert(given: Option<string>): (r: string)
    ensures given.Some? ==> r == given.value
    ensures given.None? ==> r == Pending
  {
    given.GetOr(Pending)
  }

  /** The same for `has_captions`, whose default is false. */
  function HasCaptionsOnInsert(given: Option<bool>): (r: bool)
    ensures given.Some? ==> r == given.value
    ensures given.None? ==> !r
  {
    given.GetOr(false)
  }

  // ---------------------------------------------------------------------
  // Projections
  // ---------------------------------------------------------------------

  datatype VideoDict = VideoDict(
    id: nat, videoId: string, url: string, title: Option<string>, channelName: Option<string>,
    duration: Option<nat>, viewCount: Option<nat>, status: Option<string>, hasCaptions: Option<bool>,
    createdAt: nat)

  datatype TranscriptDict = TranscriptDict(
    id: nat, videoId: nat, language: Option<string>, isAutoGenerated: Option<bool>,
    wordCount: Option<nat>, transcriptPreview: Option<string>)

  datatype CodingDict = CodingDict(
    id: nat, videoId: nat, codingResults: Option<MotifSchema.MotifCoding>, modelUsed: Option<string>,
    tokensUsed: Option<nat>)

  /**
   * `Video.to_dict`: the keys, the title and channel, duration, views, status
   * and flag, and the creation time; the other columns are left out.
   */
  function VideoToDict(v: Video): (d: VideoDict)
    ensures d.id == v.id && d.videoId == v.videoId && d.url == v.url && d.createdAt == v.createdAt
    ensures d.title == v.title && d.channelName == v.channelName && d.duration == v.duration
    ensures d.viewCount == v.viewCount && d.status == v.status && d.hasCaptions == v.hasCaptions
  {
    VideoDict(v.id, v.videoId, v.url, v.title, v.channelName, v.duration, v.viewCount, v.status,
      v.hasCaptions, v.createdAt)
  }

  const PreviewLength: nat := 200

  /** The first 200 characters of the text; `None` when there is no text or it is empty. */
  function Preview(rawText: Option<string>): (p: Option<string>)
    ensures p.Some? <==> rawText.Some? && rawText.value != []
    ensures p.Some? ==> |p.value| == (if |rawText.value| < PreviewLength then |rawText.value| else PreviewLength)
    ensures p.Some? ==> StartsWith(rawText.value, p.value)
  {
    if rawText.Some? && rawText.value != [] then Some(Take(rawText.value, PreviewLength)) else None
  }

  /**
   * `Transcript.to_dict`: the keys and metadata, and in place of the full
   * text a preview of at most 200 characters, present exactly when the text
   * is non-empty.
   */
  function TranscriptToDict(t: Transcript): (d: TranscriptDict)
    ensures d.id == t.id && d.videoId == t.videoId && d.language == t.language
    ensures d.isAutoGenerated == t.isAutoGenerated && d.wordCount == t.wordCount
    ensures d.transcriptPreview.Some? <==> t.rawText.Some? && t.rawText.value != []
    ensures d.transcriptPreview.Some? ==>
      |d.transcriptPreview.value| <= PreviewLength && StartsWith(t.rawText.value, d.transcriptPreview.value)
  {
    TranscriptDict(t.id, t.videoId, t.language, t.isAutoGenerated, t.wordCount, Preview(t.rawText))
  }

  /** `MotifCoding.to_dict`: the transcript link and the processing time are left out. */
  function CodingToDict(c: MotifCoding): (d: CodingDict)
    ensures d.id == c.id && d.videoId == c.videoId && d.codingResults == c.codingResults
    ensures d.modelUsed == c.modelUsed && d.tokensUsed == c.tokensUsed
  {
    CodingDict(c.id, c.videoId, c.codingResults, c.modelUsed, c.tokensUsed)
  }

  /** A short text is its own preview; a long one is cut to exactly 200 characters. */
  lemma PreviewCut(raw: string)
    ensures |raw| <= PreviewLength && raw != [] ==> Preview(Some(raw)) == Some(raw)
    ensures |raw| > PreviewLength ==> Preview(Some(raw)) == Some(raw[..PreviewLength])
  {
    assert raw[..|raw|] == raw;
  }
}
