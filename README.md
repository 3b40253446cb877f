# YouTube research tool: the video ingestion pipeline in Dafny

The YouTube research tool collects videos about sports, fitness and
nutrition. It pulls each video's metadata from the YouTube Data API and its
transcript from the unofficial transcript service. It has an OpenAI model
code the transcript against a fixed motif schema, and it stores the three
results in a SQLite database. This project models that pipeline and the
pure helpers under it.

- **`YouTubeUtils`** (`youtube_utils.dfy`) models:
  - video-id extraction from the five accepted input shapes, and URL validation;
  - the `PTnHnMnS` duration parser;
  - transcript selection and whitespace clean-up in `get_video_captions`.

  It rests on `UrlParse`/`UrlForms` (`urlparse.dfy`), the parts of Python's `urllib.parse` the extraction depends on, and on `Strings` (`strings.dfy`), Python's `strip`, `split`, `join` and whitespace-collapsing regular expression.
- **`SrtText`** (`srt.dfy`) models the three regular-expression rewrites of `srt_to_plain_text`. Each is a left-to-right `re.sub` scan.
- **`YouTubeApi`** (`youtube_client.dfy`) models the client as a class whose `quotaUsed` field the three request methods raise. It also covers the field defaults of the metadata, the mapping of listed caption tracks, the four-tier track choice, and the three-step caption workflow.
- **`AiCoder`** covers:
  - transcript truncation;
  - the system and user prompts;
  - the integer token estimate;
  - the API-key lookup of the coder;
  - one coding request, whose answer selects the outcome.
- **`MotifSchema`** models the coding record and its list bounds, including how a payload with omitted fields is validated: defaults for the optional fields, an error for each required one.
- **`Models`** holds the three table rows, their column defaults and the `to_dict` projections.
- **`Database`** models the tables as sequences of rows in primary-key order. The store operations are functions on a `Store` value. Class `Database` keeps the tables in fields, and its methods are proved to perform those operations in place.
- **`AddVideos`** models `process_video_url` as a staged function on the store. The stages are: the checks, the video insert, the transcript insert, and coding and saving. `ProcessVideoUrl` performs the same steps against the client and the database and is proved equal to that function. The batch form splits the pasted text, runs each URL on the store the previous one left, and counts the successes.

The remote services are parameters:
- the answer of each `execute()` call (`VideosAnswer`, `CaptionsAnswer`, `DownloadAnswer`);
- the transcript listing per video id (`Listing`);
- the environment's `OPENAI_API_KEY`;
- the chat-completions answer per user prompt (`CoderAnswer`).

The pipeline's `Remote` value bundles these, so the whole pipeline is deterministic once the answers are fixed.

Two properties of the source show up in the model as written:
- **The duration is always `None`.** The video insert reads the metadata key `duration_seconds`, but the client stores the duration under `duration` (pages/add_videos.py:51, src/youtube_client.py:66). So every stored video has no duration, and every coding prompt says `Duration: None seconds` (`AddVideos.RequestOfRun`).
- **Codings are not unique per video.** Nothing stops two codings for one video, and the statistics count coding rows, not videos (`Database.CodingsCountedAsRows`).

## Model

| member | source | states |
|---|---|---|
| YouTubeUtils.ExtractVideoId | src/youtube_utils.py:10-59 | a stripped input of exactly 11 id characters is returned as it is; a result is never empty; a result that is not an 11-character id can only be a watch page's `v` value; the function is total (a parser exception yields `None`) |
| YouTubeUtils.BlankUrlNone | src/youtube_utils.py:24-27 | an empty or all-whitespace input has no id |
| YouTubeUtils.BareIdStays | src/youtube_utils.py:27-31 | a bare 11-character id is its own id |
| YouTubeUtils.WatchUrlId | src/youtube_utils.py:38-41 | on a `youtube.com` host with path `/watch`, the id is the first `v` value of the query verbatim, with no length check, and `None` when `v` is absent |
| YouTubeUtils.EmbedUrlId | src/youtube_utils.py:43-46 | on any other path of a `youtube.com` host, the id is the leftmost `/embed/<id>` or `/v/<id>` match; without a match the host falls through to the short-link rule when it also contains `youtu.be`: the path after its leading slashes, up to `?`, when that is an 11-character id, else `None`; a host without `youtu.be` then gives `None` |
| YouTubeUtils.EmbedPathId | src/youtube_utils.py:44-46 | `/embed/<id>` and `/v/<id>` both yield the 11-character id |
| YouTubeUtils.ShortUrlId | src/youtube_utils.py:48-54 | a `youtu.be` host yields the path's short-link id, present only when it matches the 11-character pattern |
| YouTubeUtils.ShortPathId | src/youtube_utils.py:50-54 | `/<id>` on `youtu.be` yields the id |
| YouTubeUtils.OtherHostNone | src/youtube_utils.py:37-59 | any host naming neither `youtube.com` nor `youtu.be` yields `None` |
| YouTubeUtils.SampleWatchUrl | src/youtube_utils.py:187 | the sample watch URL, given by its scheme, host, path and query, gives `dQw4w9WgXcQ`; `YouTubeUtils.SampleWatchSpelling` shows those parts spell the literal URL |
| YouTubeUtils.SampleWatchSpelling | src/youtube_utils.py:187 | the parts of the sample watch URL compose to `https://www.youtube.com/watch?v=dQw4w9WgXcQ` |
| YouTubeUtils.SampleShortUrl | src/youtube_utils.py:188 | the sample short link gives `dQw4w9WgXcQ` |
| YouTubeUtils.SampleBareId | src/youtube_utils.py:189 | the sample bare id gives itself |
| YouTubeUtils.SampleEmbedUrl | src/youtube_utils.py:190 | the sample embed URL, given by its scheme, host and path, gives `dQw4w9WgXcQ`; `YouTubeUtils.SampleEmbedSpelling` shows those parts spell the literal URL |
| YouTubeUtils.SampleEmbedSpelling | src/youtube_utils.py:190 | the parts of the sample embed URL compose to `https://www.youtube.com/embed/dQw4w9WgXcQ` |
| YouTubeUtils.SampleOtherHost | src/youtube_utils.py:191 | `https://invalid.com/video` gives `None` |
| YouTubeUtils.ValidateUrl | src/youtube_utils.py:62-64 | a URL is valid exactly when an id can be extracted from it |
| UrlForms.UrlParseComposed | src/youtube_utils.py:35 | `urlparse` of a URL built from a scheme, host, path and query gives those parts back |
| YouTubeUtils.ParseIsoDuration | src/youtube_utils.py:67-82 | input that does not start with `PT` gives 0 |
| YouTubeUtils.ParseRenderedDuration | src/youtube_utils.py:72-82 | `PTnHnMnS` with any of the parts present gives `h*3600 + m*60 + s`, a missing part counting 0 |
| YouTubeUtils.DurationExample | src/youtube_utils.py:69-70 | `PT1H2M10S` is 3730 seconds |
| YouTubeUtils.FindLanguage | src/youtube_utils.py:140-145 | the first transcript of the requested language, or `None` exactly when there is none |
| YouTubeUtils.SelectTranscript | src/youtube_utils.py:139-155 | the transcript chosen is one of those listed; nothing is chosen exactly when nothing is listed |
| YouTubeUtils.SelectionOrder | src/youtube_utils.py:139-155 | manual English first, else generated English, else the first listed transcript with its own `is_generated` flag; nothing chosen exactly when nothing is listed |
| YouTubeUtils.GetVideoCaptions | src/youtube_utils.py:102-181 | the result dict built step by step equals the result for the transcript service's answer |
| YouTubeUtils.VideoCaptions | src/youtube_utils.py:125-181 | a result is a success exactly when it has no error; a success carries the text and `word_count` is the number of its words; a failure carries no text and a count of 0 |
| YouTubeUtils.CaptionOutcome | src/youtube_utils.py:125-181 | success exactly when a transcript was chosen and fetched, and exactly when there is no error; a failure carries no text, language or words; `is_auto_generated` is set exactly when a transcript was chosen, to the flag of that choice; a failed listing gives its handler's message, an empty listing "No transcripts available", a failed fetch its handler's message; a success gives the chosen transcript's language code and its cleaned text |
| YouTubeUtils.CaptionWords | src/youtube_utils.py:161-170 | the stored text is the entries' words joined by single spaces; its words are the entries' words in order, and `word_count` counts them |
| Strings.Strip | src/youtube_utils.py:27 | `strip` keeps the text between the first and last non-whitespace characters |
| Strings.NormalizeIsJoinedWords | src/youtube_utils.py:165 | collapsing whitespace runs and stripping is the same as splitting into words and joining with one space |
| Strings.NormalizeKeepsWords | src/youtube_utils.py:165-170 | the clean-up keeps the word split |
| SrtText.SrtToPlainText | src/youtube_utils.py:85-99 | the text has no leading or trailing whitespace and no run of three or more newlines |
| SrtText.Rewritten | src/youtube_utils.py:91-97 | after the three rewrites no run of three newlines remains |
| SrtText.RewrittenOfWellFormed | src/youtube_utils.py:91-97 | on a well-formed SubRip file (each cue a number, a timing line and one or more text lines that are non-empty, not all digits and have no timing-shaped tail) the rewrites leave each cue's text lines, joined by single newlines, followed by one blank line |
| SrtText.SrtOfWellFormed | src/youtube_utils.py:90-99 | on a well-formed SubRip file with cues of one or more text lines, the plain text is exactly the cue texts (their lines joined by single newlines) separated by blank lines, so no sequence-number or timing line survives |
| SrtText.UnterminatedNumberKept | src/youtube_utils.py:91 | a last line holding only a sequence number, with no newline after it, is kept |
| SrtText.UnterminatedTimingKept | src/youtube_utils.py:94 | a timing line with no newline after it is kept |
| YouTubeApi.YouTubeClient.constructor | src/youtube_client.py:25-28 | the quota starts at 0 |
| YouTubeApi.MetadataOfItem | src/youtube_client.py:52-73 | the record has the requested id and the item's title, and the description is the first 500 characters at most |
| YouTubeApi.MetadataOf | src/youtube_client.py:39-82 | metadata exists exactly when `execute()` returned and the answer has an item |
| YouTubeApi.MetadataDefaults | src/youtube_client.py:55-72 | missing counts are 0; the language falls back from `defaultAudioLanguage` to `defaultLanguage` to `unknown`; a missing description is empty; the duration is the parsed ISO 8601 duration |
| YouTubeApi.YouTubeClient.GetVideoMetadata | src/youtube_client.py:30-82 | returns that metadata and charges 1 unit exactly when `execute()` returned |
| YouTubeApi.TrackOf | src/youtube_client.py:106-112 | a track is auto-generated exactly when its kind is `asr`, and it keeps the item's id and language |
| YouTubeApi.TracksOf | src/youtube_client.py:94-120 | one track per listed item, in order; an HTTP error yields no tracks |
| YouTubeApi.YouTubeClient.ListCaptions | src/youtube_client.py:84-120 | the loop builds that listing and charges 50 units exactly when `execute()` returned |
| YouTubeApi.DownloadOf | src/youtube_client.py:131-154 | a download yields the plain text of its SubRip content; an HTTP error yields `None` |
| YouTubeApi.YouTubeClient.DownloadCaption | src/youtube_client.py:122-154 | returns that text and charges 200 units exactly when `execute()` returned |
| YouTubeApi.BestTrackIsTierChoice | src/youtube_client.py:156-195 | partitioning and scanning picks the first manual English track, else the first manual, else the first auto English, else the first auto track |
| YouTubeApi.BestTrackMember | src/youtube_client.py:168-195 | a chosen track is one of the listed tracks, and nothing is chosen exactly when nothing is listed |
| YouTubeApi.YouTubeClient.GetBestCaptionTrack | src/youtube_client.py:156-195 | returns that choice over the listed tracks and charges only the listing |
| YouTubeApi.WorkflowOutcome | src/youtube_client.py:204-242 | success exactly when metadata, a track and a non-empty download all arrive; a full success costs exactly 251 units; a metadata failure costs at most 1 and says so; no run costs over 251 |
| YouTubeApi.WorkflowErrors | src/youtube_client.py:214-235 | each failing step sets its own error, earlier results are kept, and the later requests cost nothing |
| YouTubeApi.YouTubeClient.GetVideoCaptions | src/youtube_client.py:197-242 | the result and the quota charged are those of the workflow, and the quota never decreases |
| AiCoder.Truncate | src/ai_coder.py:53-56 | a transcript over 50 000 characters becomes its first 50 000 characters plus `\n\n[TRUNCATED]`; a shorter one is unchanged |
| AiCoder.TruncateLength | src/ai_coder.py:53-56 | a cut transcript is 50 013 characters, and no result is longer |
| AiCoder.TruncateKeepsPrefix | src/ai_coder.py:56 | the first min(length, 50 000) characters always survive |
| AiCoder.TruncateIdempotent | src/ai_coder.py:53-56 | cutting twice is cutting once |
| AiCoder.SystemPromptSections | src/ai_coder.py:91-118 | the system prompt opens with the analyst's role, then gives the rules, the quality criteria and the audience criteria under their headings, in that order |
| AiCoder.RenderText | src/ai_coder.py:128-129 | a missing title or channel shows as `Unknown`, a null one as `None` |
| AiCoder.RenderCount | src/ai_coder.py:130 | a missing duration shows as `0`, a null one as `None`, a number as its decimal digits |
| AiCoder.UserPrompt | src/ai_coder.py:121-137 | the prompt carries the transcript verbatim and is longer than it; `AiCoder.UserPromptParts` fixes where it sits |
| AiCoder.UserPromptParts | src/ai_coder.py:125-135 | the prompt opens with the metadata block, carries the transcript verbatim, and ends with the closing instruction |
| AiCoder.UserPromptInjective | src/ai_coder.py:125-135 | under the same metadata, different transcripts give different prompts |
| AiCoder.MissingMetadataDefaults | src/ai_coder.py:128-130 | absent keys give the prompt for `Unknown`, `Unknown` and `0` |
| AiCoder.EstimateTokens | src/ai_coder.py:146-150 | transcript tokens are the length divided by 4, rounded down; completion tokens are 800; the total adds 200 for the system prompt |
| AiCoder.EstimateMonotone | src/ai_coder.py:146-150 | a longer transcript never gets a smaller total, and no total is below 1000 |
| AiCoder.NewMotifCoder | src/ai_coder.py:28-34 | a coder exists exactly when the explicit key or the environment key is non-empty; a non-empty explicit key wins; the model is `gpt-4o-mini`; otherwise the error names the missing key |
| AiCoder.CodingRequestCarries | src/ai_coder.py:58-72 | the request carries the model, the fixed system prompt and the cut transcript verbatim |
| AiCoder.CodingOf | src/ai_coder.py:62-89 | a record comes only from a completion that passes the schema, and it keeps the bounds; a failed call is passed on with its message; an unparsed completion gives no record |
| AiCoder.CodeTranscript | src/ai_coder.py:37-89 | cuts the text, builds both prompts, and returns the request and the outcome for the answer |
| MotifSchema.ValidateMotif | src/motif_schema.py:18-124 | an accepted record keeps every list bound; a rejection names at least one field |
| MotifSchema.DefaultsWhenOmitted | src/motif_schema.py:26-124 | with only the required fields given, every list is empty, `meal_timing_discussed` and `mentions_injury` are false and `diet_type` is `None` |
| MotifSchema.RequiredFieldsMissing | src/motif_schema.py:51-105 | omitting any of the eight fields without a default rejects the payload and names that field |
| MotifSchema.QuotesRoundTrip | src/motif_schema.py:108-112 | up to five quotes given in full validate back to themselves |
| MotifSchema.ValidateInputOf | src/motif_schema.py:26-124 | a record written out in full is accepted exactly when it keeps the bounds, and then validates back to itself |
| MotifSchema.QuoteLengthUnchecked | src/motif_schema.py:12-15 | a quote is its two strings, of any length |
| MotifSchema.ExampleIsValid | src/motif_schema.py:128-153 | the schema's example keeps every bound and validates to itself |
| Models.StatusOnInsert | src/models.py:45-46 | an insert without a status gets `pending`, one with a status keeps it |
| Models.HasCaptionsOnInsert | src/models.py:48 | an insert without the flag gets false |
| Models.Preview | src/models.py:112 | the preview exists exactly when there is non-empty text; it is a prefix of the text of at most 200 characters |
| Models.PreviewCut | src/models.py:104-113 | short text is its own preview; longer text is cut to exactly its first 200 characters |
| Models.VideoToDict | src/models.py:62-75 | the dictionary keeps the keys, title, channel name, duration, view count, status, caption flag and creation time of the row |
| Models.TranscriptToDict | src/models.py:104-113 | the dictionary keeps the keys and metadata; its preview is present exactly when the text is non-empty, and is a prefix of at most 200 characters |
| Models.CodingToDict | src/models.py:155-163 | the dictionary keeps the keys, the coding results, the model and the token count |
| Database.Database.constructor | src/database.py:27-33 | the tables start empty and consistent |
| Database.VideoById | src/database.py:77-83 | returns a stored video with that YouTube id, or `None` exactly when there is none |
| Database.NewVideo | src/database.py:63-74 | the new row gets a key above every existing key and the column defaults for a missing status or caption flag |
| Database.AddVideoConsistent | src/database.py:63-74 | inserting a fresh YouTube id keeps keys ascending and YouTube ids unique |
| Database.CreateThenGet | src/database.py:63-83 | after the insert, the lookup of its YouTube id gives the new row, and every other lookup is unchanged |
| Database.Database.CreateVideo | src/database.py:63-74 | a duplicate YouTube id is refused with nothing written; otherwise exactly the new row is appended |
| Database.ApplyGet | src/database.py:97-98 | one `setattr` on a non-key column sets that column and leaves the other columns and the keys alone |
| Database.ApplyAllColumns | src/database.py:96-98 | after the loop each column holds the last value assigned to it, or its old value when no update names it |
| Database.UpdateVideoEffect | src/database.py:92-103 | only the matching video changes, by exactly the updates; other videos, transcripts and codings stay; with no match the store is as it was |
| Database.Database.UpdateVideo | src/database.py:92-103 | performs that update in place and returns the updated row, or `None` |
| Database.Matching | src/database.py:111-115 | keeps exactly the videos that pass both optional filters; an empty status means no status filter |
| Database.AllVideosExact | src/database.py:106-120 | the listing holds exactly the matching videos, in strictly decreasing creation time |
| Database.AllVideos | src/database.py:106-120 | the listing holds exactly the videos that pass the status and caption filters, and is never longer than the table |
| Database.Unlink | src/models.py:99 | a coding of another video that pointed at a removed transcript loses that link and keeps its keys |
| Database.DeleteVideoEffect | src/database.py:123-132 | returns true exactly when the video existed; afterwards no video has that id, every other video is still there, and nothing new appears |
| Database.DeleteVideoCascade | src/models.py:56-57 | after the delete no transcript or coding of that video remains, every other transcript stays, and no coding points at a removed transcript |
| Database.DeleteVideoConsistent | src/database.py:123-132 | the delete keeps the store's invariant |
| Database.Database.DeleteVideo | src/database.py:123-132 | performs that delete in place |
| Database.MarkCaptioned | src/database.py:146-149 | the owning video becomes captioned and completed, with its keys unchanged |
| Database.AddTranscriptEffect | src/database.py:139-157 | exactly one transcript is added for the key; the video with that key, if any, is marked captioned and completed; no other video and no coding changes |
| Database.AddTranscriptConsistent | src/database.py:139-157 | the transcript insert keeps the store's invariant |
| Database.Database.CreateTranscript | src/database.py:139-157 | performs that insert in place and returns the new row |
| Database.TranscriptAfterCreate | src/database.py:160-166 | after the insert, the transcript lookup gives the new row unless the video already had one |
| Database.VideoByPk | src/database.py:86-89 | the video found has that primary key and is stored; `None` exactly when no video has it |
| Database.TranscriptFor | src/database.py:160-170 | the transcript found is stored and owned by the video; `None` exactly when the video owns none |
| Database.CodingFor | src/database.py:191-201 | the coding found is stored and owned by the video; `None` exactly when the video owns none |
| Database.NewCoding | src/database.py:173-188 | the new coding gets a key above every existing key |
| Database.AddCodingConsistent | src/database.py:173-188 | the coding insert keeps the store's invariant |
| Database.Database.CreateMotifCoding | src/database.py:173-188 | appends exactly that coding in place and returns it |
| Database.CodingAfterCreate | src/database.py:191-197 | after the insert, the coding lookup gives the new row unless the video already had one |
| Database.CountStatus | src/database.py:208-210 | a status count never exceeds the number of videos |
| Database.StatusCountsBound | src/database.py:207-210 | the completed, processing and failed counts together never exceed the total |
| Database.StatsBounds | src/database.py:204-221 | the total bounds the three status counts and the caption count; `with_ai_coding` is the number of coding rows |
| Database.CountStatusRows | src/database.py:208-210 | a status count is the number of videos whose status is that value |
| Database.CountCaptionedRows | src/database.py:211 | the caption count is the number of videos whose `has_captions` is true |
| Database.DatabaseStats | src/database.py:204-221 | `total_videos` is the number of videos, `with_ai_coding` the number of coding rows, each status figure the number of videos with that status, and `with_captions` the number of videos whose `has_captions` is true |
| Database.CodingsCountedAsRows | src/database.py:212 | two codings of one video add two to `with_ai_coding` |
| Database.DistinctVideoDicts | src/models.py:62-75 | distinct rows of a consistent table have distinct projections and YouTube ids |
| AddVideos.EntryOf | pages/add_videos.py:94-98 | a stored column is always present in the coder's metadata: its value, or `None` |
| AddVideos.VideoDataOf | pages/add_videos.py:43-58 | the insert carries the id and the URL verbatim, no duration, status `processing` and no captions |
| AddVideos.InsertedData | pages/add_videos.py:43-58 | the inserted row's YouTube id is the one extracted from the URL |
| AddVideos.CaptionOf | pages/add_videos.py:65-67 | a caption result is a success exactly when it has no error, and then carries the text |
| AddVideos.Ingest | pages/add_videos.py:60-75 | the stage from the video insert on charges only the metadata request |
| AddVideos.StoreTranscript | pages/add_videos.py:77-99 | the transcript is stored before the coder is made; without a key, no request is sent and the failure is the key error; a failure writes no coding; a success returns the id and title and writes one coding |
| AddVideos.Code | pages/add_videos.py:92-123 | the request is the one for the transcript and the video's metadata; only a completion that passes the schema is saved; a failed call is reported with its message and an unparsed one with the `model_dump` error; a failure writes nothing |
| AddVideos.ProcessIngests | pages/add_videos.py:21-60 | a run that reaches the insert is the insert stage on one unit of quota |
| AddVideos.Process | pages/add_videos.py:21-60 | a run costs at most one unit of quota; an invalid URL or a stored id costs none, writes nothing and sends no request |
| AddVideos.EarlyExits | pages/add_videos.py:25-40 | an invalid URL or a stored id writes nothing and costs no quota; a metadata failure writes nothing and costs at most 1; a run that stops before the insert writes nothing and sends no request |
| AddVideos.QuotaOfRun | pages/add_videos.py:36-40 | a run is charged at most 1 unit, and exactly 1 when it inserts |
| AddVideos.IngestCases | pages/add_videos.py:63-85 | after the insert, a caption failure leads to the no-captions update and a success to the transcript stage |
| AddVideos.NoCaptionsUpdate | pages/add_videos.py:67-70 | the new video gets status `no_captions` and the caption error as its message |
| AddVideos.NoCaptionsPath | pages/add_videos.py:63-75 | without captions the video is kept with status `no_captions` and the caption error; the result says the video was created, and no transcript, coding or request follows |
| AddVideos.CaptionedAfterTranscript | pages/add_videos.py:77-85 | after the transcript insert the new video is found captioned and completed |
| AddVideos.TranscriptStored | pages/add_videos.py:77-85 | with captions, exactly one transcript is appended with the next key, owned by the new video; it holds the cleaned text and its word count; the video ends captioned and completed whatever follows |
| AddVideos.ResultStages | pages/add_videos.py:21-123 | nothing succeeds and no request is sent before the transcript stage |
| AddVideos.SuccessfulRun | pages/add_videos.py:101-120 | a success returns the id and title and adds one video, one transcript and exactly one valid coding linked to both, with the default model, the estimate for the uncut transcript and 3 seconds |
| AddVideos.StageSuccess | pages/add_videos.py:101-120 | the same, for the transcript stage after a given insert |
| AddVideos.CodingStepFailure | pages/add_videos.py:88-123 | a failure at the coder, the call or the schema gives a failure without `video_created`; the transcript stays and no coding is written |
| AddVideos.RequestOfRun | pages/add_videos.py:88-99 | a request is sent only after the transcript is stored and a non-empty key is found; it carries the default model, the system prompt, the cut transcript and the title, the channel and a duration of `None` |
| AddVideos.StageRequest | pages/add_videos.py:90-99 | the same, for the transcript stage after a given insert |
| AddVideos.AddTranscriptStatuses | src/database.py:146-149 | a transcript insert keeps every status among the documented ones |
| AddVideos.NoCaptionsStatuses | pages/add_videos.py:70 | the no-captions update keeps every status among the documented ones |
| AddVideos.IngestKeepsStatuses | pages/add_videos.py:56-85 | the stages after the insert write only documented statuses |
| AddVideos.ProcessKeepsStatuses | src/models.py:45-46 | a run writes only the documented statuses |
| AddVideos.CodedOnceAscending | pages/add_videos.py:112 | the appended coding keeps coding keys ascending |
| AddVideos.StoreTranscriptConsistent | pages/add_videos.py:77-112 | the transcript stage keeps the store's invariant |
| AddVideos.IngestConsistent | pages/add_videos.py:60-112 | the stages after the insert keep the store's invariant |
| AddVideos.ProcessConsistent | pages/add_videos.py:21-123 | every run keeps the store's invariant, so YouTube ids stay unique |
| AddVideos.ProcessVideoUrl | pages/add_videos.py:21-123 | the page's sequence of client, caption, database and coder calls leaves the database, quota, result and request of the staged run |
| AddVideos.CodeAndSave | pages/add_videos.py:92-112 | coding and saving in place leave exactly the coding stage's store, result and request |
| AddVideos.NonEmptyStripped | pages/add_videos.py:214 | every kept line is stripped and non-empty, and no line is added |
| AddVideos.NonEmptyStrippedKeeps | pages/add_videos.py:214 | lines that are already stripped and non-empty are all kept, in order |
| AddVideos.BatchUrls | pages/add_videos.py:214 | every URL is stripped and non-empty, and there are no more URLs than lines |
| Strings.SplitJoin | pages/add_videos.py:214 | splitting lines joined by a separator they do not contain gives them back |
| AddVideos.BatchUrlsOfLines | pages/add_videos.py:214 | URLs pasted one per line come back exactly, in order |
| AddVideos.BlankLinesDropped | pages/add_videos.py:214 | blank lines contribute no URL |
| AddVideos.RunBatch | pages/add_videos.py:231-236 | one result per URL |
| AddVideos.BatchResultAt | pages/add_videos.py:231-236 | each URL's result is that of its run on the store its predecessors left |
| AddVideos.BatchConsistent | pages/add_videos.py:231-236 | a batch keeps the store's invariant and charges at most one unit per URL |
| AddVideos.SuccessCount | pages/add_videos.py:244 | the count never exceeds the number of results |
| AddVideos.SuccessCountIsSuccesses | pages/add_videos.py:244 | the count is the number of successful results |
| AddVideos.ProcessBatch | pages/add_videos.py:214-244 | the loop leaves the batch's store, quota and results, one result per URL, and counts the successes |

## Left out

- AiCoder.CodingRequest: the request carries the model, the system prompt and the user prompt. The call's other two arguments are not modelled: `temperature=0.1` (src/ai_coder.py:71) affects only the remote answer, which is a parameter here, and `response_format=MotifCoding` (src/ai_coder.py:70) is modelled as the schema check `AiCoder.CodingOf` applies to the answer.
- Database.Database.UpdateVideo: only updates of the thirteen non-key columns of `videos` are modelled. `update_video` applies `setattr` to any key, so an update of `id`, `video_id`, `url`, `created_at` or `updated_at`, or of a name that is no column, is not modelled. The one caller in the core (pages/add_videos.py:70) passes only `status` and `error_message`.
- SrtText.SrtToPlainText: the stated guarantee is weaker than "no digit-only line and no timing line remains". Both patterns need a newline after the line, so either one is kept when it is the file's last line (`SrtText.UnterminatedNumberKept`, `SrtText.UnterminatedTimingKept`). The full removal is proved only for well-formed SubRip files (`SrtText.SrtOfWellFormed`): every cue has one or more text lines, and each line is non-empty, is not all digits and has no tail shaped like a timing line.
- AddVideos.CodingErrorText: the text of a schema failure raised by the completions client is a short `validation error for MotifCoding:` line naming the fields. Pydantic's own multi-line message is not reproduced.
- Database.Database.CreateVideo: a duplicate YouTube id returns `None` here. SQLAlchemy raises an integrity error instead; in the pipeline the existence check comes first, so that path is never taken.
- Remote calls are parameters, not implementations:
  - the YouTube service's `execute()`;
  - `list_transcripts` and `fetch` of the transcript service;
  - `beta.chat.completions.parse`.

  Their answers are known only by their shape. Logging of the token usage the completion reports is not modelled.
- An HTTP 403 only adds an extra log line, so it is not distinguished from other HTTP errors.
- Floating-point figures are left out: the cost estimate and its `round(..., 4)` (src/ai_coder.py:152-158), the per-video `cost` in the success dict, and the batch `total_cost` (pages/add_videos.py:113, 119, 245). The success result carries only the id and title.
- Timestamps are modelled as a natural-number clock:
  - `created_at` is the store's insertion counter;
  - `updated_at` is not modelled;
  - `published_at` is kept as the API's text.

  The `fromisoformat` parse (pages/add_videos.py:50) and the error it raises on malformed text are not modelled.
- SQLAlchemy sessions are not modelled: engine, commit, rollback, refresh and expunge (src/database.py:18-56). Each store operation is one atomic step. `get_video_by_pk` is a plain lookup.
- Column length limits (`String(20)` and the like) are not modelled; SQLite does not enforce them.
- The `video.title[:50]` slice in the progress line is dropped with the rest of the output. Progress lines, Streamlit widgets, the progress bar and the summary metrics are UI output with no effect on the store.
- YouTube OAuth (`youtube_auth.py`) and client construction errors in the batch page are not modelled. The client is created with quota 0.
- Percent-decoding in `parse_qs` is not modelled, and neither are the bracketed-host and Unicode-normalisation checks of `urlsplit`. The regular expressions' `\d` is taken as ASCII digits.
- The explicit `api_key` argument of `MotifCoder` is modelled (`AiCoder.NewMotifCoder`), but the pipeline always passes none.
