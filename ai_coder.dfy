/**
 * Preparing a transcript for motif coding: the length cut with its marker,
 * the fixed system prompt, the user prompt that carries the video's
 * metadata and the transcript, the integer token estimate, the API-key
 * lookup of the coder, and one coding request whose remote answer is a
 * parameter.
 */
module AiCoder {
  import opened Wrappers
  import opened Strings
  import opened MotifSchema

  // ---------------------------------------------------------------------
  // Truncation
  // ---------------------------------------------------------------------

  const MaxLength: nat := 50000
  const TruncationMarker: string := "\n\n[TRUNCATED]"

  /**
   * A transcript longer than `MaxLength` keeps its first `MaxLength`
   * characters and gets the marker. What the cut guarantees is stated by
   * the lemmas below: the resulting length (`TruncateLength`), the prefix
   * that always survives (`TruncateKeepsPrefix`) and that a second cut
   * changes nothing (`TruncateIdempotent`).
   */
  function Truncate(text: string): (r: string)
    ensures |text| > MaxLength ==> r == text[..MaxLength] + TruncationMarker
    ensures |text| <= MaxLength ==> r == text
  {
    if |text| > MaxLength then text[..MaxLength] + TruncationMarker else text
  }

  /** A cut transcript is 50 013 characters long; one within the limit keeps its length. */
  lemma TruncateLength(text: string)
    ensures |Truncate(text)| == if |text| > MaxLength then 50013 else |text|
    ensures |Truncate(text)| <= 50013
  {
  }

  /** The first `min(|text|, MaxLength)` characters always survive. */
  lemma TruncateKeepsPrefix(text: string)
    ensures var n := if |text| < MaxLength then |text| else MaxLength;
      n <= |Truncate(text)| && Truncate(text)[..n] == text[..n]
  {
  }

  /** Cutting twice is cutting once: the marker falls in the part a second cut removes. */
  lemma TruncateIdempotent(text: string)
    ensures Truncate(Truncate(text)) == Truncate(text)
  {
    if |text| > MaxLength {
      var t := Truncate(text);
      assert t[..MaxLength] == text[..MaxLength];
    }
  }

  // ---------------------------------------------------------------------
  // Prompts
  // ---------------------------------------------------------------------

  /** The analyst's role and the task, before the first heading. */
  const SystemRole: string := @"You are a research analyst specializing in coding YouTube transcripts about sports, fitness, performance science, and nutrition.

Your task is to analyze video transcripts and extract structured information according to a provided schema.

"

  const RulesHeading: string := "CRITICAL RULES:"
  const Rules: string := @"
1. Only include information EXPLICITLY mentioned in the transcript
2. Do not infer or assume information not stated
3. Be precise with categorization
4. For quotes, use exact wording from transcript (max 200 chars)
5. When unsure, leave field empty or mark as False
6. Maintain objectivity - don't add personal opinions

"

  const QualityHeading: string := "QUALITY CRITERIA:"
  const QualityLevels: string := @"
- High quality: Cites research, features experts, provides detailed protocols
- Medium quality: Provides general advice, some specific details
- Low quality: Vague advice, promotional, lacks substance

"

  const AudienceHeading: string := "TARGET AUDIENCE CRITERIA:"
  const AudienceLevels: string := @"
- Beginners: Basic concepts, introductory advice
- Intermediate: Assumes some knowledge, more detailed
- Advanced: Technical, assumes expertise
- Athletes: Performance-focused, competitive context
- General fitness: Broad appeal, practical advice"

  /** `_build_system_prompt`: the same text for every request. */
  const SystemPrompt: string :=
    SystemRole + (RulesHeading + Rules) + (QualityHeading + QualityLevels) + (AudienceHeading + AudienceLevels)

  /**
   * The system prompt opens with the analyst's role and then gives the
   * rules, the quality levels and the audience levels, each under its
   * heading, in that order.
   */
  lemma SystemPromptSections()
    ensures StartsWith(SystemPrompt, SystemRole)
    ensures var i := |SystemRole|; OccursAt(SystemPrompt, RulesHeading, i)
    ensures var i := |SystemRole| + |RulesHeading| + |Rules|; OccursAt(SystemPrompt, QualityHeading, i)
    ensures var i := |SystemRole| + |RulesHeading| + |Rules| + |QualityHeading| + |QualityLevels|;
      OccursAt(SystemPrompt, AudienceHeading, i)
  {
    SectionsLayout(SystemRole, RulesHeading, Rules, QualityHeading, QualityLevels, AudienceHeading, AudienceLevels);
  }

  /** Where each heading of a text made of an opening and three headed sections starts. */
  lemma SectionsLayout(a: string, h1: string, b1: string, h2: string, b2: string, h3: string, b3: string)
    ensures var p := a + (h1 + b1) + (h2 + b2) + (h3 + b3);
      && StartsWith(p, a)
      && OccursAt(p, h1, |a|)
      && OccursAt(p, h2, |a| + |h1| + |b1|)
      && OccursAt(p, h3, |a| + |h1| + |b1| + |h2| + |b2|)
  {
    var p := a + (h1 + b1) + (h2 + b2) + (h3 + b3);
    var i1 := |a|;
    var i2 := i1 + |h1| + |b1|;
    var i3 := i2 + |h2| + |b2|;
    assert p[..i1] == a;
    assert p[i1..i1 + |h1|] == h1;
    assert p[i2..i2 + |h2|] == h2;
    assert p[i3..i3 + |h3|] == h3;
  }

  /** The metadata dictionary a prompt is built from: each key absent, `None`, or a value. */
  datatype PromptMetadata = PromptMetadata(title: Field<string>, channel: Field<string>, duration: Field<nat>)

  /** How a text entry appears in the prompt: its default when absent, `None` when null. */
  function RenderText(f: Field<string>): (r: string)
    ensures f.Missing? ==> r == "Unknown"
    ensures f.Null? ==> r == "None"
    ensures f.Given? ==> r == f.value
  {
    match f
    case Missing => "Unknown"
    case Null => "None"
    case Given(s) => s
  }

  /** How the duration appears in the prompt: `0` when absent, `None` when null, decimal otherwise. */
  function RenderCount(f: Field<nat>): (r: string)
    ensures f.Missing? ==> r == "0"
    ensures f.Null? ==> r == "None"
    ensures f.Given? ==> AllDigits(r) && DigitsValue(r) == f.value
  {
    match f
    case Missing => "0"
    case Null => "None"
    case Given(n) => DigitsValueOfNatToString(n); NatToString(n)
  }

  /** Everything before the transcript. */
  function PromptHead(meta: PromptMetadata): string
  {
    "Analyze the following YouTube video and extract structured motif information.\n\nVIDEO METADATA:\nTitle: "
    + RenderText(meta.title) + "\nChannel: " + RenderText(meta.channel)
    + "\nDuration: " + RenderCount(meta.duration) + " seconds\n\nTRANSCRIPT:\n"
  }

  /** Everything after the transcript. */
  const PromptTail: string := "\n\nExtract all relevant information according to the schema. Be thorough but precise."

  /**
   * `_build_user_prompt`: the metadata block, the transcript, the closing
   * instruction; `UserPromptParts` reads the transcript back out.
   */
  function UserPrompt(text: string, meta: PromptMetadata): (r: string)
    ensures Contains(r, text) && |text| < |r|
  {
    var h := PromptHead(meta);
    var r := h + (text + PromptTail);
    assert OccursAt(r, text, |h|) by { assert r[|h|..|h| + |text|] == text; }
    r
  }

  /** The transcript read back out of a prompt built for `meta`. */
  function PromptTranscript(prompt: string, meta: PromptMetadata): string
    requires |PromptHead(meta)| + |PromptTail| <= |prompt|
  {
    prompt[|PromptHead(meta)|..|prompt| - |PromptTail|]
  }

  /** The prompt opens with the metadata, then carries the transcript verbatim, then the closing line. */
  lemma UserPromptParts(text: string, meta: PromptMetadata)
    ensures var p := UserPrompt(text, meta);
      && StartsWith(p, PromptHead(meta))
      && |PromptHead(meta)| + |PromptTail| <= |p|
      && PromptTranscript(p, meta) == text
      && p[|p| - |PromptTail|..] == PromptTail
  {
    var p := UserPrompt(text, meta);
    var h := PromptHead(meta);
    assert p[..|h|] == h;
    assert p[|h|..|p| - |PromptTail|] == text;
    assert p[|p| - |PromptTail|..] == PromptTail;
  }

  /** Different transcripts under the same metadata give different prompts. */
  lemma UserPromptInjective(a: string, b: string, meta: PromptMetadata)
    requires UserPrompt(a, meta) == UserPrompt(b, meta)
    ensures a == b
  {
    UserPromptParts(a, meta);
    UserPromptParts(b, meta);
  }

  /** An absent key reads as its default: the prompt is the one for `Unknown`, `Unknown` and `0`. */
  lemma MissingMetadataDefaults(text: string)
    ensures UserPrompt(text, PromptMetadata(Missing, Missing, Missing))
      == UserPrompt(text, PromptMetadata(Given("Unknown"), Given("Unknown"), Given(0)))
  {
  }

  // ---------------------------------------------------------------------
  // Token estimate
  // ---------------------------------------------------------------------

  const SystemTokens: nat := 200
  const CompletionTokens: nat := 800

  datatype TokenEstimate = TokenEstimate(totalTokens: nat, transcriptTokens: nat, completionTokens: nat)

  /** About one token per four characters, plus fixed allowances for the system prompt and the reply. */
  function EstimateTokens(text: string): (e: TokenEstimate)
    ensures 4 * e.transcriptTokens <= |text| < 4 * e.transcriptTokens + 4
    ensures e.completionTokens == CompletionTokens
    ensures e.totalTokens == e.transcriptTokens + SystemTokens + e.completionTokens
  {
    var transcriptTokens := |text| / 4;
    TokenEstimate(transcriptTokens + SystemTokens + CompletionTokens, transcriptTokens, CompletionTokens)
  }

  /** A longer transcript never gets a smaller estimate, and no estimate is below 1000. */
  lemma EstimateMonotone(a: string, b: string)
    requires |a| <= |b|
    ensures EstimateTokens(a).totalTokens <= EstimateTokens(b).totalTokens
    ensures EstimateTokens(a).totalTokens >= 1000
  {
  }

  // ---------------------------------------------------------------------
  // The coder and one coding request
  // ---------------------------------------------------------------------

  const DefaultModel: string := "gpt-4o-mini"
  const MissingKeyMessage: string := "OpenAI API key not found. Set OPENAI_API_KEY environment variable."

  /** A configured coder; nothing about it changes after construction. */
  datatype MotifCoder = MotifCoder(apiKey: string, model: string)

  /**
   * The explicit key when it is non-empty, otherwise the environment's
   * `OPENAI_API_KEY`; with neither non-empty the coder cannot be made.
   */
  function NewMotifCoder(apiKey: Option<string>, environment: Option<string>): (r: Result<MotifCoder>)
    ensures r.Ok? <==> (apiKey.Some? && apiKey.value != []) || (environment.Some? && environment.value != [])
    ensures r.Ok? ==> r.value.apiKey != [] && r.value.model == DefaultModel
    ensures r.Ok? && apiKey.Some? && apiKey.value != [] ==> r.value.apiKey == apiKey.value
    ensures r.Ok? && (apiKey.None? || apiKey.value == []) ==> r.value.apiKey == environment.value
    ensures r.Err? ==> r.message == MissingKeyMessage
  {
    var key := if apiKey.Some? && apiKey.value != [] then apiKey else environment;
    if key.None? || key.value == [] then Err(MissingKeyMessage)
    else Ok(MotifCoder(key.value, DefaultModel))
  }

  /** What is sent to the chat-completions endpoint. */
  datatype ChatRequest = ChatRequest(model: string, systemPrompt: string, userPrompt: string)

  /**
   * The remote answer: a completion (the payload the service returned,
   * still to be checked against the schema), a completion without a parsed
   * payload, or an exception with its message.
   */
  datatype CoderAnswer = Completed(payload: MotifInput) | NotParsed | CallFailed(message: string)

  /** The outcome of `code_transcript`: a record, `None`, or the error it re-raises. */
  datatype Coding = Coded(coding: MotifCoding) | NoCoding | CodingFailed(error: CodingError)

  datatype CodingError = RemoteError(message: string) | SchemaError(fields: seq<string>)

  /** The request built for a transcript: the model, the system prompt and the prompt over the cut text. */
  function CodingRequest(coder: MotifCoder, text: string, meta: PromptMetadata): ChatRequest
  {
    ChatRequest(coder.model, SystemPrompt, UserPrompt(Truncate(text), meta))
  }

  /** The request carries the model, the fixed system prompt and the cut transcript verbatim. */
  lemma CodingRequestCarries(coder: MotifCoder, text: string, meta: PromptMetadata)
    ensures var q := CodingRequest(coder, text, meta);
      && q.model == coder.model && q.systemPrompt == SystemPrompt
      && |PromptHead(meta)| + |PromptTail| <= |q.userPrompt|
      && PromptTranscript(q.userPrompt, meta) == Truncate(text)
  {
    UserPromptParts(Truncate(text), meta);
  }

  /** The outcome for an answer: only a payload that passes the schema yields a record. */
  function CodingOf(answer: CoderAnswer): (c: Coding)
    ensures c.Coded? ==> answer.Completed? && ValidateMotif(answer.payload) == Accepted(c.coding) && Valid(c.coding)
    ensures answer.CallFailed? ==> c == CodingFailed(RemoteError(answer.message))
    ensures answer.NotParsed? <==> c.NoCoding?
  {
    match answer
    case Completed(payload) =>
      (match ValidateMotif(payload)
       case Accepted(coding) => Coded(coding)
       case Rejected(fields) => CodingFailed(SchemaError(fields)))
    case NotParsed => NoCoding
    case CallFailed(message) => CodingFailed(RemoteError(message))
  }

  /**
   * `code_transcript`: the transcript is cut when over the limit, the two
   * prompts are built and the request is sent; the answer decides the
   * outcome, and a failure is passed on without any partial record.
   */
  method CodeTranscript(coder: MotifCoder, transcriptText: string, meta: PromptMetadata, answer: CoderAnswer)
    returns (request: ChatRequest, result: Coding)
    ensures request == CodingRequest(coder, transcriptText, meta)
    ensures result == CodingOf(answer)
  {
    var text := transcriptText;
    if |text| > MaxLength {
      text := text[..MaxLength] + TruncationMarker;
    }
    var systemPrompt := SystemPrompt;
    var userPrompt := UserPrompt(text, meta);
    request := ChatRequest(coder.model, systemPrompt, userPrompt);
    result := CodingOf(answer);
  }
}
