/**
 * The structured coding payload: the `Quote` and `MotifCoding` records,
 * the list-length bounds their fields carry, and how a payload with
 * omitted or null fields is validated into a record (defaults for the
 * optional fields, an error for each missing required one).
 */
module MotifSchema {
  import opened Wrappers

  /** A quote: two strings; the 200-character limit is only described, never enforced. */
  datatype Quote = Quote(text: string, context: string)

  datatype MotifCoding = MotifCoding(
    trainingType: seq<string>,
    recoveryMethods: seq<string>,
    equipmentMentioned: seq<string>,
    performanceMetrics: seq<string>,
    nutritionFocus: bool,
    supplementsMentioned: seq<string>,
    dietType: Option<string>,
    mealTimingDiscussed: bool,
    citesResearch: bool,
    expertFeatured: bool,
    studiesMentioned: seq<string>,
    primaryTopic: string,
    targetAudience: string,
    actionableAdvice: bool,
    productPromotion: bool,
    contentQuality: string,
    keyQuotes: seq<Quote>,
    mainClaims: seq<string>,
    mentionsInjury: bool)

  /** The `max_length` of each list field. */
  const MaxTrainingType: nat := 10
  const MaxRecoveryMethods: nat := 10
  const MaxEquipmentMentioned: nat := 10
  const MaxPerformanceMetrics: nat := 5
  const MaxSupplementsMentioned: nat := 10
  const MaxStudiesMentioned: nat := 5
  const MaxKeyQuotes: nat := 5
  const MaxMainClaims: nat := 5

  /** Every list field within its bound. */
  predicate Valid(c: MotifCoding)
  {
    && |c.trainingType| <= MaxTrainingType
    && |c.recoveryMethods| <= MaxRecoveryMethods
    && |c.equipmentMentioned| <= MaxEquipmentMentioned
    && |c.performanceMetrics| <= MaxPerformanceMetrics
    && |c.supplementsMentioned| <= MaxSupplementsMentioned
    && |c.studiesMentioned| <= MaxStudiesMentioned
    && |c.keyQuotes| <= MaxKeyQuotes
    && |c.mainClaims| <= MaxMainClaims
  }

  // ---------------------------------------------------------------------
  // Validating a payload
  // ---------------------------------------------------------------------

  datatype QuoteInput = QuoteInput(text: Field<string>, context: Field<string>)

  /** A payload as it arrives: each field omitted, null, or given with a value of its type. */
  datatype MotifInput = MotifInput(
    trainingType: Field<seq<string>>,
    recoveryMethods: Field<seq<string>>,
    equipmentMentioned: Field<seq<string>>,
    performanceMetrics: Field<seq<string>>,
    nutritionFocus: Field<bool>,
    supplementsMentioned: Field<seq<string>>,
    dietType: Field<string>,
    mealTimingDiscussed: Field<bool>,
    citesResearch: Field<bool>,
    expertFeatured: Field<bool>,
    studiesMentioned: Field<seq<string>>,
    primaryTopic: Field<string>,
    targetAudience: Field<string>,
    actionableAdvice: Field<bool>,
    productPromotion: Field<bool>,
    contentQuality: Field<string>,
    keyQuotes: Field<seq<QuoteInput>>,
    mainClaims: Field<seq<string>>,
    mentionsInjury: Field<bool>)

  /** The outcome of validation: the record, or the names of the fields in error, in declaration order. */
  datatype Validated = Accepted(coding: MotifCoding) | Rejected(fields: seq<string>)

  /** A list field with an empty default and a length bound. */
  function ListField(f: Field<seq<string>>, max: nat): (r: Option<seq<string>>)
    ensures r.Some? ==> |r.value| <= max
    ensures f.Missing? ==> r == Some([])
    ensures f.Null? ==> r.None?
    ensures f.Given? ==> (r.Some? <==> |f.value| <= max) && (r.Some? ==> r.value == f.value)
  {
    match f
    case Missing => Some([])
    case Null => None
    case Given(v) => if |v| <= max then Some(v) else None
  }

  /** A boolean field with a default. */
  function BoolField(f: Field<bool>, default: bool): Option<bool>
  {
    match f
    case Missing => Some(default)
    case Null => None
    case Given(b) => Some(b)
  }

  /** A field without a default: it must be given. */
  function RequiredField<T>(f: Field<T>): Option<T>
  {
    if f.Given? then Some(f.value) else None
  }

  /** `Optional[str] = None`: omitted and null both give `None`. */
  function OptionalStringField(f: Field<string>): Option<string>
  {
    if f.Given? then Some(f.value) else None
  }

  function QuoteOf(q: QuoteInput): Option<Quote>
  {
    if q.text.Given? && q.context.Given? then Some(Quote(q.text.value, q.context.value)) else None
  }

  /** The quotes: an empty default, at most five, each with both of its strings. */
  function QuotesField(f: Field<seq<QuoteInput>>): (r: Option<seq<Quote>>)
    ensures r.Some? ==> |r.value| <= MaxKeyQuotes
  {
    match f
    case Missing => Some([])
    case Null => None
    case Given(qs) =>
      if |qs| <= MaxKeyQuotes && forall i :: 0 <= i < |qs| ==> QuoteOf(qs[i]).Some?
      then Some(QuotesOf(qs))
      else None
  }

  function QuotesOf(qs: seq<QuoteInput>): (r: seq<Quote>)
    requires forall i :: 0 <= i < |qs| ==> QuoteOf(qs[i]).Some?
    ensures |r| == |qs|
    ensures forall i :: 0 <= i < |qs| ==> Some(r[i]) == QuoteOf(qs[i])
  {
    seq(|qs|, i requires 0 <= i < |qs| => QuoteOf(qs[i]).value)
  }

  /** `name` when the field failed, nothing otherwise. */
  function ErrorIf<T>(r: Option<T>, name: string): seq<string>
  {
    if r.None? then [name] else []
  }

  /**
   * Validating a payload into a `MotifCoding`: every field is checked,
   * and the payload is accepted when none failed.
   */
  function ValidateMotif(p: MotifInput): (r: Validated)
    ensures r.Accepted? ==> Valid(r.coding)
    ensures r.Rejected? ==> r.fields != []
  {
    var trainingType := ListField(p.trainingType, MaxTrainingType);
    var recoveryMethods := ListField(p.recoveryMethods, MaxRecoveryMethods);
    var equipmentMentioned := ListField(p.equipmentMentioned, MaxEquipmentMentioned);
    var performanceMetrics := ListField(p.performanceMetrics, MaxPerformanceMetrics);
    var nutritionFocus := RequiredField(p.nutritionFocus);
    var supplementsMentioned := ListField(p.supplementsMentioned, MaxSupplementsMentioned);
    var dietType := OptionalStringField(p.dietType);
    var mealTimingDiscussed := BoolField(p.mealTimingDiscussed, false);
    var citesResearch := RequiredField(p.citesResearch);
    var expertFeatured := RequiredField(p.expertFeatured);
    var studiesMentioned := ListField(p.studiesMentioned, MaxStudiesMentioned);
    var primaryTopic := RequiredField(p.primaryTopic);
    var targetAudience := RequiredField(p.targetAudience);
    var actionableAdvice := RequiredField(p.actionableAdvice);
    var productPromotion := RequiredField(p.productPromotion);
    var contentQuality := RequiredField(p.contentQuality);
    var keyQuotes := QuotesField(p.keyQuotes);
    var mainClaims := ListField(p.mainClaims, MaxMainClaims);
    var mentionsInjury := BoolField(p.mentionsInjury, false);
    var errors :=
      ErrorIf(trainingType, "training_type") + ErrorIf(recoveryMethods, "recovery_methods")
      + ErrorIf(equipmentMentioned, "equipment_mentioned") + ErrorIf(performanceMetrics, "performance_metrics")
      + ErrorIf(nutritionFocus, "nutrition_focus") + ErrorIf(supplementsMentioned, "supplements_mentioned")
      + ErrorIf(mealTimingDiscussed, "meal_timing_discussed") + ErrorIf(citesResearch, "cites_research")
      + ErrorIf(expertFeatured, "expert_featured") + ErrorIf(studiesMentioned, "studies_mentioned")
      + ErrorIf(primaryTopic, "primary_topic") + ErrorIf(targetAudience, "target_audience")
      + ErrorIf(actionableAdvice, "actionable_advice") + ErrorIf(productPromotion, "product_promotion")
      + ErrorIf(contentQuality, "content_quality") + ErrorIf(keyQuotes, "key_quotes")
      + ErrorIf(mainClaims, "main_claims") + ErrorIf(mentionsInjury, "mentions_injury");
    if errors != [] then Rejected(errors)
    else
      Accepted(MotifCoding(
        trainingType.value, recoveryMethods.value, equipmentMentioned.value, performanceMetrics.value,
        nutritionFocus.value, supplementsMentioned.value, dietType, mealTimingDiscussed.value,
        citesResearch.value, expertFeatured.value, studiesMentioned.value, primaryTopic.value,
        targetAudience.value, actionableAdvice.value, productPromotion.value, contentQuality.value,
        keyQuotes.value, mainClaims.value, mentionsInjury.value))
  }

  // ---------------------------------------------------------------------
  // Properties
  // ---------------------------------------------------------------------

  /** A payload that gives only the required fields. */
  function RequiredOnly(nutritionFocus: bool, citesResearch: bool, expertFeatured: bool,
                        primaryTopic: string, targetAudience: string, actionableAdvice: bool,
                        productPromotion: bool, contentQuality: string): MotifInput
  {
    MotifInput(Missing, Missing, Missing, Missing, Given(nutritionFocus), Missing, Missing, Missing,
      Given(citesResearch), Given(expertFeatured), Missing, Given(primaryTopic), Given(targetAudience),
      Given(actionableAdvice), Given(productPromotion), Given(contentQuality), Missing, Missing, Missing)
  }

  /**
   * Omitted optional fields take their defaults: every list is empty, the
   * two optional flags are false and the diet type is `None`.
   */
  lemma DefaultsWhenOmitted(nutritionFocus: bool, citesResearch: bool, expertFeatured: bool,
                            primaryTopic: string, targetAudience: string, actionableAdvice: bool,
                            productPromotion: bool, contentQuality: string)
    ensures var r := ValidateMotif(RequiredOnly(nutritionFocus, citesResearch, expertFeatured,
                                                primaryTopic, targetAudience, actionableAdvice,
                                                productPromotion, contentQuality));
      && r.Accepted?
      && var c := r.coding;
      && c.trainingType == [] && c.recoveryMethods == [] && c.equipmentMentioned == []
      && c.performanceMetrics == [] && c.supplementsMentioned == [] && c.studiesMentioned == []
      && c.keyQuotes == [] && c.mainClaims == []
      && !c.mealTimingDiscussed && !c.mentionsInjury && c.dietType.None?
      && c.nutritionFocus == nutritionFocus && c.citesResearch == citesResearch
      && c.expertFeatured == expertFeatured && c.primaryTopic == primaryTopic
      && c.targetAudience == targetAudience && c.actionableAdvice == actionableAdvice
      && c.productPromotion == productPromotion && c.contentQuality == contentQuality
  {
  }

  /** The eight fields without a default: omitting any of them rejects the payload. */
  lemma RequiredFieldsMissing(p: MotifInput)
    ensures p.nutritionFocus.Missing? ==> ValidateMotif(p).Rejected? && "nutrition_focus" in ValidateMotif(p).fields
    ensures p.citesResearch.Missing? ==> ValidateMotif(p).Rejected? && "cites_research" in ValidateMotif(p).fields
    ensures p.expertFeatured.Missing? ==> ValidateMotif(p).Rejected? && "expert_featured" in ValidateMotif(p).fields
    ensures p.primaryTopic.Missing? ==> ValidateMotif(p).Rejected? && "primary_topic" in ValidateMotif(p).fields
    ensures p.targetAudience.Missing? ==> ValidateMotif(p).Rejected? && "target_audience" in ValidateMotif(p).fields
    ensures p.actionableAdvice.Missing? ==> ValidateMotif(p).Rejected? && "actionable_advice" in ValidateMotif(p).fields
    ensures p.productPromotion.Missing? ==> ValidateMotif(p).Rejected? && "product_promotion" in ValidateMotif(p).fields
    ensures p.contentQuality.Missing? ==> ValidateMotif(p).Rejected? && "content_quality" in ValidateMotif(p).fields
  {
  }

  /** The payload that gives every field of a record. */
  function InputOf(c: MotifCoding): MotifInput
  {
    MotifInput(Given(c.trainingType), Given(c.recoveryMethods), Given(c.equipmentMentioned),
      Given(c.performanceMetrics), Given(c.nutritionFocus), Given(c.supplementsMentioned),
      if c.dietType.Some? then Given(c.dietType.value) else Null,
      Given(c.mealTimingDiscussed), Given(c.citesResearch), Given(c.expertFeatured),
      Given(c.studiesMentioned), Given(c.primaryTopic), Given(c.targetAudience),
      Given(c.actionableAdvice), Given(c.productPromotion), Given(c.contentQuality),
      Given(QuoteInputsOf(c.keyQuotes)),
      Given(c.mainClaims), Given(c.mentionsInjury))
  }

  /** Quotes written out with both strings given. */
  function QuoteInputsOf(qs: seq<Quote>): (r: seq<QuoteInput>)
    ensures |r| == |qs|
    ensures forall i :: 0 <= i < |qs| ==> r[i] == QuoteInput(Given(qs[i].text), Given(qs[i].context))
  {
    seq(|qs|, i requires 0 <= i < |qs| => QuoteInput(Given(qs[i].text), Given(qs[i].context)))
  }

  /** Quotes given in full come back as themselves. */
  lemma QuotesRoundTrip(qs: seq<Quote>)
    requires |qs| <= MaxKeyQuotes
    ensures QuotesField(Given(QuoteInputsOf(qs))) == Some(qs)
  {
    var ins := QuoteInputsOf(qs);
    assert forall i :: 0 <= i < |ins| ==> QuoteOf(ins[i]) == Some(qs[i]);
    var r := QuotesOf(ins);
    assert forall i :: 0 <= i < |qs| ==> r[i] == qs[i];
    assert r == qs;
  }

  /** A record written out in full validates back to itself exactly when it keeps the bounds. */
  lemma ValidateInputOf(c: MotifCoding)
    ensures ValidateMotif(InputOf(c)).Accepted? <==> Valid(c)
    ensures Valid(c) ==> ValidateMotif(InputOf(c)) == Accepted(c)
  {
    if |c.keyQuotes| <= MaxKeyQuotes {
      QuotesRoundTrip(c.keyQuotes);
    }
  }

  /** The 200-character limit on a quote is not checked: a quote of any length is accepted. */
  lemma QuoteLengthUnchecked(text: string, context: string)
    ensures QuoteOf(QuoteInput(Given(text), Given(context))) == Some(Quote(text, context))
  {
  }

  // ---------------------------------------------------------------------
  // The schema's example payload
  // ---------------------------------------------------------------------

  const Example: MotifCoding := MotifCoding(
    ["strength", "HIIT"],
    ["ice bath", "massage"],
    ["barbell", "resistance bands"],
    ["1RM", "body fat percentage"],
    true,
    ["protein", "creatine"],
    None,
    true,
    true,
    true,
    ["Stanford sleep study"],
    "training",
    "intermediate",
    true,
    false,
    "high",
    [Quote("Progressive overload is the key to muscle growth", "Main training principle discussed")],
    ["Consistency beats intensity", "Recovery is crucial"],
    false)

  /** The example keeps every list bound and validates to itself. */
  lemma ExampleIsValid()
    ensures Valid(Example)
    ensures ValidateMotif(InputOf(Example)) == Accepted(Example)
  {
    ValidateInputOf(Example);
  }
}
