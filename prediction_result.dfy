/** The prediction card: what it shows for a reply, the confidence band with its colour and
    icon, and the one interpretation sentence chosen from four confidence tiers. */
module PredictionView {
  import opened Wrappers
  import Backend

  const HighFloor: real := 0.8
  const MediumFloor: real := 0.6
  const ExcellentFloor: real := 0.9

  const DefaultFailureMessage: string := "An error occurred during prediction"

  datatype Level = High | Medium | Low
  datatype Icon = CheckCircle | AlertCircle | XCircle

  /** `getConfidenceLevel` */
  function LevelOf(confidence: real): (level: Level)
    ensures level == High <==> confidence >= HighFloor
    ensures level == Medium <==> MediumFloor <= confidence < HighFloor
    ensures level == Low <==> confidence < MediumFloor
  {
    if confidence >= 0.8 then High
    else if confidence >= 0.6 then Medium
    else Low
  }

  function Colour(level: Level): string
  {
    match level
    case High => "green"
    case Medium => "yellow"
    case Low => "red"
  }

  function LevelLabel(level: Level): string
  {
    match level
    case High => "High"
    case Medium => "Medium"
    case Low => "Low"
  }

  /** `getConfidenceIcon`, a separate if-chain with its own thresholds. */
  function IconOf(confidence: real): Icon
  {
    if confidence >= 0.8 then CheckCircle
    else if confidence >= 0.6 then AlertCircle
    else XCircle
  }

  function IconFor(level: Level): Icon
  {
    match level
    case High => CheckCircle
    case Medium => AlertCircle
    case Low => XCircle
  }

  /** The icon and the level never disagree, and the bands are ordered: a higher confidence
      never gets a lower band. */
  lemma IconAgreesWithLevel(confidence: real)
    ensures IconOf(confidence) == IconFor(LevelOf(confidence))
  {
  }

  function Rank(level: Level): nat
  {
    match level
    case Low => 0
    case Medium => 1
    case High => 2
  }

  lemma LevelMonotone(a: real, b: real)
    requires a <= b
    ensures Rank(LevelOf(a)) <= Rank(LevelOf(b))
  {
  }

  /** `result.confidence || 0`: a missing confidence counts as 0. */
  function EffectiveConfidence(confidence: Option<real>): (c: real)
    ensures confidence.None? ==> c == 0.0
    ensures confidence.Some? ==> c == confidence.value
  {
    if confidence.Some? && confidence.value != 0.0 then confidence.value else 0.0
  }

  /** A reply without a confidence is shown as low. */
  lemma MissingConfidenceIsLow()
    ensures LevelOf(EffectiveConfidence(None)) == Low
  {
  }

  const ExcellentText: string := "Excellent! The model is very confident about this prediction."
  const GreatText: string := "Great! The model is confident about this prediction."
  const GoodText: string := "Good! The model is reasonably confident, but you might want to try again for better accuracy."
  const LowText: string := "The model has low confidence. Consider improving the image quality or hand positioning."

  /** The four `condition && "text"` children of the interpretation paragraph; a false
      condition renders nothing. */
  function Interpretation(c: real): seq<string>
  {
    (if c >= ExcellentFloor then [ExcellentText] else [])
    + (if c >= HighFloor && c < ExcellentFloor then [GreatText] else [])
    + (if c >= MediumFloor && c < HighFloor then [GoodText] else [])
    + (if c < MediumFloor then [LowText] else [])
  }

  /** Exactly one sentence is shown for every confidence, and it agrees with the band:
      "Excellent" and "Great" split the high band at 0.9. */
  lemma ExactlyOneInterpretation(c: real)
    ensures |Interpretation(c)| == 1
    ensures Interpretation(c)[0] in {ExcellentText, GreatText} <==> LevelOf(c) == High
    ensures Interpretation(c)[0] == GoodText <==> LevelOf(c) == Medium
    ensures Interpretation(c)[0] == LowText <==> LevelOf(c) == Low
    ensures Interpretation(c)[0] == ExcellentText <==> c >= ExcellentFloor
  {
  }

  /** What the card shows. */
  datatype Card =
    | Nothing
    | FailureCard(message: string)
    | LetterCard(letter: string, level: Level, icon: Icon, percent: real, sourceLabel: string, interpretation: seq<string>)

  /** `result.dataset || result.language_type || 'Sign Language'` */
  function SourceLabel(r: Backend.Prediction): string
  {
    if r.dataset != "" then r.dataset else if r.languageType != "" then r.languageType else "Sign Language"
  }

  /** `PredictionResult({ result })` */
  function Render(result: Option<Backend.Prediction>): (card: Card)
    ensures result.None? <==> card.Nothing?
    ensures card.FailureCard? <==> result.Some? && !result.value.success
    ensures card.FailureCard? ==>
      card.message == (if result.value.error != "" then result.value.error else DefaultFailureMessage)
    ensures card.LetterCard? ==>
      var c := EffectiveConfidence(result.value.confidence);
      && card.letter == result.value.prediction
      && card.level == LevelOf(c) && card.icon == IconFor(card.level)
      && card.percent == c * 100.0
      && |card.interpretation| == 1
  {
    match result
    case None => Nothing
    case Some(r) =>
      if !r.success then FailureCard(if r.error != "" then r.error else DefaultFailureMessage)
      else
        var confidence := EffectiveConfidence(r.confidence);
        IconAgreesWithLevel(confidence);
        ExactlyOneInterpretation(confidence);
        LetterCard(r.prediction, LevelOf(confidence), IconOf(confidence), confidence * 100.0,
                   SourceLabel(r), Interpretation(confidence))
  }
}
