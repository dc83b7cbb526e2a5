/** The card that shows one detection result: a per-label style table that
    covers only seven labels, the rounded confidence percentage, and three
    separately written threshold chains for the label text, the text colour
    and the bar colour. */
module Display {
  import opened EmotionTypes
  import Detection

  /** The style entry of a label (the icon component and the emoji are not
      modelled). */
  datatype Style = Style(color: string, bgColor: string, borderColor: string, description: string)

  /** `emotionConfig`: the seven labels it lists; nothing for surprised,
      disgusted and fearful. */
  function StyleOf(e: Emotion): (s: Option<Style>)
    ensures s.None? <==> e == Surprised || e == Disgusted || e == Fearful
  {
    match e
    case Happy => Some(Style("text-emotion-happy", "bg-emotion-happy/10", "border-emotion-happy/20",
                             "You sound cheerful and positive!"))
    case Sad => Some(Style("text-emotion-sad", "bg-emotion-sad/10", "border-emotion-sad/20",
                           "You sound a bit down or melancholic."))
    case Angry => Some(Style("text-emotion-angry", "bg-emotion-angry/10", "border-emotion-angry/20",
                             "You sound frustrated or upset."))
    case Calm => Some(Style("text-emotion-calm", "bg-emotion-calm/10", "border-emotion-calm/20",
                            "You sound peaceful and relaxed."))
    case Excited => Some(Style("text-emotion-excited", "bg-emotion-excited/10", "border-emotion-excited/20",
                               "You sound enthusiastic and energetic!"))
    case Anxious => Some(Style("text-emotion-anxious", "bg-emotion-anxious/10", "border-emotion-anxious/20",
                               "You sound worried or nervous."))
    case Neutral => Some(Style("text-emotion-neutral", "bg-emotion-neutral/10", "border-emotion-neutral/20",
                               "You sound balanced and neutral."))
    case Surprised => None
    case Disgusted => None
    case Fearful => None
  }

  /** Where a label has a style, its description is the one the detector's
      insight table gives for that label. */
  lemma DescriptionsMatchInsights(e: Emotion)
    requires StyleOf(e).Some?
    ensures StyleOf(e).value.description == Detection.InsightOf(e).description
  {
  }

  /** `Math.round(confidence * 100)`: the nearest integer, halves rounded
      up. */
  function ConfidencePercentage(confidence: real): (p: int)
    ensures (p as real) - 0.5 <= confidence * 100.0 < (p as real) + 0.5
  {
    (confidence * 100.0 + 0.5).Floor
  }

  /** Rounding is monotone: a higher confidence never shows a lower
      percentage. */
  lemma PercentageMonotone(c1: real, c2: real)
    requires c1 <= c2
    ensures ConfidencePercentage(c1) <= ConfidencePercentage(c2)
  {
  }

  /** A detector confidence, which lies in [0.4, 0.95], shows as 40 to 95. */
  lemma DetectorPercentageRange(c: real)
    requires 0.4 <= c <= 0.95
    ensures 40 <= ConfidencePercentage(c) <= 95
  {
  }

  /** A recorder confidence, which lies in [0.6, 1.0), shows as 60 to 100. */
  lemma RecorderPercentageRange(c: real)
    requires 0.6 <= c < 1.0
    ensures 60 <= ConfidencePercentage(c) <= 100
  {
  }

  /** The three bands, 0 (low) to 2 (very confident). */
  function Band(percentage: int): (b: nat)
    ensures b <= 2
    ensures b == 2 <==> percentage >= 80
    ensures b == 0 <==> percentage < 60
  {
    if percentage >= 80 then 2 else if percentage >= 60 then 1 else 0
  }

  const Labels: seq<string> := ["Low Confidence", "Confident", "Very Confident"]
  const TextColors: seq<string> := ["text-red-600", "text-yellow-600", "text-green-600"]
  const BarColors: seq<string> := ["bg-red-500", "bg-yellow-500", "bg-green-500"]

  /** `getConfidenceColor`: the text colour of the percentage's band. */
  function ConfidenceColor(percentage: int): (c: string)
    ensures c == TextColors[Band(percentage)]
  {
    if percentage >= 80 then "text-green-600"
    else if percentage >= 60 then "text-yellow-600"
    else "text-red-600"
  }

  /** `getConfidenceLabel`: the label of the percentage's band. */
  function ConfidenceLabel(percentage: int): (l: string)
    ensures l == Labels[Band(percentage)]
  {
    if percentage >= 80 then "Very Confident"
    else if percentage >= 60 then "Confident"
    else "Low Confidence"
  }

  /** The bar colour chosen inline in the card, written as a third chain:
      the bar colour of the percentage's band. */
  function BarColor(percentage: int): (c: string)
    ensures c == BarColors[Band(percentage)]
  {
    if percentage >= 80 then "bg-green-500"
    else if percentage >= 60 then "bg-yellow-500"
    else "bg-red-500"
  }

  /** A higher percentage never falls in a lower band. */
  lemma BandMonotone(p1: int, p2: int)
    requires p1 <= p2
    ensures Band(p1) <= Band(p2)
  {
  }

  /** What the card shows for one result. */
  datatype Card = Card(style: Style, percentage: int, confidenceLabel: string, textColor: string, barColor: string)

  /** Rendering a result: nothing when the label has no style entry, since
      the component reads a field of the missing entry and throws. */
  function Render(d: EmotionData): (r: Option<Card>)
    ensures r.None? <==> d.emotion == Surprised || d.emotion == Disgusted || d.emotion == Fearful
    ensures r.Some? ==> r.value.style == StyleOf(d.emotion).value
                        && r.value.confidenceLabel == Labels[Band(r.value.percentage)]
                        && r.value.textColor == TextColors[Band(r.value.percentage)]
                        && r.value.barColor == BarColors[Band(r.value.percentage)]
                        && (r.value.percentage as real) - 0.5 <= d.confidence * 100.0
                        && d.confidence * 100.0 < (r.value.percentage as real) + 0.5
  {
    match StyleOf(d.emotion)
    case None => None
    case Some(style) =>
      var p := ConfidencePercentage(d.confidence);
      Some(Card(style, p, ConfidenceLabel(p), ConfidenceColor(p), BarColor(p)))
  }

  /** A recorder result whose label has a style is never shown as low
      confidence. */
  lemma RecorderResultNeverLow(d: EmotionData)
    requires 0.6 <= d.confidence < 1.0 && Render(d).Some?
    ensures Render(d).value.confidenceLabel != "Low Confidence"
  {
    RecorderPercentageRange(d.confidence);
  }
}
