/** The client-side emotion detector (`EmotionDetector`): a weighted sampler
    over the ten labels whose weights are nudged by voice features and speech
    hints, a clamped confidence score, a per-instance baseline of past
    results, a static insight table, and a mergeable configuration.
    Every `Math.random()` draw the code makes is a parameter here. */
module Detection {
  import opened EmotionTypes
  import opened SeqUtil

  // ---------------------------------------------------------------------
  // Configuration

  datatype DetectionModel = Basic | Advanced | Custom

  /** `EmotionDetectionConfig`. */
  datatype Config = Config(
    sensitivity: real,
    language: string,
    model: DetectionModel,
    contextAware: bool,
    baselineAdjustment: bool)

  /** The constructor's default configuration. */
  const DefaultConfig: Config := Config(0.7, "en", Advanced, true, true)

  /** `Partial<EmotionDetectionConfig>`: `None` is an absent property. */
  datatype ConfigPatch = ConfigPatch(
    sensitivity: Option<real>,
    language: Option<string>,
    model: Option<DetectionModel>,
    contextAware: Option<bool>,
    baselineAdjustment: Option<bool>)

  const NoChanges: ConfigPatch := ConfigPatch(None, None, None, None, None)

  function Override<T>(base: T, o: Option<T>): T
  {
    match o
    case Some(v) => v
    case None => base
  }

  /** `{ ...config, ...patch }`: every property the patch supplies wins,
      every other property keeps its current value. */
  function Merge(c: Config, p: ConfigPatch): (r: Config)
    ensures p.sensitivity.Some? ==> r.sensitivity == p.sensitivity.value
    ensures p.sensitivity.None? ==> r.sensitivity == c.sensitivity
    ensures p.language.Some? ==> r.language == p.language.value
    ensures p.language.None? ==> r.language == c.language
    ensures p.model.Some? ==> r.model == p.model.value
    ensures p.model.None? ==> r.model == c.model
    ensures p.contextAware.Some? ==> r.contextAware == p.contextAware.value
    ensures p.contextAware.None? ==> r.contextAware == c.contextAware
    ensures p.baselineAdjustment.Some? ==> r.baselineAdjustment == p.baselineAdjustment.value
    ensures p.baselineAdjustment.None? ==> r.baselineAdjustment == c.baselineAdjustment
  {
    Config(
      Override(c.sensitivity, p.sensitivity),
      Override(c.language, p.language),
      Override(c.model, p.model),
      Override(c.contextAware, p.contextAware),
      Override(c.baselineAdjustment, p.baselineAdjustment))
  }

  /** Spreading one partial over another: the later one's properties win. */
  function Then(p: ConfigPatch, q: ConfigPatch): ConfigPatch
  {
    ConfigPatch(
      if q.sensitivity.Some? then q.sensitivity else p.sensitivity,
      if q.language.Some? then q.language else p.language,
      if q.model.Some? then q.model else p.model,
      if q.contextAware.Some? then q.contextAware else p.contextAware,
      if q.baselineAdjustment.Some? then q.baselineAdjustment else p.baselineAdjustment)
  }

  /** An empty patch changes nothing, applying a patch twice is the same as
      once, and two successive merges are one merge of the combined patch. */
  lemma MergeLaws(c: Config, p: ConfigPatch, q: ConfigPatch)
    ensures Merge(c, NoChanges) == c
    ensures Merge(Merge(c, p), p) == Merge(c, p)
    ensures Merge(Merge(c, p), q) == Merge(c, Then(p, q))
  {
  }

  // ---------------------------------------------------------------------
  // Simulated feature extraction (each draw of `Math.random()` is a parameter)

  datatype VoiceFeatures = VoiceFeatures(
    pitch: real, tempo: real, volume: real, clarity: real, rhythm: real, energy: real)

  datatype SpeakerCount = Single | Multiple

  datatype SpeechHints = SpeechHints(
    positiveWords: int, negativeWords: int, questionMarks: int,
    exclamationMarks: int, fillerWords: int)

  /** `analyzeVoiceCharacteristics`: six draws mapped into the documented
      ranges (pitch 80-160 Hz, tempo 90-150 words/min, and so on). */
  function AnalyzeVoiceCharacteristics(d0: real, d1: real, d2: real, d3: real, d4: real, d5: real): (f: VoiceFeatures)
    ensures UnitDraw(d0) ==> 80.0 <= f.pitch < 160.0
    ensures UnitDraw(d1) ==> 90.0 <= f.tempo < 150.0
    ensures UnitDraw(d2) ==> 0.4 <= f.volume < 1.0
    ensures UnitDraw(d3) ==> 0.55 <= f.clarity < 0.85
    ensures UnitDraw(d4) ==> 0.25 <= f.rhythm < 0.75
    ensures UnitDraw(d5) ==> 0.25 <= f.energy < 0.75
  {
    VoiceFeatures(
      120.0 + (d0 - 0.5) * 80.0,
      120.0 + (d1 - 0.5) * 60.0,
      0.6 + (d2 - 0.5) * 0.4,
      0.7 + (d3 - 0.5) * 0.3,
      0.5 + (d4 - 0.5) * 0.5,
      0.5 + (d5 - 0.5) * 0.5)
  }

  /** `detectSpeakerCount`: three variation draws; any of them above 0.7
      means several speakers. */
  function DetectSpeakerCount(pitchVariation: real, tempoVariation: real, volumeVariation: real): (s: SpeakerCount)
    ensures s == Single <==> pitchVariation <= 0.7 && tempoVariation <= 0.7 && volumeVariation <= 0.7
  {
    if pitchVariation > 0.7 || tempoVariation > 0.7 || volumeVariation > 0.7 then Multiple else Single
  }

  /** `analyzeSpeechContent`: five draws turned into small word counts. */
  function AnalyzeSpeechContent(d0: real, d1: real, d2: real, d3: real, d4: real): (h: SpeechHints)
    ensures UnitDraw(d0) ==> 0 <= h.positiveWords <= 4
    ensures UnitDraw(d1) ==> 0 <= h.negativeWords <= 2
    ensures UnitDraw(d2) ==> 0 <= h.questionMarks <= 2
    ensures UnitDraw(d3) ==> 0 <= h.exclamationMarks <= 1
    ensures UnitDraw(d4) ==> 0 <= h.fillerWords <= 3
  {
    SpeechHints(FloorScaled(d0, 5), FloorScaled(d1, 3), FloorScaled(d2, 3), FloorScaled(d3, 2), FloorScaled(d4, 4))
  }

  // ---------------------------------------------------------------------
  // The weight table

  /** The key order of the weight record, which is the order the sampler
      walks. */
  const WeightOrder: seq<Emotion> :=
    [Neutral, Calm, Happy, Excited, Sad, Anxious, Angry, Surprised, Disgusted, Fearful]

  /** Position of a label in the weight record. */
  function Slot(e: Emotion): (i: nat)
    ensures i < 10 && WeightOrder[i] == e
  {
    match e
    case Neutral => 0
    case Calm => 1
    case Happy => 2
    case Excited => 3
    case Sad => 4
    case Anxious => 5
    case Angry => 6
    case Surprised => 7
    case Disgusted => 8
    case Fearful => 9
  }

  lemma SlotOfOrder(i: nat)
    requires i < 10
    ensures Slot(WeightOrder[i]) == i
  {
  }

  /** The base weights, in `WeightOrder`. */
  const BaseWeights: seq<real> := [0.35, 0.25, 0.20, 0.08, 0.05, 0.04, 0.03, 0.01, 0.005, 0.005]

  /** The base table does not sum to 1: it sums to 1.02 (normalisation
      later absorbs the difference). */
  lemma BaseWeightsSum()
    ensures Sum(BaseWeights) == 1.02
  {
    var w := BaseWeights;
    SumSnoc([], 0.35);
    assert w[..1] == [] + [0.35];
    SumSnoc(w[..1], 0.25);
    assert w[..2] == w[..1] + [0.25];
    SumSnoc(w[..2], 0.20);
    assert w[..3] == w[..2] + [0.20];
    SumSnoc(w[..3], 0.08);
    assert w[..4] == w[..3] + [0.08];
    SumSnoc(w[..4], 0.05);
    assert w[..5] == w[..4] + [0.05];
    SumSnoc(w[..5], 0.04);
    assert w[..6] == w[..5] + [0.04];
    SumSnoc(w[..6], 0.03);
    assert w[..7] == w[..6] + [0.03];
    SumSnoc(w[..7], 0.01);
    assert w[..8] == w[..7] + [0.01];
    SumSnoc(w[..8], 0.005);
    assert w[..9] == w[..8] + [0.005];
    SumSnoc(w[..9], 0.005);
    assert w == w[..9] + [0.005];
  }

  function When(c: bool, x: real): real
  {
    if c then x else 0.0
  }

  /** What the pitch, tempo and volume rules add to one label. Each rule is
      an if/else-if on one feature, and its two sides are disjoint ranges. */
  function VoiceBoost(e: Emotion, f: VoiceFeatures): real
  {
    match e
    case Neutral => When(f.tempo < 100.0, 0.02)
    case Calm => When(f.pitch < 100.0, 0.05) + When(f.tempo < 100.0, 0.04) + When(f.volume < 0.5, 0.03)
    case Happy => When(f.pitch > 140.0, 0.03)
    case Excited => When(f.pitch > 140.0, 0.05) + When(f.tempo > 130.0, 0.04) + When(f.volume > 0.8, 0.03)
    case Sad => When(f.pitch < 100.0, 0.02) + When(f.volume < 0.5, 0.02)
    case Anxious => When(f.tempo > 130.0, 0.02)
    case Angry => When(f.volume > 0.8, 0.02)
    case Surprised => 0.0
    case Disgusted => 0.0
    case Fearful => 0.0
  }

  /** What the four speech-hint rules add to one label. */
  function HintBoost(e: Emotion, h: SpeechHints): real
  {
    match e
    case Neutral => When(h.questionMarks > 1, 0.02)
    case Happy => When(h.positiveWords > 2, 0.08) + When(h.exclamationMarks > 0, 0.03)
    case Excited => When(h.positiveWords > 2, 0.04) + When(h.exclamationMarks > 0, 0.05)
    case Sad => When(h.negativeWords > 1, 0.06)
    case Anxious => When(h.negativeWords > 1, 0.03) + When(h.questionMarks > 1, 0.04)
    case _ => 0.0
  }

  /** What several speakers add to one label. */
  function SpeakerBoost(e: Emotion, s: SpeakerCount): real
  {
    match e
    case Neutral => When(s == Multiple, 0.02)
    case Happy => When(s == Multiple, 0.02)
    case Excited => When(s == Multiple, 0.03)
    case _ => 0.0
  }

  /** What a short (under 5 s) or long (over 20 s) recording adds to one label. */
  function DurationBoost(e: Emotion, duration: real): real
  {
    match e
    case Neutral => When(duration < 5.0, 0.03)
    case Happy => When(duration > 20.0, 0.02)
    case Calm => When(duration > 20.0, 0.02)
    case _ => 0.0
  }

  /** The total amount the threshold rules add to one label. */
  function Boost(e: Emotion, f: VoiceFeatures, s: SpeakerCount, h: SpeechHints, duration: real): real
  {
    VoiceBoost(e, f) + HintBoost(e, h) + SpeakerBoost(e, s) + DurationBoost(e, duration)
  }

  /** Every adjustment adds a non-negative amount; the three rare labels are
      never adjusted; angry is adjusted exactly when the volume exceeds 0.8. */
  lemma BoostFacts(f: VoiceFeatures, s: SpeakerCount, h: SpeechHints, duration: real)
    ensures forall e :: Boost(e, f, s, h, duration) >= 0.0
    ensures Boost(Surprised, f, s, h, duration) == 0.0
    ensures Boost(Disgusted, f, s, h, duration) == 0.0
    ensures Boost(Fearful, f, s, h, duration) == 0.0
    ensures Boost(Angry, f, s, h, duration) > 0.0 <==> f.volume > 0.8
  {
  }

  lemma {:induction false} SumPositive(w: seq<real>)
    requires |w| > 0 && forall i :: 0 <= i < |w| ==> w[i] > 0.0
    ensures Sum(w) > 0.0
  {
    if |w| > 1 {
      SumPositive(w[..|w| - 1]);
    }
  }

  /** The weights after every adjustment, in `WeightOrder`; all of them are
      strictly positive, so their total is too. */
  function AdjustedWeights(f: VoiceFeatures, s: SpeakerCount, h: SpeechHints, duration: real): (w: seq<real>)
    ensures |w| == 10
    ensures forall i :: 0 <= i < 10 ==> w[i] >= BaseWeights[i] > 0.0
    ensures Sum(w) > 0.0
  {
    var w := seq(10, i requires 0 <= i < 10 => BaseWeights[i] + Boost(WeightOrder[i], f, s, h, duration));
    BoostFacts(f, s, h, duration);
    SumPositive(w);
    w
  }

  /** Each weight divided by a common divisor. */
  function Scaled(w: seq<real>, t: real): (v: seq<real>)
    requires t != 0.0
    ensures |v| == |w| && forall i :: 0 <= i < |w| ==> v[i] == w[i] / t
  {
    seq(|w|, i requires 0 <= i < |w| => w[i] / t)
  }

  lemma {:induction false} SumScaled(w: seq<real>, t: real)
    requires t != 0.0
    ensures Sum(Scaled(w, t)) == Sum(w) / t
  {
    if |w| > 0 {
      var n := |w|;
      SumScaled(w[..n - 1], t);
      assert Scaled(w, t)[..n - 1] == Scaled(w[..n - 1], t);
    }
  }

  /** The weights divided by their total. */
  function Normalized(w: seq<real>): (v: seq<real>)
    requires Sum(w) != 0.0
    ensures |v| == |w|
  {
    Scaled(w, Sum(w))
  }

  /** After normalisation the weights are strictly positive and sum to 1,
      whichever adjustment branches were taken. */
  lemma NormalizedWeightsDistribution(f: VoiceFeatures, s: SpeakerCount, h: SpeechHints, duration: real)
    ensures var v := Normalized(AdjustedWeights(f, s, h, duration));
            Sum(v) == 1.0 && forall i :: 0 <= i < 10 ==> v[i] > 0.0
  {
    var w := AdjustedWeights(f, s, h, duration);
    SumScaled(w, Sum(w));
  }

  /** `getContextualEmotionWeights` (defined, never called): a second base
      table in `WeightOrder` with a small morning or evening nudge. */
  function ContextualEmotionWeights(hour: int, dayOfWeek: int): (w: seq<real>)
    ensures |w| == 10
    ensures forall i :: 0 <= i < 10 && i != Slot(Happy) && i != Slot(Calm) ==>
              w[i] == [0.45, 0.20, 0.15, 0.06, 0.05, 0.04, 0.03, 0.01, 0.005, 0.005][i]
    ensures w[Slot(Happy)] == (if 7 <= hour <= 10 then 0.16 else 0.15)
    ensures w[Slot(Calm)] == (if 19 <= hour <= 21 then 0.21 else 0.20)
  {
    var happy := 0.15 + When(7 <= hour <= 10, 0.01);
    var calm := 0.20 + When(!(7 <= hour <= 10) && 19 <= hour <= 21, 0.01);
    [0.45, calm, happy, 0.06, 0.05, 0.04, 0.03, 0.01, 0.005, 0.005]
  }

  // ---------------------------------------------------------------------
  // The cumulative walk

  /** Running total of the first `k + 1` weights. */
  function Cum(w: seq<real>, k: nat): real
    requires k < |w|
  {
    Sum(w[..k + 1])
  }

  /** The first position, from `k` on, whose running total reaches `target`
      (`|w|` if none does). */
  function FirstReaching(w: seq<real>, target: real, k: nat): (i: nat)
    requires k <= |w|
    ensures k <= i <= |w|
    ensures i < |w| ==> target <= Cum(w, i)
    ensures forall j :: k <= j < i ==> target > Cum(w, j)
    decreases |w| - k
  {
    if k == |w| then k
    else if target <= Cum(w, k) then k
    else FirstReaching(w, target, k + 1)
  }

  /** The draw scaled to the total weight: the point the walk looks for. */
  function Target(w: seq<real>, r: real): real
  {
    r * Sum(w)
  }

  /** For non-negative weights and a draw in [0, 1] the scaled draw lies
      between 0 and the total, and grows with the draw. */
  lemma TargetBounds(w: seq<real>, r1: real, r2: real)
    requires NonNegative(w) && 0.0 <= r1 <= r2 <= 1.0
    ensures 0.0 <= Target(w, r1) <= Target(w, r2) <= Sum(w)
  {
    SumNonNegative(w);
    ScaledBetween(w, r1, r2);
  }

  lemma ScaledBetween(w: seq<real>, r1: real, r2: real)
    requires 0.0 <= r1 <= r2 <= 1.0 && 0.0 <= Sum(w)
    ensures 0.0 <= Target(w, r1) <= Target(w, r2) <= Sum(w)
  {
  }

  lemma SumNonNegative(w: seq<real>)
    requires NonNegative(w)
    ensures Sum(w) >= 0.0
  {
    assert w[..0] == [];
    assert w[..|w|] == w;
    PrefixSumMonotone(w, 0, |w|);
  }

  /** The label `selectWeightedEmotion` returns for weights `w` (in
      `WeightOrder`) and draw `r`: the one at the first position whose
      running total reaches `r` times the total, or neutral if none does;
      for non-negative weights and a draw in [0, 1] some position is always
      reached. */
  function WeightedPick(w: seq<real>, r: real): (e: Emotion)
    requires |w| == 10
    ensures var i := FirstReaching(w, Target(w, r), 0);
            if i < 10 then Slot(e) == i else e == Neutral
    ensures NonNegative(w) && 0.0 <= r <= 1.0 ==> Slot(e) == FirstReaching(w, Target(w, r), 0)
  {
    FallbackUnreachable(w, r);
    var i := FirstReaching(w, Target(w, r), 0);
    if i < 10 then
      SlotOfOrder(i);
      WeightOrder[i]
    else
      Neutral
  }

  /** With non-negative weights and a draw in [0, 1] the last running total
      is the whole total, so some label is always reached and the neutral
      fallback is never taken. */
  lemma FallbackUnreachable(w: seq<real>, r: real)
    requires |w| == 10
    ensures NonNegative(w) && 0.0 <= r <= 1.0 ==> FirstReaching(w, Target(w, r), 0) < 10
  {
    if NonNegative(w) && 0.0 <= r <= 1.0 {
      TargetBounds(w, r, r);
      assert w[..10] == w;
      assert Cum(w, 9) == Sum(w);
    }
  }

  /** A zero draw picks the first label, neutral. */
  lemma ZeroDrawPicksNeutral(w: seq<real>)
    requires |w| == 10 && NonNegative(w)
    ensures WeightedPick(w, 0.0) == Neutral
  {
    SumSnoc([], w[0]);
    assert w[..1] == [] + [w[0]];
    assert Cum(w, 0) == w[0];
    assert Target(w, 0.0) == 0.0;
  }

  /** A larger target is reached no earlier. */
  lemma {:induction false} FirstReachingMonotone(w: seq<real>, t1: real, t2: real, k: nat)
    requires k <= |w| && t1 <= t2
    ensures FirstReaching(w, t1, k) <= FirstReaching(w, t2, k)
    decreases |w| - k
  {
    if k < |w| && t2 > Cum(w, k) {
      FirstReachingMonotone(w, t1, t2, k + 1);
    }
  }

  /** A larger draw never picks a label that comes earlier in the walk. */
  lemma PickMonotone(w: seq<real>, r1: real, r2: real)
    requires |w| == 10 && NonNegative(w) && 0.0 <= r1 <= r2 <= 1.0
    ensures Slot(WeightedPick(w, r1)) <= Slot(WeightedPick(w, r2))
  {
    TargetBounds(w, r1, r2);
    FirstReachingMonotone(w, Target(w, r1), Target(w, r2), 0);
  }

  /** `selectWeightedEmotion`: accumulate running totals in key order, then
      return the first label whose running total reaches the scaled draw. */
  method SelectWeightedEmotion(weights: seq<real>, randomFactor: real) returns (e: Emotion)
    requires |weights| == 10
    ensures e == WeightedPick(weights, randomFactor)
  {
    var cumulativeWeights: seq<(Emotion, real)> := [];
    var cumulative := 0.0;
    for i := 0 to 10
      invariant |cumulativeWeights| == i
      invariant cumulative == Sum(weights[..i])
      invariant forall j :: 0 <= j < i ==> cumulativeWeights[j] == (WeightOrder[j], Cum(weights, j))
    {
      cumulative := cumulative + weights[i];
      assert weights[..i + 1][..i] == weights[..i];
      cumulativeWeights := cumulativeWeights + [(WeightOrder[i], cumulative)];
    }
    assert weights[..10] == weights;
    var target := randomFactor * cumulative;
    assert target == Target(weights, randomFactor);
    for k := 0 to 10
      invariant forall j :: 0 <= j < k ==> target > Cum(weights, j)
    {
      if target <= cumulativeWeights[k].1 {
        return cumulativeWeights[k].0;
      }
    }
    return Neutral;
  }

  /** Divides every weight by the total, in place. */
  method NormalizeInPlace(weights: array<real>)
    requires Sum(weights[..]) != 0.0
    modifies weights
    ensures weights[..] == Normalized(old(weights[..]))
  {
    var totalWeight := Sum(weights[..]);
    ghost var before := weights[..];
    for i := 0 to weights.Length
      invariant forall j :: 0 <= j < i ==> weights[j] == before[j] / totalWeight
      invariant forall j :: i <= j < weights.Length ==> weights[j] == before[j]
    {
      weights[i] := weights[i] / totalWeight;
    }
  }

  /** The pitch, tempo and volume rules, applied to the weight record in place. */
  method AdjustForVoice(weights: array<real>, f: VoiceFeatures)
    requires weights.Length == 10
    modifies weights
    ensures forall i :: 0 <= i < 10 ==> weights[i] == old(weights[i]) + VoiceBoost(WeightOrder[i], f)
  {
    if f.pitch > 140.0 {
      weights[Slot(Excited)] := weights[Slot(Excited)] + 0.05;
      weights[Slot(Happy)] := weights[Slot(Happy)] + 0.03;
    } else if f.pitch < 100.0 {
      weights[Slot(Calm)] := weights[Slot(Calm)] + 0.05;
      weights[Slot(Sad)] := weights[Slot(Sad)] + 0.02;
    }

    if f.tempo > 130.0 {
      weights[Slot(Excited)] := weights[Slot(Excited)] + 0.04;
      weights[Slot(Anxious)] := weights[Slot(Anxious)] + 0.02;
    } else if f.tempo < 100.0 {
      weights[Slot(Calm)] := weights[Slot(Calm)] + 0.04;
      weights[Slot(Neutral)] := weights[Slot(Neutral)] + 0.02;
    }

    if f.volume > 0.8 {
      weights[Slot(Excited)] := weights[Slot(Excited)] + 0.03;
      weights[Slot(Angry)] := weights[Slot(Angry)] + 0.02;
    } else if f.volume < 0.5 {
      weights[Slot(Calm)] := weights[Slot(Calm)] + 0.03;
      weights[Slot(Sad)] := weights[Slot(Sad)] + 0.02;
    }
  }

  /** The speech-hint rules, applied in place. */
  method AdjustForSpeech(weights: array<real>, hints: SpeechHints)
    requires weights.Length == 10
    modifies weights
    ensures forall i :: 0 <= i < 10 ==> weights[i] == old(weights[i]) + HintBoost(WeightOrder[i], hints)
  {
    if hints.positiveWords > 2 {
      weights[Slot(Happy)] := weights[Slot(Happy)] + 0.08;
      weights[Slot(Excited)] := weights[Slot(Excited)] + 0.04;
    }

    if hints.negativeWords > 1 {
      weights[Slot(Sad)] := weights[Slot(Sad)] + 0.06;
      weights[Slot(Anxious)] := weights[Slot(Anxious)] + 0.03;
    }

    if hints.exclamationMarks > 0 {
      weights[Slot(Excited)] := weights[Slot(Excited)] + 0.05;
      weights[Slot(Happy)] := weights[Slot(Happy)] + 0.03;
    }

    if hints.questionMarks > 1 {
      weights[Slot(Anxious)] := weights[Slot(Anxious)] + 0.04;
      weights[Slot(Neutral)] := weights[Slot(Neutral)] + 0.02;
    }
  }

  /** The speaker-count rule, applied in place. */
  method AdjustForSpeakers(weights: array<real>, speakers: SpeakerCount)
    requires weights.Length == 10
    modifies weights
    ensures forall i :: 0 <= i < 10 ==> weights[i] == old(weights[i]) + SpeakerBoost(WeightOrder[i], speakers)
  {
    if speakers == Multiple {
      weights[Slot(Excited)] := weights[Slot(Excited)] + 0.03;
      weights[Slot(Happy)] := weights[Slot(Happy)] + 0.02;
      weights[Slot(Neutral)] := weights[Slot(Neutral)] + 0.02;
    }
  }

  /** The duration rule, an if/else-if, applied in place. */
  method AdjustForDuration(weights: array<real>, duration: real)
    requires weights.Length == 10
    modifies weights
    ensures forall i :: 0 <= i < 10 ==> weights[i] == old(weights[i]) + DurationBoost(WeightOrder[i], duration)
  {
    if duration < 5.0 {
      weights[Slot(Neutral)] := weights[Slot(Neutral)] + 0.03;
    } else if duration > 20.0 {
      weights[Slot(Happy)] := weights[Slot(Happy)] + 0.02;
      weights[Slot(Calm)] := weights[Slot(Calm)] + 0.02;
    }
  }

  /** `intelligentEmotionSelection`: start from the base table, apply each
      threshold rule in turn, normalise in place, then walk with draw `r`. */
  method IntelligentEmotionSelection(f: VoiceFeatures, speakers: SpeakerCount, hints: SpeechHints, duration: real, r: real)
    returns (e: Emotion)
    ensures e == WeightedPick(Normalized(AdjustedWeights(f, speakers, hints, duration)), r)
    ensures 0.0 <= r <= 1.0 ==>
              exists i :: 0 <= i < 10 && e == WeightOrder[i] &&
                          r <= Cum(Normalized(AdjustedWeights(f, speakers, hints, duration)), i)
  {
    var weights := new real[10](i requires 0 <= i < 10 => BaseWeights[i]);
    AdjustForVoice(weights, f);
    AdjustForSpeech(weights, hints);
    AdjustForSpeakers(weights, speakers);
    AdjustForDuration(weights, duration);

    ghost var adjusted := AdjustedWeights(f, speakers, hints, duration);
    assert weights[..] == adjusted;
    NormalizeInPlace(weights);
    e := SelectWeightedEmotion(weights[..], r);

    ghost var v := Normalized(adjusted);
    NormalizedWeightsDistribution(f, speakers, hints, duration);
    if 0.0 <= r <= 1.0 {
      FallbackUnreachable(v, r);
      assert Target(v, r) == r;
    }
  }

  // ---------------------------------------------------------------------
  // Confidence

  /** The duration bands, one if/else-if chain: more than 20 s adds 0.15,
      otherwise more than 10 s adds 0.10, otherwise less than 5 s takes 0.15
      away, and 5 to 10 s changes nothing. */
  function DurationAdjustment(duration: real): (d: real)
    ensures d == 0.15 <==> duration > 20.0
    ensures d == 0.10 <==> 10.0 < duration <= 20.0
    ensures d == 0.0 <==> 5.0 <= duration <= 10.0
    ensures d == -0.15 <==> duration < 5.0
  {
    if duration > 20.0 then 0.15
    else if duration > 10.0 then 0.10
    else if duration < 5.0 then -0.15
    else 0.0
  }

  function Max(a: real, b: real): real { if a >= b then a else b }
  function Min(a: real, b: real): real { if a <= b then a else b }

  /** `calculateConfidence`, given the configuration and the number of
      recordings the baseline held before this one, and the jitter draw. */
  function CalculateConfidence(config: Config, totalRecordings: nat, duration: real, jitter: real): (c: real)
    ensures 0.4 <= c <= 0.95
  {
    var bonus := if config.baselineAdjustment && totalRecordings > 5 then 0.05 else 0.0;
    var confidence := 0.7 + DurationAdjustment(duration) + bonus + (jitter - 0.5) * 0.1;
    Max(0.4, Min(0.95, confidence))
  }

  /** A long recording with the baseline bonus scores at least 0.85. */
  lemma ConfidenceLongRecording(config: Config, totalRecordings: nat, duration: real, jitter: real)
    requires duration > 20.0 && config.baselineAdjustment && totalRecordings > 5 && UnitDraw(jitter)
    ensures 0.85 <= CalculateConfidence(config, totalRecordings, duration, jitter) <= 0.95
  {
  }

  /** A recording under 5 s without the bonus scores in [0.5, 0.6). */
  lemma ConfidenceShortRecording(config: Config, totalRecordings: nat, duration: real, jitter: real)
    requires duration < 5.0 && !(config.baselineAdjustment && totalRecordings > 5) && UnitDraw(jitter)
    ensures 0.5 <= CalculateConfidence(config, totalRecordings, duration, jitter) < 0.6
  {
  }

  /** The bonus needs both the setting and more than five earlier
      recordings; a longer recording never scores lower. */
  lemma ConfidenceMonotone(config: Config, n1: nat, n2: nat, d1: real, d2: real, jitter: real)
    requires n1 <= n2 && d1 <= d2
    ensures CalculateConfidence(config, n1, d1, jitter) <= CalculateConfidence(config, n2, d2, jitter)
    ensures n1 <= 5 ==> CalculateConfidence(config, n1, d1, jitter)
                        == CalculateConfidence(config.(baselineAdjustment := false), n2, d1, jitter)
  {
  }

  // ---------------------------------------------------------------------
  // Insights

  /** One entry of the insight table. */
  datatype Insight = Insight(description: string, recommendations: seq<string>, severity: Severity)

  const HappyInsight: Insight := Insight("You sound cheerful and positive!",
    ["Keep up the positive energy",
     "Share your good mood with others",
     "Consider doing something creative"], Low)

  const SadInsight: Insight := Insight("You sound a bit down or melancholic.",
    ["Talk to a friend or family member",
     "Try doing something you enjoy",
     "Consider light exercise or a walk",
     "Practice self-care activities"], Medium)

  const AngryInsight: Insight := Insight("You sound frustrated or upset.",
    ["Take deep breaths and count to 10",
     "Step away from the situation temporarily",
     "Express your feelings in a healthy way",
     "Consider talking to someone about what's bothering you"], Medium)

  const CalmInsight: Insight := Insight("You sound peaceful and relaxed.",
    ["Maintain this balanced state",
     "Use this calm energy for focused work",
     "Consider meditation or mindfulness"], Low)

  const ExcitedInsight: Insight := Insight("You sound enthusiastic and energetic!",
    ["Channel this energy into productive activities",
     "Share your excitement with others",
     "Consider physical activity to release energy"], Low)

  const AnxiousInsight: Insight := Insight("You sound worried or nervous.",
    ["Practice deep breathing exercises",
     "Try progressive muscle relaxation",
     "Focus on the present moment",
     "Consider talking to someone about your concerns"], High)

  const NeutralInsight: Insight := Insight("You sound balanced and neutral.",
    ["This is a good baseline state",
     "Consider what might help you feel more engaged",
     "Use this time for reflection"], Low)

  const SurprisedInsight: Insight := Insight("You sound surprised or astonished.",
    ["Take a moment to process what happened",
     "Share your surprise with others if appropriate",
     "Use this energy for positive exploration"], Low)

  const DisgustedInsight: Insight := Insight("You sound disgusted or repulsed.",
    ["Identify what's causing this feeling",
     "Remove yourself from the situation if possible",
     "Practice self-compassion"], Medium)

  const FearfulInsight: Insight := Insight("You sound afraid or frightened.",
    ["Take deep breaths to calm your nervous system",
     "Identify if the fear is based on real or perceived threats",
     "Talk to someone you trust about your fears"], High)

  /** The insight table: defined for all ten labels, each with at least one
      recommendation; severity is high for anxious and fearful, medium for
      sad, angry and disgusted, low for the rest. */
  function InsightOf(e: Emotion): (r: Insight)
    ensures |r.description| > 0 && |r.recommendations| > 0
    ensures r.severity == High <==> e == Anxious || e == Fearful
    ensures r.severity == Medium <==> e == Sad || e == Angry || e == Disgusted
  {
    match e
    case Happy => HappyInsight
    case Sad => SadInsight
    case Angry => AngryInsight
    case Calm => CalmInsight
    case Excited => ExcitedInsight
    case Anxious => AnxiousInsight
    case Neutral => NeutralInsight
    case Surprised => SurprisedInsight
    case Disgusted => DisgustedInsight
    case Fearful => FearfulInsight
  }

  /** `getEmotionInsights`: look the key up in the table, falling back to
      the neutral entry when the lookup is falsy. A label's literal finds its
      entry; a name every object inherits finds that inherited member, which
      is truthy and not an insight (`None`); any other key gets the neutral
      entry. The confidence argument is not used. */
  function GetEmotionInsights(key: string, confidence: real): (r: Option<Insight>)
    ensures forall e :: key == Name(e) ==> r == Some(InsightOf(e))
    ensures key in InheritedKeys ==> r == None
    ensures (forall e :: key != Name(e)) && key !in InheritedKeys ==> r == Some(InsightOf(Neutral))
  {
    if key in InheritedKeys then
      assert forall e :: key != Name(e) by {
        forall e ensures key != Name(e) { NamesNotInherited(e); }
      }
      None
    else
      match Parse(key)
      case Some(e) =>
        assert forall e' :: key == Name(e') ==> e' == e by {
          forall e' | key == Name(e') ensures e' == e { ParseName(e'); }
        }
        Some(InsightOf(e))
      case None =>
        assert forall e' :: key != Name(e') by {
          forall e' ensures key != Name(e') { ParseName(e'); }
        }
        Some(InsightOf(Neutral))
  }

  // ---------------------------------------------------------------------
  // The detector object

  /** `EmotionDetector`: the configuration plus the user baseline (two
      counters and the last ten labels). `recorded` is the ghost list of
      every label the baseline has taken in. */
  class EmotionDetector {
    var config: Config
    var neutralCount: nat
    var totalRecordings: nat
    var lastEmotions: seq<Emotion>
    ghost var recorded: seq<Emotion>

    ghost predicate Valid()
      reads this
    {
      && totalRecordings == |recorded|
      && neutralCount == Occurrences(recorded, Neutral)
      && lastEmotions == LastN(recorded, 10)
    }

    /** The baseline never counts more neutral results than results, and
        keeps at most ten labels. */
    lemma BaselineBounds()
      requires Valid()
      ensures neutralCount <= totalRecordings
      ensures |lastEmotions| <= 10 && |lastEmotions| <= totalRecordings
    {
    }

    constructor (config: Config)
      ensures Valid() && this.config == config && recorded == []
      ensures neutralCount == 0 && totalRecordings == 0 && lastEmotions == []
    {
      this.config := config;
      neutralCount := 0;
      totalRecordings := 0;
      lastEmotions := [];
      recorded := [];
    }

    /** The constructor called without an argument: the default
        configuration and an empty baseline. */
    constructor Default()
      ensures Valid() && config == DefaultConfig && recorded == []
      ensures config.sensitivity == 0.7 && config.model == Advanced
      ensures config.contextAware && config.baselineAdjustment
      ensures neutralCount == 0 && totalRecordings == 0 && lastEmotions == []
    {
      config := DefaultConfig;
      neutralCount := 0;
      totalRecordings := 0;
      lastEmotions := [];
      recorded := [];
    }

    /** `updateUserBaseline`: one more recording, one more neutral iff the
        label is neutral, and the label pushed onto the queue, whose oldest
        entry is shifted out once it holds more than ten. */
    method UpdateUserBaseline(e: Emotion)
      requires Valid()
      modifies this
      ensures Valid() && recorded == old(recorded) + [e] && config == old(config)
      ensures totalRecordings == old(totalRecordings) + 1
      ensures neutralCount == old(neutralCount) + (if e == Neutral then 1 else 0)
      ensures |old(lastEmotions)| < 10 ==> lastEmotions == old(lastEmotions) + [e]
      ensures |old(lastEmotions)| == 10 ==> lastEmotions == old(lastEmotions)[1..] + [e]
    {
      OccurrencesSnoc(recorded, e, Neutral);
      LastNSnoc(recorded, e, 10);
      recorded := recorded + [e];
      totalRecordings := totalRecordings + 1;
      if e == Neutral {
        neutralCount := neutralCount + 1;
      }
      lastEmotions := lastEmotions + [e];
      if |lastEmotions| > 10 {
        lastEmotions := lastEmotions[1..];
      }
    }

    /** `analyzeEmotion` after its simulated delay: select a label, score the
        confidence against the baseline as it was before this recording,
        then update the baseline. */
    method AnalyzeEmotion(duration: real, f: VoiceFeatures, speakers: SpeakerCount, hints: SpeechHints,
                          pick: real, jitter: real, now: int) returns (data: EmotionData)
      requires Valid()
      modifies this
      ensures Valid() && config == old(config)
      ensures recorded == old(recorded) + [data.emotion]
      ensures data.emotion == WeightedPick(Normalized(AdjustedWeights(f, speakers, hints, duration)), pick)
      ensures data.confidence == CalculateConfidence(old(config), old(totalRecordings), duration, jitter)
      ensures data.timestamp == now && data.audioDuration == duration && data.userId == None
    {
      var emotion := IntelligentEmotionSelection(f, speakers, hints, duration, pick);
      var confidence := CalculateConfidence(config, totalRecordings, duration, jitter);
      UpdateUserBaseline(emotion);
      data := EmotionData(emotion, confidence, now, duration, None);
    }

    /** `updateConfig`: shallow merge; the baseline is untouched. */
    method UpdateConfig(patch: ConfigPatch)
      requires Valid()
      modifies this
      ensures Valid() && config == Merge(old(config), patch)
      ensures neutralCount == old(neutralCount) && totalRecordings == old(totalRecordings)
      ensures lastEmotions == old(lastEmotions) && recorded == old(recorded)
    {
      config := Merge(config, patch);
    }

    /** `getConfig`: the configuration as a value; a `Config` is immutable,
        so nothing a caller does with it reaches the detector. */
    method GetConfig() returns (c: Config)
      ensures c == config
    {
      c := config;
    }
  }
}
