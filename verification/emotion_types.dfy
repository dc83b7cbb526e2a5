/** The closed vocabulary shared by every part of the application:
    the ten emotion labels, the record a detection produces, the summary
    record the dashboard fills in, and the severity scale of an insight. */
module EmotionTypes {

  datatype Option<T> = None | Some(value: T)

  /** The ten labels of the `EmotionType` union. */
  datatype Emotion =
    | Happy | Sad | Angry | Calm | Excited | Anxious | Neutral
    | Surprised | Disgusted | Fearful

  /** The labels in the order the union declares them; records keyed by
      emotion that list their keys in this order (the dashboard's counts)
      are enumerated in this order. */
  const AllEmotions: seq<Emotion> :=
    [Happy, Sad, Angry, Calm, Excited, Anxious, Neutral, Surprised, Disgusted, Fearful]

  /** Position of a label in `AllEmotions`. */
  function Index(e: Emotion): (i: nat)
    ensures i < |AllEmotions| && AllEmotions[i] == e
  {
    match e
    case Happy => 0
    case Sad => 1
    case Angry => 2
    case Calm => 3
    case Excited => 4
    case Anxious => 5
    case Neutral => 6
    case Surprised => 7
    case Disgusted => 8
    case Fearful => 9
  }

  /** The union is closed: exactly ten labels, each listed once. */
  lemma AllEmotionsClosed()
    ensures |AllEmotions| == 10
    ensures forall e: Emotion :: e in AllEmotions
    ensures forall i, j :: 0 <= i < j < |AllEmotions| ==> AllEmotions[i] != AllEmotions[j]
  {
    forall e: Emotion ensures e in AllEmotions {
      assert AllEmotions[Index(e)] == e;
    }
  }

  /** The string literal of a label. */
  function Name(e: Emotion): string
  {
    match e
    case Happy => "happy"
    case Sad => "sad"
    case Angry => "angry"
    case Calm => "calm"
    case Excited => "excited"
    case Anxious => "anxious"
    case Neutral => "neutral"
    case Surprised => "surprised"
    case Disgusted => "disgusted"
    case Fearful => "fearful"
  }

  /** Looking a string up as a key of a record keyed by emotion: `None`
      for any string that is not one of the ten literals. */
  function Parse(key: string): (r: Option<Emotion>)
    ensures r.Some? ==> Name(r.value) == key
  {
    if key == "happy" then Some(Happy)
    else if key == "sad" then Some(Sad)
    else if key == "angry" then Some(Angry)
    else if key == "calm" then Some(Calm)
    else if key == "excited" then Some(Excited)
    else if key == "anxious" then Some(Anxious)
    else if key == "neutral" then Some(Neutral)
    else if key == "surprised" then Some(Surprised)
    else if key == "disgusted" then Some(Disgusted)
    else if key == "fearful" then Some(Fearful)
    else None
  }

  /** Every label's literal is found again as that label, so `Name` is
      injective and `Parse` inverts it. */
  lemma ParseName(e: Emotion)
    ensures Parse(Name(e)) == Some(e)
  {
  }

  /** The property names every object literal inherits from
      `Object.prototype`. Looking one of them up in a record keyed by
      emotion finds the inherited member, which is truthy, so an
      `entry || fallback` lookup returns that member and not the fallback. */
  const InheritedKeys: set<string> := {
    "constructor", "hasOwnProperty", "isPrototypeOf", "propertyIsEnumerable",
    "toLocaleString", "toString", "valueOf", "__proto__",
    "__defineGetter__", "__defineSetter__", "__lookupGetter__", "__lookupSetter__"}

  /** No label's literal is an inherited name. */
  lemma NamesNotInherited(e: Emotion)
    ensures Name(e) !in InheritedKeys
  {
  }

  /** One detection result (`EmotionData`). The timestamp is an instant
      passed in by the caller; `userId` is optional. */
  datatype EmotionData = EmotionData(
    emotion: Emotion,
    confidence: real,
    timestamp: int,
    audioDuration: real,
    userId: Option<string>)

  datatype MoodTrend = Improving | Declining | Stable

  datatype Severity = Low | Medium | High

  /** `EmotionSummary`: `emotionCounts` is a record keyed by every label.
      The dashboard's statistics extend it. */
  datatype EmotionSummary = EmotionSummary(
    dominantEmotion: Emotion,
    averageConfidence: real,
    emotionCounts: map<Emotion, nat>,
    moodTrend: MoodTrend)
  {
    ghost predicate Valid() {
      forall e: Emotion :: e in emotionCounts
    }
  }
}
