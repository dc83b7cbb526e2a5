/** The recorder widget: the mm:ss timer text, the stub that stands in for
    emotion analysis, the start/stop controls, the audio level meter, and the
    widget state that recording updates in place. */
module Recorder {
  import opened EmotionTypes
  import opened SeqUtil

  // ---------------------------------------------------------------------
  // formatTime

  /** The character of a decimal digit. */
  function DigitChar(d: nat): (c: char)
    requires d < 10
    ensures '0' <= c <= '9' && DigitValue(c) == d
  {
    "0123456789"[d]
  }

  /** The value of a decimal digit character. */
  function DigitValue(c: char): nat
  {
    if '0' <= c <= '9' then (c as int - '0' as int) as nat else 0
  }

  /** A string made of decimal digits only. */
  predicate Digits(s: string)
  {
    forall i :: 0 <= i < |s| ==> '0' <= s[i] <= '9'
  }

  /** `n.toString()` for a whole number: decimal digits, no leading zero. */
  function Show(n: nat): (s: string)
    ensures |s| >= 1 && Digits(s)
    ensures s[0] == '0' ==> n == 0
  {
    if n < 10 then [DigitChar(n)] else Show(n / 10) + [DigitChar(n % 10)]
  }

  /** The number a string of decimal digits denotes. */
  function Value(s: string): nat
  {
    if |s| == 0 then 0 else Value(s[..|s| - 1]) * 10 + DigitValue(s[|s| - 1])
  }

  /** Reading back what `Show` writes gives the number again. */
  lemma {:induction false} ValueShow(n: nat)
    ensures Value(Show(n)) == n
  {
    if n >= 10 {
      ValueShow(n / 10);
      var s := Show(n / 10);
      assert (s + [DigitChar(n % 10)])[..|s|] == s;
    }
  }

  /** One digit below 10, two below 100. */
  lemma ShowLength(n: nat)
    ensures n < 10 ==> |Show(n)| == 1
    ensures 10 <= n < 100 ==> |Show(n)| == 2
    ensures |Show(n)| >= 2 ==> n >= 10
  {
  }

  /** `padStart(2, '0')`: `s` itself, preceded by as many `'0'`s as it
      takes to reach two characters; digits stay digits. */
  function Pad2(s: string): (p: string)
    ensures |p| == if |s| >= 2 then |s| else 2
    ensures forall i :: 0 <= i < |p| - |s| ==> p[i] == '0'
    ensures Digits(s) ==> Digits(p)
  {
    if |s| >= 2 then s
    else
      var p := seq(2 - |s|, _ => '0') + s;
      assert forall i :: 2 - |s| <= i < 2 ==> p[i] == s[i - (2 - |s|)];
      p
  }

  /** Padding only prepends: the padded text ends with the text itself. */
  lemma PadKeepsText(s: string)
    ensures var p := Pad2(s); p[|p| - |s|..] == s
  {
  }

  /** Leading zeros do not change the value. */
  lemma {:induction false} LeadingZero(s: string)
    ensures Value("0" + s) == Value(s)
  {
    if |s| > 0 {
      LeadingZero(s[..|s| - 1]);
      assert ("0" + s)[..|"0" + s| - 1] == "0" + s[..|s| - 1];
    }
  }

  lemma PadValue(n: nat)
    ensures Value(Pad2(Show(n))) == n
  {
    ValueShow(n);
    var s := Show(n);
    if |s| == 1 {
      assert seq(1, _ => '0') == "0";
      LeadingZero(s);
    }
  }

  /** `formatTime`: whole minutes and the remaining seconds, each padded to
      two digits, separated by a colon. Everything before the colon and the
      two characters after it are decimal digits. */
  function FormatTime(seconds: nat): (t: string)
    ensures |t| >= 5 && t[|t| - 3] == ':'
    ensures Digits(t[..|t| - 3]) && Digits(t[|t| - 2..])
  {
    var m := Pad2(Show(seconds / 60));
    var s := Pad2(Show(seconds % 60));
    ShowLength(seconds % 60);
    var t := m + ":" + s;
    assert t[..|t| - 3] == m;
    assert t[|t| - 2..] == s;
    t
  }

  /** The text reads back as the minutes and seconds it was built from: the
      last three characters are the colon and two second digits, what
      precedes them is at least two minute digits, and the two parts read
      back as the whole minutes and the remaining seconds. Minutes of three
      or more digits carry no leading zero. */
  lemma FormatTimeReadsBack(seconds: nat)
    ensures var t := FormatTime(seconds);
            && |t| >= 5 && t[|t| - 3] == ':'
            && Digits(t[..|t| - 3]) && Digits(t[|t| - 2..])
            && Value(t[..|t| - 3]) == seconds / 60
            && Value(t[|t| - 2..]) == seconds % 60
            && Value(t[..|t| - 3]) * 60 + Value(t[|t| - 2..]) == seconds
            && (|t| > 5 ==> t[0] != '0')
  {
    var m := Pad2(Show(seconds / 60));
    var s := Pad2(Show(seconds % 60));
    ShowLength(seconds % 60);
    PadValue(seconds / 60);
    PadValue(seconds % 60);
    ColonSplit(m, s);
    MinutesNoLeadingZero(seconds / 60);
  }

  /** Three or more minute digits come straight from `toString`, whose first
      digit is not a zero. */
  lemma MinutesNoLeadingZero(minutes: nat)
    ensures var m := Pad2(Show(minutes)); |m| > 2 ==> m == Show(minutes) && m[0] != '0'
  {
    ShowLength(minutes);
  }

  /** The two sides of a colon-joined text with a two-character right side. */
  lemma ColonSplit(m: string, s: string)
    requires |s| == 2
    ensures var t := m + ":" + s;
            |t| >= 3 && t[..|t| - 3] == m && t[|t| - 2..] == s && t[|t| - 3] == ':'
  {
  }

  /** Below 100 minutes the text is exactly `mm:ss`. */
  lemma FormatTimeShape(seconds: nat)
    requires seconds < 6000
    ensures |FormatTime(seconds)| == 5 && FormatTime(seconds)[2] == ':'
  {
    ShowLength(seconds / 60);
    ShowLength(seconds % 60);
  }

  // ---------------------------------------------------------------------
  // The stub analysis

  /** The seven labels the stub chooses from. */
  const StubEmotions: seq<Emotion> := [Happy, Sad, Angry, Calm, Excited, Anxious, Neutral]

  /** The stub's label for draw `r`: entry `floor(7 r)` of its list. */
  function StubEmotion(r: real): (e: Emotion)
    requires UnitDraw(r)
    ensures e in StubEmotions
    ensures e != Surprised && e != Disgusted && e != Fearful
  {
    StubEmotions[FloorScaled(r, |StubEmotions|)]
  }

  /** The stub's confidence for draw `r`. */
  function StubConfidence(r: real): (c: real)
    requires UnitDraw(r)
    ensures 0.6 <= c < 1.0
  {
    r * 0.4 + 0.6
  }

  /** Every one of the seven labels is chosen by some draw. */
  lemma StubReachesAll(i: nat)
    requires i < 7
    ensures StubEmotion(i as real / 7.0) == StubEmotions[i]
  {
    var r := i as real / 7.0;
    assert r * 7.0 == i as real;
  }

  /** `analyzeEmotion` in the recorder: a stub result whose duration is the
      counter value the handler reads (see `capturedRecordingTime`); the
      timestamp is passed in. */
  function StubAnalysis(pickDraw: real, confidenceDraw: real, recordingTime: nat, now: int): (d: EmotionData)
    requires UnitDraw(pickDraw) && UnitDraw(confidenceDraw)
    ensures d.emotion in StubEmotions && 0.6 <= d.confidence < 1.0
    ensures d.audioDuration == recordingTime as real && d.timestamp == now && d.userId == None
  {
    EmotionData(StubEmotion(pickDraw), StubConfidence(confidenceDraw), now, recordingTime as real, None)
  }

  // ---------------------------------------------------------------------
  // Controls

  /** What the widget offers: a button to ask for the microphone, the start
      button (possibly disabled), or the stop button. */
  datatype Control = EnableMicrophone | StartButton(disabled: bool) | StopButton

  /** The control the widget renders for the given flags. */
  function ControlFor(isMicAvailable: bool, isRecording: bool, isAnalyzing: bool): (c: Control)
    ensures c == StopButton <==> isMicAvailable && isRecording
    ensures c == StartButton(false) <==> isMicAvailable && !isRecording && !isAnalyzing
    ensures c == StartButton(true) <==> isMicAvailable && !isRecording && isAnalyzing
  {
    if !isMicAvailable then EnableMicrophone
    else if !isRecording then StartButton(isAnalyzing)
    else StopButton
  }

  /** The status line under the recording indicator. */
  function StatusText(isRecording: bool, isAnalyzing: bool): (t: string)
    ensures isRecording ==> t == "Recording..."
    ensures !isRecording && isAnalyzing ==> t == "Analyzing emotion..."
    ensures !isRecording && !isAnalyzing ==> t == "Ready to record"
  {
    if isRecording then "Recording..." else if isAnalyzing then "Analyzing emotion..." else "Ready to record"
  }

  // ---------------------------------------------------------------------
  // Audio level

  newtype Byte = x: int | 0 <= x < 256

  /** Sum of some byte-valued bins. */
  function BinSum(bins: seq<Byte>): int
  {
    if |bins| == 0 then 0 else BinSum(bins[..|bins| - 1]) + bins[|bins| - 1] as int
  }

  lemma {:induction false} BinSumBounds(bins: seq<Byte>)
    ensures 0 <= BinSum(bins) <= 255 * |bins|
  {
    if |bins| > 0 {
      BinSumBounds(bins[..|bins| - 1]);
    }
  }

  /** The mean of the bins, which lies between 0 and 255. */
  function AudioLevel(bins: seq<Byte>): (level: real)
    requires |bins| > 0
    ensures 0.0 <= level <= 255.0
  {
    BinSumBounds(bins);
    var n := |bins| as real;
    var total := BinSum(bins) as real;
    assert total <= 255.0 * n;
    MeanBelow(total, n);
    total / n
  }

  lemma MeanBelow(total: real, n: real)
    requires n > 0.0 && 0.0 <= total <= 255.0 * n
    ensures 0.0 <= total / n <= 255.0
  {
    assert total / n * n == total;
  }

  /** The analyser's bin count for its FFT size of 256: the number of bins
      every level reading gets. */
  const FrequencyBinCount: nat := 256 / 2

  // ---------------------------------------------------------------------
  // Widget state

  /** A recorded piece of audio. */
  type Chunk = seq<Byte>

  /** The widget's own state: whether the microphone may be used, the
      seconds counter, the level meter and the recorded chunks.
      `capturedRecordingTime` is the counter value the stop handler will
      report: that handler is created by the start click and reads the
      counter as it stood at that click. */
  class VoiceRecorder {
    var isMicAvailable: bool
    var recordingTime: nat
    var audioLevel: real
    var audioChunks: seq<Chunk>
    var capturedRecordingTime: nat

    /** The level meter always shows a mean of byte values. */
    ghost predicate Valid()
      reads this
    {
      0.0 <= audioLevel <= 255.0
    }

    constructor ()
      ensures Valid()
      ensures !isMicAvailable && recordingTime == 0 && audioLevel == 0.0 && audioChunks == []
      ensures capturedRecordingTime == 0
    {
      isMicAvailable := false;
      recordingTime := 0;
      audioLevel := 0.0;
      audioChunks := [];
      capturedRecordingTime := 0;
    }

    /** `checkMicrophonePermission`, given whether the browser granted the
        microphone. */
    method CheckMicrophonePermission(granted: bool)
      requires Valid()
      modifies this
      ensures Valid() && isMicAvailable == granted
      ensures recordingTime == old(recordingTime) && audioLevel == old(audioLevel)
      ensures audioChunks == old(audioChunks) && capturedRecordingTime == old(capturedRecordingTime)
    {
      isMicAvailable := granted;
    }

    /** `startRecording`, given whether the browser handed over a stream and
        the analyser's first bins. Without a stream nothing changes. With
        one, the level meter takes its first reading, the chunks start again
        from empty, the stop handler captures the counter as it stands, and
        the counter restarts from zero. `started` tells whether the page's
        start handler was called. */
    method StartRecording(streamGranted: bool, bins: seq<Byte>) returns (started: bool)
      requires Valid() && |bins| == FrequencyBinCount
      modifies this
      ensures Valid() && started == streamGranted && isMicAvailable == old(isMicAvailable)
      ensures started ==> && recordingTime == 0 && audioChunks == []
                          && audioLevel == AudioLevel(bins)
                          && capturedRecordingTime == old(recordingTime)
      ensures !started ==> && recordingTime == old(recordingTime) && audioChunks == old(audioChunks)
                           && audioLevel == old(audioLevel)
                           && capturedRecordingTime == old(capturedRecordingTime)
    {
      if !streamGranted {
        return false;
      }
      audioLevel := AudioLevel(bins);
      audioChunks := [];
      capturedRecordingTime := recordingTime;
      recordingTime := 0;
      started := true;
    }

    /** One timer tick: the counter goes up by exactly one second. */
    method Tick()
      requires Valid()
      modifies this
      ensures Valid() && recordingTime == old(recordingTime) + 1
      ensures isMicAvailable == old(isMicAvailable) && audioLevel == old(audioLevel)
      ensures audioChunks == old(audioChunks) && capturedRecordingTime == old(capturedRecordingTime)
    {
      recordingTime := recordingTime + 1;
    }

    /** `ondataavailable`: the chunk is appended, earlier chunks kept. */
    method DataAvailable(chunk: Chunk)
      requires Valid()
      modifies this
      ensures Valid() && audioChunks == old(audioChunks) + [chunk]
      ensures isMicAvailable == old(isMicAvailable) && recordingTime == old(recordingTime)
      ensures audioLevel == old(audioLevel) && capturedRecordingTime == old(capturedRecordingTime)
    {
      audioChunks := audioChunks + [chunk];
    }

    /** `updateAudioLevel` with the analyser's current bins. */
    method UpdateAudioLevel(bins: seq<Byte>)
      requires Valid() && |bins| == FrequencyBinCount
      modifies this
      ensures Valid() && audioLevel == AudioLevel(bins)
      ensures isMicAvailable == old(isMicAvailable) && recordingTime == old(recordingTime)
      ensures audioChunks == old(audioChunks) && capturedRecordingTime == old(capturedRecordingTime)
    {
      audioLevel := AudioLevel(bins);
    }

    /** `stopRecording`: the meter drops to zero; the counter and the chunks
        stay as they were. */
    method StopRecording()
      requires Valid()
      modifies this
      ensures Valid() && audioLevel == 0.0
      ensures isMicAvailable == old(isMicAvailable) && recordingTime == old(recordingTime)
      ensures audioChunks == old(audioChunks) && capturedRecordingTime == old(capturedRecordingTime)
    {
      audioLevel := 0.0;
    }
  }
}
