/** The home page's session state and its three handlers, as a pure step
    function over page states, as a class whose methods update the four
    fields in place, and wired to the recorder widget whose controls guard
    when the handlers can fire. */
module HomePage {
  import opened EmotionTypes
  import opened SeqUtil
  import Recorder

  /** The four state fields of the page. */
  datatype PageState = PageState(
    currentEmotion: Option<EmotionData>,
    isRecording: bool,
    emotionHistory: seq<EmotionData>,
    isAnalyzing: bool)

  /** No result, empty history, neither recording nor analysing. */
  const Initial := PageState(None, false, [], false)

  /** The three callbacks the page hands to the recorder. */
  datatype Event = RecordingStart | RecordingStop | EmotionDetected(data: EmotionData)

  /** One handler applied to a page state. */
  function Step(s: PageState, ev: Event): (t: PageState)
    ensures !(t.isRecording && t.isAnalyzing)
    ensures ev.EmotionDetected? ==> t.currentEmotion == Some(ev.data)
                                    && t.emotionHistory == s.emotionHistory + [ev.data]
                                    && !t.isAnalyzing && t.isRecording == s.isRecording
    ensures ev == RecordingStart ==> t.isRecording && !t.isAnalyzing && t.currentEmotion == None
                                     && t.emotionHistory == s.emotionHistory
    ensures ev == RecordingStop ==> !t.isRecording && t.isAnalyzing
                                    && t.currentEmotion == s.currentEmotion
                                    && t.emotionHistory == s.emotionHistory
  {
    match ev
    case RecordingStart => s.(isRecording := true, isAnalyzing := false, currentEmotion := None)
    case RecordingStop => s.(isRecording := false, isAnalyzing := true)
    case EmotionDetected(d) =>
      s.(currentEmotion := Some(d), emotionHistory := s.emotionHistory + [d], isAnalyzing := false)
  }

  /** The handlers applied in order. */
  function Run(s: PageState, evs: seq<Event>): PageState
  {
    if |evs| == 0 then s else Step(Run(s, evs[..|evs| - 1]), evs[|evs| - 1])
  }

  /** The results delivered by a sequence of handler calls, in order. */
  function Detected(evs: seq<Event>): seq<EmotionData>
  {
    if |evs| == 0 then []
    else Detected(evs[..|evs| - 1]) + (if evs[|evs| - 1].EmotionDetected? then [evs[|evs| - 1].data] else [])
  }

  /** The history is append-only: whatever the handlers do, it is the old
      history followed by the delivered results, in order. */
  lemma {:induction false} HistoryAppendOnly(s: PageState, evs: seq<Event>)
    ensures Run(s, evs).emotionHistory == s.emotionHistory + Detected(evs)
  {
    if |evs| > 0 {
      HistoryAppendOnly(s, evs[..|evs| - 1]);
    }
  }

  /** The session's invariant: never recording and analysing at once, and a
      current result, when there is one, is the latest history entry. */
  predicate Consistent(s: PageState)
  {
    && !(s.isRecording && s.isAnalyzing)
    && (s.currentEmotion.Some? ==>
          |s.emotionHistory| > 0 && s.currentEmotion.value == s.emotionHistory[|s.emotionHistory| - 1])
  }

  /** Every handler keeps the invariant. */
  lemma StepConsistent(s: PageState, ev: Event)
    requires Consistent(s)
    ensures Consistent(Step(s, ev))
  {
  }

  /** After any sequence of handler calls from the initial state the
      invariant holds. */
  lemma {:induction false} RunConsistent(evs: seq<Event>)
    ensures Consistent(Run(Initial, evs))
  {
    if |evs| > 0 {
      RunConsistent(evs[..|evs| - 1]);
      StepConsistent(Run(Initial, evs[..|evs| - 1]), evs[|evs| - 1]);
    }
  }

  /** One full round, start then stop then a result, ends idle with the
      result shown and appended to the history. */
  lemma RoundShowsResult(s: PageState, d: EmotionData)
    ensures var t := Run(s, [RecordingStart, RecordingStop, EmotionDetected(d)]);
            && !t.isRecording && !t.isAnalyzing
            && t.currentEmotion == Some(d)
            && t.emotionHistory == s.emotionHistory + [d]
            && t.emotionHistory[|t.emotionHistory| - 1] == d
  {
    var evs := [RecordingStart, RecordingStop, EmotionDetected(d)];
    assert evs[..2] == [RecordingStart, RecordingStop];
    assert evs[..2][..1] == [RecordingStart];
    assert evs[..2][..1][..0] == [];
    var s1 := Step(s, RecordingStart);
    assert Run(s, evs[..2][..1]) == s1;
    var s2 := Step(s1, RecordingStop);
    assert Run(s, evs[..2]) == s2;
  }

  /** The page component's state, updated in place by its handlers. */
  class Home {
    var currentEmotion: Option<EmotionData>
    var isRecording: bool
    var emotionHistory: seq<EmotionData>
    var isAnalyzing: bool

    function State(): PageState
      reads this
    {
      PageState(currentEmotion, isRecording, emotionHistory, isAnalyzing)
    }

    ghost predicate Valid()
      reads this
    {
      Consistent(State())
    }

    constructor ()
      ensures Valid() && State() == Initial
    {
      currentEmotion := None;
      isRecording := false;
      emotionHistory := [];
      isAnalyzing := false;
    }

    /** `handleEmotionDetected`: show the result, append it, stop analysing. */
    method HandleEmotionDetected(emotionData: EmotionData)
      requires Valid()
      modifies this
      ensures Valid() && State() == Step(old(State()), EmotionDetected(emotionData))
      ensures currentEmotion == Some(emotionData) && emotionHistory == old(emotionHistory) + [emotionData]
      ensures !isAnalyzing && isRecording == old(isRecording)
    {
      currentEmotion := Some(emotionData);
      emotionHistory := emotionHistory + [emotionData];
      isAnalyzing := false;
    }

    /** `handleRecordingStart`: recording, not analysing, no result shown. */
    method HandleRecordingStart()
      requires Valid()
      modifies this
      ensures Valid() && State() == Step(old(State()), RecordingStart)
      ensures isRecording && !isAnalyzing && currentEmotion == None
      ensures emotionHistory == old(emotionHistory)
    {
      isRecording := true;
      isAnalyzing := false;
      currentEmotion := None;
    }

    /** `handleRecordingStop`: not recording, analysing. */
    method HandleRecordingStop()
      requires Valid()
      modifies this
      ensures Valid() && State() == Step(old(State()), RecordingStop)
      ensures !isRecording && isAnalyzing
      ensures currentEmotion == old(currentEmotion) && emotionHistory == old(emotionHistory)
    {
      isRecording := false;
      isAnalyzing := true;
    }
  }

  // ---------------------------------------------------------------------
  // The recorder driving the page

  /** A click on the start control, which the recorder offers, enabled, only
      when the microphone is available and the page is neither recording nor
      analysing. If the browser hands over a stream the recorder takes a
      first level reading, captures its counter for the stop handler,
      restarts the counter and the chunks, and the page's start handler
      runs; otherwise nothing changes. */
  method ClickStart(home: Home, rec: Recorder.VoiceRecorder, streamGranted: bool, bins: seq<Recorder.Byte>)
    requires home.Valid() && rec.Valid() && |bins| == Recorder.FrequencyBinCount
    requires Recorder.ControlFor(rec.isMicAvailable, home.isRecording, home.isAnalyzing) == Recorder.StartButton(false)
    modifies home, rec
    ensures home.Valid() && rec.Valid() && rec.isMicAvailable == old(rec.isMicAvailable)
    ensures streamGranted ==> && home.State() == Step(old(home.State()), RecordingStart)
                              && rec.recordingTime == 0
                              && rec.capturedRecordingTime == old(rec.recordingTime)
    ensures !streamGranted ==> && home.State() == old(home.State())
                               && rec.recordingTime == old(rec.recordingTime)
                               && rec.capturedRecordingTime == old(rec.capturedRecordingTime)
  {
    var started := rec.StartRecording(streamGranted, bins);
    if started {
      home.HandleRecordingStart();
    }
  }

  /** A click on the stop control, which the recorder offers only while
      recording: the meter drops to zero and the page's stop handler runs. */
  method ClickStop(home: Home, rec: Recorder.VoiceRecorder)
    requires home.Valid() && rec.Valid()
    requires Recorder.ControlFor(rec.isMicAvailable, home.isRecording, home.isAnalyzing) == Recorder.StopButton
    modifies home, rec
    ensures home.Valid() && rec.Valid() && rec.isMicAvailable == old(rec.isMicAvailable)
    ensures home.State() == Step(old(home.State()), RecordingStop)
    ensures rec.audioLevel == 0.0 && rec.recordingTime == old(rec.recordingTime)
    ensures rec.capturedRecordingTime == old(rec.capturedRecordingTime)
  {
    rec.StopRecording();
    home.HandleRecordingStop();
  }

  /** The recording has stopped: the stop handler made at the start click
      builds the stub result from the counter value it captured then, and
      delivers it to the page. */
  method RecordingFinished(home: Home, rec: Recorder.VoiceRecorder, pickDraw: real, confidenceDraw: real, now: int)
    returns (data: EmotionData)
    requires home.Valid() && UnitDraw(pickDraw) && UnitDraw(confidenceDraw)
    modifies home
    ensures home.Valid()
    ensures data == Recorder.StubAnalysis(pickDraw, confidenceDraw, rec.capturedRecordingTime, now)
    ensures home.State() == Step(old(home.State()), EmotionDetected(data))
  {
    data := Recorder.StubAnalysis(pickDraw, confidenceDraw, rec.capturedRecordingTime, now);
    home.HandleEmotionDetected(data);
  }

  /** A whole session round through the recorder's controls: start, some
      seconds, stop, result. The page ends idle, showing the result that was
      appended last. The counter ends at the seconds counted, but the
      result's duration is the counter as it stood before the start click:
      0 in the first round, the previous round's length after that. */
  method RecordOnce(home: Home, rec: Recorder.VoiceRecorder, seconds: nat, bins: seq<Recorder.Byte>,
                    pickDraw: real, confidenceDraw: real, now: int) returns (data: EmotionData)
    requires home.Valid() && rec.Valid() && UnitDraw(pickDraw) && UnitDraw(confidenceDraw)
    requires |bins| == Recorder.FrequencyBinCount
    requires Recorder.ControlFor(rec.isMicAvailable, home.isRecording, home.isAnalyzing) == Recorder.StartButton(false)
    modifies home, rec
    ensures home.Valid() && rec.Valid() && rec.isMicAvailable == old(rec.isMicAvailable)
    ensures !home.isRecording && !home.isAnalyzing
    ensures home.emotionHistory == old(home.emotionHistory) + [data]
    ensures home.currentEmotion == Some(data)
    ensures rec.recordingTime == seconds
    ensures data.audioDuration == old(rec.recordingTime) as real && data.emotion in Recorder.StubEmotions
  {
    ClickStart(home, rec, true, bins);
    for i := 0 to seconds
      invariant rec.Valid() && rec.recordingTime == i && rec.isMicAvailable == old(rec.isMicAvailable)
      invariant rec.capturedRecordingTime == old(rec.recordingTime)
      invariant home.Valid() && home.isRecording && home.emotionHistory == old(home.emotionHistory)
    {
      rec.Tick();
    }
    ClickStop(home, rec);
    data := RecordingFinished(home, rec, pickDraw, confidenceDraw, now);
  }

  /** Two rounds in a row: the second result reports the first round's
      length, not its own. */
  method RecordTwice(home: Home, rec: Recorder.VoiceRecorder, first: nat, second: nat, bins: seq<Recorder.Byte>,
                     draws: seq<real>, now: int) returns (d1: EmotionData, d2: EmotionData)
    requires home.Valid() && rec.Valid() && |bins| == Recorder.FrequencyBinCount
    requires |draws| == 4 && forall i :: 0 <= i < 4 ==> UnitDraw(draws[i])
    requires Recorder.ControlFor(rec.isMicAvailable, home.isRecording, home.isAnalyzing) == Recorder.StartButton(false)
    modifies home, rec
    ensures home.emotionHistory == old(home.emotionHistory) + [d1, d2]
    ensures d1.audioDuration == old(rec.recordingTime) as real
    ensures d2.audioDuration == first as real
  {
    d1 := RecordOnce(home, rec, first, bins, draws[0], draws[1], now);
    d2 := RecordOnce(home, rec, second, bins, draws[2], draws[3], now);
  }
}
