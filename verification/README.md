# Mood-Mirror in Dafny

A model of the logic in Mood-Mirror, a voice-based mood tracker built as a Next.js front-end. It covers six parts:

- **Emotion types.** The closed vocabulary of ten emotion labels and the record one detection produces (`EmotionData`).
- **`EmotionDetector`.**
  - A weighted sampler over the ten labels. It starts from a base table, adds threshold adjustments driven by voice features, speech hints, speaker count and duration, normalises in place, and walks the running totals with a draw.
  - A clamped confidence score.
  - A per-instance baseline: two counters and a queue of the last ten labels.
  - A static insight table.
  - A shallow-merge configuration.
- **The dashboard's statistics.** Computed from the session history:
  - per-label counts;
  - average confidence;
  - the dominant label and its tie-break;
  - the first-five against last-five mood trend;
  - the last three results;
  - the sorted distribution rows with their percentages;
  - the colour lookup.
- **The result card.** The per-label style table, the rounded confidence percentage and the three confidence bands.
- **The recorder widget.**
  - The `mm:ss` timer text.
  - The stub that stands in for analysis.
  - The start/stop controls and the status line.
  - The audio level meter.
  - The widget state: microphone flag, seconds counter, level and chunks.
- **The home page's session state.** Four fields updated by three handlers. The recorder's controls decide when each handler can fire.

Every `Math.random()` draw, every `new Date()` and every browser permission outcome is a parameter. Weights, confidences and levels are Dafny `real`s, so results hold in exact arithmetic.

Files, one module each:

- `emotion_types.dfy` (`EmotionTypes`): labels, their literals, `EmotionData` and the summary record the dashboard fills in.
- `seq_util.dfy` (`SeqUtil`): left-to-right sums, occurrence counts, the `slice(-n)` window, and the scaled draw `floor(r*n)`.
- `emotion_detection.dfy` (`Detection`): the detector.
  - Its weight record is an `array<real>` adjusted and normalised in place.
  - `EmotionDetector` is a class whose methods update the configuration and the baseline.
- `emotion_dashboard.dfy` (`Dashboard`): the statistics, with the count pass as a loop.
- `emotion_display.dfy` (`Display`): the result card.
- `voice_recorder.dfy` (`Recorder`): the recorder, with `VoiceRecorder` as a class.
- `home_page.dfy` (`HomePage`): the page state.
  - As a pure step function with its invariant.
  - As a class `Home` whose handlers are proved equal to that step function.
  - Wired to the recorder's controls.

Three facts about the code that are easy to misread:

- **Dominant label tie-break.** The pairwise reduce keeps the running winner only when its count is strictly larger, so among equal counts the label declared later wins.
- **Base weight table.** It sums to 1.02. The in-place normalisation absorbs the difference.
- **Recorded duration.** The recorder's stop handler is created when the start button is clicked, and it reads the seconds counter as it stood in that render. The counter is reset only afterwards. So a result's duration is 0 for the first recording after the widget mounts, and the length of the previous recording after that.

## Model

| member | source | states |
|---|---|---|
| EmotionTypes.Index | types/emotion.ts:9-19 | Every label has a position in the declaration order happy … fearful |
| EmotionTypes.AllEmotionsClosed | types/emotion.ts:9-19 | The union is closed: exactly ten labels, each listed once, every label among them |
| EmotionTypes.Parse | types/emotion.ts:9-19 | A key that resolves to a label is that label's literal; any other string resolves to nothing |
| EmotionTypes.ParseName | types/emotion.ts:9-19 | Each label's literal resolves back to that label, so the literals are distinct |
| EmotionTypes.NamesNotInherited | types/emotion.ts:9-19 | No label literal is the name of a member every object inherits (`constructor`, `toString`, `__proto__`, …) |
| SeqUtil.LastN | components/EmotionDashboard.tsx:46 | `slice(-n)` keeps min(n, length) elements |
| SeqUtil.LastNSuffix | components/EmotionDashboard.tsx:62 | The window is the history with its older part dropped, in order |
| SeqUtil.LastNSnoc | utils/emotionDetection.ts:322-325 | Appending to a window of n grows it while it holds fewer than n; otherwise only its oldest element goes |
| SeqUtil.FloorScaled | components/VoiceRecorder.tsx:152 | `floor(r*n)` for a draw r in [0,1) is an index 0 … n-1 |
| SeqUtil.SumSnoc | utils/emotionDetection.ts:292-296 | Adding one more weight adds it to the running total |
| SeqUtil.PrefixSumMonotone | utils/emotionDetection.ts:292-296 | With non-negative weights the running total never decreases |
| SeqUtil.Occurrences | utils/emotionDetection.ts:318-320 | An occurrence count never exceeds the length |
| SeqUtil.OccurrencesSnoc | utils/emotionDetection.ts:317-320 | Appending a value adds one to its count and nothing to any other |
| Detection.Merge | utils/emotionDetection.ts:461-463 | Every property the partial supplies wins; every absent one keeps its value |
| Detection.MergeLaws | utils/emotionDetection.ts:461-463 | An empty partial changes nothing; merging twice equals merging once; two merges equal one merge of the spread partials |
| Detection.AnalyzeVoiceCharacteristics | utils/emotionDetection.ts:82-106 | Draws in [0,1) give pitch in [80,160), tempo in [90,150), volume in [0.4,1.0), clarity, rhythm and energy in their documented ranges |
| Detection.DetectSpeakerCount | utils/emotionDetection.ts:111-123 | One speaker iff no variation draw exceeds 0.7 |
| Detection.AnalyzeSpeechContent | utils/emotionDetection.ts:128-143 | Draws in [0,1) give counts in 0..4, 0..2, 0..2, 0..1 and 0..3 |
| Detection.Slot | utils/emotionDetection.ts:155-166 | Each label has its position in the weight record's key order neutral, calm, happy, … fearful |
| Detection.SlotOfOrder | utils/emotionDetection.ts:155-166 | Position and key order are inverse |
| Detection.BaseWeightsSum | utils/emotionDetection.ts:155-166 | The base table sums to 1.02 |
| Detection.BoostFacts | utils/emotionDetection.ts:168-227 | Every adjustment is non-negative. Surprised, disgusted and fearful are never adjusted. Angry is adjusted iff volume > 0.8 |
| Detection.SumPositive | utils/emotionDetection.ts:229-233 | Strictly positive weights have a strictly positive total |
| Detection.AdjustedWeights | utils/emotionDetection.ts:155-227 | Ten weights, each at least its base weight and strictly positive, with a positive total |
| Detection.Scaled | utils/emotionDetection.ts:230-233 | Each weight divided by the common divisor, length kept |
| Detection.SumScaled | utils/emotionDetection.ts:229-233 | Dividing every weight by t divides the total by t |
| Detection.Normalized | utils/emotionDetection.ts:229-233 | Normalising keeps the number of weights |
| Detection.NormalizedWeightsDistribution | utils/emotionDetection.ts:229-233 | After normalisation, whichever branches fired, every weight is strictly positive and the weights sum to 1 |
| Detection.ContextualEmotionWeights | utils/emotionDetection.ts:242-267 | The second base table: happy +0.01 for hours 7-10; otherwise calm +0.01 for hours 19-21; all else fixed |
| Detection.FirstReaching | utils/emotionDetection.ts:301-306 | The position found is the first whose running total reaches the target; every earlier one falls short |
| Detection.TargetBounds | utils/emotionDetection.ts:299 | For non-negative weights and draws 0 ≤ r1 ≤ r2 ≤ 1 the scaled draws lie between 0 and the total, in order |
| Detection.ScaledBetween | utils/emotionDetection.ts:299 | r·total is monotone in r on [0,1] and lies between 0 and the total |
| Detection.SumNonNegative | utils/emotionDetection.ts:292-296 | Non-negative weights have a non-negative total |
| Detection.WeightedPick | utils/emotionDetection.ts:288-308 | The pick is the label at the first position whose running total reaches r·total, neutral if none does; for non-negative weights and r in [0,1] some position is always reached |
| Detection.FallbackUnreachable | utils/emotionDetection.ts:301-308 | With non-negative weights and r in [0,1] some label is always reached, so the neutral fallback is never taken |
| Detection.ZeroDrawPicksNeutral | utils/emotionDetection.ts:288-308 | A zero draw picks the first key, neutral |
| Detection.FirstReachingMonotone | utils/emotionDetection.ts:301-306 | A larger target is reached no earlier |
| Detection.PickMonotone | utils/emotionDetection.ts:288-308 | A larger draw never picks a label earlier in key order |
| Detection.SelectWeightedEmotion | utils/emotionDetection.ts:288-309 | The loop returns the first label in key order whose running total reaches r·total, else neutral |
| Detection.IntelligentEmotionSelection | utils/emotionDetection.ts:148-237 | The selected label is the pick over the adjusted, normalised table; for r in [0,1] it is a label whose running total reaches r |
| Detection.CalculateConfidence | utils/emotionDetection.ts:331-349 | The score always lies in [0.4, 0.95] |
| Detection.ConfidenceLongRecording | utils/emotionDetection.ts:331-349 | Over 20 s with the baseline bonus, the score is in [0.85, 0.95] |
| Detection.ConfidenceShortRecording | utils/emotionDetection.ts:331-349 | Under 5 s without the bonus, the score is in [0.5, 0.6) |
| Detection.ConfidenceMonotone | utils/emotionDetection.ts:331-349 | More earlier recordings and a longer recording never lower the score. With at most five earlier recordings the bonus setting makes no difference |
| Detection.DurationAdjustment | utils/emotionDetection.ts:335-337 | +0.15 iff over 20 s; +0.10 iff over 10 s up to 20 s; −0.15 iff under 5 s; 0 iff 5 s to 10 s |
| Detection.InsightOf | utils/emotionDetection.ts:359-453 | Every label has a non-empty description and recommendation list. Severity is high iff anxious or fearful, medium iff sad, angry or disgusted |
| Detection.GetEmotionInsights | utils/emotionDetection.ts:354-456 | A label's literal gets that label's entry. A key naming an inherited member gets no insight (the lookup returns that member). Any other key gets the neutral entry |
| Detection.EmotionDetector.BaselineBounds | utils/emotionDetection.ts:13-17 | The neutral count never exceeds the recording count; the queue holds at most ten labels |
| Detection.EmotionDetector.constructor | utils/emotionDetection.ts:19-32 | The given configuration, zero counters, empty queue |
| Detection.EmotionDetector.Default | utils/emotionDetection.ts:19-32 | Without an argument: sensitivity 0.7, English, the advanced model, context-aware, baseline adjustment on; zero counters, empty queue |
| Detection.EmotionDetector.UpdateUserBaseline | utils/emotionDetection.ts:316-326 | One more recording; one more neutral iff the label is neutral. The label is appended, and once the queue would exceed ten only its oldest entry is dropped. The queue stays the last ten labels ever recorded |
| Detection.EmotionDetector.AnalyzeEmotion | utils/emotionDetection.ts:43-60 | The label is the weighted pick. The confidence is scored against the baseline as it was before this recording, then the baseline takes the label |
| Detection.EmotionDetector.UpdateConfig | utils/emotionDetection.ts:461-463 | The configuration becomes the merge; the baseline is untouched |
| Detection.EmotionDetector.GetConfig | utils/emotionDetection.ts:468-470 | Returns the current configuration as a value |
| Detection.NormalizeInPlace | utils/emotionDetection.ts:229-233 | The array afterwards holds the normalised old contents |
| Detection.AdjustForVoice | utils/emotionDetection.ts:168-191 | Each slot grows by exactly its pitch, tempo and volume adjustment |
| Detection.AdjustForSpeech | utils/emotionDetection.ts:193-212 | Each slot grows by exactly its speech-hint adjustment |
| Detection.AdjustForSpeakers | utils/emotionDetection.ts:214-219 | Each slot grows by exactly its several-speakers adjustment |
| Detection.AdjustForDuration | utils/emotionDetection.ts:221-227 | Each slot grows by exactly its duration adjustment |
| Dashboard.Count | components/EmotionDashboard.tsx:37-39 | A label's count never exceeds the history length |
| Dashboard.CountEmotions | components/EmotionDashboard.tsx:29-39 | The record has all ten labels, each with the number of history items carrying it |
| Dashboard.CountSumSnoc | components/EmotionDashboard.tsx:37-39 | One more item adds one to its label's count |
| Dashboard.OccurrencesOfDistinct | components/EmotionDashboard.tsx:29-31 | In a repetition-free key list a key occurs once if listed, else never |
| Dashboard.EachLabelListedOnce | components/EmotionDashboard.tsx:29-31 | The count record lists each label exactly once |
| Dashboard.CountsSumToLength | components/EmotionDashboard.tsx:29-39 | The ten counts add up to the number of recordings |
| Dashboard.ZeroCountSum | components/EmotionDashboard.tsx:29-32 | An empty history counts zero for every label |
| Dashboard.TotalWithin | components/EmotionDashboard.tsx:34 | n confidences in [lo, hi] total between n·lo and n·hi |
| Dashboard.QuotientWithin | components/EmotionDashboard.tsx:35 | Dividing such a total by n gives a value in [lo, hi] |
| Dashboard.AverageConfidence | components/EmotionDashboard.tsx:34-35 | The average taken once per result gives back the total confidence |
| Dashboard.AverageWithin | components/EmotionDashboard.tsx:34-35 | The average lies within any bounds every confidence satisfies |
| Dashboard.ArgMinConfidence | components/EmotionDashboard.tsx:34-35 | Position of a smallest confidence |
| Dashboard.ArgMaxConfidence | components/EmotionDashboard.tsx:34-35 | Position of a largest confidence |
| Dashboard.AverageBetweenExtremes | components/EmotionDashboard.tsx:34-35 | The average lies between the minimum and maximum confidence |
| Dashboard.DominantIndex | components/EmotionDashboard.tsx:41-43 | The reduce ends on a key with the largest count; every later key has a strictly smaller count |
| Dashboard.Dominant | components/EmotionDashboard.tsx:41-43 | No label has a larger count than the dominant one; every label declared after it has a strictly smaller one |
| Dashboard.TieGoesToLaterLabel | components/EmotionDashboard.tsx:41-43 | [happy, sad, happy, sad] gives sad |
| Dashboard.CountsOf | components/EmotionDashboard.tsx:29-39 | The count record of a history has every label with its count |
| Dashboard.CountSnoc | components/EmotionDashboard.tsx:37-39 | One more item adds one to its label's count and nothing to others |
| Dashboard.MoodTrendOf | components/EmotionDashboard.tsx:45-54 | Improving iff the last-five average exceeds the first-five average by more than 0.1; declining iff it is lower by more than 0.1; stable otherwise |
| Dashboard.ShortHistoryIsStable | components/EmotionDashboard.tsx:46-54 | Any history of one to five results is stable |
| Dashboard.NarrowBandIsStable | components/EmotionDashboard.tsx:46-54 | If all confidences lie within a band of width 0.1 the trend is stable |
| Dashboard.ComputeEmotionStats | components/EmotionDashboard.tsx:26-64 | Nothing iff the history is empty. Otherwise the length, a summary keyed by every label with all ten counts, the dominant label, the average and the trend, and the last three results |
| Dashboard.RecentAreTail | components/EmotionDashboard.tsx:62 | The recent list is the last min(3, n) results, in their original order |
| Dashboard.PositiveRows | components/EmotionDashboard.tsx:179-180 | Only labels with a positive count, each with its count |
| Dashboard.InsertPermutes | components/EmotionDashboard.tsx:181 | Inserting adds exactly the row |
| Dashboard.InsertSorted | components/EmotionDashboard.tsx:181 | Inserting into a list sorted by count keeps it sorted |
| Dashboard.InsertMembers | components/EmotionDashboard.tsx:181 | Every row after inserting is the inserted row or one that was there |
| Dashboard.PrependKeepsTies | components/EmotionDashboard.tsx:181 | A row placed in front of rows of equal count with later labels keeps ties in declaration order |
| Dashboard.InsertKeepsTies | components/EmotionDashboard.tsx:181 | Inserting a row whose label comes after all present labels puts it behind every row of equal count |
| Dashboard.SortKeepsKeyOrder | components/EmotionDashboard.tsx:181 | The sort is stable: rows given in declaration order keep that order among equal counts |
| Dashboard.PositiveRowsInKeyOrder | components/EmotionDashboard.tsx:179-180 | Keys in declaration order give rows in declaration order |
| Dashboard.DeclarationOrder | components/EmotionDashboard.tsx:29-31 | The count record's keys are in declaration order |
| Dashboard.SortedRowsExact | components/EmotionDashboard.tsx:179-181 | The sorted rows carry every positive count and only those |
| Dashboard.SortByCount | components/EmotionDashboard.tsx:181 | Sorted non-increasing by count, and a permutation of its input |
| Dashboard.PercentageTotalIsShare | components/EmotionDashboard.tsx:183 | The rows' percentages add up to the percentage of their total count |
| Dashboard.ShareAdds | components/EmotionDashboard.tsx:183 | Percentages of the same total add |
| Dashboard.RowTotalAppend | components/EmotionDashboard.tsx:179-183 | Row totals add over concatenation |
| Dashboard.RowTotalSingle | components/EmotionDashboard.tsx:179-183 | A single row totals its count |
| Dashboard.InsertTotal | components/EmotionDashboard.tsx:181 | Inserting a row adds its count to the total |
| Dashboard.SortTotal | components/EmotionDashboard.tsx:181 | Sorting keeps the total count |
| Dashboard.PositiveRowsTotal | components/EmotionDashboard.tsx:179-180 | Dropping zero-count rows keeps the total count |
| Dashboard.DistributionRows | components/EmotionDashboard.tsx:179-183 | Sorted by count with ties in declaration order. Exactly the labels with a positive count, each with its count |
| Dashboard.DistributionPercentagesSum | components/EmotionDashboard.tsx:179-183 | The rows' percentages add up to 100 |
| Dashboard.WholeShare | components/EmotionDashboard.tsx:183 | The whole is 100 percent |
| Dashboard.PositiveRowsComplete | components/EmotionDashboard.tsx:179-180 | Every listed label with a positive count has its row |
| Dashboard.EmotionColor | components/EmotionDashboard.tsx:66-80 | A label's literal gets its table colour. A key naming an inherited member gets no colour (the lookup returns that member). Any other key gets gray |
| Dashboard.ColorsDistinct | components/EmotionDashboard.tsx:67-78 | The ten colours are distinct and none is the gray fallback |
| Display.StyleOf | components/EmotionDisplay.tsx:21-78 | A style exists iff the label is not surprised, disgusted or fearful |
| Display.DescriptionsMatchInsights | components/EmotionDisplay.tsx:27-75 | Each card description is the detector's insight description for that label |
| Display.ConfidencePercentage | components/EmotionDisplay.tsx:83 | The percentage is the integer nearest to confidence·100, with halves rounded up |
| Display.PercentageMonotone | components/EmotionDisplay.tsx:83 | A higher confidence never shows a lower percentage |
| Display.DetectorPercentageRange | components/EmotionDisplay.tsx:83 | A detector confidence shows as 40 … 95 |
| Display.RecorderPercentageRange | components/EmotionDisplay.tsx:83 | A recorder confidence shows as 60 … 100 |
| Display.Band | components/EmotionDisplay.tsx:85-95 | Top band iff ≥ 80; bottom band iff < 60 |
| Display.ConfidenceColor | components/EmotionDisplay.tsx:85-89 | The text colour is the colour of the percentage's band: green, yellow, red |
| Display.ConfidenceLabel | components/EmotionDisplay.tsx:91-95 | The label is the name of the percentage's band: very confident, confident, low |
| Display.BarColor | components/EmotionDisplay.tsx:156-158 | The bar colour is the colour of the percentage's band, the same band the label and text colour use |
| Display.BandMonotone | components/EmotionDisplay.tsx:85-95 | A higher percentage never falls in a lower band |
| Display.Render | components/EmotionDisplay.tsx:80-95 | No card iff the label has no style. Otherwise the card has the label's style, the rounded percentage and three agreeing band choices |
| Display.RecorderResultNeverLow | components/EmotionDisplay.tsx:91-95 | A rendered recorder result is never labelled low confidence |
| Recorder.DigitChar | components/VoiceRecorder.tsx:171 | A digit's character is a decimal digit that reads back as the digit |
| Recorder.Show | components/VoiceRecorder.tsx:171 | `toString` of a whole number is a non-empty string of decimal digits, with no leading zero unless the number is 0 |
| Recorder.ValueShow | components/VoiceRecorder.tsx:171 | The digits read back as the number |
| Recorder.ShowLength | components/VoiceRecorder.tsx:171 | One digit below 10, two below 100 |
| Recorder.Pad2 | components/VoiceRecorder.tsx:171 | `padStart(2, '0')` gives max(2, length) characters; the added prefix is all '0'; digits stay digits |
| Recorder.PadKeepsText | components/VoiceRecorder.tsx:171 | Padding ends with the text it was given |
| Recorder.LeadingZero | components/VoiceRecorder.tsx:171 | A leading zero does not change the value |
| Recorder.PadValue | components/VoiceRecorder.tsx:171 | Padding keeps the value |
| Recorder.FormatTime | components/VoiceRecorder.tsx:168-172 | The text is a run of digits, a colon and two digits |
| Recorder.ColonSplit | components/VoiceRecorder.tsx:171 | The text around the last colon is the minutes text and the seconds text |
| Recorder.FormatTimeReadsBack | components/VoiceRecorder.tsx:168-172 | The text is a run of digits, a colon and two digits. The digits read back as s div 60 and s mod 60, and minutes·60 + seconds = s. Minutes of three or more digits have no leading zero |
| Recorder.MinutesNoLeadingZero | components/VoiceRecorder.tsx:171 | Minute text longer than two characters is the unpadded `toString`, which does not start with 0 |
| Recorder.FormatTimeShape | components/VoiceRecorder.tsx:168-172 | Below 6000 s the text has length 5 with the colon at index 2 |
| Recorder.StubEmotion | components/VoiceRecorder.tsx:151-152 | The stub picks one of its seven labels, never surprised, disgusted or fearful |
| Recorder.StubConfidence | components/VoiceRecorder.tsx:153 | The stub confidence lies in [0.6, 1.0) |
| Recorder.StubReachesAll | components/VoiceRecorder.tsx:151-152 | Every one of the seven labels is picked by some draw |
| Recorder.StubAnalysis | components/VoiceRecorder.tsx:149-166 | The result has a stub label, a confidence in [0.6, 1.0), the counter value the handler reads as duration, and no user id |
| Recorder.ControlFor | components/VoiceRecorder.tsx:174-254 | The stop button iff recording. An enabled start button iff neither recording nor analysing. A disabled one iff analysing and not recording. All of these need the microphone |
| Recorder.StatusText | components/VoiceRecorder.tsx:202-204 | Recording, analysing or ready, in that priority |
| Recorder.BinSumBounds | components/VoiceRecorder.tsx:143 | n byte values add up to between 0 and 255·n |
| Recorder.AudioLevel | components/VoiceRecorder.tsx:140-144 | The mean of byte-valued bins lies in [0, 255] |
| Recorder.MeanBelow | components/VoiceRecorder.tsx:143 | A total of at most 255·n divided by n is at most 255 |
| Recorder.VoiceRecorder.constructor | components/VoiceRecorder.tsx:24-30 | No microphone, zero seconds, zero level, no chunks |
| Recorder.VoiceRecorder.CheckMicrophonePermission | components/VoiceRecorder.tsx:49-59 | The microphone flag becomes whether access was granted; nothing else changes |
| Recorder.VoiceRecorder.StartRecording | components/VoiceRecorder.tsx:61-109 | Without a stream nothing changes. With one, the meter takes its first reading, the chunks are emptied, the counter is reset to 0, and the stop handler keeps the counter as it stood before the click |
| Recorder.VoiceRecorder.Tick | components/VoiceRecorder.tsx:101-103 | The counter grows by exactly one |
| Recorder.VoiceRecorder.DataAvailable | components/VoiceRecorder.tsx:86-88 | The chunk is appended and earlier chunks kept |
| Recorder.VoiceRecorder.UpdateAudioLevel | components/VoiceRecorder.tsx:137-147 | The level becomes the mean of the 128 bins, within [0, 255]; nothing else changes |
| Recorder.VoiceRecorder.StopRecording | components/VoiceRecorder.tsx:111-135 | The level drops to 0; the counter and chunks stay |
| HomePage.Step | app/page.tsx:18-33 | Detected: the data becomes current and is appended; analysing is cleared; recording is kept. Start: recording, not analysing, no current result, history kept. Stop: not recording, analysing, current result and history kept |
| HomePage.HistoryAppendOnly | app/page.tsx:18-33 | After any handlers the history is the old one followed by the delivered results, in order |
| HomePage.StepConsistent | app/page.tsx:18-33 | Each handler keeps "not recording and analysing at once; the current result is the last history entry" |
| HomePage.RunConsistent | app/page.tsx:13-33 | From the initial state the invariant holds after any sequence of handlers |
| HomePage.RoundShowsResult | app/page.tsx:18-33 | Start, stop, result leaves the page idle, showing the result, which is the last history entry |
| HomePage.Home.constructor | app/page.tsx:13-16 | No current result, not recording, empty history, not analysing |
| HomePage.Home.HandleEmotionDetected | app/page.tsx:18-22 | Equal to the step for a delivered result |
| HomePage.Home.HandleRecordingStart | app/page.tsx:24-28 | Equal to the start step |
| HomePage.Home.HandleRecordingStop | app/page.tsx:30-33 | Equal to the stop step |
| HomePage.ClickStart | components/VoiceRecorder.tsx:234-243 | Offered only enabled, so neither recording nor analysing. With a stream, the page takes the start step, the counter is 0 and the stop handler keeps the counter from before the click; otherwise nothing changes |
| HomePage.ClickStop | components/VoiceRecorder.tsx:244-253 | Offered only while recording: the meter drops to 0 and the page takes the stop step |
| HomePage.RecordingFinished | components/VoiceRecorder.tsx:149-166 | The stub result, with the counter value kept at the start click as its duration, is delivered to the page |
| HomePage.RecordOnce | app/page.tsx:68-74 | A full round through the controls leaves the page idle. The new result is current and appended. Its duration is the counter as it stood before the start click; the counter ends at the seconds counted |
| HomePage.RecordTwice | components/VoiceRecorder.tsx:90-166 | Two rounds append two results. The first carries the counter from before the first round, the second carries the length of the first round |

## Left out

- **Audio capture and playback.** `getUserMedia`, `AudioContext`, `MediaRecorder`, `requestAnimationFrame` and the blob are not modelled. Their outcomes are parameters: whether access was granted, the bins, the chunks.
- **Delays.** The 2-second `setTimeout` delays and the 1-second interval are left out. A timer tick is an explicit `Tick` call.
- **Draws and clock.** `Math.random()` draws and `new Date()` are parameters. No probability distribution is stated.
- **Floating point.** IEEE rounding is not modelled; weights and confidences are exact reals.
- **Simulated detection plumbing.** The path from a blob to features is `simulateEmotionDetection`. The features, speaker count, speech hints, sampler draw and jitter are inputs to `AnalyzeEmotion` instead.
- **Identity stubs.** `applyBaselineAdjustment` and `applyDurationAdjustment` (utils/emotionDetection.ts:272-283) return their argument and are never called.
- **Day of week.** `getContextualEmotionWeights` ignores it. The function is defined but never called.
- **Rendering.**
  - Icons and emoji.
  - Animations.
  - The dashboard's trend icon/text, average percentage and insight texts.
  - The confidence messages under the card.
  - The level bars' random heights.
  - The timeframe selector, which changes nothing computed.
- **`EmotionInsight`.** The record in types/emotion.ts:60-67 is declared but nothing in the modelled code builds one. Only its severity range is kept, as the `Severity` datatype that the detector's insight table uses.
- **Other parts of the repository.** `app/api/emotion/route.ts`, the contact, about and features pages, and the layout are not part of this model.
- Detection.EmotionDetector.GetConfig: returns the configuration as an immutable value. The code returns a copy so callers cannot reach the detector's state; that holds trivially here, so no aliasing claim is stated.
- Detection.EmotionDetector.constructor: the code keeps the configuration object it is given by reference, so a caller that later changes that object changes the detector's scoring until `updateConfig` replaces it. `Config` is a value here, and that aliasing is not modelled. The only construction in the code passes a fresh default literal.
- Detection.Merge: a `ConfigPatch` field is either absent or a value. The spread also copies a property that is present but explicitly `undefined`, which would make that configuration field `undefined`; a `Config` cannot hold that, so the model does not cover it.
- Display.Render: a label without a style entry makes the component throw while reading the missing entry. The model returns no card, and says nothing about the error.
- Recorder.AudioLevel: requires at least one bin. The code's reduce without an initial value throws on an empty array, and the analyser always supplies 128 bins.
- Recorder.VoiceRecorder.StartRecording: the analyser, recorder and stream objects it creates are not modelled. The meter's later readings are separate `UpdateAudioLevel` calls.
