# Interview trainer: scoring, session controller and audio flags

A Dafny model of the logic inside `script.js`, a browser-based job
interview trainer. It shows questions one at a time and takes an answer
typed or dictated into a text field. It scores the answer with a heuristic
and speaks the verdict back. Below its DOM and device calls sit three
precise pieces of logic, and the model covers each of them:

- **Scoring engine** (`Scoring`): `analyzeAnswer`. It starts from 5 points,
  adjusts for length (−2 under 30 characters, +1 over 100, +1 more over
  200) and adds ½ point for each of six fixed keywords found by a
  case-insensitive substring test. It then rounds half up and clamps to
  [1, 10]. The feedback message comes from the score bands ≥ 9, ≥ 7, ≥ 5
  and below. The tips are the question's own, or a fixed three-item
  default. The model counts in half points: base 10, +1 per keyword.
  `Math.round` is `floor(h/2 + 1/2) = (h + 1) / 2`. The imperative method
  `AnalyzeAnswer` keeps the source's loop over the keywords and is proved
  equal to the specification function `Analyze`. Lemmas prove that:
  - the score always lies in [3, 10], so the clamp never bites;
  - the score equals the source's floating-point formula, written in
    Dafny's exact reals;
  - keyword credit is the number of distinct keywords present, so
    repeating a keyword adds nothing;
  - the two worked examples hold.
- **Session controller** (`Session.Controller`): the question list, the
  current index, the answer field and the visibility of the feedback
  section. Its handlers are: load (success, or failure with the one
  fallback record), show question, submit, auto-submit, hint, next, and the
  recogniser's transcript. Next is cyclic, and `NextCycles` proves that `n`
  presses return the index to its start. Submission trims the field. An
  answer that trims to nothing is never analysed: only the prompt is
  spoken, and nothing else changes.
- **Audio coordination** (`Speech`, `Capture`):
  - `speakText` cancels the synthesiser's queue before it speaks, so one
    utterance is queued afterwards.
  - The voice chosen is the first voice whose language tag starts with
    "ru". The source's extra "ru-RU" test is subsumed by that.
  - The voice button toggles `isRecording`. It is disabled when there is no
    recogniser.
  - A recorder's `onstop` starts recognition, then releases its microphone
    stream. When a recogniser is already running, `recognition.start()`
    throws first, and the stream is leaked.
  - `recognition.onend` always clears the flag.
  - `toggleMicrophone` holds or releases a separate stream.

  The recorder's invariant `Valid()` counts every live microphone stream.
  Each one belongs to the current recording, to a stopped recorder waiting
  for `onstop`, to an *orphaned* recorder, or to a *leaked* one whose
  `onstop` threw. A recorder is orphaned when
  `onend` clears the flag while a newer recording is running: the next
  click then starts another recorder instead of stopping that one, and the
  replaced recorder's stream is never released.
  `Capture.OrphanedRecording` gives the event sequence that reaches this
  state. `Capture.LeakedOnBusyRecogniser` gives one that leaks a stream
  through the throwing `onstop`.

Browser services are abstract. `toLowerCase` is a per-character function
`lower` that the controller receives. The outcome of `getUserMedia` is a
boolean parameter. `speechSynthesis` is a queue of utterances, and the
browser's callbacks are methods.

The model follows the code on these points:
- Tips: an empty `tips` array is kept. JavaScript's `||` treats `[]` as
  present, so the default tips are used only when `tips` is absent.
- Speech and capture may overlap: nothing stops the trainer from speaking
  while it records.
- A click while recording stops the recording. It is not a no-op.
- Submitting a non-blank answer with no question loaded, and asking for a
  hint with no question loaded, end in a `TypeError` in the code. The model
  treats both as a change of nothing. A blank answer only prompts, whether
  or not a question is loaded.

## Model

| member | source | states |
|---|---|---|
| `Scoring.AnalyzeAnswer` | script.js:277-319 | the method's length adjustments, keyword loop, rounding, clamp, band choice and tips give exactly `Analyze`; the score lies in [3, 10] and the feedback is the band's message |
| `Scoring.Score` | script.js:281-300 | the final score is between 3 and 10, and equals the rounded raw half-point score, so clamping to [1, 10] never changes it |
| `Scoring.ScoreMatchesSourceArithmetic` | script.js:281-300 | the half-point model equals the source's arithmetic: 5, −2 / +1 / +1 for length, +0.5 per keyword, floor(x + 0.5), clamp to [1, 10] |
| `Scoring.CountFound` | script.js:289-297 | the number of keywords found never exceeds the number of keywords tested |
| `Scoring.CountFoundIsSetSize` | script.js:292-297 | for a list of distinct keywords, the count is the size of the set of keywords that occur, so a repeated keyword earns no extra credit |
| `Scoring.KeywordCredit` | script.js:289-297 | the keyword credit of an answer is the number of distinct keywords in its lowered text |
| `Scoring.TipsFor` | script.js:317 | the tips are the question's own whenever it has a tips array (even an empty one), otherwise the fixed default |
| `Scoring.BandMonotonic` | script.js:303-312 | a higher score never gets a worse feedback band |
| `Scoring.MessageDeterminesBand` | script.js:303-312 | the four feedback messages are pairwise distinct, so the text identifies the band |
| `Scoring.LongAnswerScoresEight` | script.js:284-300 | a 250-character answer containing "проект" and "результат" and no other keyword scores 8 with the "good" message, and the question's tips |
| `Scoring.ShortAnswerScoresThree` | script.js:284-300 | a 20-character answer with no keyword scores 3 with the "needs work" message |
| `Scoring.AnalyzeIgnoresCase` | script.js:293 | two answers with the same lowered text get the same analysis |
| `Text.Trim` | script.js:323 | the trimmed text starts and ends with a non-space, and is empty exactly when the text is all white space |
| `Text.TrimCutsOnlySpace` | script.js:323 | the trimmed text is the infix between a leading and a trailing run of white space |
| `Text.Contains` | script.js:293 | `includes` holds exactly when the needle occurs at some position of the text |
| `Text.Take` | script.js:424 | `substring(0, n)` is a prefix of length min(n, length) |
| `Text.NatTextSpellsValue` | script.js:354 | the decimal text a template literal gives a score spells that score back |
| `Speech.FindRussian` | script.js:244-247 | with the source's "ru-RU" or "ru" test, `find` yields the first voice whose tag starts with "ru", and nothing only when no voice's tag does |
| `Speech.ChooseVoice` | script.js:242-251 | a voice is chosen exactly when some voice is Russian, and it is the first Russian voice in list order; otherwise the default voice is used |
| `Speech.SpeechChannel.Speak` | script.js:224-274 | without synthesis the queue is unchanged; otherwise the queue is exactly the new utterance (text, "ru-RU", rate, volume 1, chosen voice) |
| `Speech.SpeechChannel.Cancel` | script.js:233 | cancelling empties the synthesiser's queue |
| `Speech.SpeechChannel.Finish` | script.js:262-270 | the end or error of the spoken utterance removes it from the front of the queue |
| `Speech.SpeechChannel.SetVoices` | script.js:242 | the voice list is what the browser reports now |
| `Speech.SpeakTwice` | script.js:233 | a second speak while the first is pending leaves exactly the second utterance, and the synthesiser is speaking; only the queue changes |
| `Capture.VoiceRecorder.StartVoiceRecording` | script.js:154-204 | the flag is raised and a new stream is live only when microphone access is granted; on denial nothing changes; a still-recording recorder is counted as orphaned |
| `Capture.VoiceRecorder.StopVoiceRecording` | script.js:206-212 | while recording: the recorder stops, a stop is pending and the flag is cleared; otherwise nothing changes |
| `Capture.VoiceRecorder.Click` | script.js:215-221 | without a recogniser the button is disabled (script.js:101) and nothing changes; otherwise the flag is set afterwards exactly when it was clear and access was granted; a click while recording stops the recorder and leaves a stop pending; a start while the current recorder still records counts it as orphaned |
| `Capture.VoiceRecorder.OnRecorderStop` | script.js:178-186 | recognition starts when a recogniser exists and the stopped recorder's stream is released; if the recogniser was already running, the start throws and the stream stays live as leaked; the flag is unchanged |
| `Capture.VoiceRecorder.OnRecognitionEnd` | script.js:143-148 | the flag is always cleared and recognition is over; streams are untouched |
| `Capture.RecordOnce` | script.js:178-221 | start, stop and `onstop` leave the flag clear and recognition running; no stream is live, unless recognition was already running, in which case exactly that recording's stream is leaked |
| `Capture.LeakedOnBusyRecogniser` | script.js:178-186 | record, stop, `onstop`, record, stop, `onstop` leave one leaked live stream, the recogniser still listening |
| `Capture.OrphanedRecording` | script.js:143-221 | the events start, stop, `onstop`, start, `onend`, click reach a state with one orphaned recorder and two live streams, while a new recording runs |
| `Capture.Microphone.Toggle` | script.js:395-417 | a stream is held afterwards exactly when none was held before and access was granted |
| `Session.NextIndex` | script.js:429 | the next index is below the list length: one further, or 0 after the last question |
| `Session.AdvanceWithoutWrap` | script.js:429 | below the last question, `k` presses move the index exactly `k` further |
| `Session.AdvanceCompose` | script.js:429 | `a` presses followed by `b` presses are `a + b` presses |
| `Session.NextCycles` | script.js:429 | `n` presses of next on a list of `n` questions return the index to where it started |
| `Session.HintText` | script.js:424 | the hint is the fixed prefix, then a prefix of the model answer of length min(150, its length), then "..."; a short model answer is given whole |
| `Session.Controller.ShowQuestion` | script.js:67-91 | with no questions nothing changes; otherwise the answer field is cleared and the feedback hidden |
| `Session.Controller.LoadSucceeded` | script.js:38-49 | the list is the loaded one and its first question is shown |
| `Session.Controller.LoadFailed` | script.js:51-63 | the list is exactly the one fallback record, which is shown |
| `Session.Controller.Edit` | script.js:15 | the answer field holds what the user typed |
| `Session.Controller.OnTranscript` | script.js:121-127 | the transcript replaces the answer field |
| `Session.Decide` | script.js:322-333 | the outcome is the prompt exactly when the field is all white space, "no question" exactly when it is not blank and the list is empty, and otherwise the analysis of the trimmed text against the current question |
| `Session.BlankAnswerOnlyPrompts` | script.js:323-328 | a blank field is never analysed and makes the controller speak only the prompt |
| `Session.Controller.Submit` | script.js:322-362 | the outcome is `Decide` of the field; only a scored answer changes the shown result and makes the feedback visible; the synthesiser's queue is then the prompt or the verdict, or untouched when nothing is spoken |
| `Session.Controller.Report` | script.js:336-355 | the shown result is the analysis, the feedback is visible and the verdict is the only queued utterance |
| `Session.Controller.AutoSubmit` | script.js:129-134 | a blank field changes nothing; otherwise the field's current text is submitted (even if it was edited after the transcript arrived), with `Submit`'s effects on the shown result, the feedback visibility and the speech queue |
| `Session.Controller.Hint` | script.js:422-426 | no controller state changes; when there is a question and synthesis exists, exactly the hint is queued at rate 0.8 |
| `Session.Controller.Next` | script.js:428-431 | the index becomes the cyclic successor, the answer is cleared and the feedback hidden |

## Left out

- DOM rendering is not modelled: question text, counters, score badge, tip list, status texts, button labels, the avatar animation, `scrollIntoView`, `alert` and `console`. It is presentation with no logic.
- The progress-bar percentage (script.js:77-78) is not modelled. It is floating-point and presentational.
- `fetch` and JSON parsing are not modelled. Only the two outcomes are: a loaded list (`LoadSucceeded`) or a failure with the fallback (`LoadFailed`). A successful load that yields a non-array, or records without `good_answer`, is outside the model.
- Session.Controller.ShowQuestion: does not model the question read-out that a 1000 ms timer triggers (script.js:86-88). Timing is out of scope.
- Session.Controller.Submit: does not model the tips read-out after the dynamic delay (script.js:358-361). Timing is out of scope.
- The greeting spoken 1500 ms after start-up (script.js:452-454) is not modelled, for the same reason.
- Session.Controller.AutoSubmit: the 2000 ms timer is a discrete event. The race with user edits is flagged in its contract rather than fixed.
- The camera preview (`startCamera`, script.js:365-393) is not modelled. It is device plumbing with a one-shot UI effect.
- Recogniser set-up (script.js:94-113) is modelled only as `hasRecognition`. When it is false, the voice button is disabled (script.js:101), and `Click` does nothing.
- `onstart` and `onerror` (script.js:116-119 and script.js:137-141) are not modelled. `onstart` sets a status text. `onerror` sets a status text and hides the recording indicator. Neither touches the flag. `Valid()` does not depend on `onend` following `onerror`.
- The audio chunks that `ondataavailable` collects (script.js:170-176) are not modelled. Nothing reads them.
- Asynchronous interleavings are not modelled, for example a click while `getUserMedia` is still pending. Each handler runs to completion with the device's answer given as a parameter.
- Session.Controller.Next: requires at least one question. On an empty list the source computes `% 0`, which gives NaN, and the model does not cover that.
- `toLowerCase` is a per-character function. Case mappings that change a string's length are not modelled.
- `.length` is the number of Unicode scalar values, while JavaScript counts UTF-16 code units. The two agree on the Cyrillic and Latin text of this trainer.
- Speech rates are exact reals; floating-point rates are not modelled.
