# SignConnect server core, modelled in Dafny

SignConnect is an ASL tutoring service. A browser client streams hand
landmarks and microphone audio over a WebSocket, and the server answers with
transcripts, tutor text and UI state. This project models the deterministic
core of its server:

- **`Session`** (`session.dfy`): the per-connection controller of
  `server/app/ws/session.py`.
  - `SessionState` and `SessionManager` are classes whose fields the handlers
    update in place.
  - One incoming event is specified by the pure function `Next`, a whole
    `run` by `RunSpec`. The methods `Step`, `HandleControl`, `StartAsr`,
    `StopAsr`, `Run` and `Close` are proved against them.
  - The socket, the ASR service and the clock become inputs: an `Event` per
    frame, and an `Env` holding the clock reading and the ASR service's
    `is_connected` answer. What the session sends or asks of ASR is a list of
    `Effect`s.
- **`Events`** (`events.dfy`): the wire schema of `server/app/ws/events.py`.
  - The enums, the three client and seven server messages, and their literal
    type tags.
  - Pydantic validation of a decoded JSON object, as `Parse*` functions that
    return `None` on a validation error.
  - `model_dump(by_alias=True)`, as `*Json` encoders.
- **`Coach`** (`coach.dfy`): the three decision functions of
  `server/app/llm/gemini.py`: keyword intent parsing, coaching-template
  choice and next-lesson planning.
- **`Classifier`** (`classifier.dfy`): the stub classifier of
  `server/app/recognition/classifier.py`. The random draws are the fields of a
  `Draw` parameter, whose types admit exactly the values `random.choice` and
  `random.uniform(0.7, 0.99)` return.
- **`ModelJson`** (`model_json.dfy`): the InputLayer rewrite of
  `server/training/convert_to_tfjs.py`, with an in-place loop over an array of
  layers.
- **`TrainingData`** (`training_data.dfy`): the sample filter and the
  histogram rule of `load_training_data` in
  `server/training/train_asl_classifier.py`.
- Support modules:
  - `Wrappers`: an `Option` type.
  - `Json`: decoded JSON values, and Python's `len`, `dict.get` and
    type names on them.
  - `PyStrings`: `str.lower` on ASCII, `str.split()`, `in` on strings,
    `str.join`.

Two facts are modelled as the code has them:

- No statement sets `mode` to anything but IDLE, sets a target sign or
  updates the streak.
- Every `hand_state` message is answered with nothing (see Findings).

## Model

| member | source | states |
|---|---|---|
| Session.RunKeepsInvariant | server/app/ws/session.py:34-39 | From a fresh state, `run` over any inputs only reaches states with mode IDLE, no target, streak 0 and empty weak signs and history. Every ui_state it sends says IDLE, no target and streak 0. |
| Session.LoopKeepsInvariant | server/app/ws/session.py:203-227 | Any number of loop turns keep that invariant and send only such ui_states (by induction over the inputs). |
| Session.NextFrame | server/app/ws/session.py:131-148 | From any state, one event sets the mode only to IDLE and the target only to None. It never writes the streak, the weak signs or the history. |
| Session.LoopFrame | server/app/ws/session.py:203-227 | The same frame holds across any number of loop turns, from any state. |
| Session.NextKeepsInvariant | server/app/ws/session.py:131-148 | No single event sets TEACH or QUIZ, sets a target or changes the streak. |
| Session.RunOpening | server/app/ws/session.py:193-201 | `run` first sends the welcome agent_text_final, then an IDLE ui_state with streak 0, then asks ASR to connect. |
| Session.ControlStart | server/app/ws/session.py:136-140 | "start" sets mode IDLE and leaves the target alone. It sends the welcome text and then a ui_state with mode IDLE, the current target and streak, and no prediction, confidence or suggestion. It then connects ASR only if it was down. The flag afterwards is "was connected, or the service reports connected". |
| Session.ControlStop | server/app/ws/session.py:141-145 | "stop" sets mode IDLE, clears the target and leaves ASR disconnected (a disconnect is taken to return). It asks for a disconnect exactly when ASR was connected, and sends nothing to the client. |
| Session.ControlIgnored | server/app/ws/session.py:131-148 | "toggle_captions", or a control that fails validation, changes nothing and sends nothing. |
| Session.AsrFlagRules | server/app/ws/session.py:159-180 | start_asr while connected and stop_asr while disconnected do nothing. stop_asr always leaves the flag false (a disconnect is taken to return), so a second stop does nothing. The flag after start_asr is the service's report. |
| Session.AudioRules | server/app/ws/session.py:120-129 | audio_chunk never changes the session. It is dropped while ASR is down and when invalid; otherwise its data is forwarded unchanged. |
| Session.TranscriptRules | server/app/ws/session.py:150-157 | A transcript is sent verbatim, as asr_final exactly when final and asr_partial otherwise. |
| Session.UnknownTypeIgnored | server/app/ws/session.py:209-217 | A frame whose type is none of the three client tags changes nothing and sends nothing. |
| Session.DisconnectEndsLoop | server/app/ws/session.py:219-221 | A disconnect clears the running flag, and no input after it is processed. |
| Session.ErrorReplies | server/app/ws/session.py:222-227 | A non-JSON frame gets exactly one error, "Invalid JSON format". A JSON frame that is not an object gets the AttributeError's text "'<type>' object has no attribute 'get'". Neither changes the session. |
| Session.OnlyControlChangesState | server/app/ws/session.py:203-227 | Only a client_control frame changes the session state or the ASR flag, and only a disconnect changes the running flag. |
| Session.HandStateSilent | server/app/ws/session.py:106-118 | As written, a hand_state frame changes nothing and sends nothing. |
| Session.IntendedHandStateReplyShape | server/app/ws/session.py:107-115 | As intended, a valid hand_state frame gets one ui_state with the session's mode, target and streak. Under 21 landmarks: no prediction, confidence 0.0, suggestion "No hand detected". Otherwise: an alphabet sign, a confidence in [0.7, 0.99], no suggestion. An invalid frame gets nothing. |
| Session.UiStateOnTheWire | server/app/ws/session.py:41-54 | to_ui_state's message carries the state's mode, target (under the alias "targetSign") and streak on the wire, and validates back to itself. |
| Session.CloseRules | server/app/ws/session.py:248-250 | Closing leaves ASR disconnected and the loop stopped (a disconnect is taken to return). It asks for a disconnect exactly when ASR was connected. |
| Session.SessionManager.Step | server/app/ws/session.py:203-227 | One loop turn or transcript callback updates the fields and returns the effects as `Next` says. |
| Session.SessionManager.Serve | server/app/ws/session.py:203-227 | The `while self._running` loop steps through the inputs until the client disconnects or they run out. Its new state and its effects are those of `Loop`. |
| Session.SessionManager.Run | server/app/ws/session.py:193-227 | The prologue (running set, welcome, ASR start) followed by the loop. The new fields and the effects are those of `RunSpec`. |
| Session.SessionManager.HandleControl | server/app/ws/session.py:131-148 | Updates the state and ASR flag and returns the effects as `ControlSpec` says. |
| Session.SessionManager.StartAsr | server/app/ws/session.py:159-173 | Updates the flag as `StartAsrSpec` says. |
| Session.SessionManager.StopAsr | server/app/ws/session.py:175-180 | Updates the flag as `StopAsrSpec` says. |
| Session.SessionManager.HandleAudioChunk | server/app/ws/session.py:120-129 | Returns the forwarding `AudioSpec` prescribes. |
| Session.SessionManager.SendWelcome | server/app/ws/session.py:182-191 | Returns the welcome text followed by the current UI state. |
| Session.SessionManager.Close | server/app/ws/session.py:248-250 | stop_asr then stop, as `CloseSpec` says. |
| Session.SessionManager.constructor | server/app/ws/session.py:62-70 | A new session is IDLE, has no target, streak 0, no weak signs or history, and is neither connected nor running. |
| Session.SessionState.constructor | server/app/ws/session.py:34-39 | A new state is IDLE with no target, streak 0 and empty weak signs and history. |
| Events.LiteralValuesRoundTrip | server/app/ws/events.py:15-18 | Every enum and literal field accepts the value it writes, for mode, action, palm facing, thumb position and handedness. |
| Events.SessionModeValues | server/app/ws/events.py:15-18 | SessionMode accepts exactly "IDLE", "TEACH" and "QUIZ". |
| Events.ClientTagsDistinct | server/app/ws/events.py:25-76 | Two client messages have the same tag iff they are the same kind. |
| Events.ServerTagsDistinct | server/app/ws/events.py:87-135 | Two server messages have the same tag iff they are the same kind. |
| Events.ClientServerTagsDisjoint | server/app/ws/events.py:25-135 | No client tag is a server tag. |
| Events.ControlActionIff | server/app/ws/events.py:74-76 | A client_control validates iff its action is "start", "stop" or "toggle_captions". |
| Events.ParsedClientIsValid | server/app/ws/events.py:25-76 | Whatever validates as a client message meets every literal constraint: known tag, action, handedness, palm facing and thumb position. |
| Events.FeaturesLiterals | server/app/ws/events.py:52-58 | Validated features have palmFacing in {camera, away, side} and thumbPosition in {extended, across, tucked}. |
| Events.HandStateLiterals | server/app/ws/events.py:61-66 | A validated hand state has handedness Left or Right and valid features when present. No landmark count is required. |
| Events.ClientRoundTrip | server/app/ws/events.py:25-76 | Every client message, written as JSON, validates back to itself, whatever its landmark count. |
| Events.HandStateRoundTrip | server/app/ws/events.py:61-66 | A hand state round-trips through its JSON form. |
| Events.LandmarksRoundTrip | server/app/ws/events.py:31-34 | A landmark list of any length round-trips through its JSON form. |
| Events.FeaturesRoundTrip | server/app/ws/events.py:37-58 | Hand features round-trip through their JSON form. |
| Events.UiStateRoundTrip | server/app/ws/events.py:117-128 | A ui_state dumped by alias validates back to itself. |
| Events.UiStateDefaults | server/app/ws/events.py:117-125 | With no fields given, a ui_state is IDLE and every optional field is None. |
| Events.UiStateTargetByEitherName | server/app/ws/events.py:120-128 | A ui_state whose only field is the target validates whether the target is given under "targetSign" or under "target_sign", and carries that target with every other field at its default. |
| Events.ServerJson | server/app/ws/events.py:117-125 | A dumped message carries its tag and timestamp. A ui_state carries its target under "targetSign" and never under "target_sign". |
| Events.ErrorCodeDefault | server/app/ws/events.py:131-135 | An error given only a message has code None. |
| Events.HandFeaturesDefault | server/app/ws/events.py:61-66 | A hand state without "features" has features None. |
| Coach.IntentPrecedence | server/app/llm/gemini.py:47-66 | Keywords are tried as case-insensitive substrings in the order teach, quiz, repeat, help, each intent exactly when the earlier keywords are absent. Unknown returns the transcript unchanged. |
| Coach.TeachTarget | server/app/llm/gemini.py:49-54 | A teach target is an upper-case letter. It is the first letter in A..Z order whose lower-case form is a whole whitespace-separated token, and "A" when there is none. |
| Coach.FirstLetterToken | server/app/llm/gemini.py:51-54 | The scan returns the least letter from the start index whose lower-case form is a token, and "A" if none is. |
| Coach.IntentExampleTeacher | server/app/llm/gemini.py:47-54 | "Teacher" is a teach intent with target "A": a substring is enough. |
| Coach.CoachingTemplates | server/app/llm/gemini.py:86-98 | The text starts with "Great job!" iff the prediction matches and confidence > 0.8 (strictly), and "Good!" iff it matches at or below 0.8. "Almost!" iff a mismatch has issues, and "I see " iff a mismatch has none. |
| Coach.CoachingListsFirstTwoIssues | server/app/llm/gemini.py:94-96 | The adjusting text lists the first issue, or the first two joined by ", ", and no more. |
| Coach.CoachingWithoutHand | server/app/llm/gemini.py:94-96 | The classifier's no-hand result is coached with "Almost! I see None …" and the issue "No hand detected". |
| Coach.PlanWeakSignFirst | server/app/llm/gemini.py:111-120 | With weak signs, the plan is TEACH on the first of them, with the hint "Let's practice <sign> again". |
| Coach.PlanProgression | server/app/llm/gemini.py:122-140 | Without weak signs: TEACH on the first character of "ABCEILOVY W" not completed by a passed entry, with no hint. QUIZ on "A" exactly when all are completed. |
| Coach.PlanReachesSpace | server/app/llm/gemini.py:123-133 | The space in the lesson order is a lesson: after the nine letters before it, " " is planned. |
| Coach.FirstOpen | server/app/llm/gemini.py:127-133 | The scan stops at the first lesson not completed, and every lesson before it is completed. |
| Classifier.LabelTables | server/app/recognition/classifier.py:10-12 | The labels are the 10 alphabet signs followed by the 10 common signs: 20 distinct labels. |
| Classifier.ClassifyGuard | server/app/recognition/classifier.py:42-48 | A frame gets the fixed no-hand result iff it has fewer than 21 landmarks, the empty frame included. |
| Classifier.ClassifyAccepted | server/app/recognition/classifier.py:50-66 | With 21 or more landmarks (no upper bound), the prediction is an alphabet sign and top_k has 3 alphabet signs, the first being the prediction. Issues are empty, confidence is in [0.7, 0.99], and the top_k confidences are c, 0.6c and 0.3c for the prediction's confidence c, so non-increasing and positive. |
| Classifier.PredictionIsLabel | server/app/recognition/classifier.py:28-66 | Every prediction is one of the classifier's labels. |
| Classifier.ExtractFeatures | server/app/recognition/classifier.py:68-84 | The landmarks come back unnormalised, with empty curl and distance maps and no orientation. |
| Json.LoopItems | server/training/convert_to_tfjs.py:20 | `for x in j` gets through exactly a list, an empty dict or an empty string. A list yields its items and the other two yield nothing. A number, null, a bool, or a non-empty dict or string fails, since every item of those is a string. |
| ModelJson.FixConfigRename | server/training/convert_to_tfjs.py:23-26 | batch_input_shape afterwards holds its old value if present, else batch_shape's value. batch_shape goes only when renamed, both stay when both were present, and "optional" is always absent. batch_shape is never added. |
| ModelJson.FixConfigKeepsOtherKeys | server/training/convert_to_tfjs.py:22-26 | No other config key appears, disappears or changes. |
| ModelJson.FixLayerOnlyInputLayers | server/training/convert_to_tfjs.py:20-22 | Only an InputLayer changes, and of it only its config. |
| ModelJson.FixLayers | server/training/convert_to_tfjs.py:20-26 | The loop succeeds iff every layer does, and keeps the number and order of layers, fixing each. |
| ModelJson.FixConfigIdempotent | server/training/convert_to_tfjs.py:23-26 | Fixing a fixed config changes nothing. |
| ModelJson.FixLayersIdempotent | server/training/convert_to_tfjs.py:19-26 | Applying the rewrite twice gives the same layers as once. |
| ModelJson.FixAtIdempotent | server/training/convert_to_tfjs.py:19-26 | Fixing the layer list at a path of a fixed document changes nothing (by induction over the path). |
| ModelJson.FixModelJsonIdempotent | server/training/convert_to_tfjs.py:19-26 | Fixing a fixed model.json changes nothing. |
| ModelJson.FixAtKeepsSiblings | server/training/convert_to_tfjs.py:19 | Outside the path to the layer list the document is unchanged. |
| ModelJson.FixModelLayers | server/training/convert_to_tfjs.py:20-26 | The in-place loop succeeds iff every layer can be fixed, and then leaves the array holding the fixed layers. |
| TrainingData.LabelTable | server/training/train_asl_classifier.py:32 | The labels are the 26 distinct letters A..Z in order. |
| TrainingData.ExamineKeepsIff | server/training/train_asl_classifier.py:48-54 | A sample is kept iff it has exactly 63 landmark entries and a letter in A..Z. A sample missing either field is dropped. The loop fails on a sample that is not a dict, and on a dict sample whose landmarks have no length. |
| TrainingData.Filter | server/training/train_asl_classifier.py:45-54 | The filter fails iff some sample makes the body fail, and X and y have equal length. |
| TrainingData.FilterAppend | server/training/train_asl_classifier.py:48-54 | The filter keeps order: filtering a concatenation concatenates the kept pairs. |
| TrainingData.FilterOne | server/training/train_asl_classifier.py:52-54 | One sample gives one (landmarks, letter) pair or none. |
| TrainingData.FilterLetters | server/training/train_asl_classifier.py:52-54 | Every kept letter is a label. |
| TrainingData.FilterSamples | server/training/train_asl_classifier.py:45-54 | The append loop builds exactly the X and y of `Filter`. |
| TrainingData.LoadTrainingData | server/training/train_asl_classifier.py:42-54 | The load reads samples from "data" (default []) and filters them as `LoadSpec` says. |
| TrainingData.Histogram | server/training/train_asl_classifier.py:59-65 | One row per label, in label order. Each row's count is the letter's number of occurrences in y (`Counter(y)[letter]`, 0 when absent), and its bar is that count's bar. |
| TrainingData.BarRule | server/training/train_asl_classifier.py:64 | The bar is count // 5 blocks when count > 0, so empty for counts 1 to 4, and "-" for 0. |
| TrainingData.HistogramTotal | server/training/train_asl_classifier.py:59-65 | When every letter is a label, the counts in the histogram's rows add up to the number of valid samples. |
| TrainingData.WarnsIffFewCounted | server/training/train_asl_classifier.py:197-198 | The warning fires exactly when the histogram of the load counts fewer than 100 samples in its rows. |
| PyStrings.SplitTokens | server/app/llm/gemini.py:52 | `w` is an element of `s.split()` iff it is a maximal run of non-whitespace characters of `s`. |

## Left out

- The WebSocket transport, FastAPI routing, CORS and the health endpoints of `server/app/main.py` are I/O plumbing. `send` failures are not modelled.
- The ASR service and the TTS service are not modelled. `server/app/asr/provider.py` does not define the `DeepgramASR` that `session.py` imports, so ASR is an abstract collaborator: connect, disconnect, the `is_connected` report, and audio forwarding. An exception from `asr.connect` reads as a report of "not connected".
- The TTS service is never used by the session, so no `tts_audio_chunk` is ever sent.
- Clock readings are the `now` of each step, and the messages of one step share one timestamp.
- Session.SessionManager.Run: the source loop blocks waiting for frames. The model runs over a finite sequence of inputs and stops when they run out.
- Session.AsrFlagRules: `asr.disconnect()` is taken never to raise. If it raised, `stop_asr` would leave the flag true.
- Session.ControlStop: `asr.disconnect()` is taken never to raise. If it raised, the error would only be logged: mode IDLE and no target, but the flag would stay true.
- Session.CloseRules: `asr.disconnect()` is taken never to raise. If it raised in the `finally`, the flag would stay true and `session.stop()` would not run.
- Session.Next: a transcript callback is modelled as an event between loop turns, not as a concurrent task.
- Teaching progress, quiz queues, grading, countdowns and barge-in are not implemented by these files (nothing sets TEACH or QUIZ), so they are not modelled.
- `random.choice`/`random.uniform` are the `Draw` parameter. `round(confidence, 3)` and floating-point arithmetic are not modelled: confidences are reals.
- Classifier.ClassifyAccepted: the result's confidence is the drawn value, not rounded to three places.
- Pydantic's lax coercions are not modelled beyond the following:
  - an int field accepts an integral float;
  - a float field accepts an int.
  - Also out: strings to numbers, booleans to numbers, and extra-field handling beyond ignoring extra fields.
- Events.ParseUiState: when both "targetSign" and "target_sign" are given, the alias is taken. The model does not claim pydantic's precedence.
- `str.lower()` is modelled on ASCII letters only. Non-ASCII case mapping is out.
- Dict key order (for example, the renamed `batch_input_shape` moving to the end of the config) is not modelled: JSON objects are maps.
- ModelJson.FixModelLayers: on failure the layers before the failing one are already fixed. The script then stops before writing, and the model promises nothing about the array in that case.
- The file reads and writes, the numpy conversion and the printing of `train_asl_classifier.py` and `convert_to_tfjs.py` are out. The histogram's counts and bars are modelled, not its text layout.
- TensorFlow/scikit-learn model creation, training, evaluation and export are foreign libraries and floating point.
- The async wrappers of `GeminiCoach` are out: their three decision functions are modelled as functions.
- Coach.GenerateCoaching: the `recognition_result` dict is a `Classification`, since the input is the classifier's output. A dict with missing keys (defaults prediction None, confidence 0, issues []) is not modelled. The unused `user_context` argument is left out.
- Coach.PlanNextPrompt: the `session_state` dict is typed. "weak_signs" is a list of strings, and history entries have an optional sign and a truthiness flag for "passed".

## Findings

| source | as written | input that shows it | evidently intended | confidence | as-written member | corrected member |
|---|---|---|---|---|---|---|
| server/app/ws/session.py:107 | `self.classifier.classify(landmarks, features)` passes two arguments to a one-argument method (server/app/recognition/classifier.py:30). The TypeError is caught and only logged, so a hand_state frame is answered with nothing. | any hand_state frame, valid or not | classify the landmarks and send a ui_state with prediction, confidence and the first issue as suggestion | not executed | Session.HandStateSilent | Session.IntendedHandStateReplyShape |
