# Revolt voice assistant: turn-taking and session core in Dafny

This project models the two stateful parts of the Revolt Motors voice
assistant and proves properties of them:

- **The browser's conversation controller** (`public/client.js`). The
  client keeps the flags `isRecording`, `continuousMode`, `isAISpeaking`,
  `isStartingRecognition`, `retryCount`, `networkRetryDelay`,
  `lastInterruptionTime`, `lastSpeechTime` and `currentUtterance`. The
  speech recognizer's callbacks (`onresult`, `onerror`, `onend`,
  `onstart`), the utterance callbacks, the timers, `stopVoiceRecording` and
  `startVoiceInteraction` reassign these flags.
  - `TurnTaking.dfy` gives each callback as a pure transition
    `State -> Step(State, effects)`. An effect is a timer set, a
    recognizer or synthesis call, or a message sent.
  - `Controller.dfy` is a class with the same fields and one method per
    callback. Each method is proved to agree with its transition.
  - The pure helpers are in `ClientLanguage.dfy`: script-based language
    detection, voice choice and the recognition locale table.
- **The server's session store** (`server.js`). The `chatSessions` map
  holds one record per conversation.
  - `SessionStore.dfy` gives the start, message, delete and expiry-sweep
    handlers as functions on the map. The class `SessionStore` performs
    them in place.
  - `TurnService.dfy` holds one conversational turn: prompt shaping,
    history appends, reply truncation and the classification of a failed
    completion.
  - `ServerLanguage.dfy` resolves a language code from the language
    detector's output.

The language detector (franc), the completion service (Gemini), the
speech engines, the clock and the random id suffix are not modelled. They
enter as parameters:
- a `FrancOutcome`;
- a `Completion`, which is `Completed(text)` or `Failed(error)`;
- a `StartOutcome` for `recognition.start()`;
- a `Reply` for `sendMessage`;
- `granted` for the microphone;
- `now`.

Each property below is a verified contract. None of it was executed.

## Model

| member | source | states |
|---|---|---|
| ClientLanguage.DetectLanguageFromText | public/client.js:40-50 | The detected tag is always one of hi, zh, ja, ko, fr, de, es, en. |
| ClientLanguage.DetectNeverSpanish | public/client.js:46-48 | Every Spanish-class letter is also in the French class, which is checked first, so "es" is never returned. |
| ClientLanguage.DetectGermanOnlyBySharpS | public/client.js:42-47 | "de" is returned exactly when the text has ß, no French-class letter and no Devanagari, CJK, kana or Hangul character. |
| ClientLanguage.DetectIgnoresSurroundingWhitespace | public/client.js:40-50 | Trimming the text first does not change the detected tag. |
| ClientLanguage.VoiceIndexFor | public/client.js:53-76 | The choice is empty exactly for an empty voice list. For "en" it is the first default English voice if one exists. Otherwise it is the first voice whose lang starts with the tag, else the first English voice, else voice 0. |
| ClientLanguage.VoiceFor | public/client.js:53-76 | A voice is chosen exactly when the list is non-empty. It is a member of the list, and it speaks the tag whenever some voice does. |
| ClientLanguage.LocaleFor | public/client.js:84-95 | The eight tags map to a locale "xx-YY" that starts with the tag; any other tag maps to en-US. |
| ClientLanguage.LocaleRoundTrip | public/client.js:84-95 | The locale of a supported tag reads back as that tag and is a value of the table. |
| ClientLanguage.LocaleIsKnown | public/client.js:95 | Every tag, supported or not, maps to a locale of the table. |
| TurnTaking.RecognitionLanguageSettles | public/client.js:81-99 | With a recognizer, the locale becomes the tag's locale and nothing else changes. Without one, nothing changes. A second update with the same tag changes nothing. |
| TurnTaking.BackoffBounds | public/client.js:402-415 | The retry delay after n errors is 1000·2ⁿ for n < 3 and 8000 from then on, always within [1000, 8000]. |
| TurnTaking.InvPreserved | public/client.js:265-543 | Every callback keeps the flag invariant. The delay matches the retry count. continuousMode equals isRecording. isAISpeaking holds exactly when an utterance is current. A start in flight implies recording. |
| TurnTaking.RunPreservesInv | public/client.js:265-543 | Any sequence of callbacks keeps the flag invariant. |
| TurnTaking.RetryDelayInRange | public/client.js:402-415 | Under the invariant networkRetryDelay stays within [1000, 8000]. |
| TurnTaking.OnResultKeepsInv | public/client.js:265-306 | A result event keeps the invariant and never changes isRecording. |
| TurnTaking.OnErrorKeepsInv | public/client.js:394-440 | An error event keeps the invariant. |
| TurnTaking.OnMessageResultKeepsInv | public/client.js:307-390 | Handling the server's reply keeps the invariant. |
| TurnTaking.OnTimerKeepsInv | public/client.js:406-412 | A timer firing keeps the invariant. |
| TurnTaking.StartVoiceInteractionKeepsInv | public/client.js:636-655 | Starting a voice interaction keeps the invariant. |
| TurnTaking.NetworkErrorsBackOff | public/client.js:402-415 | While the ceiling of 3 is not passed, k network errors in a row add k to retryCount, set the delay to Backoff(retryCount + k), keep recording, and schedule one restart per error after the delays in effect. |
| TurnTaking.FourthNetworkErrorIsTerminal | public/client.js:402-415 | From a fresh start, three network errors schedule restarts after 1000, 2000 and 4000 ms while recording continues. The fourth stops recording, resets the counters and schedules and starts nothing. |
| TurnTaking.InterruptionClock | public/client.js:282-289 | The interruption clock moves only on a result event. That event needs interim text of trimmed length > 2 while the assistant speaks and more than 1000 ms since the last interruption. The clock then becomes now, speech is silenced and synthesis is cancelled first. |
| TurnTaking.InterruptsThenCancels | public/client.js:282-289 | Conversely, whenever those conditions hold, the result does interrupt: the clock becomes now, speech is silenced and the first effect cancels synthesis. |
| TurnTaking.NoInterruptionWithinCooldown | public/client.js:282-289 | A run of events that all come within 1000 ms of the last interruption leaves the interruption clock unchanged, so no second interruption happens. |
| TurnTaking.StoppedStaysStopped | public/client.js:510-543 | Once recording is off, no event except a granted microphone turns it back on or starts the recognizer. |
| TurnTaking.StopResetsAndIsIdempotent | public/client.js:510-543 | Stopping clears recording and continuous mode, resets retryCount to 0 and the delay to 1000, and clears the start flag and speech. It stops the recognizer when there is one, and cancels synthesis exactly when the assistant was speaking. A second stop does nothing. |
| TurnTaking.ErrorDispatch | public/client.js:394-440 | "aborted" changes nothing. "no-speech" restarts after 100 ms without counting. Permission and hardware errors stop recording with no restart. Any other unknown error restarts after 1000 ms. Restarts happen only while listening. |
| TurnTaking.IdleTimeoutStops | public/client.js:442-460 | While listening, onend stops recording after more than 30000 ms without a final transcript and otherwise schedules a restart after 100 ms. |
| TurnTaking.SingleStartInFlight | public/client.js:479-503 | While a start is in flight nothing happens. The recognizer is started exactly when no start is in flight, a recognizer exists and recording is on. A start that returns leaves the flag set. An InvalidStateError clears the flag and retries after 100 ms. Any other failure stops recording and resets the counters. |
| TurnTaking.StartVoiceInteractionResets | public/client.js:636-655 | A refusal changes nothing. On grant, retryCount is 0 and the delay is 1000. Unless the start fails, recording and continuous mode are on from now. The recognizer is started first when possible. |
| ConversationController.Controller.constructor | public/client.js:11-22 | A new controller holds the page-load flags and the engines that exist. |
| ConversationController.Controller.StopAISpeech | public/client.js:124-131 | The new flags and effects are those of the stopAISpeech transition. |
| ConversationController.Controller.StopVoiceRecording | public/client.js:510-543 | The new flags and effects are those of the stop transition. |
| ConversationController.Controller.HandleRecognitionFailure | public/client.js:505-508 | It behaves as stopVoiceRecording. |
| ConversationController.Controller.StartRecognitionSafely | public/client.js:479-503 | It performs the guarded start transition for the given outcome of recognition.start(). |
| ConversationController.Controller.UpdateRecognitionLanguage | public/client.js:81-99 | The locale update transition is performed. The switch is reported exactly when a recognizer exists and its locale differed. |
| ConversationController.Controller.SplitTranscript | public/client.js:271-279 | The loop from resultIndex joins the final transcripts and the interim transcripts separately, and reports whether any result was interim. |
| ConversationController.Controller.OnResult | public/client.js:265-306 | It performs the onresult transition: interruption, then sending the final transcript. |
| ConversationController.Controller.OnMessageResult | public/client.js:307-390 | It performs the reply transition: detecting the language, choosing a voice and speaking, or restarting after a failure. |
| ConversationController.Controller.OnError | public/client.js:394-440 | It performs the onerror transition. |
| ConversationController.Controller.OnEnd | public/client.js:442-460 | It performs the onend transition. |
| ConversationController.Controller.OnStart | public/client.js:462-465 | Only the start flag is cleared; retryCount is not reset. |
| ConversationController.Controller.OnUtteranceEnd | public/client.js:341-352 | Speech is marked over, and a restart after 300 ms is scheduled while listening. |
| ConversationController.Controller.OnUtteranceError | public/client.js:354-365 | The same as the end of an utterance. |
| ConversationController.Controller.OnTimer | public/client.js:406-412 | A pending timer's callback is performed. |
| ConversationController.Controller.StartVoiceInteraction | public/client.js:636-655 | The granted-microphone transition is performed. |
| ServerLanguage.DetectLanguage | server.js:37-59 | A detector exception and "und" give "en". A known franc code gives its table entry, one of the eight prompt languages. An unknown code other than "und" passes through unchanged. |
| ServerLanguage.PromptLanguage | server.js:219-220 | The prompt language is always a key of the prompt table: the detected code when it is one, "en" otherwise. |
| ServerLanguage.FrancCodeFor | server.js:42-51 | Each prompt language has the franc code that maps to it. |
| ServerLanguage.FrancRoundTrip | server.js:42-54 | Mapping a language's franc code gives back the language, and each franc code is the one its language maps from. |
| ServerLanguage.PromptLanguageIsEnglishUnlessKnown | server.js:219-220 | The prompt language is other than English exactly when the detector succeeds with a franc code of the table other than "eng", or with one of the seven other prompt languages' own two-letter codes, which pass through. |
| Dialogue.ToLower | server.js:230-241 | Lower-casing keeps the length and leaves no upper-case letter. Every other character is kept, and each upper-case letter becomes its lower-case partner 32 code points on. |
| Dialogue.ToLowerIdempotent | server.js:230-241 | Lower-casing twice is lower-casing once. |
| Dialogue.Classify | server.js:227-244 | The first message is always the first-message kind. Otherwise a gratitude keyword gives thanks, then a farewell keyword gives goodbye, otherwise the message is plain. |
| Dialogue.ClassifyIgnoresCase | server.js:230-241 | The kind does not depend on letter case. |
| Dialogue.LongKeywordsAreRedundant | server.js:230-241 | "thanks" and "goodbye" never decide the outcome: the lists without them match the same messages. |
| Dialogue.Shape | server.js:226-244 | A plain message passes through unchanged. |
| Dialogue.PromptQuotesMessage | server.js:226-247 | The prompt starts with the system prompt and contains the user's message, whatever the kind. |
| Dialogue.TurnPrompt | server.js:219-247 | The prompt contains the message and starts with the prompt of the resolved language. |
| Dialogue.Truncate | server.js:296-298 | A reply of at most 200 characters is kept. A longer one becomes its first 200 characters and "...", so the length is at most 203. |
| Dialogue.TruncateIdempotent | server.js:296-298 | Truncating twice is truncating once. |
| Dialogue.RetryAfter | server.js:317 | The retry hint is never empty; anything but "60s" comes from a RetryInfo detail. |
| Dialogue.RetryAfterFromFirstRetryInfo | server.js:317 | The hint is the delay of the first RetryInfo detail when that delay is given. |
| Dialogue.RetryAfterDefaults | server.js:317 | The hint is "60s" when there are no details, no RetryInfo detail, or the first one names no delay. |
| Dialogue.ClassifyFailure | server.js:313-330 | A failure answers 429 or 500. Rate limiting is reported exactly for status 429. The answer is 429 exactly for status 429 or a message containing "quota" or "Quota". |
| Dialogue.TurnWith | server.js:214-330 | The turn touches the session and counts the message. It appends the prompt, then the untruncated reply on success and nothing on failure. The answer is a success exactly when the completion succeeded. The model and fallback flag are reported, and a failure is classified. |
| Dialogue.TurnKeepsHistoryFit | server.js:214-293 | The history keeps room for the opening pair and one user entry per counted message. |
| Dialogue.SuccessfulTurnAlternates | server.js:251-293 | A successful turn on an alternating history of even length keeps it alternating user/model. |
| Dialogue.FailedTurnBreaksAlternation | server.js:251-331 | A failed completion followed by another turn leaves two user entries in a row. |
| Dialogue.ConversationGrowsByPairs | server.js:251-293 | A conversation of successful turns extends the history by one user/model pair per turn and keeps it alternating. |
| Sessions.Decimal | server.js:100 | The time is printed as a non-empty string of digits. |
| Sessions.DecimalRoundTrip | server.js:100 | The printed time reads back as the time. |
| Sessions.SessionIdFor | server.js:100 | A given non-empty id is used. Otherwise the id is the generated "session_<time>_<suffix>". |
| Sessions.UnderscoreEndsDigits | server.js:100 | In a generated id the printed time ends at the first underscore after the prefix. |
| Sessions.GeneratedIdsDiffer | server.js:100 | Two generated ids are equal exactly when their times and suffixes are. |
| Sessions.OpeningHistory | server.js:125-134 | The opening history is a user entry and then a model entry. |
| Sessions.NewSessionAsWritten | server.js:104-176 | As written, the chat uses the primary model while modelUsed is the hard-coded "gemini-1.5-flash". |
| Sessions.AsWrittenReportsAnotherModel | server.js:104-181 | Under every configuration the reported model differs from the model the completions use. |
| Sessions.NewSession | server.js:123-176 | A new session uses the primary model, reports it, has the opening pair, count 0, no fallback, and now as both times. |
| Sessions.TurnKeepsSessionOk | server.js:214-304 | A turn keeps a session well-formed, and a successful answer reports the model the chat uses. |
| Sessions.Start | server.js:98-193 | The corrected start handler of the Findings table. The corrected session is stored under its id, replacing any former one, and no other session changes. The answer names the id and the primary model without fallback. |
| Sessions.StartAsWritten | server.js:98-193 | The start handler as written: the same map update and answer, but the record and the answer carry "gemini-1.5-flash". |
| Sessions.StartAsWrittenBreaksSessionOk | server.js:104-181 | Under every configuration the as-written answer names a model the stored chat does not use, and the stored record breaks the store invariant. It differs from the corrected start only in the model name. |
| Sessions.Submit | server.js:195-340 | Missing fields give 400 and unknown ids give 404, both in both directions, and the map is then unchanged. |
| Sessions.SubmitTouchesSession | server.js:206-304 | For a known id the session's time becomes now and its count goes up by one. Its history grows by two entries on success and one on failure, keeps its old entries, and the new user entry quotes the message. The answer succeeds exactly when the completion does. |
| Sessions.SubmitKeepsOtherSessions | server.js:195-340 | A message request keeps the set of ids and every other session. |
| Sessions.SubmitFound | server.js:206-304 | For a known id the result is the turn applied to that session alone. |
| Sessions.SubmitRejected | server.js:199-212 | A rejected request leaves the map as it was. |
| Sessions.AllOkUpdate | server.js:214-293 | Storing a well-formed session keeps every stored session well-formed. |
| Sessions.End | server.js:342-365 | Success exactly when the id is stored. The id is removed and nothing else changes. |
| Sessions.EndTwiceIsNotFound | server.js:346-356 | A second delete of the same id is not found and changes nothing. |
| Sessions.Live | server.js:454-464 | A sweep keeps exactly the sessions whose last activity is not before now minus one hour, unchanged. |
| Sessions.SweepIdempotent | server.js:454-464 | A second sweep at the same time or an earlier one removes nothing more. |
| Sessions.SweepsCompose | server.js:454-464 | Sweeping at an earlier and then a later time equals sweeping at the later time. |
| Sessions.SessionStore.constructor | server.js:62-71 | The store starts empty with the prompt table of the eight languages. |
| Sessions.SessionStore.StartSession | server.js:98-193 | The map becomes the one the corrected Start computes, and every stored session stays well-formed. |
| Sessions.SessionStore.SubmitMessage | server.js:195-340 | The map and answer are those Submit computes, and every stored session stays well-formed. |
| Sessions.SessionStore.EndSession | server.js:342-365 | The map and answer are those End computes. |
| Sessions.SessionStore.Sweep | server.js:454-464 | The loop leaves exactly the live sessions of the old map. |

## Left out

- The DOM and UI of public/client.js are not modelled: button classes, the status line, log messages, online/offline listeners, the test-voice and voice-quality buttons, and `checkServerStatus`. `preferHighQualityVoice` and `voiceCache` never affect which voice is chosen.
- Transport is not modelled: `startChatSession`, `sendMessage`, `endChatSession`, the health probe and `AbortController` timeouts. The outcome of `sendMessage` is the `Reply` input.
- The WebSocket handler, Express setup, `/health`, `/api/status` and the signal handlers of server.js are not modelled. They are I/O plumbing.
- The model-fallback branch at server.js:137-166 is not modelled. The `try` block before it only builds object literals and cannot throw, so new sessions always take the primary path.
- The speech engines, `getUserMedia`, franc and the Gemini client are inputs, not models. So are the random id suffix and the clock.
- The message handler reads `Date.now()` and `new Date()` more than once. The model uses one `now` per request. `responseTime` is left out.
- `createdAt` is stored but never read by the core. Its value is modelled and nothing is proved about it.
- Strings are sequences of code points. JavaScript strings are UTF-16, so `length`, `substring` and character tests on text outside the Basic Multilingual Plane may differ.
- Dialogue.ToLower: covers ASCII and Latin-1 letters only. The full Unicode `toLowerCase` is not modelled.
- Sessions.Submit: does not model request bodies whose fields are not strings, an undefined completion text, or an error without a message. Those reach the outer 500 handler at server.js:333-339.
- Sessions.SessionStore.SubmitMessage: updates the map once per request. In the source the touch and the user entry are visible to other requests while the completion is awaited. Concurrent requests on one session are not modelled.
- Keys inherited by JavaScript objects, such as `constructor` for the locale and language tables, are not modelled.
- Sessions.Start and Sessions.SessionStore.StartSession: store the corrected record of the Findings table. As written, the answer and the stored `modelUsed` are "gemini-1.5-flash", and `modelUsed == chatSession.model` does not hold for any session the server creates. `Sessions.StartAsWritten` models that behaviour, and `Sessions.StartAsWrittenBreaksSessionOk` proves it.
- Dialogue.Turn: carries no contract of its own. Its properties are proved about `TurnWith`, which takes the shaped prompt as given, and about `TurnPrompt`.
- Only the English welcome message is modelled. The start handler uses no other.
- The controller follows the code where the design description differs:
  - `retryCount` is not reset when recognition starts (`onstart`), only on stop and on a granted microphone;
  - the fourth consecutive network error is the terminal one;
  - a failed completion leaves the user entry in the history with no reply after it;
  - a reply that arrives after the user stopped recording is still spoken.

## Findings

| source | as written | input that shows it | evidently intended | confidence | as-written member | corrected member |
|---|---|---|---|---|---|---|
| server.js:104 | `modelUsed` starts as `'gemini-1.5-flash'` and is only reassigned on the fallback path. So every primary-path session reports a model it does not use, since the chat is created with `config.primaryModel`. | Any start request under the production, development or testing configuration: the chat uses "gemini-2.0-flash-001" (or "gemini-2.0-flash-exp"), yet both endpoints report "gemini-1.5-flash". | `modelUsed` is the primary model the chat is created with. | not executed | Sessions.AsWrittenReportsAnotherModel | Sessions.NewSession |
