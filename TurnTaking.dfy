/** The turn-taking state machine of public/client.js, as pure transitions.

    The client keeps its conversation state in module-level flags that the
    recognizer, synthesis and timer callbacks reassign. Here that state is one
    `State` value and every callback is a function from the old state (and the
    event's data) to the new state and the list of `Effect`s the callback
    performs: timers it sets, recognizer and synthesis calls, the message it
    sends. `Date.now()` is the event's `now`. The class in Controller.dfy runs
    the same callbacks imperatively and is proved equal to these functions. */
module TurnTaking {
  import opened Seqs
  import opened ClientLanguage

  const MaxRetries: nat := 3
  const InitialRetryDelay: int := 1000
  const MaxRetryDelay: int := 8000
  const InterruptionCooldown: int := 1000
  const MinInterruptionLength: nat := 2
  const IdleTimeout: int := 30000
  const RestartDelay: int := 100
  const ErrorRestartDelay: int := 1000
  const AfterSpeechDelay: int := 300

  /** What a pending `setTimeout` callback does when it fires. */
  datatype TimerCallback =
    | StartRecognition         // calls startRecognitionSafely()
    | RestartIfListening       // calls it only if continuousMode && isRecording still hold
    | RetryAfterInvalidState   // clears isStartingRecognition, then as RestartIfListening

  /** The side effects a callback performs, in order. */
  datatype Effect =
    | Schedule(delayMs: int, callback: TimerCallback)
    | CancelSynthesis
    | StartRecognizer
    | StopRecognizer
    | SendMessage(text: string)
    | Speak(text: string, voice: Option<Voice>)

  /** How `recognition.start()` returns: normally, or by throwing. */
  datatype StartOutcome = Started | InvalidState | StartFailed

  /** One entry of `event.results`: its first alternative and its finality. */
  datatype RecognitionResult = RecognitionResult(transcript: string, isFinal: bool)

  /** How `await sendMessage(...)` ends: with the server's reply, or by throwing. */
  datatype Reply = Replied(text: string) | Failed(message: string)

  /** Which browser engines exist (`recognition`, `synthesis` defined). */
  datatype Capabilities = Capabilities(hasRecognizer: bool, hasSynthesis: bool)

  /** The module-level flags; `currentUtterance` holds the text being spoken. */
  datatype State = State(
    isRecording: bool,
    continuousMode: bool,
    isAISpeaking: bool,
    isStartingRecognition: bool,
    retryCount: nat,
    networkRetryDelay: int,
    lastInterruptionTime: int,
    lastSpeechTime: int,
    currentUtterance: Option<string>,
    recognitionLang: string)

  datatype Step = Step(state: State, effects: seq<Effect>)

  /** The flags' values when the page loads. */
  const Initial: State := State(false, false, false, false, 0, InitialRetryDelay, 0, 0, None, "en-US")

  /** The retry delay after `n` consecutive network errors: doubled from 1000 ms, capped at 8000 ms. */
  function Backoff(n: nat): int
  {
    if n == 0 then InitialRetryDelay else Min(2 * Backoff(n - 1), MaxRetryDelay)
  }

  lemma {:induction false} BackoffBounds(n: nat)
    ensures InitialRetryDelay <= Backoff(n) <= MaxRetryDelay
    ensures n >= 3 ==> Backoff(n) == MaxRetryDelay
    ensures n < 3 ==> Backoff(n) == InitialRetryDelay * Pow2(n)
  {
    if n > 0 {
      BackoffBounds(n - 1);
    }
  }

  function Pow2(n: nat): nat
  {
    if n == 0 then 1 else 2 * Pow2(n - 1)
  }

  /** What the callbacks keep true of the flags. */
  predicate Inv(caps: Capabilities, s: State)
  {
    && s.networkRetryDelay == Backoff(s.retryCount)
    && s.continuousMode == s.isRecording
    && (s.isAISpeaking <==> s.currentUtterance.Some?)
    && (s.isAISpeaking ==> caps.hasSynthesis)
    && (s.isStartingRecognition ==> caps.hasRecognizer && s.isRecording)
  }

  predicate Listening(s: State)
  {
    s.continuousMode && s.isRecording
  }

  function ScheduleIfListening(s: State, delayMs: int, callback: TimerCallback): seq<Effect>
  {
    if Listening(s) then [Schedule(delayMs, callback)] else []
  }

  // ---------------------------------------------------------------------------
  // Helpers the callbacks share

  /** stopAISpeech */
  function StopAISpeech(caps: Capabilities, s: State): Step
  {
    if caps.hasSynthesis && s.isAISpeaking then
      Step(s.(isAISpeaking := false, currentUtterance := None), [CancelSynthesis])
    else
      Step(s, [])
  }

  /** stopVoiceRecording (and handleRecognitionFailure, which only adds a log line) */
  function StopVoiceRecording(caps: Capabilities, s: State): Step
  {
    if s.isRecording then
      var reset := s.(isRecording := false, continuousMode := false, retryCount := 0,
                      networkRetryDelay := InitialRetryDelay,
                      isStartingRecognition := if caps.hasRecognizer && s.isStartingRecognition then false
                                               else s.isStartingRecognition);
      var speech := StopAISpeech(caps, reset);
      Step(speech.state, (if caps.hasRecognizer then [StopRecognizer] else []) + speech.effects)
    else
      Step(s, [])
  }

  /** startRecognitionSafely, with `recognition.start()`'s outcome as input */
  function StartRecognitionSafely(caps: Capabilities, s: State, outcome: StartOutcome): Step
  {
    if s.isStartingRecognition || !caps.hasRecognizer || !s.isRecording then
      Step(s, [])
    else
      match outcome
      case Started => Step(s.(isStartingRecognition := true), [StartRecognizer])
      case InvalidState =>
        Step(s.(isStartingRecognition := false), [StartRecognizer, Schedule(RestartDelay, RetryAfterInvalidState)])
      case StartFailed =>
        var stop := StopVoiceRecording(caps, s.(isStartingRecognition := false));
        Step(stop.state, [StartRecognizer] + stop.effects)
  }

  /** updateRecognitionLanguage: the recognizer's locale becomes the tag's locale. */
  function UpdateRecognitionLanguage(caps: Capabilities, s: State, tag: string): State
  {
    if caps.hasRecognizer && s.recognitionLang != LocaleFor(tag) then s.(recognitionLang := LocaleFor(tag)) else s
  }

  // ---------------------------------------------------------------------------
  // recognition.onresult

  /** The results the handler's loop visits: from `resultIndex` to the end. */
  function Visited(results: seq<RecognitionResult>, resultIndex: nat): seq<RecognitionResult>
  {
    if resultIndex <= |results| then results[resultIndex..] else []
  }

  /** The transcripts of the final (or of the interim) results, in order. */
  function Joined(rs: seq<RecognitionResult>, final: bool): string
  {
    if rs == [] then ""
    else Joined(rs[..|rs| - 1], final) + (if rs[|rs| - 1].isFinal == final then rs[|rs| - 1].transcript else "")
  }

  predicate HasInterim(rs: seq<RecognitionResult>)
  {
    exists j :: 0 <= j < |rs| && !rs[j].isFinal
  }

  /** The interruption test: the user is heard while the assistant speaks, and
      the previous interruption is more than the cooldown ago. */
  predicate Interrupts(s: State, rs: seq<RecognitionResult>, now: int)
  {
    HasInterim(rs) && s.isAISpeaking && |Trim(Joined(rs, false))| > MinInterruptionLength
    && now - s.lastInterruptionTime > InterruptionCooldown
  }

  /** The synchronous part of `onresult`, up to the `await sendMessage(...)`. */
  function OnResult(caps: Capabilities, s: State, results: seq<RecognitionResult>, resultIndex: nat, now: int): Step
  {
    var rs := Visited(results, resultIndex);
    var final := Joined(rs, true);
    var interruption :=
      if Interrupts(s, rs, now) then StopAISpeech(caps, s.(lastInterruptionTime := now)) else Step(s, []);
    if Trim(final) != "" then
      var heard := UpdateRecognitionLanguage(caps, interruption.state.(lastSpeechTime := now),
                                             DetectLanguageFromText(final));
      Step(heard, interruption.effects + [StopRecognizer, SendMessage(Trim(final))])
    else
      interruption
  }

  /** The rest of `onresult`, once `sendMessage` has returned or thrown. */
  function OnMessageResult(caps: Capabilities, s: State, reply: Reply, voices: seq<Voice>): Step
  {
    match reply
    case Replied(text) =>
      if caps.hasSynthesis then
        var voice := VoiceFor(voices, DetectLanguageFromText(text));
        Step(s.(isAISpeaking := true, currentUtterance := Some(text)), [Speak(text, voice)])
      else
        Step(s, ScheduleIfListening(s, ErrorRestartDelay, StartRecognition))
    case Failed(_) =>
      Step(s, ScheduleIfListening(s, ErrorRestartDelay, StartRecognition))
  }

  // ---------------------------------------------------------------------------
  // The other callbacks

  predicate IsPermissionError(error: string)
  {
    error == "audio-capture" || error == "not-allowed" || error == "service-not-allowed"
  }

  /** recognition.onerror */
  function OnError(caps: Capabilities, s: State, error: string): Step
  {
    if error == "aborted" then
      Step(s, [])
    else if error == "network" then
      var count := s.retryCount + 1;
      if count <= MaxRetries then
        Step(s.(retryCount := count, networkRetryDelay := Min(s.networkRetryDelay * 2, MaxRetryDelay)),
             [Schedule(s.networkRetryDelay, RestartIfListening)])
      else
        StopVoiceRecording(caps, s.(retryCount := count))
    else if error == "no-speech" then
      Step(s, ScheduleIfListening(s, RestartDelay, StartRecognition))
    else if IsPermissionError(error) then
      StopVoiceRecording(caps, s)
    else
      Step(s, ScheduleIfListening(s, ErrorRestartDelay, StartRecognition))
  }

  /** recognition.onend: restart, or go to sleep after 30 s without a final transcript. */
  function OnEnd(caps: Capabilities, s: State, now: int): Step
  {
    if Listening(s) then
      if now - s.lastSpeechTime > IdleTimeout then StopVoiceRecording(caps, s)
      else Step(s, [Schedule(RestartDelay, RestartIfListening)])
    else
      Step(s, [])
  }

  /** recognition.onstart */
  function OnStart(s: State): Step
  {
    Step(s.(isStartingRecognition := false), [])
  }

  /** utterance.onend and utterance.onerror */
  function OnUtteranceDone(s: State): Step
  {
    Step(s.(isAISpeaking := false, currentUtterance := None), ScheduleIfListening(s, AfterSpeechDelay, StartRecognition))
  }

  /** A pending timer fires. */
  function OnTimer(caps: Capabilities, s: State, callback: TimerCallback, outcome: StartOutcome): Step
  {
    match callback
    case StartRecognition => StartRecognitionSafely(caps, s, outcome)
    case RestartIfListening =>
      if Listening(s) then StartRecognitionSafely(caps, s, outcome) else Step(s, [])
    case RetryAfterInvalidState =>
      var cleared := s.(isStartingRecognition := false);
      if Listening(cleared) then StartRecognitionSafely(caps, cleared, outcome) else Step(cleared, [])
  }

  /** startVoiceInteraction once the microphone is granted (a refusal changes no flag). */
  function StartVoiceInteraction(caps: Capabilities, s: State, granted: bool, now: int, outcome: StartOutcome): Step
  {
    if granted then
      StartRecognitionSafely(caps, s.(isRecording := true, continuousMode := true, retryCount := 0,
                                      networkRetryDelay := InitialRetryDelay, lastSpeechTime := now), outcome)
    else
      Step(s, [])
  }

  // ---------------------------------------------------------------------------
  // All callbacks behind one dispatch

  datatype Event =
    | ResultEvent(results: seq<RecognitionResult>, resultIndex: nat, now: int)
    | MessageResultEvent(reply: Reply, voices: seq<Voice>)
    | ErrorEvent(error: string)
    | EndEvent(now: int)
    | StartEvent
    | UtteranceEndEvent
    | UtteranceErrorEvent
    | TimerEvent(callback: TimerCallback, outcome: StartOutcome)
    | StopEvent
    | MicrophoneEvent(granted: bool, now: int, outcome: StartOutcome)

  function Dispatch(caps: Capabilities, s: State, e: Event): Step
  {
    match e
    case ResultEvent(results, resultIndex, now) => OnResult(caps, s, results, resultIndex, now)
    case MessageResultEvent(reply, voices) => OnMessageResult(caps, s, reply, voices)
    case ErrorEvent(error) => OnError(caps, s, error)
    case EndEvent(now) => OnEnd(caps, s, now)
    case StartEvent => OnStart(s)
    case UtteranceEndEvent => OnUtteranceDone(s)
    case UtteranceErrorEvent => OnUtteranceDone(s)
    case TimerEvent(callback, outcome) => OnTimer(caps, s, callback, outcome)
    case StopEvent => StopVoiceRecording(caps, s)
    case MicrophoneEvent(granted, now, outcome) => StartVoiceInteraction(caps, s, granted, now, outcome)
  }

  /** One callback as a function value, for running a sequence of events. */
  function Handler(caps: Capabilities): (State, Event) -> Step
  {
    (st: State, e: Event) => Dispatch(caps, st, e)
  }

  /** Events handled one after another by `step`: the final state and all effects in order. */
  function RunWith(step: (State, Event) -> Step, s: State, events: seq<Event>): Step
    decreases |events|
  {
    if events == [] then Step(s, [])
    else
      var first := step(s, events[0]);
      var rest := RunWith(step, first.state, events[1..]);
      Step(rest.state, first.effects + rest.effects)
  }

  /** The controller handling `events` one after another from state `s`. */
  function Run(caps: Capabilities, s: State, events: seq<Event>): Step
  {
    RunWith(Handler(caps), s, events)
  }

  // ---------------------------------------------------------------------------
  // Properties

  /** Every callback keeps the flags consistent. */
  lemma InvPreserved(caps: Capabilities, s: State, e: Event)
    requires Inv(caps, s)
    ensures Inv(caps, Dispatch(caps, s, e).state)
  {
    match e
    case ResultEvent(results, resultIndex, now) => OnResultKeepsInv(caps, s, results, resultIndex, now);
    case MessageResultEvent(reply, voices) => OnMessageResultKeepsInv(caps, s, reply, voices);
    case ErrorEvent(error) => OnErrorKeepsInv(caps, s, error);
    case EndEvent(now) =>
    case StartEvent =>
    case UtteranceEndEvent =>
    case UtteranceErrorEvent =>
    case TimerEvent(callback, outcome) => OnTimerKeepsInv(caps, s, callback, outcome);
    case StopEvent =>
    case MicrophoneEvent(granted, now, outcome) => StartVoiceInteractionKeepsInv(caps, s, granted, now, outcome);
  }

  lemma OnMessageResultKeepsInv(caps: Capabilities, s: State, reply: Reply, voices: seq<Voice>)
    requires Inv(caps, s)
    ensures Inv(caps, OnMessageResult(caps, s, reply, voices).state)
  {
  }

  lemma OnTimerKeepsInv(caps: Capabilities, s: State, callback: TimerCallback, outcome: StartOutcome)
    requires Inv(caps, s)
    ensures Inv(caps, OnTimer(caps, s, callback, outcome).state)
  {
  }

  lemma StartVoiceInteractionKeepsInv(caps: Capabilities, s: State, granted: bool, now: int, outcome: StartOutcome)
    requires Inv(caps, s)
    ensures Inv(caps, StartVoiceInteraction(caps, s, granted, now, outcome).state)
  {
  }

  lemma OnResultKeepsInv(caps: Capabilities, s: State, results: seq<RecognitionResult>, resultIndex: nat, now: int)
    requires Inv(caps, s)
    ensures Inv(caps, OnResult(caps, s, results, resultIndex, now).state)
    ensures OnResult(caps, s, results, resultIndex, now).state.isRecording == s.isRecording
  {
    var rs := Visited(results, resultIndex);
    var interruption :=
      if Interrupts(s, rs, now) then StopAISpeech(caps, s.(lastInterruptionTime := now)) else Step(s, []);
    assert Inv(caps, interruption.state) && interruption.state.isRecording == s.isRecording;
  }

  lemma OnErrorKeepsInv(caps: Capabilities, s: State, error: string)
    requires Inv(caps, s)
    ensures Inv(caps, OnError(caps, s, error).state)
  {
    if error == "network" && s.retryCount + 1 > MaxRetries {
      BackoffBounds(s.retryCount);
      BackoffBounds(s.retryCount + 1);
    }
  }

  lemma {:induction false} RunPreservesInv(caps: Capabilities, s: State, events: seq<Event>)
    requires Inv(caps, s)
    ensures Inv(caps, Run(caps, s, events).state)
    decreases |events|
  {
    if events != [] {
      InvPreserved(caps, s, events[0]);
      RunPreservesInv(caps, Dispatch(caps, s, events[0]).state, events[1..]);
    }
  }

  /** The network retry delay never leaves [1000, 8000]. */
  lemma RetryDelayInRange(caps: Capabilities, s: State)
    requires Inv(caps, s)
    ensures InitialRetryDelay <= s.networkRetryDelay <= MaxRetryDelay
  {
    BackoffBounds(s.retryCount);
  }

  /** Handling `a` and then `b` is handling `a + b`. */
  lemma {:induction false} RunAppend(step: (State, Event) -> Step, s: State, a: seq<Event>, b: seq<Event>)
    ensures RunWith(step, s, a + b).state == RunWith(step, RunWith(step, s, a).state, b).state
    ensures RunWith(step, s, a + b).effects
      == RunWith(step, s, a).effects + RunWith(step, RunWith(step, s, a).state, b).effects
    decreases |a|
  {
    if a == [] {
      assert a + b == b;
    } else {
      assert (a + b)[0] == a[0] && (a + b)[1..] == a[1..] + b;
      RunAppend(step, step(s, a[0]).state, a[1..], b);
    }
  }

  function NetworkErrors(k: nat): seq<Event>
  {
    if k == 0 then [] else [ErrorEvent("network")] + NetworkErrors(k - 1)
  }

  /** The restarts scheduled by the network errors number n+1 .. n+k. */
  function RetrySchedule(n: nat, k: nat): seq<Effect>
    decreases k
  {
    if k == 0 then [] else [Schedule(Backoff(n), RestartIfListening)] + RetrySchedule(n + 1, k - 1)
  }

  /** While the ceiling is not passed, each network error schedules one
      restart after the current delay and doubles the delay; recording goes on. */
  lemma {:induction false} NetworkErrorsBackOff(caps: Capabilities, s: State, k: nat)
    requires Inv(caps, s) && s.isRecording && s.retryCount + k <= MaxRetries
    ensures Run(caps, s, NetworkErrors(k)).state
      == s.(retryCount := s.retryCount + k, networkRetryDelay := Backoff(s.retryCount + k))
    ensures Run(caps, s, NetworkErrors(k)).effects == RetrySchedule(s.retryCount, k)
    decreases k
  {
    if k > 0 {
      var next := Dispatch(caps, s, ErrorEvent("network")).state;
      assert next == s.(retryCount := s.retryCount + 1, networkRetryDelay := Backoff(s.retryCount + 1));
      NetworkErrorsBackOff(caps, next, k - 1);
    }
  }

  /** From a fresh start, three network errors in a row schedule restarts
      after 1000, 2000 and 4000 ms, and the fourth one ends the session:
      recording stops and nothing more is scheduled or started. */
  lemma FourthNetworkErrorIsTerminal(caps: Capabilities, s: State)
    requires Inv(caps, s) && s.isRecording && s.retryCount == 0
    ensures var three := Run(caps, s, NetworkErrors(3));
      && three.state.isRecording
      && three.effects == [Schedule(1000, RestartIfListening), Schedule(2000, RestartIfListening),
                           Schedule(4000, RestartIfListening)]
    ensures var four := Run(caps, s, NetworkErrors(4));
      && !four.state.isRecording && four.state.retryCount == 0
      && four.state.networkRetryDelay == InitialRetryDelay
      && forall i :: 3 <= i < |four.effects| ==> !four.effects[i].Schedule? && four.effects[i] != StartRecognizer
  {
    ThreeNetworkErrors(caps, s);
    var three := Run(caps, s, NetworkErrors(3));
    NetworkErrorPastCeiling(caps, three.state);
    assert NetworkErrors(4) == NetworkErrors(3) + [ErrorEvent("network")] by {
      assert NetworkErrors(1) == [ErrorEvent("network")];
    }
    RunAppend(Handler(caps), s, NetworkErrors(3), [ErrorEvent("network")]);
    RunOne(Handler(caps), three.state, ErrorEvent("network"));
  }

  lemma ThreeNetworkErrors(caps: Capabilities, s: State)
    requires Inv(caps, s) && s.isRecording && s.retryCount == 0
    ensures var three := Run(caps, s, NetworkErrors(3));
      && three.state == s.(retryCount := 3, networkRetryDelay := MaxRetryDelay)
      && three.effects == [Schedule(1000, RestartIfListening), Schedule(2000, RestartIfListening),
                           Schedule(4000, RestartIfListening)]
  {
    NetworkErrorsBackOff(caps, s, 3);
    BackoffBounds(1);
    BackoffBounds(2);
    BackoffBounds(3);
  }

  /** A network error beyond the retry ceiling stops recording without
      scheduling or starting anything. */
  lemma NetworkErrorPastCeiling(caps: Capabilities, s: State)
    requires s.isRecording && s.retryCount == MaxRetries
    ensures var last := Dispatch(caps, s, ErrorEvent("network"));
      && !last.state.isRecording && last.state.retryCount == 0
      && last.state.networkRetryDelay == InitialRetryDelay
      && forall i :: 0 <= i < |last.effects| ==> !last.effects[i].Schedule? && last.effects[i] != StartRecognizer
  {
    var last := Dispatch(caps, s, ErrorEvent("network"));
    assert last == StopVoiceRecording(caps, s.(retryCount := MaxRetries + 1));
    assert forall i :: 0 <= i < |last.effects| ==> last.effects[i] == StopRecognizer || last.effects[i] == CancelSynthesis;
  }

  lemma RunOne(step: (State, Event) -> Step, s: State, e: Event)
    ensures RunWith(step, s, [e]) == step(s, e)
  {
    assert [e][1..] == [];
  }

  /** An interruption happens only on a result event, cancels the speech and
      stamps the clock; every other event leaves the interruption clock alone. */
  lemma InterruptionClock(caps: Capabilities, s: State, e: Event)
    requires Inv(caps, s)
    ensures var next := Dispatch(caps, s, e);
      next.state.lastInterruptionTime != s.lastInterruptionTime ==>
        && e.ResultEvent? && Interrupts(s, Visited(e.results, e.resultIndex), e.now)
        && e.now - s.lastInterruptionTime > InterruptionCooldown
        && next.state.lastInterruptionTime == e.now
        && !next.state.isAISpeaking && next.state.currentUtterance == None
        && next.effects[0] == CancelSynthesis
  {
    if e.ResultEvent? {
      OnResultClock(caps, s, e.results, e.resultIndex, e.now);
    } else {
      OtherEventsKeepClock(caps, s, e);
    }
  }

  lemma OnResultClock(caps: Capabilities, s: State, results: seq<RecognitionResult>, resultIndex: nat, now: int)
    requires Inv(caps, s)
    ensures var next := OnResult(caps, s, results, resultIndex, now);
      next.state.lastInterruptionTime != s.lastInterruptionTime ==>
        && Interrupts(s, Visited(results, resultIndex), now)
        && next.state.lastInterruptionTime == now
        && !next.state.isAISpeaking && next.state.currentUtterance == None
        && next.effects[0] == CancelSynthesis
  {
    var rs := Visited(results, resultIndex);
    if Interrupts(s, rs, now) {
      var interruption := StopAISpeech(caps, s.(lastInterruptionTime := now));
      assert interruption.effects == [CancelSynthesis];
    }
  }

  /** The converse: a result heard while the assistant speaks, with interim
      text longer than two characters once trimmed and the cooldown past,
      does interrupt; synthesis is cancelled before anything else. */
  lemma InterruptsThenCancels(caps: Capabilities, s: State, results: seq<RecognitionResult>, resultIndex: nat, now: int)
    requires Inv(caps, s) && Interrupts(s, Visited(results, resultIndex), now)
    ensures var next := OnResult(caps, s, results, resultIndex, now);
      && next.state.lastInterruptionTime == now
      && !next.state.isAISpeaking && next.state.currentUtterance == None
      && |next.effects| > 0 && next.effects[0] == CancelSynthesis
  {
    var interruption := StopAISpeech(caps, s.(lastInterruptionTime := now));
    assert interruption.effects == [CancelSynthesis];
  }

  lemma OtherEventsKeepClock(caps: Capabilities, s: State, e: Event)
    requires !e.ResultEvent?
    ensures Dispatch(caps, s, e).state.lastInterruptionTime == s.lastInterruptionTime
  {
  }

  /** After an interruption at time t, no result arriving at most 1000 ms
      after t interrupts again, whatever else happens in between. */
  lemma {:induction false} NoInterruptionWithinCooldown(caps: Capabilities, s: State, events: seq<Event>)
    requires Inv(caps, s)
    requires forall i :: 0 <= i < |events| && events[i].ResultEvent? ==>
      events[i].now - s.lastInterruptionTime <= InterruptionCooldown
    ensures Run(caps, s, events).state.lastInterruptionTime == s.lastInterruptionTime
    decreases |events|
  {
    if events != [] {
      var next := Dispatch(caps, s, events[0]).state;
      InterruptionClock(caps, s, events[0]);
      InvPreserved(caps, s, events[0]);
      assert next.lastInterruptionTime == s.lastInterruptionTime;
      forall i | 0 <= i < |events[1..]| && events[1..][i].ResultEvent?
        ensures events[1..][i].now - next.lastInterruptionTime <= InterruptionCooldown
      {
        assert events[1..][i] == events[i + 1];
      }
      NoInterruptionWithinCooldown(caps, next, events[1..]);
    }
  }

  /** One event other than a granted microphone leaves recording off and
      does not start the recognizer. */
  lemma StoppedStepStaysStopped(caps: Capabilities, s: State, e: Event)
    requires Inv(caps, s) && !s.isRecording
    requires !(e.MicrophoneEvent? && e.granted)
    ensures !Dispatch(caps, s, e).state.isRecording
    ensures StartRecognizer !in Dispatch(caps, s, e).effects
  {
  }

  /** Once recording is off, only a granted microphone turns it on again:
      pending timers, late results and errors never start the recognizer. */
  lemma {:induction false} StoppedStaysStopped(caps: Capabilities, s: State, events: seq<Event>)
    requires Inv(caps, s) && !s.isRecording
    requires forall i :: 0 <= i < |events| ==> !(events[i].MicrophoneEvent? && events[i].granted)
    ensures !Run(caps, s, events).state.isRecording
    ensures StartRecognizer !in Run(caps, s, events).effects
    decreases |events|
  {
    if events != [] {
      var first := Dispatch(caps, s, events[0]);
      InvPreserved(caps, s, events[0]);
      StoppedStepStaysStopped(caps, s, events[0]);
      forall i | 0 <= i < |events[1..]| ensures !(events[1..][i].MicrophoneEvent? && events[1..][i].granted) {
        assert events[1..][i] == events[i + 1];
      }
      StoppedStaysStopped(caps, first.state, events[1..]);
    }
  }

  /** stopVoiceRecording resets the counters, silences the assistant, and a
      second call does nothing. */
  lemma StopResetsAndIsIdempotent(caps: Capabilities, s: State)
    requires Inv(caps, s) && s.isRecording
    ensures var stop := StopVoiceRecording(caps, s);
      && !stop.state.isRecording && !stop.state.continuousMode
      && stop.state.retryCount == 0 && stop.state.networkRetryDelay == InitialRetryDelay
      && !stop.state.isStartingRecognition && !stop.state.isAISpeaking
      && (caps.hasRecognizer ==> stop.effects[0] == StopRecognizer)
      && (s.isAISpeaking <==> CancelSynthesis in stop.effects)
      && StopVoiceRecording(caps, stop.state) == Step(stop.state, [])
  {
  }

  /** The error dispatch: "aborted" does nothing, "no-speech" restarts after
      100 ms without counting, permission errors stop, anything else unknown
      restarts after 1000 ms; restarts are set only while listening. */
  lemma ErrorDispatch(caps: Capabilities, s: State, error: string)
    requires Inv(caps, s)
    ensures error == "aborted" ==> OnError(caps, s, error) == Step(s, [])
    ensures error == "no-speech" ==>
      && OnError(caps, s, error).state == s
      && OnError(caps, s, error).effects == (if s.isRecording then [Schedule(RestartDelay, StartRecognition)] else [])
    ensures IsPermissionError(error) ==>
      && !OnError(caps, s, error).state.isRecording
      && forall f :: f in OnError(caps, s, error).effects ==> !f.Schedule?
    ensures error !in {"aborted", "network", "no-speech"} && !IsPermissionError(error) ==>
      OnError(caps, s, error) == Step(s, if s.isRecording then [Schedule(ErrorRestartDelay, StartRecognition)] else [])
  {
  }

  /** onend: while listening, more than 30 s without a final transcript ends
      the session, anything shorter schedules a restart after 100 ms. */
  lemma IdleTimeoutStops(caps: Capabilities, s: State, now: int)
    requires Inv(caps, s) && s.isRecording
    ensures now - s.lastSpeechTime > IdleTimeout ==> !OnEnd(caps, s, now).state.isRecording
    ensures now - s.lastSpeechTime <= IdleTimeout ==>
      OnEnd(caps, s, now) == Step(s, [Schedule(RestartDelay, RestartIfListening)])
  {
  }

  /** startRecognitionSafely starts at most one recognizer: while a start is
      in flight it does nothing, a start that returns leaves the flag set, an
      InvalidStateError retries after 100 ms, and any other failure stops
      recording through handleRecognitionFailure. */
  lemma SingleStartInFlight(caps: Capabilities, s: State, outcome: StartOutcome)
    requires Inv(caps, s)
    ensures s.isStartingRecognition ==> StartRecognitionSafely(caps, s, outcome) == Step(s, [])
    ensures var start := StartRecognitionSafely(caps, s, outcome);
      StartRecognizer in start.effects <==> !s.isStartingRecognition && caps.hasRecognizer && s.isRecording
    ensures outcome == Started && caps.hasRecognizer && s.isRecording && !s.isStartingRecognition ==>
      StartRecognitionSafely(caps, s, outcome).state.isStartingRecognition
    ensures caps.hasRecognizer && s.isRecording && !s.isStartingRecognition ==>
      StartRecognitionSafely(caps, s, InvalidState)
        == Step(s, [StartRecognizer, Schedule(RestartDelay, RetryAfterInvalidState)])
    ensures var failed := StartRecognitionSafely(caps, s, StartFailed).state;
      caps.hasRecognizer && s.isRecording && !s.isStartingRecognition ==>
        !failed.isRecording && !failed.continuousMode && !failed.isStartingRecognition
        && failed.retryCount == 0 && failed.networkRetryDelay == InitialRetryDelay
  {
  }

  /** The recognizer's locale follows the tag through the fixed table; a
      second update with the same tag changes nothing. */
  lemma RecognitionLanguageSettles(caps: Capabilities, s: State, tag: string)
    ensures var t := UpdateRecognitionLanguage(caps, s, tag);
      && (caps.hasRecognizer ==> t.recognitionLang == LocaleFor(tag) && t == s.(recognitionLang := LocaleFor(tag)))
      && (!caps.hasRecognizer ==> t == s)
      && UpdateRecognitionLanguage(caps, t, tag) == t
  {
  }

  /** Once the microphone is granted the counters start afresh and the
      session listens from `now`; a refusal changes nothing. */
  lemma StartVoiceInteractionResets(caps: Capabilities, s: State, granted: bool, now: int, outcome: StartOutcome)
    requires Inv(caps, s)
    ensures !granted ==> StartVoiceInteraction(caps, s, granted, now, outcome) == Step(s, [])
    ensures var t := StartVoiceInteraction(caps, s, granted, now, outcome).state;
      granted ==> t.retryCount == 0 && t.networkRetryDelay == InitialRetryDelay
    ensures var t := StartVoiceInteraction(caps, s, granted, now, outcome).state;
      granted && outcome != StartFailed ==> t.isRecording && t.continuousMode && t.lastSpeechTime == now
    ensures var start := StartVoiceInteraction(caps, s, granted, now, outcome);
      granted && caps.hasRecognizer && !s.isStartingRecognition ==> start.effects[0] == StartRecognizer
  {
  }
}
