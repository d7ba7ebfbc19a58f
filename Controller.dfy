/** The conversation controller of public/client.js as the object it is: the
    module-level flags are the fields of one `Controller`, and each recognizer,
    synthesis and timer callback is a method that reassigns them in the order
    the source does. Each method's contract ties the new flags and the effects
    it returns to the transition of the same name in TurnTaking.dfy, where the
    turn-taking properties are proved. */
module ConversationController {
  import opened Seqs
  import opened ClientLanguage
  import opened TurnTaking

  class Controller {
    /** Whether the browser has speech recognition and speech synthesis. */
    const hasRecognizer: bool
    const hasSynthesis: bool

    var isRecording: bool
    var continuousMode: bool
    var isAISpeaking: bool
    var isStartingRecognition: bool
    var retryCount: nat
    var networkRetryDelay: int
    var lastInterruptionTime: int
    var lastSpeechTime: int
    var currentUtterance: Option<string>
    /** `recognition.lang` */
    var recognitionLang: string

    function Caps(): Capabilities
    {
      Capabilities(hasRecognizer, hasSynthesis)
    }

    function Snapshot(): State
      reads this
    {
      State(isRecording, continuousMode, isAISpeaking, isStartingRecognition, retryCount,
            networkRetryDelay, lastInterruptionTime, lastSpeechTime, currentUtterance, recognitionLang)
    }

    predicate Valid()
      reads this
    {
      Inv(Caps(), Snapshot())
    }

    /** initializeSpeechAPI with the engines the browser offers. */
    constructor (hasRecognizer: bool, hasSynthesis: bool)
      ensures Valid() && Snapshot() == Initial
      ensures Caps() == Capabilities(hasRecognizer, hasSynthesis)
    {
      this.hasRecognizer := hasRecognizer;
      this.hasSynthesis := hasSynthesis;
      isRecording := false;
      continuousMode := false;
      isAISpeaking := false;
      isStartingRecognition := false;
      retryCount := 0;
      networkRetryDelay := InitialRetryDelay;
      lastInterruptionTime := 0;
      lastSpeechTime := 0;
      currentUtterance := None;
      recognitionLang := "en-US";
    }

    method StopAISpeech() returns (effects: seq<Effect>)
      requires Valid()
      modifies this
      ensures Valid()
      ensures Step(Snapshot(), effects) == TurnTaking.StopAISpeech(Caps(), old(Snapshot()))
    {
      effects := [];
      if hasSynthesis && isAISpeaking {
        effects := [CancelSynthesis];
        isAISpeaking := false;
        currentUtterance := None;
      }
    }

    method StopVoiceRecording() returns (effects: seq<Effect>)
      requires Valid()
      modifies this
      ensures Valid()
      ensures Step(Snapshot(), effects) == TurnTaking.StopVoiceRecording(Caps(), old(Snapshot()))
    {
      effects := [];
      if isRecording {
        isRecording := false;
        continuousMode := false;
        retryCount := 0;
        networkRetryDelay := InitialRetryDelay;
        if hasRecognizer && isStartingRecognition {
          isStartingRecognition := false;
        }
        if hasRecognizer {
          effects := [StopRecognizer];
        }
        var speech := StopAISpeech();
        effects := effects + speech;
      }
    }

    method HandleRecognitionFailure() returns (effects: seq<Effect>)
      requires Valid()
      modifies this
      ensures Valid()
      ensures Step(Snapshot(), effects) == TurnTaking.StopVoiceRecording(Caps(), old(Snapshot()))
    {
      effects := StopVoiceRecording();
    }

    method StartRecognitionSafely(outcome: StartOutcome) returns (effects: seq<Effect>)
      requires Valid()
      modifies this
      ensures Valid()
      ensures Step(Snapshot(), effects) == TurnTaking.StartRecognitionSafely(Caps(), old(Snapshot()), outcome)
    {
      if isStartingRecognition || !hasRecognizer || !isRecording {
        return [];
      }
      isStartingRecognition := true;
      effects := [StartRecognizer];
      if outcome != Started {
        isStartingRecognition := false;
        if outcome == InvalidState {
          effects := effects + [Schedule(RestartDelay, RetryAfterInvalidState)];
        } else {
          var stop := HandleRecognitionFailure();
          effects := effects + stop;
        }
      }
    }

    /** updateRecognitionLanguage; `switched` is whether the locale changed (and a line was logged). */
    method UpdateRecognitionLanguage(tag: string) returns (switched: bool)
      requires Valid()
      modifies this
      ensures Valid()
      ensures Snapshot() == TurnTaking.UpdateRecognitionLanguage(Caps(), old(Snapshot()), tag)
      ensures switched <==> hasRecognizer && old(recognitionLang) != LocaleFor(tag)
    {
      switched := false;
      if !hasRecognizer {
        return;
      }
      var newLang := LocaleFor(tag);
      if recognitionLang != newLang {
        recognitionLang := newLang;
        switched := true;
      }
    }

    /** The loop of `onresult`: final and interim transcripts of the results
        from `resultIndex` on, and whether any result is interim. */
    static method SplitTranscript(results: seq<RecognitionResult>, resultIndex: nat)
      returns (final: string, interim: string, hasInterim: bool)
      ensures final == Joined(Visited(results, resultIndex), true)
      ensures interim == Joined(Visited(results, resultIndex), false)
      ensures hasInterim == HasInterim(Visited(results, resultIndex))
    {
      final, interim, hasInterim := "", "", false;
      var i := resultIndex;
      while i < |results|
        invariant resultIndex <= i
        invariant resultIndex <= |results| ==> i <= |results|
        invariant resultIndex <= |results| ==>
          && final == Joined(results[resultIndex..i], true)
          && interim == Joined(results[resultIndex..i], false)
          && hasInterim == HasInterim(results[resultIndex..i])
        invariant resultIndex > |results| ==> final == "" && interim == "" && !hasInterim
      {
        var done := results[resultIndex..i + 1];
        assert |done| == i + 1 - resultIndex;
        assert done[..|done| - 1] == results[resultIndex..i];
        assert done[|done| - 1] == results[i];
        if results[i].isFinal {
          final := final + results[i].transcript;
        } else {
          interim := interim + results[i].transcript;
          hasInterim := true;
        }
        assert HasInterim(done) <==> HasInterim(results[resultIndex..i]) || !results[i].isFinal by {
          if HasInterim(results[resultIndex..i]) {
            var j :| 0 <= j < i - resultIndex && !results[resultIndex..i][j].isFinal;
            assert done[j] == results[resultIndex..i][j];
          }
          if HasInterim(done) {
            var j :| 0 <= j < |done| && !done[j].isFinal;
            if j < |done| - 1 {
              assert results[resultIndex..i][j] == done[j];
            }
          }
        }
        i := i + 1;
      }
      if resultIndex <= |results| {
        assert results[resultIndex..i] == Visited(results, resultIndex);
      }
    }

    /** recognition.onresult up to the `await sendMessage(...)`. */
    method OnResult(results: seq<RecognitionResult>, resultIndex: nat, now: int) returns (effects: seq<Effect>)
      requires Valid()
      modifies this
      ensures Valid()
      ensures Step(Snapshot(), effects) == TurnTaking.OnResult(Caps(), old(Snapshot()), results, resultIndex, now)
    {
      var final, interim, hasInterim := SplitTranscript(results, resultIndex);
      effects := [];
      if hasInterim && isAISpeaking && |Trim(interim)| > MinInterruptionLength {
        if now - lastInterruptionTime > InterruptionCooldown {
          lastInterruptionTime := now;
          effects := StopAISpeech();
        }
      }
      if Trim(final) != "" {
        lastSpeechTime := now;
        var userLanguage := DetectLanguageFromText(final);
        var _ := UpdateRecognitionLanguage(userLanguage);
        effects := effects + [StopRecognizer, SendMessage(Trim(final))];
      }
    }

    /** The rest of recognition.onresult, once `sendMessage` returned or threw. */
    method OnMessageResult(reply: Reply, voices: seq<Voice>) returns (effects: seq<Effect>)
      requires Valid()
      modifies this
      ensures Valid()
      ensures Step(Snapshot(), effects) == TurnTaking.OnMessageResult(Caps(), old(Snapshot()), reply, voices)
    {
      effects := [];
      match reply
      case Replied(text) =>
        if hasSynthesis {
          var detectedLanguage := DetectLanguageFromText(text);
          var voice := VoiceFor(voices, detectedLanguage);
          isAISpeaking := true;
          currentUtterance := Some(text);
          effects := [Speak(text, voice)];
        } else if continuousMode && isRecording {
          effects := [Schedule(ErrorRestartDelay, StartRecognition)];
        }
      case Failed(_) =>
        if continuousMode && isRecording {
          effects := [Schedule(ErrorRestartDelay, StartRecognition)];
        }
    }

    method OnError(error: string) returns (effects: seq<Effect>)
      requires Valid()
      modifies this
      ensures Valid()
      ensures Step(Snapshot(), effects) == TurnTaking.OnError(Caps(), old(Snapshot()), error)
    {
      effects := [];
      if error == "aborted" {
        return;
      }
      if error == "network" {
        BackoffBounds(retryCount);
        BackoffBounds(retryCount + 1);
        retryCount := retryCount + 1;
        if retryCount <= MaxRetries {
          effects := [Schedule(networkRetryDelay, RestartIfListening)];
          networkRetryDelay := Min(networkRetryDelay * 2, MaxRetryDelay);
        } else {
          effects := HandleRecognitionFailure();
        }
      } else if error == "no-speech" {
        if continuousMode && isRecording {
          effects := [Schedule(RestartDelay, StartRecognition)];
        }
      } else if error == "audio-capture" {
        effects := HandleRecognitionFailure();
      } else if error == "not-allowed" {
        effects := HandleRecognitionFailure();
      } else if error == "service-not-allowed" {
        effects := HandleRecognitionFailure();
      } else if continuousMode && isRecording {
        effects := [Schedule(ErrorRestartDelay, StartRecognition)];
      }
    }

    method OnEnd(now: int) returns (effects: seq<Effect>)
      requires Valid()
      modifies this
      ensures Valid()
      ensures Step(Snapshot(), effects) == TurnTaking.OnEnd(Caps(), old(Snapshot()), now)
    {
      effects := [];
      if continuousMode && isRecording {
        if now - lastSpeechTime > IdleTimeout {
          effects := StopVoiceRecording();
          return;
        }
        effects := [Schedule(RestartDelay, RestartIfListening)];
      }
    }

    method OnStart()
      requires Valid()
      modifies this
      ensures Valid()
      ensures Snapshot() == TurnTaking.OnStart(old(Snapshot())).state
    {
      isStartingRecognition := false;
    }

    method OnUtteranceEnd() returns (effects: seq<Effect>)
      requires Valid()
      modifies this
      ensures Valid()
      ensures Step(Snapshot(), effects) == OnUtteranceDone(old(Snapshot()))
    {
      isAISpeaking := false;
      currentUtterance := None;
      effects := [];
      if continuousMode && isRecording {
        effects := [Schedule(AfterSpeechDelay, StartRecognition)];
      }
    }

    method OnUtteranceError() returns (effects: seq<Effect>)
      requires Valid()
      modifies this
      ensures Valid()
      ensures Step(Snapshot(), effects) == OnUtteranceDone(old(Snapshot()))
    {
      effects := OnUtteranceEnd();
    }

    /** A timer set by an earlier callback fires. */
    method OnTimer(callback: TimerCallback, outcome: StartOutcome) returns (effects: seq<Effect>)
      requires Valid()
      modifies this
      ensures Valid()
      ensures Step(Snapshot(), effects) == TurnTaking.OnTimer(Caps(), old(Snapshot()), callback, outcome)
    {
      effects := [];
      match callback
      case StartRecognition =>
        effects := StartRecognitionSafely(outcome);
      case RestartIfListening =>
        if continuousMode && isRecording {
          effects := StartRecognitionSafely(outcome);
        }
      case RetryAfterInvalidState =>
        isStartingRecognition := false;
        if continuousMode && isRecording {
          effects := StartRecognitionSafely(outcome);
        }
    }

    /** startVoiceInteraction, once `getUserMedia` has granted (or refused) the microphone. */
    method StartVoiceInteraction(granted: bool, now: int, outcome: StartOutcome) returns (effects: seq<Effect>)
      requires Valid()
      modifies this
      ensures Valid()
      ensures Step(Snapshot(), effects) == TurnTaking.StartVoiceInteraction(Caps(), old(Snapshot()), granted, now, outcome)
    {
      effects := [];
      if granted {
        isRecording := true;
        continuousMode := true;
        retryCount := 0;
        networkRetryDelay := InitialRetryDelay;
        lastSpeechTime := now;
        effects := StartRecognitionSafely(outcome);
      }
    }
  }
}
