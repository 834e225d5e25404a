/**
 * The VoiceChatBot page as an object: its React state, its refs and the
 * platform's pending work are fields, and each handler is a method that
 * updates them in the order the page's code does. Every method is proved to
 * move the object exactly as the corresponding function of module Turns moves
 * a ControllerState; the handlers of events also keep the invariant of module
 * TurnProperties.
 */
module VoiceChat {
  import opened Wrappers
  import opened Js
  import Text
  import Blob
  import opened Turns
  import TurnProperties

  /**
   * Each method below performs its handler's updates in place, field by field;
   * the function of the same handler in module Turns is its specification,
   * and each method's ensures says State() moves exactly as that function does.
   */
  class VoiceChatBot {
    /** What getSpeechRecognition reported, and whether the audio element exists. */
    const page: Page
    /** The React state: conversationStarted, isListening, isSpeaking, isProcessing, error. */
    var view: View
    /** recognitionRef, transcript with currentTranscriptRef, lastSpeechTime, processingRef. */
    var capture: Capture
    /** messages and retryCount. */
    var history: History
    /** The startListening timers, the suspended handleSpeechEnd calls and the unsettled play() promises. */
    var pending: Pending
    /** Commands issued to the platform so far. */
    var effects: seq<Effect>

    function State(): ControllerState
      reads this
    {
      ControllerState(page, view, capture, history, pending, effects)
    }

    predicate Valid()
      reads this
    {
      TurnProperties.Inv(State())
    }

    /** The page as first rendered. */
    constructor(available: bool, audioElement: bool)
      ensures Valid()
      ensures State() == Init(available, audioElement)
    {
      page := Page(available, audioElement);
      view := View(false, false, false, false, None);
      capture := Capture(false, "", 0, false);
      history := History([], 0);
      pending := Pending([], [], 0);
      effects := [];
      new;
      TurnProperties.InitSatisfiesInv(available, audioElement);
    }

    /** setTimeout(startListening, delay) */
    method Schedule(delay: nat)
      modifies this
      ensures State() == Turns.Schedule(old(State()), delay)
    {
      pending := pending.(restarts := pending.restarts + [delay]);
    }

    method StartListening(p: Platform)
      requires Valid()
      modifies this
      ensures Valid()
      ensures State() == Turns.StartListening(old(State()), p)
    {
      ghost var s0 := State();
      if view.isListening || view.isSpeaking || view.isProcessing {
      } else if !capture.recognizer && !page.available {
        view := view.(error := Some(NotSupported));
        effects := effects + [ShowAlert(NotSupported)];
      } else {
        view := view.(error := None);
        capture := Capture(true, "", p.now, false);
        effects := effects + [StartRecognition];
        if p.startError.Some? {
          view := view.(error := Some("Error starting speech recognition: " + p.startError.value));
          if view.conversationStarted {
            Schedule(AfterError);
          }
        }
      }
      TurnProperties.InvStartListening(s0, p);
    }

    method StopListening()
      requires Valid()
      modifies this
      ensures Valid()
      ensures State() == Turns.StopListening(old(State()))
    {
      ghost var s0 := State();
      if capture.recognizer {
        effects := effects + [StopRecognition];
      }
      view := view.(isListening := false);
      TurnProperties.InvStopListening(s0);
    }

    method StartConversation(p: Platform)
      requires Valid()
      modifies this
      ensures Valid()
      ensures State() == Turns.StartConversation(old(State()), p)
    {
      view := view.(conversationStarted := true, error := None);
      history := History([], 0);
      capture := capture.(processing := false);
      StartListening(p);
    }

    method StopConversation()
      requires Valid()
      modifies this
      ensures Valid()
      ensures State() == Turns.StopConversation(old(State()))
    {
      ghost var s0 := State();
      StopListening();
      view := view.(conversationStarted := false, isSpeaking := false);
      capture := capture.(processing := false);
      if page.audioElement {
        effects := effects + [StopAudio];
      }
      TurnProperties.InvStopConversation(s0);
    }

    /** recognition.onstart */
    method OnRecognitionStart()
      requires Valid()
      modifies this
      ensures Valid()
      ensures State() == OnStart(old(State()))
    {
      capture := capture.(processing := false);
      view := view.(isListening := true);
    }

    /** recognition.onresult, at time now, with the text of the current result. */
    method OnRecognitionResult(now: int, text: string)
      requires Valid()
      modifies this
      ensures Valid()
      ensures State() == OnResult(old(State()), now, text)
    {
      capture := capture.(lastSpeechTime := now);
      capture := capture.(transcript := text);
    }

    /** recognition.onend */
    method OnRecognitionEnd()
      requires Valid()
      modifies this
      ensures Valid()
      ensures State() == OnEnd(old(State()))
    {
      ghost var s0 := State();
      view := view.(isListening := false);
      var currentText := Text.Trim(capture.transcript);
      if currentText != "" && !capture.processing && view.conversationStarted && !view.isSpeaking {
        ProcessSpeech(currentText);
      } else if !capture.processing && view.conversationStarted && !view.isSpeaking {
        Schedule(AfterNoTranscript);
      }
      TurnProperties.InvOnEnd(s0);
    }

    /** recognition.onerror with the event's error code. */
    method OnRecognitionError(code: string)
      requires Valid()
      modifies this
      ensures Valid()
      ensures State() == OnError(old(State()), code)
    {
      view := view.(error := Some("Speech recognition error: " + code));
      if Recoverable(code) && view.conversationStarted && !view.isSpeaking {
        Schedule(AfterError);
      }
    }

    /** One run of the silence check at time now. */
    method CheckSilence(now: int)
      requires Valid()
      modifies this
      ensures Valid()
      ensures State() == Turns.CheckSilence(old(State()), now)
    {
      if view.isListening && !view.isSpeaking && !view.isProcessing {
        if Text.Trim(capture.transcript) != "" && now - capture.lastSpeechTime > SilenceThreshold && !capture.processing {
          ProcessSpeech(capture.transcript);
        }
      }
    }

    method ProcessSpeech(text: string)
      requires Valid()
      modifies this
      ensures Valid()
      ensures State() == Turns.ProcessSpeech(old(State()), text)
    {
      if !capture.processing {
        capture := capture.(processing := true);
        StopListening();
        HandleSpeechEnd(text);
      }
    }

    /** handleSpeechEnd up to its first await. */
    method HandleSpeechEnd(text: string)
      requires Valid()
      modifies this
      ensures Valid()
      ensures State() == Turns.HandleSpeechEnd(old(State()), text)
    {
      ghost var s0 := State();
      view := view.(error := None);
      var userMessage := Text.Trim(text);
      if userMessage == "" {
        capture := capture.(processing := false);
        if view.conversationStarted && !view.isSpeaking {
          Schedule(AfterNoTranscript);
        }
      } else {
        history := history.(messages := history.messages + [Message(User, JStr(userMessage))]);
        view := view.(isProcessing := true);
        pending := pending.(turns := pending.turns + [AwaitingChat(userMessage)]);
        effects := effects + [RequestChat(userMessage)];
      }
      TurnProperties.InvHandleSpeechEnd(s0, text);
    }

    /** The suspended turn k resumes with what the chat route's fetch produced. */
    method ChatReplied(k: nat, o: Fetched)
      requires Valid()
      modifies this
      ensures Valid()
      ensures State() == OnChatReply(old(State()), k, ChatResult(o))
    {
      ghost var s0 := State();
      if k < |pending.turns| && pending.turns[k].AwaitingChat? {
        var reply := ChatResult(o);
        match reply.failure {
          case None =>
            history := history.(retryCount := 0);
          case Some(e) =>
            view := view.(error := Some("Error calling chat API: " + e));
            history := history.(retryCount := history.retryCount + 1);
        }
        history := history.(messages := history.messages + [Message(Assistant, reply.content)]);
        pending := pending.(turns := pending.turns[k := AwaitingSpeech(reply.content)]);
        effects := effects + [RequestSpeech(reply.content)];
      }
      TurnProperties.InvChatReply(s0, k, ChatResult(o));
    }

    /** The catch block of handleSpeechEnd. */
    method RecoverTurn(e: string)
      modifies this
      ensures State() == Turns.RecoverTurn(old(State()), e)
    {
      view := view.(error := Some("Error processing speech: " + e));
      history := history.(messages := history.messages + [Message(Assistant, JStr(Apology))]);
      capture := capture.(processing := false);
      if view.conversationStarted {
        Schedule(AfterTurnFailure);
      }
    }

    /** What the catch handler of play(), and the catch around it, do. */
    method PlayFailed(e: string)
      modifies this
      ensures State() == Turns.PlayFailed(old(State()), e)
    {
      view := view.(error := Some("Audio play error: " + e), isSpeaking := false);
      capture := capture.(processing := false);
      if view.conversationStarted {
        Schedule(AfterTurnFailure);
      }
    }

    /** Plays the audio atob decoded: base64ToBlob builds the blob, the audio element is given it and play() called. */
    method Speak(chars: string, play: PlayCall)
      modifies this
      ensures State() == Turns.Speak(old(State()), chars, play)
    {
      var byteArrays := Blob.Base64ToBlob(chars);
      view := view.(isSpeaking := true);
      effects := effects + [PlayAudio(Blob.Concat(byteArrays))];
      match play {
        case PlayPending =>
          pending := pending.(plays := pending.plays + 1);
        case PlayThrew(e) =>
          PlayFailed(e);
      }
    }

    /** The try block of handleSpeechEnd after textToSpeech returned or threw. */
    method TrySpeak(r: Synthesis, decoding: Decoding, play: PlayCall)
      modifies this
      ensures State() == Turns.TrySpeak(old(State()), r, decoding, play)
    {
      match r {
        case SynthesisFailed(e) =>
          RecoverTurn(e);
        case Audio(_) =>
          if !page.audioElement {
            view := view.(error := Some(NoAudioElement));
            capture := capture.(processing := false);
            if view.conversationStarted {
              Schedule(AfterTurnFailure);
            }
          } else {
            match decoding {
              case DecodeFailed(e) =>
                RecoverTurn(e);
              case Decoded(chars) =>
                Speak(chars, play);
            }
          }
      }
    }

    /**
     * The suspended turn k resumes with what the speech route's fetch
     * produced, what atob made of the audio string, and what play() did;
     * the finally block clears the indicator and the flag.
     */
    method SpeechReplied(k: nat, o: Fetched, decoding: Decoding, play: PlayCall)
      requires Valid()
      modifies this
      ensures Valid()
      ensures State() == OnSpeechReply(old(State()), k, SpeechResult(o), decoding, play)
    {
      ghost var s0 := State();
      if k < |pending.turns| && pending.turns[k].AwaitingSpeech? {
        pending := pending.(turns := Remove(pending.turns, k));
        TrySpeak(SpeechResult(o), decoding, play);
        view := view.(isProcessing := false);
        capture := capture.(processing := false);
      }
      TurnProperties.InvSpeechReply(s0, k, SpeechResult(o), decoding, play);
    }

    /** A play() promise is rejected. */
    method PlayRejected(e: string)
      requires Valid()
      modifies this
      ensures Valid()
      ensures State() == OnPlayRejected(old(State()), e)
    {
      if pending.plays > 0 {
        pending := pending.(plays := pending.plays - 1);
        PlayFailed(e);
      }
    }

    /** A play() promise resolves. */
    method PlayFulfilled()
      requires Valid()
      modifies this
      ensures Valid()
      ensures State() == OnPlayFulfilled(old(State()))
    {
      if pending.plays > 0 {
        pending := pending.(plays := pending.plays - 1);
      }
    }

    /** audio.onended */
    method AudioEnded()
      requires Valid()
      modifies this
      ensures Valid()
      ensures State() == OnAudioEnded(old(State()))
    {
      view := view.(isSpeaking := false);
      if view.conversationStarted {
        Schedule(AfterPlayback);
      }
    }

    /** audio.onerror */
    method AudioError()
      requires Valid()
      modifies this
      ensures Valid()
      ensures State() == OnAudioError(old(State()))
    {
      view := view.(error := Some(PlaybackError));
      if view.conversationStarted {
        Schedule(AfterError);
      }
    }

    /** Pending timer k fires and calls startListening. */
    method TimerFired(k: nat, p: Platform)
      requires Valid()
      modifies this
      ensures Valid()
      ensures State() == OnTimer(old(State()), k, p)
    {
      if k < |pending.restarts| {
        pending := pending.(restarts := Remove(pending.restarts, k));
        StartListening(p);
      }
    }

    /** Dispatches one event to its handler. */
    method Handle(e: Event)
      requires Valid()
      modifies this
      ensures Valid()
      ensures State() == Step(old(State()), e)
    {
      match e
      case StartPressed(p) => StartConversation(p);
      case StopPressed => StopConversation();
      case RecognitionStarted => OnRecognitionStart();
      case RecognitionResult(now, text) => OnRecognitionResult(now, text);
      case RecognitionEnded => OnRecognitionEnd();
      case RecognitionError(code) => OnRecognitionError(code);
      case SilenceTick(now) => CheckSilence(now);
      case ChatReplied(k, o) => ChatReplied(k, o);
      case SpeechReplied(k, o, d, play) => SpeechReplied(k, o, d, play);
      case PlayRejected(err) => PlayRejected(err);
      case PlayFulfilled => PlayFulfilled();
      case AudioEnded => AudioEnded();
      case AudioError => AudioError();
      case TimerFired(k, p) => TimerFired(k, p);
    }
  }
}
