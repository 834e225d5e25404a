/**
 * The turn-taking controller of the voice chat page as a state machine over
 * values: the whole state of the page's controller, one function per event
 * handler, and the event type that the controller consumes. The class in
 * voice_chat.dfy keeps this state in fields and is proved against these
 * functions; turn_properties.dfy proves what the handlers promise.
 */
module Turns {
  import opened Wrappers
  import opened Js
  import Text
  import Blob

  const NotSupported := "Speech recognition is not supported in your browser"
  const Fallback := "I'm sorry, I'm having trouble connecting to my brain right now. Could you try again in a moment?"
  const Apology := "Sorry, I encountered an error processing your request."
  /** `${e}` of the error Event passed to onerror renders as "[object Event]". */
  const PlaybackError := "Audio playback error: [object Event]"
  const NoAudioElement := "Audio element not initialized"

  /** Milliseconds of quiet after the last result before the silence check submits. */
  const SilenceThreshold := 1500
  /** Re-arm delays of setTimeout(startListening, d), in milliseconds, by exit path. */
  const AfterPlayback := 300
  const AfterNoTranscript := 500
  const AfterError := 1000
  const AfterTurnFailure := 2000

  datatype Role = User | Assistant

  /** One entry of the conversation history shown on the page. */
  datatype Message = Message(role: Role, content: Json)

  /** A command the controller issues to the platform, in the order issued. */
  datatype Effect =
    | StartRecognition
    | StopRecognition
    | ShowAlert(alert: string)
    | RequestChat(message: string)
    | RequestSpeech(text: Json)
    | PlayAudio(blob: seq<byte>)
    | StopAudio

  /** A suspended handleSpeechEnd: waiting for the chat reply, or for the synthesized speech. */
  datatype Turn = AwaitingChat(userMessage: string) | AwaitingSpeech(reply: Json)

  /** What the platform supplies when startListening runs: Date.now() and what recognition.start() threw. */
  datatype Platform = Platform(now: int, startError: Option<string>)

  /** A fetch to one of the routes: it threw, or it was answered with a status, a body text and that text parsed. */
  datatype Fetched = Unreachable(error: string) | Answered(status: int, text: string, parsed: Option<Json>)

  /** What atob did with the audio string: the decoded characters, or the text of what it threw. */
  datatype Decoding = Decoded(chars: string) | DecodeFailed(error: string)

  /** What audio.play() did: returned a pending promise, or threw. */
  datatype PlayCall = PlayPending | PlayThrew(error: string)

  /** What the page found when it mounted: the capability probe's answer, and whether the audio element exists. */
  datatype Page = Page(available: bool, audioElement: bool)

  /** The React state the page renders. */
  datatype View = View(conversationStarted: bool, isListening: bool, isSpeaking: bool, isProcessing: bool,
                       error: Option<string>)

  /**
   * The refs of the capture loop: whether a recognizer object has been made,
   * the transcript (state and currentTranscriptRef), the time of the last
   * result, and processingRef.
   */
  datatype Capture = Capture(recognizer: bool, transcript: string, lastSpeechTime: int, processing: bool)

  /** The conversation shown on the page, and the retry counter. */
  datatype History = History(messages: seq<Message>, retryCount: nat)

  /**
   * Work not yet finished: the delays of the pending startListening timers,
   * the suspended handleSpeechEnd calls, and the play() promises not yet settled.
   */
  datatype Pending = Pending(restarts: seq<nat>, turns: seq<Turn>, plays: nat)

  /**
   * Everything the controller holds, and the commands it has issued so far.
   * `view.isListening` stands for both the state and isListeningRef.
   */
  datatype ControllerState = ControllerState(page: Page, view: View, capture: Capture, history: History,
                                             pending: Pending, effects: seq<Effect>)

  /** The events the controller reacts to. */
  datatype Event =
    | StartPressed(p: Platform)
    | StopPressed
    | RecognitionStarted
    | RecognitionResult(now: int, text: string)
    | RecognitionEnded
    | RecognitionError(code: string)
    | SilenceTick(now: int)
    | ChatReplied(turn: nat, outcome: Fetched)
    | SpeechReplied(turn: nat, outcome: Fetched, decoding: Decoding, play: PlayCall)
    | PlayRejected(error: string)
    | PlayFulfilled
    | AudioEnded
    | AudioError
    | TimerFired(timer: nat, p: Platform)

  /** The page as first rendered. */
  function Init(available: bool, audioElement: bool): ControllerState
  {
    ControllerState(Page(available, audioElement), View(false, false, false, false, None), Capture(false, "", 0, false),
                    History([], 0), Pending([], [], 0), [])
  }

  /** setTimeout(startListening, delay) */
  function Schedule(s: ControllerState, delay: nat): ControllerState
  {
    s.(pending := s.pending.(restarts := s.pending.restarts + [delay]))
  }

  function Emit(s: ControllerState, e: Effect): ControllerState
  {
    s.(effects := s.effects + [e])
  }

  /** setError */
  function SetError(s: ControllerState, error: Option<string>): ControllerState
  {
    s.(view := s.view.(error := error))
  }

  function Remove<T>(xs: seq<T>, k: nat): seq<T>
    requires k < |xs|
  {
    xs[..k] + xs[k + 1..]
  }

  /** `${error}` of an Error thrown with the given message. */
  function Thrown(message: string): string
  {
    "Error: " + message
  }

  /** responseText.substring(0, 100) */
  function Excerpt(text: string): string
  {
    if |text| <= 100 then text else text[..100]
  }

  /** The guard of startListening. */
  predicate Busy(s: ControllerState)
  {
    s.view.isListening || s.view.isSpeaking || s.view.isProcessing
  }

  /** startListening, including the one-time setup of the recognizer. */
  function StartListening(s: ControllerState, p: Platform): (t: ControllerState)
    ensures t.page == s.page
  {
    if Busy(s) then s
    else if !s.capture.recognizer && !s.page.available then
      Emit(SetError(s, Some(NotSupported)), ShowAlert(NotSupported))
    else
      var started := Emit(SetError(s, None).(capture := Capture(true, "", p.now, false)), StartRecognition);
      match p.startError
      case None => started
      case Some(e) =>
        var failed := SetError(started, Some("Error starting speech recognition: " + e));
        if failed.view.conversationStarted then Schedule(failed, AfterError) else failed
  }

  /** stopListening */
  function StopListening(s: ControllerState): (t: ControllerState)
    ensures t.page == s.page
  {
    var t := if s.capture.recognizer then Emit(s, StopRecognition) else s;
    t.(view := t.view.(isListening := false))
  }

  /** startConversation */
  function StartConversation(s: ControllerState, p: Platform): (t: ControllerState)
    ensures t.page == s.page
  {
    StartListening(s.(view := s.view.(conversationStarted := true, error := None), history := History([], 0),
                      capture := s.capture.(processing := false)), p)
  }

  /** stopConversation */
  function StopConversation(s: ControllerState): (t: ControllerState)
    ensures t.page == s.page
  {
    var stopped := StopListening(s);
    var halted := stopped.(view := stopped.view.(conversationStarted := false, isSpeaking := false),
                           capture := stopped.capture.(processing := false));
    if halted.page.audioElement then Emit(halted, StopAudio) else halted
  }

  /** recognition.onstart */
  function OnStart(s: ControllerState): ControllerState
  {
    s.(view := s.view.(isListening := true), capture := s.capture.(processing := false))
  }

  /** recognition.onresult, with the time of the event and the text of the current result. */
  function OnResult(s: ControllerState, now: int, text: string): ControllerState
  {
    s.(capture := s.capture.(lastSpeechTime := now, transcript := text))
  }

  /** The condition the end and error handlers share: flag clear, conversation started, not speaking. */
  predicate MayContinue(s: ControllerState)
  {
    !s.capture.processing && s.view.conversationStarted && !s.view.isSpeaking
  }

  /** recognition.onend */
  function OnEnd(s: ControllerState): (t: ControllerState)
    ensures t.page == s.page
  {
    var ended := s.(view := s.view.(isListening := false));
    var text := Text.Trim(ended.capture.transcript);
    if text != "" && MayContinue(ended) then ProcessSpeech(ended, text)
    else if MayContinue(ended) then Schedule(ended, AfterNoTranscript)
    else ended
  }

  /** The error codes after which onerror re-arms listening. */
  predicate Recoverable(code: string)
  {
    code != "aborted" && code != "not-allowed"
  }

  /** recognition.onerror with the event's error code. */
  function OnError(s: ControllerState, code: string): (t: ControllerState)
    ensures t.page == s.page
  {
    var failed := SetError(s, Some("Speech recognition error: " + code));
    if Recoverable(code) && failed.view.conversationStarted && !failed.view.isSpeaking then Schedule(failed, AfterError)
    else failed
  }

  /** One run of checkSilence at time now (the interval only exists while listening, idle and not speaking). */
  function CheckSilence(s: ControllerState, now: int): (t: ControllerState)
    ensures t.page == s.page
  {
    if !s.view.isListening || s.view.isSpeaking || s.view.isProcessing then s
    else if Text.Trim(s.capture.transcript) != "" && now - s.capture.lastSpeechTime > SilenceThreshold
            && !s.capture.processing then
      ProcessSpeech(s, s.capture.transcript)
    else s
  }

  /** processSpeech: the single-flight guard in front of handleSpeechEnd. */
  function ProcessSpeech(s: ControllerState, text: string): (t: ControllerState)
    ensures t.page == s.page
  {
    if s.capture.processing then s else HandleSpeechEnd(StopListening(s.(capture := s.capture.(processing := true))), text)
  }

  /** handleSpeechEnd up to its first await: the user message is recorded and the chat request sent. */
  function HandleSpeechEnd(s: ControllerState, text: string): (t: ControllerState)
    ensures t.page == s.page
  {
    var cleared := SetError(s, None);
    var userMessage := Text.Trim(text);
    if userMessage == "" then
      var idle := cleared.(capture := cleared.capture.(processing := false));
      if idle.view.conversationStarted && !idle.view.isSpeaking then Schedule(idle, AfterNoTranscript) else idle
    else
      Emit(cleared.(history := cleared.history.(messages := cleared.history.messages + [Message(User, JStr(userMessage))]),
                    view := cleared.view.(isProcessing := true),
                    pending := cleared.pending.(turns := cleared.pending.turns + [AwaitingChat(userMessage)])),
           RequestChat(userMessage))
  }

  /** What generateChatResponse returns, and the rendered error it caught when it fell back. */
  datatype Reply = Reply(content: Json, failure: Option<string>)

  /** The result logic of generateChatResponse. */
  function ChatResult(o: Fetched): Reply
  {
    match o
    case Unreachable(e) => Reply(JStr(Fallback), Some(e))
    case Answered(status, text, parsed) =>
      if !IsOk(status) then
        // the catch beside JSON.parse also catches the Error thrown after a successful parse
        Reply(JStr(Fallback), Some(Thrown(Text.IntToString(status) + " - " + text)))
      else
        match parsed
        case None => Reply(JStr(Fallback), Some(Thrown("Invalid JSON response: " + text)))
        case Some(data) =>
          match Get(Some(data), "content")
          case Threw(e) => Reply(JStr(Fallback), Some(e))
          case Got(c) =>
            if Truthy(c) then Reply(c.value, None)
            else Reply(JStr(Fallback), Some(Thrown("No content in response")))
  }

  /** The retry bookkeeping after generateChatResponse: reset on success, count and report a failure. */
  function CountReply(s: ControllerState, failure: Option<string>): ControllerState
  {
    match failure
    case None => s.(history := s.history.(retryCount := 0))
    case Some(e) =>
      SetError(s, Some("Error calling chat API: " + e)).(history := s.history.(retryCount := s.history.retryCount + 1))
  }

  /**
   * handleSpeechEnd resumed at its first await with what generateChatResponse
   * returned: bookkeeping, the assistant message, the speech request.
   */
  function OnChatReply(s: ControllerState, k: nat, r: Reply): (t: ControllerState)
    ensures t.page == s.page
  {
    if k >= |s.pending.turns| || !s.pending.turns[k].AwaitingChat? then s
    else
      var counted := CountReply(s, r.failure);
      Emit(counted.(history := counted.history.(messages := counted.history.messages + [Message(Assistant, r.content)]),
                    pending := counted.pending.(turns := counted.pending.turns[k := AwaitingSpeech(r.content)])),
           RequestSpeech(r.content))
  }

  /** What textToSpeech returns, or the rendered error it rethrows. */
  datatype Synthesis = Audio(base64: Json) | SynthesisFailed(error: string)

  /** The result logic of textToSpeech. */
  function SpeechResult(o: Fetched): Synthesis
  {
    match o
    case Unreachable(e) => SynthesisFailed(e)
    case Answered(status, text, parsed) =>
      if !IsOk(status) then SynthesisFailed(Thrown(Text.IntToString(status) + " - " + Excerpt(text) + "..."))
      else
        match parsed
        case None => SynthesisFailed(Thrown("Invalid JSON response: " + Excerpt(text) + "..."))
        case Some(data) =>
          match Get(Some(data), "audio")
          case Threw(e) => SynthesisFailed(e)
          case Got(a) => if Truthy(a) then Audio(a.value) else SynthesisFailed(Thrown("No audio in response"))
  }

  /** The catch block of handleSpeechEnd. */
  function RecoverTurn(s: ControllerState, e: string): (t: ControllerState)
    ensures t.page == s.page
  {
    var failed := SetError(s, Some("Error processing speech: " + e)).(
                    history := s.history.(messages := s.history.messages + [Message(Assistant, JStr(Apology))]),
                    capture := s.capture.(processing := false));
    if failed.view.conversationStarted then Schedule(failed, AfterTurnFailure) else failed
  }

  /** The two handlers of a failed play(). */
  function PlayFailed(s: ControllerState, e: string): (t: ControllerState)
    ensures t.page == s.page
  {
    var failed := s.(view := s.view.(error := Some("Audio play error: " + e), isSpeaking := false),
                     capture := s.capture.(processing := false));
    if failed.view.conversationStarted then Schedule(failed, AfterTurnFailure) else failed
  }

  /**
   * The rest of the try block of handleSpeechEnd once textToSpeech has
   * returned or thrown: decode the audio, start playback, or recover.
   */
  function TrySpeak(s: ControllerState, r: Synthesis, decoding: Decoding, play: PlayCall): (t: ControllerState)
    ensures t.page == s.page
  {
    match r
    case SynthesisFailed(e) => RecoverTurn(s, e)
    case Audio(_) =>
      if !s.page.audioElement then
        var missing := SetError(s, Some(NoAudioElement)).(capture := s.capture.(processing := false));
        if missing.view.conversationStarted then Schedule(missing, AfterTurnFailure) else missing
      else
        match decoding
        case DecodeFailed(e) => RecoverTurn(s, e)
        case Decoded(chars) => Speak(s, chars, play)
  }

  /** Playback of the decoded audio: the blob of its char codes goes to the audio element and play() is called. */
  function Speak(s: ControllerState, chars: string, play: PlayCall): (t: ControllerState)
    ensures t.page == s.page
  {
    var playing := Emit(s.(view := s.view.(isSpeaking := true)), PlayAudio(Blob.CharBytes(chars)));
    match play
    case PlayPending => playing.(pending := playing.pending.(plays := playing.pending.plays + 1))
    case PlayThrew(e) => PlayFailed(playing, e)
  }

  /** handleSpeechEnd resumed at its second await with what textToSpeech returned or threw, through its finally block. */
  function OnSpeechReply(s: ControllerState, k: nat, r: Synthesis, decoding: Decoding, play: PlayCall): (t: ControllerState)
    ensures t.page == s.page
  {
    if k >= |s.pending.turns| || !s.pending.turns[k].AwaitingSpeech? then s
    else
      var t := TrySpeak(s.(pending := s.pending.(turns := Remove(s.pending.turns, k))), r, decoding, play);
      t.(view := t.view.(isProcessing := false), capture := t.capture.(processing := false))
  }

  /** The catch handler of a play() promise. */
  function OnPlayRejected(s: ControllerState, e: string): (t: ControllerState)
    ensures t.page == s.page
  {
    if s.pending.plays == 0 then s else PlayFailed(s.(pending := s.pending.(plays := s.pending.plays - 1)), e)
  }

  /** A play() promise that resolves: nothing is attached to it. */
  function OnPlayFulfilled(s: ControllerState): ControllerState
  {
    if s.pending.plays == 0 then s else s.(pending := s.pending.(plays := s.pending.plays - 1))
  }

  /** audio.onended */
  function OnAudioEnded(s: ControllerState): (t: ControllerState)
    ensures t.page == s.page
  {
    var ended := s.(view := s.view.(isSpeaking := false));
    if ended.view.conversationStarted then Schedule(ended, AfterPlayback) else ended
  }

  /** audio.onerror */
  function OnAudioError(s: ControllerState): (t: ControllerState)
    ensures t.page == s.page
  {
    var failed := SetError(s, Some(PlaybackError));
    if failed.view.conversationStarted then Schedule(failed, AfterError) else failed
  }

  /** A pending startListening timer fires. */
  function OnTimer(s: ControllerState, k: nat, p: Platform): (t: ControllerState)
    ensures t.page == s.page
  {
    if k >= |s.pending.restarts| then s
    else StartListening(s.(pending := s.pending.(restarts := Remove(s.pending.restarts, k))), p)
  }

  /** The controller's transition function; an event naming no pending turn, timer or promise changes nothing. */
  function Step(s: ControllerState, e: Event): (t: ControllerState)
    ensures t.page == s.page
  {
    match e
    case StartPressed(p) => StartConversation(s, p)
    case StopPressed => StopConversation(s)
    case RecognitionStarted => OnStart(s)
    case RecognitionResult(now, text) => OnResult(s, now, text)
    case RecognitionEnded => OnEnd(s)
    case RecognitionError(code) => OnError(s, code)
    case SilenceTick(now) => CheckSilence(s, now)
    case ChatReplied(k, o) => OnChatReply(s, k, ChatResult(o))
    case SpeechReplied(k, o, d, play) => OnSpeechReply(s, k, SpeechResult(o), d, play)
    case PlayRejected(err) => OnPlayRejected(s, err)
    case PlayFulfilled => OnPlayFulfilled(s)
    case AudioEnded => OnAudioEnded(s)
    case AudioError => OnAudioError(s)
    case TimerFired(k, p) => OnTimer(s, k, p)
  }

  function Run(s: ControllerState, events: seq<Event>): ControllerState
    decreases |events|
  {
    if |events| == 0 then s else Run(Step(s, events[0]), events[1..])
  }
}
