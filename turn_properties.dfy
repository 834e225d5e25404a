/**
 * What the controller's handlers promise: the single-flight guard, the
 * re-entrancy no-ops, the order of history appends, the retry-counter rules,
 * the restart paths, stop, and an invariant every event preserves.
 */
module TurnProperties {
  import opened Wrappers
  import opened Js
  import Text
  import Blob
  import opened Turns

  /** The number of chat requests in an effect log. */
  function ChatCalls(es: seq<Effect>): nat
    decreases |es|
  {
    if |es| == 0 then 0 else ChatCalls(es[..|es| - 1]) + (if es[|es| - 1].RequestChat? then 1 else 0)
  }

  lemma ChatCallsSnoc(es: seq<Effect>, e: Effect)
    ensures ChatCalls(es + [e]) == ChatCalls(es) + (if e.RequestChat? then 1 else 0)
  {
    assert (es + [e])[..|es|] == es;
  }

  /** When the silence check submits. */
  predicate SilenceCondition(s: ControllerState, now: int)
  {
    && s.view.isListening && !s.view.isSpeaking && !s.view.isProcessing
    && Text.Trim(s.capture.transcript) != "" && now - s.capture.lastSpeechTime > SilenceThreshold
    && !s.capture.processing
  }

  /**
   * The silence check changes nothing unless it is listening and idle, the
   * trimmed transcript is non-empty, more than 1500 ms have passed and the flag
   * is clear; then it sets the flag, stops capture, records the user message
   * and sends exactly one chat request.
   */
  lemma SilenceFiresExactlyWhen(s: ControllerState, now: int)
    ensures !SilenceCondition(s, now) ==> CheckSilence(s, now) == s
    ensures SilenceCondition(s, now) ==>
      var r := CheckSilence(s, now);
      var u := Text.Trim(s.capture.transcript);
      && r.capture.processing && !r.view.isListening && r.view.isProcessing
      && r.effects == s.effects + (if s.capture.recognizer then [StopRecognition] else []) + [RequestChat(u)]
      && r.history.messages == s.history.messages + [Message(User, JStr(u))]
      && r.pending.turns == s.pending.turns + [AwaitingChat(u)]
  {
  }

  /** processSpeech does nothing while the flag is set. */
  lemma ProcessSpeechSingleFlight(s: ControllerState, text: string)
    requires s.capture.processing
    ensures ProcessSpeech(s, text) == s
  {
  }

  /** The events of one capture: a recognition result, a silence tick, the end of recognition. */
  datatype CaptureEvent = Heard(now: int, text: string) | Tick(now: int) | Ended

  function Feed(s: ControllerState, e: CaptureEvent): ControllerState
  {
    match e
    case Heard(now, text) => OnResult(s, now, text)
    case Tick(now) => CheckSilence(s, now)
    case Ended => OnEnd(s)
  }

  function FeedAll(s: ControllerState, events: seq<CaptureEvent>): ControllerState
    decreases |events|
  {
    if |events| == 0 then s else FeedAll(Feed(s, events[0]), events[1..])
  }

  /** processSpeech on a clear flag sets it and sends one chat request when the text is not blank, none otherwise. */
  lemma ProcessSpeechCalls(s: ControllerState, text: string)
    requires !s.capture.processing
    ensures ChatCalls(ProcessSpeech(s, text).effects) == ChatCalls(s.effects) + (if Text.Trim(text) != "" then 1 else 0)
    ensures Text.Trim(text) != "" ==> ProcessSpeech(s, text).capture.processing
  {
    var stopped := StopListening(s.(capture := s.capture.(processing := true)));
    ChatCallsSnoc(s.effects, StopRecognition);
    if Text.Trim(text) != "" {
      ChatCallsSnoc(stopped.effects, RequestChat(Text.Trim(text)));
    }
  }

  /** One capture event sends at most one chat request, and none once the flag is set; a send leaves the flag set. */
  lemma FeedStep(s: ControllerState, e: CaptureEvent)
    ensures s.capture.processing ==>
      Feed(s, e).capture.processing && ChatCalls(Feed(s, e).effects) == ChatCalls(s.effects)
    ensures || ChatCalls(Feed(s, e).effects) == ChatCalls(s.effects)
            || (ChatCalls(Feed(s, e).effects) == ChatCalls(s.effects) + 1 && Feed(s, e).capture.processing)
  {
    match e
    case Heard(_, _) =>
    case Tick(now) =>
      if SilenceCondition(s, now) { ProcessSpeechCalls(s, s.capture.transcript); }
    case Ended =>
      var ended := s.(view := s.view.(isListening := false));
      var text := Text.Trim(ended.capture.transcript);
      if text != "" && MayContinue(ended) {
        Text.TrimIdempotent(s.capture.transcript);
        ProcessSpeechCalls(ended, text);
      }
  }

  /** Once the flag is set, no capture event sends another chat request. */
  lemma {:induction false} FeedAfterSubmit(s: ControllerState, events: seq<CaptureEvent>)
    requires s.capture.processing
    ensures FeedAll(s, events).capture.processing
    ensures ChatCalls(FeedAll(s, events).effects) == ChatCalls(s.effects)
    decreases |events|
  {
    if |events| > 0 {
      FeedStep(s, events[0]);
      FeedAfterSubmit(Feed(s, events[0]), events[1..]);
    }
  }

  /**
   * No double submission: whatever results, silence ticks and end events arrive
   * for one utterance, and in whatever order, at most one chat request is sent.
   */
  lemma {:induction false} OneUtteranceOneRequest(s: ControllerState, events: seq<CaptureEvent>)
    ensures ChatCalls(FeedAll(s, events).effects) <= ChatCalls(s.effects) + 1
    ensures s.capture.processing ==> ChatCalls(FeedAll(s, events).effects) == ChatCalls(s.effects)
    decreases |events|
  {
    if |events| > 0 {
      var s1 := Feed(s, events[0]);
      FeedStep(s, events[0]);
      if ChatCalls(s1.effects) == ChatCalls(s.effects) {
        OneUtteranceOneRequest(s1, events[1..]);
      } else {
        FeedAfterSubmit(s1, events[1..]);
      }
    }
  }

  /**
   * startListening is a no-op while listening, speaking or processing. Otherwise,
   * without a recognizer and without the capability, it reports "not supported"
   * and starts nothing; with one, it clears the error, the transcript and the
   * flag, stamps the time and starts recognition, re-arming after 1000 ms when
   * the start throws during a conversation.
   */
  lemma StartListeningCases(s: ControllerState, p: Platform)
    ensures Busy(s) ==> StartListening(s, p) == s
    ensures !Busy(s) && !s.capture.recognizer && !s.page.available ==>
      StartListening(s, p) == Emit(SetError(s, Some(NotSupported)), ShowAlert(NotSupported))
    ensures !Busy(s) && (s.capture.recognizer || s.page.available) ==>
      var r := StartListening(s, p);
      && r.capture == Capture(true, "", p.now, false)
      && r.effects == s.effects + [StartRecognition]
      && r.view.error == (if p.startError.None? then None else Some("Error starting speech recognition: " + p.startError.value))
      && r.pending.restarts == s.pending.restarts + (if p.startError.Some? && s.view.conversationStarted then [AfterError] else [])
      && r.history == s.history && r.pending.turns == s.pending.turns && r.view.isListening == s.view.isListening
  {
  }

  /**
   * At the end of recognition listening stops; the transcript is processed
   * exactly when its trim is non-empty, the flag is clear, the conversation is
   * started and nothing is playing; under the same three conditions an empty
   * transcript re-arms listening after 500 ms instead.
   */
  lemma EndOfCapture(s: ControllerState)
    ensures !OnEnd(s).view.isListening
    ensures ChatCalls(OnEnd(s).effects)
         == ChatCalls(s.effects) + (if Text.Trim(s.capture.transcript) != "" && MayContinue(s) then 1 else 0)
    ensures OnEnd(s).pending.restarts
         == s.pending.restarts + (if Text.Trim(s.capture.transcript) == "" && MayContinue(s) then [AfterNoTranscript] else [])
    ensures !MayContinue(s) ==> OnEnd(s) == s.(view := s.view.(isListening := false))
  {
    var ended := s.(view := s.view.(isListening := false));
    if Text.Trim(s.capture.transcript) != "" && MayContinue(s) {
      Text.TrimIdempotent(s.capture.transcript);
      ProcessSpeechCalls(ended, Text.Trim(s.capture.transcript));
      SubmitFields(StopListening(ended.(capture := ended.capture.(processing := true))), Text.Trim(s.capture.transcript));
    }
  }

  /** A recognition error is always reported, and re-arms after 1000 ms only for a recoverable code. */
  lemma RecognitionErrorRestart(s: ControllerState, code: string)
    ensures OnError(s, code).view.error == Some("Speech recognition error: " + code)
    ensures OnError(s, code).pending.restarts == s.pending.restarts +
      (if Recoverable(code) && s.view.conversationStarted && !s.view.isSpeaking then [AfterError] else [])
  {
  }

  /**
   * A blank or all-white-space transcript starts no turn: no message, no chat
   * request, the retry counter untouched, the flag cleared.
   */
  lemma BlankUtteranceStartsNoTurn(s: ControllerState, text: string)
    requires Text.AllSpace(text)
    ensures var r := HandleSpeechEnd(s, text);
      && r.history == s.history && r.effects == s.effects && r.pending.turns == s.pending.turns
      && !r.capture.processing && r.view.error == None
      && r.pending.restarts == s.pending.restarts +
           (if s.view.conversationStarted && !s.view.isSpeaking then [AfterNoTranscript] else [])
  {
    Text.TrimEmptyIffAllSpace(text);
  }

  /** handleSpeechEnd on a non-blank transcript records the user message, begins a turn and sends one chat request. */
  lemma SubmitFields(s: ControllerState, text: string)
    requires Text.Trim(text) != ""
    ensures var t := HandleSpeechEnd(s, text);
      var u := Text.Trim(text);
      && t.history.messages == s.history.messages + [Message(User, JStr(u))]
      && t.effects == s.effects + [RequestChat(u)]
      && t.pending.turns == s.pending.turns + [AwaitingChat(u)]
      && t.view.isProcessing && t.view.error == None && t.pending.restarts == s.pending.restarts
      && t.view.conversationStarted == s.view.conversationStarted && t.capture == s.capture
  {
  }

  /** The chat reply appends one assistant message, requests its speech and moves the turn on. */
  lemma ChatReplyFields(s: ControllerState, k: nat, r: Reply)
    requires k < |s.pending.turns| && s.pending.turns[k].AwaitingChat?
    ensures var t := OnChatReply(s, k, r);
      && t.history.messages == s.history.messages + [Message(Assistant, r.content)]
      && t.effects == s.effects + [RequestSpeech(r.content)]
      && t.pending == s.pending.(turns := s.pending.turns[k := AwaitingSpeech(r.content)])
      && t.view.isProcessing == s.view.isProcessing && t.capture == s.capture
      && t.view.conversationStarted == s.view.conversationStarted
  {
  }

  /**
   * A non-blank transcript appends the trimmed text as a user message and,
   * when the chat reply arrives, exactly one assistant message carrying the
   * reply; one chat request and then one speech request for that reply go out.
   */
  lemma TurnAppendsUserThenReply(s: ControllerState, text: string, r: Reply)
    requires !Text.AllSpace(text)
    ensures var s1 := HandleSpeechEnd(s, text);
      var s2 := OnChatReply(s1, |s.pending.turns|, r);
      var u := Text.Trim(text);
      && s1.history.messages == s.history.messages + [Message(User, JStr(u))]
      && s2.history.messages == s.history.messages + [Message(User, JStr(u)), Message(Assistant, r.content)]
      && s2.effects == s.effects + [RequestChat(u), RequestSpeech(r.content)]
      && s2.pending.turns == s.pending.turns + [AwaitingSpeech(r.content)]
      && s2.view.isProcessing
  {
    var u := Text.Trim(text);
    Text.TrimEmptyIffAllSpace(text);
    SubmitFields(s, text);
    var s1 := HandleSpeechEnd(s, text);
    ChatReplyFields(s1, |s.pending.turns|, r);
    assert (s.pending.turns + [AwaitingChat(u)])[|s.pending.turns| := AwaitingSpeech(r.content)]
        == s.pending.turns + [AwaitingSpeech(r.content)];
    assert s.history.messages + [Message(User, JStr(u))] + [Message(Assistant, r.content)]
        == s.history.messages + [Message(User, JStr(u)), Message(Assistant, r.content)];
    assert s.effects + [RequestChat(u)] + [RequestSpeech(r.content)] == s.effects + [RequestChat(u), RequestSpeech(r.content)];
  }

  /**
   * generateChatResponse never throws. It succeeds exactly on an ok status with
   * a body that parses to an object whose content is truthy, and then returns
   * that content; otherwise it returns the fixed fallback sentence.
   */
  lemma ChatResultCases(o: Fetched)
    ensures ChatResult(o).failure == None <==>
      && o.Answered? && IsOk(o.status) && o.parsed.Some? && o.parsed.value.JObject?
      && Truthy(Lookup(o.parsed.value.fields, "content"))
    ensures ChatResult(o).failure == None ==> Some(ChatResult(o).content) == Lookup(o.parsed.value.fields, "content")
    ensures ChatResult(o).failure.Some? ==> ChatResult(o).content == JStr(Fallback)
  {
  }

  /** On a non-ok status the error is always `<status> - <raw body>`, whether or not the body parses. */
  lemma NonOkErrorIsRawBody(status: int, text: string, parsed: Option<Json>)
    requires !IsOk(status)
    ensures ChatResult(Answered(status, text, parsed))
         == Reply(JStr(Fallback), Some(Thrown(Text.IntToString(status) + " - " + text)))
  {
  }

  /**
   * textToSpeech returns the audio exactly on an ok status with a body parsing
   * to an object whose `audio` is truthy; every other outcome is rethrown with
   * its own error text.
   */
  lemma SpeechResultCases(o: Fetched)
    ensures SpeechResult(o).Audio? <==>
      && o.Answered? && IsOk(o.status) && o.parsed.Some? && o.parsed.value.JObject?
      && Truthy(Lookup(o.parsed.value.fields, "audio"))
    ensures SpeechResult(o).Audio? ==> Some(SpeechResult(o).base64) == Lookup(o.parsed.value.fields, "audio")
    ensures o.Unreachable? ==> SpeechResult(o) == SynthesisFailed(o.error)
    ensures o.Answered? && !IsOk(o.status) ==>
      SpeechResult(o) == SynthesisFailed(Thrown(Text.IntToString(o.status) + " - " + Excerpt(o.text) + "..."))
    ensures o.Answered? && IsOk(o.status) && o.parsed.None? ==>
      SpeechResult(o) == SynthesisFailed(Thrown("Invalid JSON response: " + Excerpt(o.text) + "..."))
    ensures o.Answered? && IsOk(o.status) && o.parsed == Some(JNull) ==>
      SpeechResult(o) == SynthesisFailed(ReadError("null", "audio"))
    ensures o.Answered? && IsOk(o.status) && o.parsed.Some? && o.parsed.value != JNull && !Truthy(GetOpt(o.parsed, "audio")) ==>
      SpeechResult(o) == SynthesisFailed(Thrown("No audio in response"))
  {
  }

  /** substring(0, 100): the first 100 characters, or the whole text when it is shorter. */
  lemma ExcerptIsPrefix(text: string)
    ensures |Excerpt(text)| == (if |text| <= 100 then |text| else 100)
    ensures Excerpt(text) == text[..|Excerpt(text)|]
  {
  }

  /** Success resets the retry counter; any failure adds one to it and surfaces the error. */
  lemma RetryCounterRule(s: ControllerState, k: nat, r: Reply)
    requires k < |s.pending.turns| && s.pending.turns[k].AwaitingChat?
    ensures var t := OnChatReply(s, k, r);
      && (r.failure == None ==> t.history.retryCount == 0 && t.view.error == s.view.error)
      && (r.failure.Some? ==>
            t.history.retryCount == s.history.retryCount + 1 && t.view.error == Some("Error calling chat API: " + r.failure.value))
  {
  }

  /** What the try block of a resumed turn leaves alone; once stopped it schedules nothing. */
  lemma TrySpeakFrame(s: ControllerState, r: Synthesis, d: Decoding, play: PlayCall)
    ensures var t := TrySpeak(s, r, d, play);
      && t.pending.turns == s.pending.turns && t.page == s.page
      && t.view.conversationStarted == s.view.conversationStarted
      && (!s.view.conversationStarted ==> t.pending.restarts == s.pending.restarts)
  {
    match r
    case SynthesisFailed(e) =>
    case Audio(_) =>
      if s.page.audioElement {
        match d
        case DecodeFailed(e) =>
        case Decoded(chars) =>
          match play
          case PlayPending =>
          case PlayThrew(e) =>
      }
  }

  /**
   * When synthesis fails, the history ends with the user message, the reply and
   * the apology; a 2000 ms restart is scheduled only during a conversation; the
   * processing indicator and the flag are both clear afterwards.
   */
  lemma SynthesisFailureTurn(s: ControllerState, text: string, chat: Reply, e: string, d: Decoding, play: PlayCall)
    requires !Text.AllSpace(text)
    ensures var k := |s.pending.turns|;
      var s3 := OnSpeechReply(OnChatReply(HandleSpeechEnd(s, text), k, chat), k, SynthesisFailed(e), d, play);
      && s3.history.messages == s.history.messages + [Message(User, JStr(Text.Trim(text))), Message(Assistant, chat.content),
                                                      Message(Assistant, JStr(Apology))]
      && s3.pending.restarts == s.pending.restarts + (if s.view.conversationStarted then [AfterTurnFailure] else [])
      && !s3.view.isProcessing && !s3.capture.processing && s3.pending.turns == s.pending.turns
      && s3.view.error == Some("Error processing speech: " + e)
  {
    var k := |s.pending.turns|;
    TurnAppendsUserThenReply(s, text, chat);
    Text.TrimEmptyIffAllSpace(text);
    SubmitFields(s, text);
    ChatReplyFields(HandleSpeechEnd(s, text), k, chat);
    var s2 := OnChatReply(HandleSpeechEnd(s, text), k, chat);
    assert Remove(s2.pending.turns, k) == s.pending.turns;
  }

  /** The resumed turn always ends with the processing indicator and the flag clear, and is no longer pending. */
  lemma TurnSettles(s: ControllerState, k: nat, r: Synthesis, d: Decoding, play: PlayCall)
    requires k < |s.pending.turns| && s.pending.turns[k].AwaitingSpeech?
    ensures var t := OnSpeechReply(s, k, r, d, play);
      !t.view.isProcessing && !t.capture.processing && t.pending.turns == Remove(s.pending.turns, k)
  {
    TrySpeakFrame(s.(pending := s.pending.(turns := Remove(s.pending.turns, k))), r, d, play);
  }

  /**
   * stopConversation clears started, the flag, speaking and listening; stops
   * recognition and pauses and rewinds the audio; and leaves the pending
   * turns, the pending timers and the history alone.
   */
  lemma StopHalts(s: ControllerState)
    ensures var r := StopConversation(s);
      && !r.view.conversationStarted && !r.capture.processing && !r.view.isSpeaking && !r.view.isListening
      && r.effects == s.effects + (if s.capture.recognizer then [StopRecognition] else [])
                                + (if s.page.audioElement then [StopAudio] else [])
      && r.pending == s.pending && r.history == s.history && r.view.isProcessing == s.view.isProcessing
  {
  }

  /** Stopping twice leaves the same state as stopping once; only the commands to the platform repeat. */
  lemma StopIdempotent(s: ControllerState)
    ensures StopConversation(StopConversation(s)).(effects := []) == StopConversation(s).(effects := [])
  {
  }

  /** stop does not cancel a turn in flight: its reply is still appended and its speech still requested. */
  lemma ReplyAfterStopStillAppended(s: ControllerState, k: nat, r: Reply)
    requires k < |s.pending.turns| && s.pending.turns[k].AwaitingChat?
    ensures var t := OnChatReply(StopConversation(s), k, r);
      && t.history.messages == s.history.messages + [Message(Assistant, r.content)]
      && t.effects[|t.effects| - 1] == RequestSpeech(r.content)
      && t.pending.restarts == s.pending.restarts && !t.view.conversationStarted
  {
    StopHalts(s);
    ChatReplyFields(StopConversation(s), k, r);
  }

  /** A speech reply with audio, an audio element and decoded characters plays the blob of their codes. */
  lemma SpeechReplyPlays(s: ControllerState, k: nat, b: Json, chars: string)
    requires k < |s.pending.turns| && s.pending.turns[k].AwaitingSpeech? && s.page.audioElement
    ensures var t := OnSpeechReply(s, k, Audio(b), Decoded(chars), PlayPending);
      && t.effects == s.effects + [PlayAudio(Blob.CharBytes(chars))]
      && t.view.isSpeaking && !t.view.isProcessing && !t.capture.processing
      && t.pending == Pending(s.pending.restarts, Remove(s.pending.turns, k), s.pending.plays + 1)
      && t.history == s.history && t.view.conversationStarted == s.view.conversationStarted
  {
  }

  /** Stop does not cancel playback either: the speech of a turn in flight is still played after stop. */
  lemma PlayAfterStop(s: ControllerState, k: nat, b: Json, chars: string)
    requires k < |s.pending.turns| && s.pending.turns[k].AwaitingSpeech? && s.page.audioElement
    ensures var t := OnSpeechReply(StopConversation(s), k, Audio(b), Decoded(chars), PlayPending);
      && t.effects == StopConversation(s).effects + [PlayAudio(Blob.CharBytes(chars))]
      && t.view.isSpeaking && !t.view.conversationStarted
      && t.pending.restarts == s.pending.restarts && t.history == s.history
  {
    StopHalts(s);
    SpeechReplyPlays(StopConversation(s), k, b, chars);
  }

  /** A pending restart that fires while idle starts recognition, whether or not the conversation is started. */
  lemma TimerResumes(s: ControllerState, p: Platform)
    requires !Busy(s) && |s.pending.restarts| > 0
    requires (s.capture.recognizer || s.page.available) && p.startError.None?
    ensures var a := Step(s, TimerFired(0, p));
      && a.effects == s.effects + [StartRecognition]
      && a.pending.restarts == s.pending.restarts[1..]
      && a.view == s.view.(error := None) && a.capture == Capture(true, "", p.now, false)
  {
    assert Step(s, TimerFired(0, p)) == OnTimer(s, 0, p);
    assert Remove(s.pending.restarts, 0) == s.pending.restarts[1..];
  }

  /** The silence check on a listening, idle page with a non-blank transcript and enough quiet stops and submits. */
  lemma QuietSubmits(h: ControllerState, now: int)
    requires h.view.isListening && !h.view.isSpeaking && !h.view.isProcessing
    requires h.capture.recognizer && !h.capture.processing
    requires Text.Trim(h.capture.transcript) != "" && now - h.capture.lastSpeechTime > SilenceThreshold
    ensures CheckSilence(h, now).view.conversationStarted == h.view.conversationStarted
    ensures CheckSilence(h, now).effects == h.effects + [StopRecognition, RequestChat(Text.Trim(h.capture.transcript))]
  {
    assert CheckSilence(h, now) == ProcessSpeech(h, h.capture.transcript);
  }

  /** The recognizer's start callback is onstart and nothing else. */
  lemma StartedIsOnStart(s: ControllerState)
    ensures Step(s, RecognitionStarted) == OnStart(s)
  {
  }

  /** A recognition result is onresult and nothing else. */
  lemma ResultIsOnResult(s: ControllerState, now: int, text: string)
    ensures Step(s, RecognitionResult(now, text)) == OnResult(s, now, text)
  {
  }

  /** A silence tick runs the silence check and nothing else. */
  lemma SilenceTickIsCheck(s: ControllerState, now: int)
    ensures Step(s, SilenceTick(now)) == CheckSilence(s, now)
  {
  }

  /** Once recognition runs, a result followed by 2 s of quiet submits the trimmed text, started or not. */
  lemma HeardIsSubmitted(a: ControllerState, now: int, text: string)
    requires a.capture.recognizer && !a.view.isSpeaking && !a.view.isProcessing
    requires Text.Trim(text) != ""
    ensures var b := Step(Step(Step(a, RecognitionStarted), RecognitionResult(now, text)), SilenceTick(now + 2000));
      && b.view.conversationStarted == a.view.conversationStarted
      && b.effects == a.effects + [StopRecognition, RequestChat(Text.Trim(text))]
  {
    StartedIsOnStart(a);
    ResultIsOnResult(OnStart(a), now, text);
    var heard := OnResult(OnStart(a), now, text);
    SilenceTickIsCheck(heard, now + 2000);
    QuietSubmits(heard, now + 2000);
  }

  /**
   * startListening never reads conversationStarted: a restart still pending
   * when the conversation was stopped resumes listening, and the next silence
   * tick submits what is heard to the chat route.
   */
  lemma PendingRestartResumesAfterStop(s: ControllerState, p: Platform, now: int, text: string)
    requires !s.view.conversationStarted && !Busy(s) && |s.pending.restarts| > 0
    requires (s.capture.recognizer || s.page.available) && p.startError.None?
    requires Text.Trim(text) != ""
    ensures var a := Step(s, TimerFired(0, p));
      && a.effects == s.effects + [StartRecognition]
      && a.pending.restarts == s.pending.restarts[1..]
      && var b := Step(Step(Step(a, RecognitionStarted), RecognitionResult(now, text)), SilenceTick(now + 2000));
      && !b.view.conversationStarted
      && b.effects == a.effects + [StopRecognition, RequestChat(Text.Trim(text))]
  {
    TimerResumes(s, p);
    HeardIsSubmitted(Step(s, TimerFired(0, p)), now, text);
  }

  /**
   * audio.onerror leaves isSpeaking set, so the restart it schedules finds the
   * controller busy and starts nothing.
   */
  lemma PlaybackErrorRestartIsNoOp(s: ControllerState, p: Platform)
    requires s.view.isSpeaking && s.view.conversationStarted
    ensures var r := OnAudioError(s);
      && r.view.isSpeaking && r.pending.restarts == s.pending.restarts + [AfterError]
      && OnTimer(r, |s.pending.restarts|, p) == r.(pending := r.pending.(restarts := s.pending.restarts))
  {
    var r := OnAudioError(s);
    assert Remove(r.pending.restarts, |s.pending.restarts|) == s.pending.restarts;
  }

  /** A trimmed, non-empty utterance. */
  predicate Utterance(u: string)
  {
    u != "" && Text.Trim(u) == u
  }

  /** Every user message in the history is a string holding an utterance. */
  predicate UserUtterances(ms: seq<Message>)
  {
    forall i :: 0 <= i < |ms| && ms[i].role == User ==> ms[i].content.JStr? && Utterance(ms[i].content.s)
  }

  /** Every chat request sent carries an utterance. */
  predicate ChatUtterances(es: seq<Effect>)
  {
    forall i :: 0 <= i < |es| && es[i].RequestChat? ==> Utterance(es[i].message)
  }

  /** No recognition start was ever issued. */
  predicate NoRecognitionStart(es: seq<Effect>)
  {
    forall i :: 0 <= i < |es| ==> es[i] != StartRecognition
  }

  lemma UserUtterancesSnoc(ms: seq<Message>, m: Message)
    requires UserUtterances(ms)
    requires m.role == User ==> m.content.JStr? && Utterance(m.content.s)
    ensures UserUtterances(ms + [m])
  {
    forall i | 0 <= i < |ms + [m]| && (ms + [m])[i].role == User
      ensures (ms + [m])[i].content.JStr? && Utterance((ms + [m])[i].content.s)
    {
      if i < |ms| { assert (ms + [m])[i] == ms[i]; }
    }
  }

  lemma EffectsSnoc(es: seq<Effect>, e: Effect)
    ensures ChatUtterances(es) && (e.RequestChat? ==> Utterance(e.message)) ==> ChatUtterances(es + [e])
    ensures NoRecognitionStart(es) && e != StartRecognition ==> NoRecognitionStart(es + [e])
  {
    if ChatUtterances(es) && (e.RequestChat? ==> Utterance(e.message)) {
      forall i | 0 <= i < |es + [e]| && (es + [e])[i].RequestChat? ensures Utterance((es + [e])[i].message) {
        if i < |es| { assert (es + [e])[i] == es[i]; }
      }
    }
    if NoRecognitionStart(es) && e != StartRecognition {
      forall i | 0 <= i < |es + [e]| ensures (es + [e])[i] != StartRecognition {
        if i < |es| { assert (es + [e])[i] == es[i]; }
      }
    }
  }

  /**
   * The part of the invariant that does not speak of pending turns: without the
   * capability no recognizer is made and no start command is ever issued;
   * nothing plays without an audio element; every user message and every chat
   * request carries a trimmed non-empty utterance.
   */
  predicate Safe(s: ControllerState)
  {
    && (!s.page.available ==> !s.capture.recognizer && NoRecognitionStart(s.effects))
    && (s.view.isSpeaking ==> s.page.audioElement)
    && UserUtterances(s.history.messages)
    && ChatUtterances(s.effects)
  }

  /** What holds in every reachable state: Safe, and the processing indicator implies a turn in flight. */
  predicate Inv(s: ControllerState)
  {
    Safe(s) && (s.view.isProcessing ==> |s.pending.turns| > 0)
  }

  lemma InitSatisfiesInv(available: bool, audioElement: bool)
    ensures Inv(Init(available, audioElement))
  {
  }

  lemma SafeEmit(s: ControllerState, e: Effect)
    requires Safe(s)
    requires e != StartRecognition || s.page.available
    requires e.RequestChat? ==> Utterance(e.message)
    ensures Safe(Emit(s, e))
  {
    EffectsSnoc(s.effects, e);
  }

  lemma InvStartListening(s: ControllerState, p: Platform)
    requires Inv(s)
    ensures Inv(StartListening(s, p))
  {
    if !Busy(s) {
      if !s.capture.recognizer && !s.page.available {
        SafeEmit(SetError(s, Some(NotSupported)), ShowAlert(NotSupported));
      } else {
        SafeEmit(SetError(s, None).(capture := Capture(true, "", p.now, false)), StartRecognition);
      }
    }
  }

  lemma InvStopListening(s: ControllerState)
    requires Inv(s)
    ensures Inv(StopListening(s))
  {
    if s.capture.recognizer { SafeEmit(s, StopRecognition); }
  }

  lemma InvHandleSpeechEnd(s: ControllerState, text: string)
    requires Inv(s)
    ensures Inv(HandleSpeechEnd(s, text))
  {
    var u := Text.Trim(text);
    if u != "" {
      Text.TrimIdempotent(text);
      var cleared := SetError(s, None);
      UserUtterancesSnoc(cleared.history.messages, Message(User, JStr(u)));
      var t := cleared.(history := cleared.history.(messages := cleared.history.messages + [Message(User, JStr(u))]),
                        view := cleared.view.(isProcessing := true),
                        pending := cleared.pending.(turns := cleared.pending.turns + [AwaitingChat(u)]));
      SafeEmit(t, RequestChat(u));
    }
  }

  lemma InvProcessSpeech(s: ControllerState, text: string)
    requires Inv(s)
    ensures Inv(ProcessSpeech(s, text))
  {
    if !s.capture.processing {
      InvStopListening(s.(capture := s.capture.(processing := true)));
      InvHandleSpeechEnd(StopListening(s.(capture := s.capture.(processing := true))), text);
    }
  }

  lemma SafeAppendAssistant(s: ControllerState, content: Json)
    requires Safe(s)
    ensures Safe(s.(history := s.history.(messages := s.history.messages + [Message(Assistant, content)])))
  {
    UserUtterancesSnoc(s.history.messages, Message(Assistant, content));
  }

  lemma InvChatReply(s: ControllerState, k: nat, r: Reply)
    requires Inv(s)
    ensures Inv(OnChatReply(s, k, r))
  {
    if k < |s.pending.turns| && s.pending.turns[k].AwaitingChat? {
      var counted := CountReply(s, r.failure);
      SafeAppendAssistant(counted, r.content);
      var t := counted.(history := counted.history.(messages := counted.history.messages + [Message(Assistant, r.content)]),
                        pending := counted.pending.(turns := counted.pending.turns[k := AwaitingSpeech(r.content)]));
      SafeEmit(t, RequestSpeech(r.content));
    }
  }

  lemma SafeRecoverTurn(s: ControllerState, e: string)
    requires Safe(s)
    ensures Safe(RecoverTurn(s, e))
  {
    SafeAppendAssistant(s, JStr(Apology));
  }

  lemma SafeTrySpeak(s: ControllerState, r: Synthesis, d: Decoding, play: PlayCall)
    requires Safe(s)
    ensures Safe(TrySpeak(s, r, d, play))
  {
    match r
    case SynthesisFailed(e) => SafeRecoverTurn(s, e);
    case Audio(_) =>
      if s.page.audioElement {
        match d
        case DecodeFailed(e) => SafeRecoverTurn(s, e);
        case Decoded(chars) =>
          SafeEmit(s.(view := s.view.(isSpeaking := true)), PlayAudio(Blob.CharBytes(chars)));
      }
  }

  lemma InvSpeechReply(s: ControllerState, k: nat, r: Synthesis, d: Decoding, play: PlayCall)
    requires Inv(s)
    ensures Inv(OnSpeechReply(s, k, r, d, play))
  {
    if k < |s.pending.turns| && s.pending.turns[k].AwaitingSpeech? {
      SafeTrySpeak(s.(pending := s.pending.(turns := Remove(s.pending.turns, k))), r, d, play);
    }
  }

  lemma InvStopConversation(s: ControllerState)
    requires Inv(s)
    ensures Inv(StopConversation(s))
  {
    InvStopListening(s);
    var stopped := StopListening(s);
    var halted := stopped.(view := stopped.view.(conversationStarted := false, isSpeaking := false),
                           capture := stopped.capture.(processing := false));
    if halted.page.audioElement { SafeEmit(halted, StopAudio); }
  }

  lemma InvOnEnd(s: ControllerState)
    requires Inv(s)
    ensures Inv(OnEnd(s))
  {
    var ended := s.(view := s.view.(isListening := false));
    assert Inv(ended);
    var text := Text.Trim(ended.capture.transcript);
    if text != "" && MayContinue(ended) {
      InvProcessSpeech(ended, text);
    } else if MayContinue(ended) {
      assert OnEnd(s) == Schedule(ended, AfterNoTranscript);
    } else {
      assert OnEnd(s) == ended;
    }
  }

  lemma InvCheckSilence(s: ControllerState, now: int)
    requires Inv(s)
    ensures Inv(CheckSilence(s, now))
  {
    InvProcessSpeech(s, s.capture.transcript);
  }

  lemma InvOnTimer(s: ControllerState, k: nat, p: Platform)
    requires Inv(s)
    ensures Inv(OnTimer(s, k, p))
  {
    if k < |s.pending.restarts| {
      InvStartListening(s.(pending := s.pending.(restarts := Remove(s.pending.restarts, k))), p);
    }
  }

  /** t keeps the invariant s had, and the page's capabilities. */
  predicate Keeps(s: ControllerState, t: ControllerState)
  {
    (Inv(s) ==> Inv(t)) && t.page == s.page
  }

  /** A stopped conversation stays stopped and gains no pending restart. */
  predicate StaysStopped(s: ControllerState, t: ControllerState)
  {
    !s.view.conversationStarted ==> !t.view.conversationStarted && |t.pending.restarts| <= |s.pending.restarts|
  }

  lemma StartPressedStep(s: ControllerState, p: Platform)
    ensures Keeps(s, Step(s, StartPressed(p)))
  {
    if Inv(s) {
      InvStartListening(s.(view := s.view.(conversationStarted := true, error := None), history := History([], 0),
                           capture := s.capture.(processing := false)), p);
    }
  }

  lemma StopPressedStep(s: ControllerState)
    ensures Keeps(s, Step(s, StopPressed)) && StaysStopped(s, Step(s, StopPressed))
  {
    if Inv(s) { InvStopConversation(s); }
  }

  lemma RecognitionStep(s: ControllerState, now: int, text: string, code: string)
    ensures Keeps(s, Step(s, RecognitionStarted)) && StaysStopped(s, Step(s, RecognitionStarted))
    ensures Keeps(s, Step(s, RecognitionResult(now, text))) && StaysStopped(s, Step(s, RecognitionResult(now, text)))
    ensures Keeps(s, Step(s, RecognitionError(code))) && StaysStopped(s, Step(s, RecognitionError(code)))
  {
  }

  /** The end handler leaves the capabilities alone and, once stopped, only clears isListening. */
  lemma OnEndFrame(s: ControllerState)
    ensures OnEnd(s).page == s.page
    ensures !s.view.conversationStarted ==> OnEnd(s) == s.(view := s.view.(isListening := false))
  {
    var ended := s.(view := s.view.(isListening := false));
    var text := Text.Trim(ended.capture.transcript);
    if text != "" && MayContinue(ended) {
      assert OnEnd(s) == ProcessSpeech(ended, text);
      if !ended.capture.processing {
        var stopped := StopListening(ended.(capture := ended.capture.(processing := true)));
        assert stopped.page == s.page;
        assert HandleSpeechEnd(stopped, text).page == s.page;
      }
    }
  }

  lemma RecognitionEndedStep(s: ControllerState)
    ensures Keeps(s, Step(s, RecognitionEnded)) && StaysStopped(s, Step(s, RecognitionEnded))
  {
    assert Step(s, RecognitionEnded) == OnEnd(s);
    OnEndFrame(s);
    if Inv(s) { InvOnEnd(s); }
  }

  lemma SilenceTickStep(s: ControllerState, now: int)
    ensures Keeps(s, Step(s, SilenceTick(now))) && StaysStopped(s, Step(s, SilenceTick(now)))
  {
    if Inv(s) { InvCheckSilence(s, now); }
  }

  lemma ChatRepliedStep(s: ControllerState, k: nat, o: Fetched)
    ensures Keeps(s, Step(s, ChatReplied(k, o))) && StaysStopped(s, Step(s, ChatReplied(k, o)))
  {
    if Inv(s) { InvChatReply(s, k, ChatResult(o)); }
  }

  lemma SpeechRepliedStep(s: ControllerState, k: nat, o: Fetched, d: Decoding, play: PlayCall)
    ensures Keeps(s, Step(s, SpeechReplied(k, o, d, play))) && StaysStopped(s, Step(s, SpeechReplied(k, o, d, play)))
  {
    if Inv(s) { InvSpeechReply(s, k, SpeechResult(o), d, play); }
    if k < |s.pending.turns| && s.pending.turns[k].AwaitingSpeech? {
      TrySpeakFrame(s.(pending := s.pending.(turns := Remove(s.pending.turns, k))), SpeechResult(o), d, play);
    }
  }

  lemma PlayStep(s: ControllerState, err: string)
    ensures Keeps(s, Step(s, PlayRejected(err))) && StaysStopped(s, Step(s, PlayRejected(err)))
    ensures Keeps(s, Step(s, PlayFulfilled)) && StaysStopped(s, Step(s, PlayFulfilled))
  {
  }

  lemma AudioStep(s: ControllerState)
    ensures Keeps(s, Step(s, AudioEnded)) && StaysStopped(s, Step(s, AudioEnded))
    ensures Keeps(s, Step(s, AudioError)) && StaysStopped(s, Step(s, AudioError))
  {
  }

  lemma TimerFiredStep(s: ControllerState, k: nat, p: Platform)
    ensures Keeps(s, Step(s, TimerFired(k, p))) && StaysStopped(s, Step(s, TimerFired(k, p)))
  {
    if Inv(s) { InvOnTimer(s, k, p); }
    if k < |s.pending.restarts| {
      var t := s.(pending := s.pending.(restarts := Remove(s.pending.restarts, k)));
      assert |t.pending.restarts| < |s.pending.restarts|;
      if !s.view.conversationStarted {
        assert StartListening(t, p).pending.restarts == t.pending.restarts;
      }
    }
  }

  /** Every event keeps the invariant and the capabilities; every event but the start button keeps a stopped page stopped. */
  lemma StepKeeps(s: ControllerState, e: Event)
    ensures Keeps(s, Step(s, e))
    ensures !e.StartPressed? ==> StaysStopped(s, Step(s, e))
  {
    match e
    case StartPressed(p) => StartPressedStep(s, p);
    case StopPressed => StopPressedStep(s);
    case RecognitionStarted => RecognitionStep(s, 0, "", "");
    case RecognitionResult(now, text) => RecognitionStep(s, now, text, "");
    case RecognitionEnded => RecognitionEndedStep(s);
    case RecognitionError(code) => RecognitionStep(s, 0, "", code);
    case SilenceTick(now) => SilenceTickStep(s, now);
    case ChatReplied(k, o) => ChatRepliedStep(s, k, o);
    case SpeechReplied(k, o, d, play) => SpeechRepliedStep(s, k, o, d, play);
    case PlayRejected(err) => PlayStep(s, err);
    case PlayFulfilled => PlayStep(s, "");
    case AudioEnded => AudioStep(s);
    case AudioError => AudioStep(s);
    case TimerFired(k, p) => TimerFiredStep(s, k, p);
  }

  /** Every event preserves the invariant. */
  lemma StepPreservesInv(s: ControllerState, e: Event)
    requires Inv(s)
    ensures Inv(Step(s, e))
  {
    StepKeeps(s, e);
  }

  /**
   * Once stopped, no event but the start button restarts the conversation or
   * schedules a new restart (already pending timers may still fire).
   */
  lemma StoppedSchedulesNothing(s: ControllerState, e: Event)
    requires !s.view.conversationStarted && !e.StartPressed?
    ensures !Step(s, e).view.conversationStarted
    ensures |Step(s, e).pending.restarts| <= |s.pending.restarts|
  {
    StepKeeps(s, e);
  }

  /** Any sequence of events keeps the invariant and the capabilities. */
  lemma {:induction false} RunKeeps(s: ControllerState, events: seq<Event>)
    ensures Keeps(s, Run(s, events))
    decreases |events|
  {
    if |events| > 0 {
      StepKeeps(s, events[0]);
      RunKeeps(Step(s, events[0]), events[1..]);
    }
  }

  /** The invariant holds after any sequence of events from a state that has it. */
  lemma RunPreservesInv(s: ControllerState, events: seq<Event>)
    requires Inv(s)
    ensures Inv(Run(s, events))
  {
    RunKeeps(s, events);
  }

  /** After stop, without a press of the start button, the conversation stays stopped and the pending restarts only dwindle. */
  lemma {:induction false} StoppedStaysStopped(s: ControllerState, events: seq<Event>)
    requires !s.view.conversationStarted
    requires forall i :: 0 <= i < |events| ==> !events[i].StartPressed?
    ensures !Run(s, events).view.conversationStarted
    ensures |Run(s, events).pending.restarts| <= |s.pending.restarts|
    decreases |events|
  {
    if |events| > 0 {
      StepKeeps(s, events[0]);
      StoppedStaysStopped(Step(s, events[0]), events[1..]);
    }
  }

  /** Without the capability, no sequence of events ever issues a recognition start. */
  lemma NeverStartsWhenUnavailable(audioElement: bool, events: seq<Event>, i: nat)
    requires i < |Run(Init(false, audioElement), events).effects|
    ensures Run(Init(false, audioElement), events).effects[i] != StartRecognition
  {
    InitSatisfiesInv(false, audioElement);
    RunKeeps(Init(false, audioElement), events);
    assert NoRecognitionStart(Run(Init(false, audioElement), events).effects);
  }
}
