# Self-to-self voice chat, modelled in Dafny

The application is a voice chat page. It listens to the microphone through the browser's speech recognizer. Once the speaker has been quiet for a moment, it sends the transcript to a chat route backed by a language model. It then sends the reply to a speech route backed by a speech-synthesis service, plays the audio it gets back, and listens again. The loop runs until the conversation is stopped.

Three parts of the program are covered:

- **The page's turn controller** (`app/page.tsx`) is the `VoiceChatBot` component. This covers:
  - the state it renders and its refs;
  - the recognizer callbacks, the silence check and the single-flight guard;
  - `handleSpeechEnd` with its two suspension points and its error paths;
  - the two fetch helpers, the restart timers, stop, and the `base64ToBlob` chunking loop.

  Module `Turns` (turns.dfy) holds the controller's whole state as one value, with one function per handler, and a transition function `Step` over the events the controller receives. Class `VoiceChat.VoiceChatBot` (voice_chat.dfy) keeps that state in fields; every method is proved to update them exactly as the corresponding `Turns` function does, and every method that handles an event also keeps the invariant. The helpers `Schedule`, `RecoverTurn`, `PlayFailed`, `Speak` and `TrySpeak` are proved only against their functions; the handlers that call them re-establish the invariant. Module `TurnProperties` (turn_properties.dfy) proves what the handlers promise. Module `Scenario` (scenario.dfy) follows one complete spoken turn through the controller, state by state.
- **The chat route** (`app/api/chat/route.ts`) is modelled in module `ChatApi` (chat_route.dfy). It has a guard chain, a conversation context kept at module level that every accepted request appends to, and a mapping of the upstream answer to the route's response. The module-level context is a field of class `ChatRoute`.
- **The speech route** (`app/api/speech/route.ts`) is modelled in module `SpeechApi` (speech_route.dfy). It is stateless: a guard chain, then the upstream answer relayed as base64.

Supporting modules:

- `Js` (js.dfy) models the JavaScript value semantics the code relies on. That means:
  - JSON values, and truthiness;
  - property reads that throw a TypeError on null and undefined, and destructuring;
  - response bodies.
- `Text` (text.dfy) models `String.prototype.trim` and the decimal rendering of integers in template literals.
- `Base64` (base64.dfy) models the base64 encoding of RFC 4648 section 4, which `Buffer.toString("base64")` produces, together with a decoder.
- `Blob` (blob.dfy) models the slicing loop of `base64ToBlob`.
- `Wrappers` (wrappers.dfy) defines `Option` and `byte`.

How the platform is modelled:

- The browser and the servers are outside the model. What they supply becomes event fields and parameters:
  - the time `Date.now()` returns;
  - what a fetch returned or threw;
  - what `atob` produced;
  - whether `play()` threw;
  - whether the recognizer is available.
- What the controller asks of the platform is appended to an `effects` log: starting or stopping recognition, an alert, a chat or speech request, playing or pausing audio.
- Each `setTimeout(startListening, d)` is a pending restart holding its delay. A pending restart fires when a `TimerFired` event names it.

A reader might expect some things the code does not do. The model follows the code:

- **No credential-failure branch.** The page does not treat a 401 answer from the chat route specially. Every non-ok status becomes the same rendered error, `Error: <status> - <raw body>`.
- **Stop does not cancel.** Stopping the conversation does not cancel a turn in flight. Its chat reply is still appended to the history and its speech is still requested (`ReplyAfterStopStillAppended`). Its audio is still played (`PlayAfterStop`).
- **Restarts survive stop.** A restart scheduled before stop still fires after it. `startListening` never reads `conversationStarted`, so that restart resumes listening. The next silence tick then sends what is heard to the chat route while the conversation is still stopped (`PendingRestartResumesAfterStop`). In the model no new restart is scheduled once stopped; the program can still schedule some (see "## Left out").
- **Playback errors leave the speaking flag set.** `audio.onerror` does not clear `isSpeaking`. In the model, which reads the state when a handler runs, the 1000 ms restart it schedules therefore finds the controller busy and starts nothing (`PlaybackErrorRestartIsNoOp`). The program's timer calls an older `startListening`, which may not (see "## Left out").
- **The chat context is written.** The chat route's context is not read-only after it is loaded. Every accepted message is pushed onto it for the life of the server process (`ContextIsSeedPlusUserEntries`).

## Model

| member | source | states |
|---|---|---|
| Text.TrimStart | app/page.tsx:377 | the result is a suffix of the input, everything removed is white space, and the result does not start with white space |
| Text.TrimEnd | app/page.tsx:377 | the result is a prefix of the input, everything removed is white space, and the result does not end with white space |
| Text.TrimIsInnerSlice | app/page.tsx:377 | trim returns a slice s[i..j] of its input with only white space outside it, and a non-empty result starts and ends with non-space |
| Text.TrimEmptyIffAllSpace | app/page.tsx:366-374 | the trimmed transcript is empty exactly when the transcript is all white space (the blank-utterance guard) |
| Text.TrimFixed | app/page.tsx:377 | a string that neither starts nor ends with white space is its own trim |
| Text.TrimIdempotent | app/page.tsx:377 | trimming an already trimmed transcript changes nothing (onend trims at line 158, then handleSpeechEnd trims again) |
| Text.NatToString | app/page.tsx:260 | the rendering of a status is a non-empty run of decimal digits without a leading zero |
| Text.ParseNatToString | app/page.tsx:260 | the decimal rendering of a number loses nothing: reading its digits back gives the number |
| Js.Lookup | app/api/chat/route.ts:64 | a property is found exactly when some field has that key, and its value is that of the last such field, as JSON.parse keeps the last duplicate |
| Js.Get | app/api/chat/route.ts:126 | reading a property throws exactly when the value is null or undefined |
| Js.At | app/api/chat/route.ts:126 | indexing throws exactly when the value is null or undefined |
| Base64.Encode | app/api/speech/route.ts:76 | the encoding has 4 * ceil(n / 3) characters, all from the base64 alphabet or '=' |
| Base64.QuantumRoundTrip | app/api/speech/route.ts:76 | the four characters of one 3-octet group decode back to those three octets |
| Base64.DecodeEncodeOne | app/api/speech/route.ts:76 | a final group of one octet (two characters and "==") decodes back to that octet |
| Base64.DecodeEncodeTwo | app/api/speech/route.ts:76 | a final group of two octets (three characters and "=") decodes back to those octets |
| Base64.DecodeEncodeThree | app/api/speech/route.ts:76 | a final full group decodes back to its three octets |
| Base64.DecodeEncode | app/api/speech/route.ts:76 | decoding the encoding of any byte sequence gives back exactly that sequence |
| Blob.CharBytesAreCodes | app/page.tsx:488-499 | for characters below 256, which is all atob produces, the Blob holds exactly the char codes |
| Blob.Base64ToBlob | app/page.tsx:486-506 | the arrays concatenate to the bytes of the whole string, there are ceil(n / 512) of them, and every array but the last is 512 long |
| ChatApi.Screen | app/api/chat/route.ts:35-71 | an accepted message is truthy and came from an object body; every rejection is a 400 or a 500 whose body leads with an error |
| ChatApi.Answer | app/api/chat/route.ts:113-137 | a 200 carries exactly one field, content; any status other than 200 and 500 is the upstream status; every non-200 body leads with an error |
| ChatApi.ChatRoute.constructor | app/api/chat/route.ts:11-28 | the route is loaded with the seed context |
| ChatApi.ChatRoute.Post | app/api/chat/route.ts:30-138 | a rejected request leaves the context alone and sends nothing. An accepted one appends one user entry, sends the extended context and answers from the upstream outcome |
| ChatApi.KeyCheckedFirst | app/api/chat/route.ts:35-38 | without a key the answer is the same 500 whatever the body is |
| ChatApi.BodyRejections | app/api/chat/route.ts:56-71 | an unparseable body is 400 "Invalid request body", a falsy message is 400 "No message provided", and a null body is a 500 from the outer catch |
| ChatApi.AcceptedExactly | app/api/chat/route.ts:35-71 | a message is accepted exactly when a key is set and the body is an object whose message is truthy; the message is then the one accepted |
| ChatApi.AnswerStatus | app/api/chat/route.ts:113-137 | a thrown call is 500 "Failed to call OpenAI API". A non-ok status with a non-null body is passed through with "Error from OpenAI API", and a null body is 500. An ok answer is 200 exactly when the body is an object whose choices is present and not null; otherwise reading `[0]` throws and the answer is 500 |
| ChatApi.EmptyChoiceFallback | app/api/chat/route.ts:126-129 | an ok answer whose body, whatever its other fields, has a choices array with no first choice or a first choice without content is 200 with the fixed apology |
| ChatApi.ContextIsSeedPlusUserEntries | app/api/chat/route.ts:74 | after any series of requests the context is the seed followed by one user entry per accepted message, in order |
| ChatApi.OnlyUserEntriesAdded | app/api/chat/route.ts:74 | every entry after the seed has role "user": no assistant reply is ever added to the context |
| SpeechApi.Answer | app/api/speech/route.ts:42-83 | the answer is 200 exactly when the upstream answered with an ok status; any status other than 200 and 500 is the upstream status; the body leads with audio on 200 and with an error otherwise |
| SpeechApi.Handle | app/api/speech/route.ts:3-88 | a sent request carries the key, the model and a truthy text, and the response is then the upstream answer; an unsent one is answered 400 or 500 |
| SpeechApi.UpstreamThrewIs500 | app/api/speech/route.ts:80-83 | a call that throws is 500 "Failed to call ElevenLabs API" with the error as details |
| SpeechApi.KeyCheckedFirst | app/api/speech/route.ts:8-11 | without a key the answer is the same 500 whatever the voice ID, body and upstream are |
| SpeechApi.VoiceCheckedSecond | app/api/speech/route.ts:14-17 | with a key but no voice ID the answer is 500 "ElevenLabs Voice ID is not configured" |
| SpeechApi.BodyRejections | app/api/speech/route.ts:20-35 | an unparseable body is 400 "Invalid request body" and a falsy text is 400 "No text provided" |
| SpeechApi.SentExactlyWhenAccepted | app/api/speech/route.ts:8-58 | a request goes upstream exactly when both variables are set and the body is an object with truthy text. It carries that text to the configured voice, and the response depends on the upstream answer alone |
| SpeechApi.FailureStatusPassedThrough | app/api/speech/route.ts:62-69 | a failure status is passed through with the status in the error and the body text as details |
| SpeechApi.SuccessCarriesAudio | app/api/speech/route.ts:72-79 | on success the response is 200 with one field, audio, whose base64 decodes to exactly the upstream bytes |
| Turns.Step | app/page.tsx:28-506 | no event changes what the page found when it mounted: the recognition capability and the audio element |
| TurnProperties.ChatCallsSnoc | app/page.tsx:385 | the number of chat requests grows by one exactly when a chat request is issued |
| TurnProperties.SilenceFiresExactlyWhen | app/page.tsx:78-100 | the silence check changes nothing unless it is listening and idle, the trimmed transcript is non-empty, more than 1500 ms have passed and the flag is clear. Then it stops capture, records the user message and sends one chat request |
| TurnProperties.ProcessSpeechSingleFlight | app/page.tsx:348-352 | processSpeech does nothing while processingRef is set |
| TurnProperties.ProcessSpeechCalls | app/page.tsx:348-361 | processSpeech with the flag clear sends one chat request for a non-blank text and none for a blank one, and leaves the flag set when it sends |
| TurnProperties.FeedStep | app/page.tsx:78-167 | one result, silence tick or end event sends at most one chat request, none once the flag is set, and leaves the flag set when it sends |
| TurnProperties.FeedAfterSubmit | app/page.tsx:78-167 | once the flag is set, no sequence of capture events sends another chat request |
| TurnProperties.OneUtteranceOneRequest | app/page.tsx:78-167 | whatever results, silence ticks and end events arrive, in any order, at most one chat request is sent |
| TurnProperties.StartListeningCases | app/page.tsx:183-217 | startListening is a no-op while busy. Without recognizer and capability it alerts "not supported". Otherwise it resets the capture, starts recognition and re-arms after 1000 ms only when the start throws during a conversation |
| TurnProperties.EndOfCapture | app/page.tsx:152-167 | at the end of recognition a transcript is processed exactly when it is non-blank, the flag is clear, the conversation is started and nothing plays. Under the same conditions an empty one re-arms after 500 ms |
| TurnProperties.RecognitionErrorRestart | app/page.tsx:169-178 | a recognition error is always shown, and re-arms after 1000 ms only for a code other than aborted and not-allowed, during a conversation, when not speaking |
| TurnProperties.BlankUtteranceStartsNoTurn | app/page.tsx:366-374 | a blank transcript adds no message and sends no request, leaves the retry counter alone and clears the flag. During a conversation it re-arms after 500 ms |
| TurnProperties.SubmitFields | app/page.tsx:377-385 | a non-blank transcript appends the trimmed user message, begins a turn, shows processing and sends one chat request with the trimmed text |
| TurnProperties.ChatReplyFields | app/page.tsx:385-393 | the chat reply appends one assistant message, requests its speech and moves the turn to awaiting speech |
| TurnProperties.TurnAppendsUserThenReply | app/page.tsx:377-393 | a turn appends the user message and then exactly one assistant message with the reply, after one chat request and then one speech request |
| TurnProperties.ChatResultCases | app/page.tsx:235-292 | generateChatResponse succeeds exactly on an ok status with a body parsing to an object with truthy content, and returns that content. Otherwise it returns the fixed fallback sentence |
| TurnProperties.NonOkErrorIsRawBody | app/page.tsx:253-262 | on a non-ok status the caught error is always `Error: <status> - <raw body>`, whether or not the body parses |
| TurnProperties.SpeechResultCases | app/page.tsx:295-345 | textToSpeech returns the audio exactly on an ok status with a body parsing to an object whose audio is truthy, and returns that audio. Otherwise it rethrows the error of the unreachable call, `<status> - <first 100 characters>...`, the invalid-JSON error, the TypeError of a null body, or "No audio in response" |
| TurnProperties.ExcerptIsPrefix | app/page.tsx:320 | `substring(0, 100)` is the first 100 characters, or the whole text when it is shorter |
| TurnProperties.RetryCounterRule | app/page.tsx:280-291 | success resets the retry counter; a failure adds one to it and shows "Error calling chat API: ..." |
| TurnProperties.TrySpeakFrame | app/page.tsx:393-453 | the rest of the try block leaves the pending turns, the capabilities and the started flag alone, and schedules nothing once stopped |
| TurnProperties.SynthesisFailureTurn | app/page.tsx:377-457 | when synthesis fails the history ends with the user message, the reply and the apology. A 2000 ms restart is scheduled only during a conversation, and both the indicator and the flag are cleared |
| TurnProperties.TurnSettles | app/page.tsx:454-457 | a resumed turn always ends with the processing indicator and the flag clear, and is no longer pending |
| TurnProperties.StopHalts | app/page.tsx:470-483 | stop clears started, the flag, speaking and listening, and stops recognition and the audio. It leaves pending turns, pending timers and the history alone |
| TurnProperties.StopIdempotent | app/page.tsx:470-483 | stopping twice leaves the same state as stopping once |
| TurnProperties.SpeechReplyPlays | app/page.tsx:393-418 | a speech reply with audio, an audio element and decoded characters plays the blob of their codes, sets speaking, adds one pending play() and clears both busy flags, leaving the history and the restarts alone |
| TurnProperties.PlayAfterStop | app/page.tsx:470-483 | after stop, the speech reply of a turn in flight is still played: speaking is set while the conversation stays stopped |
| TurnProperties.TimerResumes | app/page.tsx:183-217 | a pending restart that fires while idle starts recognition and resets the capture, whatever the started flag |
| TurnProperties.StartedIsOnStart | app/page.tsx:120-124 | the recognizer's start event runs onstart and nothing else |
| TurnProperties.ResultIsOnResult | app/page.tsx:126-150 | a recognition result runs onresult and nothing else |
| TurnProperties.SilenceTickIsCheck | app/page.tsx:78-100 | a silence tick runs the silence check and nothing else |
| TurnProperties.QuietSubmits | app/page.tsx:84-91 | on a listening, idle page with a non-blank transcript and more than 1500 ms of quiet, the silence check stops recognition and sends the trimmed transcript, leaving the started flag alone |
| TurnProperties.HeardIsSubmitted | app/page.tsx:78-385 | once recognition runs, a result followed by 2 s of quiet stops recognition and sends the trimmed text to the chat route, whatever the started flag |
| TurnProperties.PendingRestartResumesAfterStop | app/page.tsx:470-483 | a restart pending at stop resumes listening, and the next silence tick sends a chat request, with the conversation still stopped |
| TurnProperties.ReplyAfterStopStillAppended | app/page.tsx:385-393 | a chat reply arriving after stop is still appended and its speech still requested, and nothing is rescheduled |
| TurnProperties.PlaybackErrorRestartIsNoOp | app/page.tsx:57-64 | audio.onerror keeps isSpeaking, so the restart it schedules starts nothing when it fires |
| TurnProperties.InitSatisfiesInv | app/page.tsx:9-25 | the first render satisfies the invariant |
| TurnProperties.InvStartListening | app/page.tsx:183-217 | startListening keeps the invariant |
| TurnProperties.InvStopListening | app/page.tsx:219-232 | stopListening keeps the invariant |
| TurnProperties.InvHandleSpeechEnd | app/page.tsx:363-385 | handleSpeechEnd up to its first await keeps the invariant |
| TurnProperties.InvProcessSpeech | app/page.tsx:348-361 | processSpeech keeps the invariant |
| TurnProperties.InvChatReply | app/page.tsx:385-393 | the chat reply keeps the invariant |
| TurnProperties.SafeRecoverTurn | app/page.tsx:439-453 | the catch block of a turn keeps every user message and chat request an utterance and the capabilities respected |
| TurnProperties.SafeTrySpeak | app/page.tsx:393-438 | the playback part of a turn plays only with an audio element and keeps the rest of the invariant |
| TurnProperties.InvSpeechReply | app/page.tsx:393-457 | the speech reply and the finally block keep the invariant |
| TurnProperties.InvStopConversation | app/page.tsx:470-483 | stop keeps the invariant |
| TurnProperties.InvOnEnd | app/page.tsx:152-167 | the end handler keeps the invariant |
| TurnProperties.InvCheckSilence | app/page.tsx:78-100 | the silence check keeps the invariant |
| TurnProperties.InvOnTimer | app/page.tsx:214 | a firing restart timer keeps the invariant |
| TurnProperties.StartPressedStep | app/page.tsx:460-468 | the start button keeps the invariant and the capabilities |
| TurnProperties.StopPressedStep | app/page.tsx:470-483 | the stop button keeps the invariant and the capabilities, and schedules no restart |
| TurnProperties.RecognitionStep | app/page.tsx:120-178 | the start, result and error callbacks keep the invariant, and once stopped none re-arms listening |
| TurnProperties.OnEndFrame | app/page.tsx:152-167 | the end handler leaves the capabilities alone and, once stopped, only clears isListening |
| TurnProperties.RecognitionEndedStep | app/page.tsx:152-167 | the end callback keeps the invariant and schedules nothing once stopped |
| TurnProperties.SilenceTickStep | app/page.tsx:78-100 | the silence tick keeps the invariant and schedules nothing once stopped |
| TurnProperties.ChatRepliedStep | app/page.tsx:235-393 | a chat reply keeps the invariant and schedules nothing once stopped |
| TurnProperties.SpeechRepliedStep | app/page.tsx:295-457 | a speech reply keeps the invariant and schedules nothing once stopped |
| TurnProperties.PlayStep | app/page.tsx:407-418 | a settled play() promise keeps the invariant and schedules nothing once stopped |
| TurnProperties.AudioStep | app/page.tsx:45-64 | the audio element's end and error callbacks keep the invariant and schedule nothing once stopped |
| TurnProperties.TimerFiredStep | app/page.tsx:183-217 | a firing timer keeps the invariant and, once stopped, adds no restart |
| TurnProperties.StepKeeps | app/page.tsx:28-506 | every event keeps the invariant and the capabilities. Every event but the start button keeps a stopped page stopped without new restarts |
| TurnProperties.StepPreservesInv | app/page.tsx:28-506 | every event preserves the invariant |
| TurnProperties.StoppedSchedulesNothing | app/page.tsx:470-483 | once stopped, no event but the start button sets the started flag again, and none adds a restart. A restart already pending still resumes listening and can send a chat request (PendingRestartResumesAfterStop) |
| TurnProperties.RunKeeps | app/page.tsx:28-506 | any sequence of events keeps the invariant and the capabilities |
| TurnProperties.RunPreservesInv | app/page.tsx:28-506 | the invariant holds after any sequence of events |
| TurnProperties.StoppedStaysStopped | app/page.tsx:470-483 | after stop, without the start button, the started flag stays false and the pending restarts only dwindle. Those restarts still resume listening and can send chat requests |
| TurnProperties.NeverStartsWhenUnavailable | app/page.tsx:103-117 | without the recognition capability, no sequence of events ever issues a recognition start |
| VoiceChat.VoiceChatBot.constructor | app/page.tsx:9-25 | the object starts in the first-render state, which satisfies the invariant |
| VoiceChat.VoiceChatBot.Schedule | app/page.tsx:165 | a pending restart with the delay is added and nothing else changes |
| VoiceChat.VoiceChatBot.StartListening | app/page.tsx:183-217 | the fields change as startListening prescribes (StartListeningCases), and the invariant is kept |
| VoiceChat.VoiceChatBot.StopListening | app/page.tsx:219-232 | recognition is stopped when a recognizer exists and listening ends; the invariant is kept |
| VoiceChat.VoiceChatBot.StartConversation | app/page.tsx:460-468 | started is set, the error, history, retry counter and flag are reset, and listening starts; the invariant is kept |
| VoiceChat.VoiceChatBot.StopConversation | app/page.tsx:470-483 | the fields change as stop prescribes (StopHalts), and the invariant is kept |
| VoiceChat.VoiceChatBot.OnRecognitionStart | app/page.tsx:120-124 | listening is set and the flag cleared; the invariant is kept |
| VoiceChat.VoiceChatBot.OnRecognitionResult | app/page.tsx:126-150 | the time and text of the result are recorded; the invariant is kept |
| VoiceChat.VoiceChatBot.OnRecognitionEnd | app/page.tsx:152-167 | the fields change as the end handler prescribes (EndOfCapture), and the invariant is kept |
| VoiceChat.VoiceChatBot.OnRecognitionError | app/page.tsx:169-178 | the fields change as the error handler prescribes (RecognitionErrorRestart), and the invariant is kept |
| VoiceChat.VoiceChatBot.CheckSilence | app/page.tsx:78-100 | the fields change as the silence check prescribes (SilenceFiresExactlyWhen), and the invariant is kept |
| VoiceChat.VoiceChatBot.ProcessSpeech | app/page.tsx:348-361 | the fields change as processSpeech prescribes (ProcessSpeechSingleFlight), and the invariant is kept |
| VoiceChat.VoiceChatBot.HandleSpeechEnd | app/page.tsx:363-385 | the fields change as handleSpeechEnd prescribes up to its first await (SubmitFields, BlankUtteranceStartsNoTurn), and the invariant is kept |
| VoiceChat.VoiceChatBot.ChatReplied | app/page.tsx:235-393 | the fields change as the resumed turn prescribes (ChatReplyFields, RetryCounterRule), and the invariant is kept |
| VoiceChat.VoiceChatBot.RecoverTurn | app/page.tsx:439-453 | the error is shown, the apology appended, the flag cleared and a 2000 ms restart scheduled during a conversation |
| VoiceChat.VoiceChatBot.PlayFailed | app/page.tsx:409-429 | the play error is shown, speaking and the flag are cleared, and a 2000 ms restart is scheduled during a conversation |
| VoiceChat.VoiceChatBot.Speak | app/page.tsx:397-429 | the blob built by Base64ToBlob goes to the audio element, speaking is set, and the play() outcome is handled |
| VoiceChat.VoiceChatBot.TrySpeak | app/page.tsx:393-453 | synthesis failure, a missing audio element, a decoding failure and playback each take their own path |
| VoiceChat.VoiceChatBot.SpeechReplied | app/page.tsx:295-457 | the fields change as the resumed turn and its finally block prescribe (TurnSettles), and the invariant is kept |
| VoiceChat.VoiceChatBot.PlayRejected | app/page.tsx:409-418 | a rejected play() promise shows the error, clears speaking and the flag and re-arms; the invariant is kept |
| VoiceChat.VoiceChatBot.PlayFulfilled | app/page.tsx:407-408 | a resolved play() promise changes nothing but the count of unsettled promises; the invariant is kept |
| VoiceChat.VoiceChatBot.AudioEnded | app/page.tsx:45-55 | speaking ends and a 300 ms restart is scheduled during a conversation; the invariant is kept |
| VoiceChat.VoiceChatBot.AudioError | app/page.tsx:57-64 | the playback error is shown and a 1000 ms restart is scheduled during a conversation; the invariant is kept |
| VoiceChat.VoiceChatBot.TimerFired | app/page.tsx:214 | the timer is removed from the pending ones and startListening runs; the invariant is kept |
| VoiceChat.VoiceChatBot.Handle | app/page.tsx:28-506 | each event is dispatched to its handler, and the object moves as the transition function Step prescribes; the invariant is kept |
| Scenario.StartAndListen | app/page.tsx:120-150 | pressing start, recognition starting and "hi" being heard give the expected concrete states |
| Scenario.SilenceElapsed | app/page.tsx:84-91 | 1.6 s after "hi" with recognition running, the silence check submits "hi" |
| Scenario.GuardPasses | app/page.tsx:348-361 | with no utterance in flight, processSpeech sets the flag, stops recognition and then runs handleSpeechEnd |
| Scenario.HeardStops | app/page.tsx:219-232 | stopping recognition in the heard state issues the stop and clears listening |
| Scenario.GuardStops | app/page.tsx:348-361 | submitting "hi" in the heard state reaches handleSpeechEnd with recognition stopped |
| Scenario.SilenceStops | app/page.tsx:78-100 | 1.6 s after "hi" the silence check sets the flag and stops recognition |
| Scenario.HiSubmitted | app/page.tsx:363-385 | "hi" is then recorded and sent to the chat route |
| Scenario.SilenceSubmits | app/page.tsx:78-385 | the silence tick gives the concrete state with "hi" submitted |
| Scenario.EndIgnored | app/page.tsx:152-167 | the end of recognition after the submission only clears listening |
| Scenario.ReplyArrives | app/page.tsx:235-393 | the chat reply "Hello" is appended and its speech requested |
| Scenario.SpeechPlays | app/page.tsx:393-457 | the speech reply is decoded and played, and the turn settles |
| Scenario.PlaybackEndsAndRestarts | app/page.tsx:45-55 | the end of playback schedules a 300 ms restart, and when it fires listening starts again |
| Scenario.OneTurnTrace | app/page.tsx:28-506 | one spoken turn ends with the history [hi, Hello] and the retry counter 0. The effects are start, stop, one chat and one speech request, playback and a new start, and nothing is left pending |

## Left out

- React rendering: the JSX and the debug panel are not modelled, and neither is the console logging.
- Stale closures: the handlers are modelled as if they read the state at the moment they run. A React state pair and the ref that mirrors it are one field (`isListening` with `isListeningRef`, `transcript` with `currentTranscriptRef`).
- TurnProperties.EndOfCapture and TurnProperties.RecognitionErrorRestart describe the end and error handlers reading the current state, not the ones the program runs. The program installs the recognizer callbacks once, in `setupSpeechRecognition`. That runs from the first `startListening`, which `startConversation` calls in a render where `conversationStarted` is still false (page.tsx:460-468 and 190-193). So in the program `onend` (page.tsx:152-167) never processes a transcript or re-arms, and `onerror` (page.tsx:169-178) never re-arms. Only the silence check submits an utterance.
- TurnProperties.PlaybackErrorRestartIsNoOp describes the model only. The audio callbacks (page.tsx:33-75) and the timers call the `startListening` of an earlier render, whose guard reads `isSpeaking` and `isProcessing` from that render. So the restart after `audio.onerror` can start recognition in the program while playback is still flagged.
- Turns.Excerpt counts characters (Unicode scalar values, Dafny's `char`), while `substring(0, 100)` at page.tsx:320 and 329 counts UTF-16 code units. The two agree on text made only of characters of the Basic Multilingual Plane. For a body with characters outside it, the program's excerpt is shorter and can end in half of a surrogate pair, which a Dafny string cannot hold, so the error texts of `textToSpeech` differ.
- TurnProperties.ExcerptIsPrefix is stated in characters, not UTF-16 code units, for the reason given for Turns.Excerpt.
- A turn in flight at stop keeps the closures of the render in which the silence check started it (page.tsx:78-100), where `conversationStarted` was true. So after `stopConversation` (page.tsx:470-483) its failure paths still run `setTimeout(startListening, 2000)`: a rejected play (415), a play that throws (426), a missing audio element (435) and the catch block (451). The `startListening` that timer runs reads `isSpeaking` and `isProcessing` from that older render, both false (185), so it starts recognition. The model reads the state when a handler runs and schedules none of these once stopped. The lines below name the members this affects.
- TurnProperties.TrySpeakFrame: "schedules nothing once stopped" holds for the model only. The program still schedules the 2000 ms restarts of page.tsx:426, 435 and 451 for a turn begun before stop.
- TurnProperties.SynthesisFailureTurn: the restart "only during a conversation" is the model's reading. The program's catch block (page.tsx:451) schedules it after stop for a turn begun before stop.
- TurnProperties.SpeechRepliedStep: "schedules nothing once stopped" holds for the model only, as for TrySpeakFrame.
- TurnProperties.PlayStep: "schedules nothing once stopped" holds for the model only. A play() rejected after stop still schedules the 2000 ms restart of page.tsx:415 in the program.
- TurnProperties.StepKeeps: its second half, that a stopped page gains no restart, holds for the model only, for the reasons above.
- TurnProperties.StoppedSchedulesNothing: holds for the model only. In the program the paths above add restarts after stop.
- TurnProperties.StoppedStaysStopped: the pending restarts only dwindle in the model. In the program they can grow after stop, and each one starts recognition again.
- VoiceChat.VoiceChatBot.RecoverTurn: schedules its restart only during a conversation. The program's catch block (page.tsx:451) reads the flag of the render that began the turn.
- VoiceChat.VoiceChatBot.PlayFailed: schedules its restart only during a conversation. The program's handlers at page.tsx:415 and 426 read the flag of the render that began the turn.
- TurnProperties.StartListeningCases: the 1000 ms retry after a failing `start()` reads the started flag when the handler runs. The Start button renders only while `conversationStarted` is false, so the `startListening` that `startConversation` calls (page.tsx:460-468) sees false. A `start()` that throws there (page.tsx:205-215) schedules no retry in the program; the model schedules one.
- VoiceChat.VoiceChatBot.StartConversation: re-arms after a failing `start()`, as Turns.StartConversation does; the program does not, for the reason given for StartListeningCases.
- The silence interval is not a timer. A `SilenceTick(now)` event is one run of `checkSilence` at time `now`. The effect re-creates the interval only while the page is listening and idle, and the tick's guard checks the same condition.
- The time `Date.now()` returns is a field of the events that read it.
- Promise scheduling and concurrency are left out. Interleaving is the order of the events.
- The network is left out. `fetch`, `response.text()` and `JSON.parse` become a `Fetched` outcome: the call threw, or it was answered with a status, a body text and that text parsed.
- `atob` becomes a `Decoding` outcome. Whether `audio.play()` throws becomes a `PlayCall` outcome.
- The audio element is modelled as a flag saying whether it exists, with `PlayAudio` and `StopAudio` effects. The object URL, `currentTime` and the MIME type are not modelled.
- The recognizer's capability probe in `app/utils/speechRecognition.ts` is not part of this model. Its answer is the `available` flag.
- The recognizer's own behaviour is left out: `continuous`, `interimResults` and language. Only its callbacks are events.
- `alert` becomes a `ShowAlert` effect.
- Floating-point request parameters are not modelled: the chat route's temperature and the speech route's voice settings. Neither is the float value of a JSON number; it is a `real`.
- Request headers are left out, except for the organization ID.
- File access at server start: the existence check and the read of `app/context.json` become a `Seed` value.
- Environment variables: an unset variable and the empty string are both falsy. Both are the empty string here.
- Blob.Base64ToBlob: `charCodeAt` is the character's code, a Dafny `char`. The model does not restrict it to the 16-bit code units JavaScript uses. It copies the codes into an `int` array with the loop the source uses, and `Uint8Array` reduces them modulo 256.
- `textToSpeech` catches its own errors, sets "Error calling speech API: ..." and rethrows (page.tsx:340-344). The catch block of `handleSpeechEnd` then overwrites that message, so the model keeps only the final "Error processing speech: ..." text.
- Base64 decoding is not the page's: the page decodes with `atob`, which is part of the platform. Base64.Decode exists only to state the speech route's round trip.
