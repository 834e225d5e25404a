/**
 * One spoken turn from the start button to the restart after playback, as a
 * concrete run of the controller, checked state by state.
 */
module Scenario {
  import opened Wrappers
  import opened Js
  import Text
  import Blob
  import opened Turns
  import TurnProperties

  const Hi := Message(User, JStr("hi"))
  const Hello := Message(Assistant, JStr("Hello"))
  const ChatAnswer := Answered(200, "{\"content\":\"Hello\"}", Some(JObject([("content", JStr("Hello"))])))
  const SpeechAnswer := Answered(200, "{\"audio\":\"YWI=\"}", Some(JObject([("audio", JStr("YWI="))])))

  /** The state in which "hi" has been heard and recognition still runs. */
  const Heard := ControllerState(Page(true, true), View(true, true, false, false, None), Capture(true, "hi", 100, false),
                                 History([], 0), Pending([], [], 0), [StartRecognition])

  /** The events of one turn: "hi" is heard, 1.6 s of quiet follow, "Hello" is answered and spoken, listening resumes. */
  function OneTurn(): seq<Event>
  {
    [ StartPressed(Platform(0, None)), RecognitionStarted, RecognitionResult(100, "hi"), SilenceTick(1700),
      RecognitionEnded, ChatReplied(0, ChatAnswer), SpeechReplied(0, SpeechAnswer, Decoded("ab"), PlayPending),
      PlayFulfilled, AudioEnded, TimerFired(0, Platform(2500, None)) ]
  }

  /** The state after the k-th event of OneTurn. */
  function After(k: nat): ControllerState
    requires k <= 10
  {
    var page := Page(true, true);
    var started := [StartRecognition];
    var submitted := [StartRecognition, StopRecognition, RequestChat("hi")];
    var asked := submitted + [RequestSpeech(JStr("Hello"))];
    var played := asked + [PlayAudio(Blob.CharBytes("ab"))];
    if k == 0 then Init(true, true)
    else if k == 1 then
      ControllerState(page, View(true, false, false, false, None), Capture(true, "", 0, false), History([], 0),
                      Pending([], [], 0), started)
    else if k == 2 then
      ControllerState(page, View(true, true, false, false, None), Capture(true, "", 0, false), History([], 0),
                      Pending([], [], 0), started)
    else if k == 3 then Heard
    else if k <= 5 then
      ControllerState(page, View(true, false, false, true, None), Capture(true, "hi", 100, true), History([Hi], 0),
                      Pending([], [AwaitingChat("hi")], 0), submitted)
    else if k == 6 then
      ControllerState(page, View(true, false, false, true, None), Capture(true, "hi", 100, true), History([Hi, Hello], 0),
                      Pending([], [AwaitingSpeech(JStr("Hello"))], 0), asked)
    else if k == 7 then
      ControllerState(page, View(true, false, true, false, None), Capture(true, "hi", 100, false), History([Hi, Hello], 0),
                      Pending([], [], 1), played)
    else if k == 8 then
      ControllerState(page, View(true, false, true, false, None), Capture(true, "hi", 100, false), History([Hi, Hello], 0),
                      Pending([], [], 0), played)
    else if k == 9 then
      ControllerState(page, View(true, false, false, false, None), Capture(true, "hi", 100, false), History([Hi, Hello], 0),
                      Pending([AfterPlayback], [], 0), played)
    else
      ControllerState(page, View(true, false, false, false, None), Capture(true, "", 2500, false), History([Hi, Hello], 0),
                      Pending([], [], 0), played + [StartRecognition])
  }

  lemma RunCons(s: ControllerState, e: Event, events: seq<Event>)
    ensures Run(s, [e] + events) == Run(Step(s, e), events)
  {
    assert ([e] + events)[1..] == events;
  }

  lemma StartAndListen()
    ensures Step(After(0), OneTurn()[0]) == After(1)
    ensures Step(After(1), OneTurn()[1]) == After(2)
    ensures Step(After(2), OneTurn()[2]) == After(3)
  {
  }

  lemma TrimHi()
    ensures Text.Trim("hi") == "hi"
  {
    Text.TrimFixed("hi");
  }

  /** The state in which handleSpeechEnd starts: capture stopped, the flag set. */
  function Stopped(): ControllerState
  {
    ControllerState(Page(true, true), View(true, false, false, false, None), Capture(true, "hi", 100, true),
                    History([], 0), Pending([], [], 0), [StartRecognition, StopRecognition])
  }

  lemma SilenceElapsed()
    ensures CheckSilence(Heard, 1700) == ProcessSpeech(Heard, "hi")
  {
    TrimHi();
  }

  /** processSpeech, when no utterance is in flight, sets the flag and stops recognition before handleSpeechEnd. */
  lemma GuardPasses(s: ControllerState, text: string)
    requires !s.capture.processing
    ensures ProcessSpeech(s, text) == HandleSpeechEnd(StopListening(s.(capture := s.capture.(processing := true))), text)
  {
  }

  lemma HeardStops()
    ensures StopListening(Heard.(capture := Heard.capture.(processing := true))) == Stopped()
  {
  }

  lemma GuardStops()
    ensures ProcessSpeech(Heard, "hi") == HandleSpeechEnd(Stopped(), "hi")
  {
    GuardPasses(Heard, "hi");
    HeardStops();
  }

  lemma SilenceStops()
    ensures Step(After(3), OneTurn()[3]) == HandleSpeechEnd(Stopped(), "hi")
  {
    calc {
      Step(After(3), OneTurn()[3]);
      { assert After(3) == Heard && OneTurn()[3] == SilenceTick(1700); }
      Step(Heard, SilenceTick(1700));
      { TurnProperties.SilenceTickIsCheck(Heard, 1700); }
      CheckSilence(Heard, 1700);
      { SilenceElapsed(); }
      ProcessSpeech(Heard, "hi");
      { GuardStops(); }
      HandleSpeechEnd(Stopped(), "hi");
    }
  }

  lemma HiSubmitted()
    ensures HandleSpeechEnd(Stopped(), "hi") == After(4)
  {
    TrimHi();
  }

  lemma SilenceSubmits()
    ensures Step(After(3), OneTurn()[3]) == After(4)
  {
    SilenceStops();
    HiSubmitted();
  }

  lemma EndIgnored()
    ensures Step(After(4), OneTurn()[4]) == After(5)
  {
  }

  lemma ReplyArrives()
    ensures Step(After(5), OneTurn()[5]) == After(6)
  {
    assert ChatResult(ChatAnswer) == Reply(JStr("Hello"), None);
  }

  lemma SpeechPlays()
    ensures Step(After(6), OneTurn()[6]) == After(7)
  {
    assert SpeechResult(SpeechAnswer) == Audio(JStr("YWI="));
    assert Remove([AwaitingSpeech(JStr("Hello"))], 0) == [];
  }

  lemma PlaybackEndsAndRestarts()
    ensures Step(After(7), OneTurn()[7]) == After(8)
    ensures Step(After(8), OneTurn()[8]) == After(9)
    ensures Step(After(9), OneTurn()[9]) == After(10)
  {
    assert Remove([AfterPlayback], 0) == [];
  }

  /** Running the events from the k-th on, from the state after k of them. */
  lemma RunFrom(k: nat)
    requires k < 10
    requires Step(After(k), OneTurn()[k]) == After(k + 1)
    ensures Run(After(k), OneTurn()[k..]) == Run(After(k + 1), OneTurn()[k + 1..])
  {
    assert OneTurn()[k..] == [OneTurn()[k]] + OneTurn()[k + 1..];
    RunCons(After(k), OneTurn()[k], OneTurn()[k + 1..]);
  }

  /**
   * After the turn the history holds the user's words and the reply; the
   * platform saw a start, a stop, one chat request, one speech request, one
   * playback of the decoded bytes and a new start; nothing is pending.
   */
  lemma OneTurnTrace()
    ensures var t := Run(Init(true, true), OneTurn());
      && t.history == History([Hi, Hello], 0)
      && t.effects == [StartRecognition, StopRecognition, RequestChat("hi"), RequestSpeech(JStr("Hello")),
                       PlayAudio(Blob.CharBytes("ab")), StartRecognition]
      && t.pending == Pending([], [], 0)
      && t.view == View(true, false, false, false, None)
  {
    StartAndListen(); SilenceSubmits(); EndIgnored(); ReplyArrives(); SpeechPlays(); PlaybackEndsAndRestarts();
    RunFrom(0); RunFrom(1); RunFrom(2); RunFrom(3); RunFrom(4);
    RunFrom(5); RunFrom(6); RunFrom(7); RunFrom(8); RunFrom(9);
    assert OneTurn()[0..] == OneTurn();
    assert OneTurn()[10..] == [];
  }
}
