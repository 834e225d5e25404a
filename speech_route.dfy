/**
 * The speech route (POST /api/speech): a guard chain over the two
 * configuration variables and the request body, then the mapping of the
 * speech-synthesis service's answer to the route's response. It keeps no state.
 */
module SpeechApi {
  import opened Wrappers
  import opened Js
  import Text
  import Base64

  const KeyMissing := "ElevenLabs API key is not configured"
  const VoiceMissing := "ElevenLabs Voice ID is not configured"
  const InvalidBody := "Invalid request body"
  const NoText := "No text provided"
  const UpstreamFailed := "Failed to call ElevenLabs API"
  const Unexpected := "An unexpected error occurred"
  const EndpointPrefix := "https://api.elevenlabs.io/v1/text-to-speech/"
  const ModelId := "eleven_multilingual_v2"

  /** The environment; the empty string stands for an unset variable (both are falsy). */
  datatype Env = Env(apiKey: string, voiceId: string)

  /** What `await request.json()` gave: a parse failure or a value. */
  datatype Body = Malformed | Parsed(value: Json)

  /** The synthesis request (the float voice settings are not modelled). */
  datatype SynthesisRequest = SynthesisRequest(url: string, apiKey: string, text: Json, modelId: string)

  /**
   * The upstream call: fetch or reading the body threw, or a status with the
   * body both as bytes (read on success) and as text (read on failure).
   */
  datatype Upstream = UpstreamThrew(error: string) | UpstreamAnswered(status: int, audio: seq<byte>, text: string)

  /** One POST: the request sent upstream, if any, and the response. */
  datatype Exchange = Exchange(sent: Option<SynthesisRequest>, response: Response)

  function Rejected(status: int, error: string): Exchange
  {
    Exchange(None, Response(status, ErrorBody(error)))
  }

  /** The response built from the upstream outcome. */
  function Answer(upstream: Upstream): (r: Response)
    ensures r.status == 200 <==> upstream.UpstreamAnswered? && IsOk(upstream.status)
    ensures r.status != 200 && r.status != 500 ==> upstream.UpstreamAnswered? && r.status == upstream.status
    ensures r.body.JObject? && |r.body.fields| > 0
    ensures r.body.fields[0].0 == (if r.status == 200 then "audio" else "error")
  {
    match upstream
    case UpstreamThrew(e) => Response(500, ErrorWithDetails(UpstreamFailed, JStr(e)))
    case UpstreamAnswered(status, audio, text) =>
      if !IsOk(status) then
        Response(status, ErrorWithDetails("ElevenLabs API error: " + Text.IntToString(status), JStr(text)))
      else
        Response(200, JObject([("audio", JStr(Base64.Encode(audio)))]))
  }

  /** POST /api/speech: key, voice ID, body, `text`, then the upstream call. */
  function Handle(env: Env, body: Body, upstream: Upstream): (x: Exchange)
    ensures x.sent.Some? ==> x.response == Answer(upstream) && x.sent.value.apiKey == env.apiKey
    ensures x.sent.Some? ==> x.sent.value.modelId == ModelId && Truthy(Some(x.sent.value.text))
    ensures x.sent.None? ==> (x.response.status == 400 || x.response.status == 500)
  {
    if env.apiKey == "" then Rejected(500, KeyMissing)
    else if env.voiceId == "" then Rejected(500, VoiceMissing)
    else
      match body
      case Malformed => Rejected(400, InvalidBody)
      case Parsed(v) =>
        match Destructure(v, "text", "body")
        case Threw(e) => Exchange(None, Response(500, ErrorWithDetails(Unexpected, JStr(e))))
        case Got(t) =>
          if !Truthy(t) then Rejected(400, NoText)
          else Exchange(Some(SynthesisRequest(EndpointPrefix + env.voiceId, env.apiKey, t.value, ModelId)),
                        Answer(upstream))
  }

  /** The key is checked first: without it the answer is the same 500 whatever else holds. */
  lemma KeyCheckedFirst(env: Env, body: Body, upstream: Upstream, voice: string, body2: Body, upstream2: Upstream)
    requires env.apiKey == ""
    ensures Handle(env, body, upstream) == Handle(env.(voiceId := voice), body2, upstream2)
    ensures Handle(env, body, upstream) == Rejected(500, KeyMissing)
  {
  }

  /** With the key, the voice ID is checked before the body is read. */
  lemma VoiceCheckedSecond(env: Env, body: Body, upstream: Upstream)
    requires env.apiKey != "" && env.voiceId == ""
    ensures Handle(env, body, upstream) == Rejected(500, VoiceMissing)
  {
  }

  /** With both variables set: an unparseable body and a falsy `text` are 400, and nothing is sent. */
  lemma BodyRejections(env: Env, body: Body, upstream: Upstream)
    requires env.apiKey != "" && env.voiceId != ""
    ensures body == Malformed ==> Handle(env, body, upstream) == Rejected(400, InvalidBody)
    ensures body.Parsed? && body.value != JNull && !Truthy(Get(Some(body.value), "text").value) ==>
      Handle(env, body, upstream) == Rejected(400, NoText)
  {
  }

  /**
   * A request goes upstream exactly when every guard passes, and it carries the
   * body's text to the configured voice; the response then depends on the
   * upstream outcome alone.
   */
  lemma SentExactlyWhenAccepted(env: Env, body: Body, upstream: Upstream)
    ensures Handle(env, body, upstream).sent.Some? <==>
      && env.apiKey != "" && env.voiceId != ""
      && body.Parsed? && body.value.JObject?
      && Truthy(Lookup(body.value.fields, "text"))
    ensures Handle(env, body, upstream).sent.Some? ==>
      && Handle(env, body, upstream).sent.value.text == Lookup(body.value.fields, "text").value
      && Handle(env, body, upstream).sent.value.url == EndpointPrefix + env.voiceId
      && Handle(env, body, upstream).response == Answer(upstream)
  {
  }

  /** An upstream failure status is passed through, with the status in the error and the body text as details. */
  lemma FailureStatusPassedThrough(status: int, audio: seq<byte>, text: string)
    requires !IsOk(status)
    ensures Answer(UpstreamAnswered(status, audio, text)).status == status
    ensures Answer(UpstreamAnswered(status, audio, text)).body
         == ErrorWithDetails("ElevenLabs API error: " + Text.IntToString(status), JStr(text))
  {
  }

  /** A call that throws, or whose body cannot be read, is 500 "Failed to call ElevenLabs API" with the error as details. */
  lemma UpstreamThrewIs500(e: string)
    ensures Answer(UpstreamThrew(e)) == Response(500, ErrorWithDetails(UpstreamFailed, JStr(e)))
  {
  }

  /** On success the `audio` field is base64 that decodes to exactly the upstream bytes. */
  lemma SuccessCarriesAudio(status: int, audio: seq<byte>, text: string)
    requires IsOk(status)
    ensures var r := Answer(UpstreamAnswered(status, audio, text));
      && r.status == 200
      && r.body.JObject? && |r.body.fields| == 1 && r.body.fields[0].0 == "audio"
      && r.body.fields[0].1.JStr?
      && Base64.Decode(r.body.fields[0].1.s) == Some(audio)
  {
    Base64.DecodeEncode(audio);
  }
}
