/**
 * The chat route (POST /api/chat): a guard chain over the API key and the
 * request body, a module-level conversation context that every accepted
 * request appends to, and the mapping of the language-model service's answer
 * to the route's response.
 */
module ChatApi {
  import opened Wrappers
  import opened Js

  const KeyMissing := "OpenAI API key is not configured"
  const InvalidBody := "Invalid request body"
  const NoMessage := "No message provided"
  const UpstreamError := "Error from OpenAI API"
  const UpstreamFailed := "Failed to call OpenAI API"
  const Unexpected := "An unexpected error occurred"
  const UnknownError := "Unknown error"
  const NoReply := "Sorry, I couldn't generate a response."
  const Endpoint := "https://api.openai.com/v1/chat/completions"
  const ChatModel := "gpt-4o-mini"
  const MaxTokens := 40

  /** What reading app/context.json at module load gave. */
  datatype Seed = SeedMissing | SeedUnreadable | SeedParsed(entries: seq<Json>)

  /** The environment; the empty string stands for an unset variable (both are falsy). */
  datatype Env = Env(apiKey: string, orgId: string)

  /** What `await request.json()` gave: a parse failure or a value. */
  datatype Body = Malformed | Parsed(value: Json)

  /** The completion request sent upstream (the float temperature is not modelled). */
  datatype UpstreamRequest = UpstreamRequest(
    endpoint: string, apiKey: string, organization: Option<string>,
    model: string, messages: seq<Json>, maxTokens: nat)

  /** The upstream call: fetch or response.json() threw, or a status with the parsed body. */
  datatype Upstream = UpstreamThrew(error: string) | UpstreamAnswered(status: int, data: Json)

  /** The guard chain's decision: the message to forward, or the response that ends the request. */
  datatype Verdict = Accepted(message: Json) | Rejected(response: Response)

  /** The context entry pushed for an accepted message. */
  function UserEntry(message: Json): Json
  {
    JObject([("role", JStr("user")), ("content", message)])
  }

  /** contextData at module load: the parsed file when it exists and parses, otherwise empty. */
  function SeedContext(seed: Seed): seq<Json>
  {
    match seed
    case SeedParsed(entries) => entries
    case _ => []
  }

  /** The guard chain of POST: API key, then the body, then its `message`. */
  function Screen(env: Env, body: Body): (v: Verdict)
    ensures v.Accepted? ==> Truthy(Some(v.message)) && body.Parsed? && body.value.JObject?
    ensures v.Rejected? ==> v.response.status == 400 || v.response.status == 500
    ensures v.Rejected? ==>
      v.response.body.JObject? && |v.response.body.fields| > 0 && v.response.body.fields[0].0 == "error"
  {
    if env.apiKey == "" then Rejected(Response(500, ErrorBody(KeyMissing)))
    else
      match body
      case Malformed => Rejected(Response(400, ErrorBody(InvalidBody)))
      case Parsed(v) =>
        match Destructure(v, "message", "body")
        case Threw(e) => Rejected(Response(500, ErrorWithDetails(Unexpected, JStr(e))))
        case Got(m) =>
          if !Truthy(m) then Rejected(Response(400, ErrorBody(NoMessage)))
          else Accepted(m.value)
  }

  /** The request sent upstream once the context holds the new entry. */
  function Request(env: Env, context: seq<Json>): UpstreamRequest
  {
    UpstreamRequest(Endpoint, env.apiKey, if env.orgId == "" then None else Some(env.orgId),
                    ChatModel, context, MaxTokens)
  }

  function Failed(error: string): Response
  {
    Response(500, ErrorWithDetails(UpstreamFailed, JStr(error)))
  }

  /** The reply content: the first choice's message content, or the fixed apology when it is falsy. */
  function ReplyContent(first: Option<Json>): Json
  {
    var c := GetOpt(GetOpt(first, "message"), "content");
    if Truthy(c) then c.value else JStr(NoReply)
  }

  /** The response built from the upstream outcome, with the TypeErrors of reading a null body. */
  function Answer(upstream: Upstream): (r: Response)
    ensures r.status == 200 ==> r.body.JObject? && |r.body.fields| == 1 && r.body.fields[0].0 == "content"
    ensures r.status != 200 && r.status != 500 ==> upstream.UpstreamAnswered? && r.status == upstream.status
    ensures r.status != 200 ==> r.body.JObject? && |r.body.fields| > 0 && r.body.fields[0].0 == "error"
  {
    match upstream
    case UpstreamThrew(e) => Failed(e)
    case UpstreamAnswered(status, data) =>
      if !IsOk(status) then
        match Get(Some(data), "error")
        case Threw(e) => Failed(e)
        case Got(err) =>
          var m := GetOpt(err, "message");
          Response(status, ErrorWithDetails(UpstreamError, if Truthy(m) then m.value else JStr(UnknownError)))
      else
        match Get(Some(data), "choices")
        case Threw(e) => Failed(e)
        case Got(choices) =>
          match At(choices, 0)
          case Threw(e) => Failed(e)
          case Got(first) => Response(200, JObject([("content", ReplyContent(first))]))
  }

  /** The route module: contextData lives as long as the server process. */
  class ChatRoute {
    var contextData: seq<Json>

    constructor (seed: Seed)
      ensures contextData == SeedContext(seed)
    {
      contextData := SeedContext(seed);
    }

    /** POST: the upstream outcome is consulted only when a request was sent. */
    method Post(env: Env, body: Body, upstream: Upstream) returns (sent: Option<UpstreamRequest>, response: Response)
      modifies this
      ensures Screen(env, body).Rejected? ==>
        contextData == old(contextData) && sent == None && response == Screen(env, body).response
      ensures Screen(env, body).Accepted? ==>
        && contextData == old(contextData) + [UserEntry(Screen(env, body).message)]
        && sent == Some(Request(env, contextData))
        && response == Answer(upstream)
    {
      var verdict := Screen(env, body);
      if verdict.Rejected? {
        return None, verdict.response;
      }
      contextData := contextData + [UserEntry(verdict.message)];
      sent := Some(Request(env, contextData));
      response := Answer(upstream);
    }
  }

  /** A missing key is answered with 500 whatever the body is: the body is not looked at. */
  lemma KeyCheckedFirst(env: Env, b1: Body, b2: Body)
    requires env.apiKey == ""
    ensures Screen(env, b1) == Screen(env, b2) == Rejected(Response(500, ErrorBody(KeyMissing)))
  {
  }

  /** With a key: an unparseable body is 400, a body without a truthy message is 400. */
  lemma BodyRejections(env: Env, body: Body)
    requires env.apiKey != ""
    ensures body == Malformed ==> Screen(env, body) == Rejected(Response(400, ErrorBody(InvalidBody)))
    ensures body.Parsed? && body.value != JNull && !Truthy(Get(Some(body.value), "message").value) ==>
      Screen(env, body) == Rejected(Response(400, ErrorBody(NoMessage)))
    ensures body == Parsed(JNull) ==> Screen(env, body).Rejected? && Screen(env, body).response.status == 500
  {
  }

  /** A message is accepted exactly when a key is set and the body is an object whose `message` is truthy. */
  lemma AcceptedExactly(env: Env, body: Body, m: Json)
    ensures Screen(env, body) == Accepted(m) <==>
      && env.apiKey != ""
      && body.Parsed? && body.value.JObject?
      && Lookup(body.value.fields, "message") == Some(m)
      && Truthy(Some(m))
  {
  }

  /**
   * A thrown call is 500. A failure status with a non-null body is passed
   * through with "Error from OpenAI API"; a null body is 500. An ok answer is
   * 200 exactly when the body is an object whose `choices` is present and not
   * null, since reading `[0]` of anything else throws; otherwise it is 500.
   */
  lemma AnswerStatus(upstream: Upstream)
    ensures upstream.UpstreamThrew? ==> Answer(upstream) == Failed(upstream.error)
    ensures upstream.UpstreamAnswered? && !IsOk(upstream.status) && upstream.data != JNull ==>
      Answer(upstream).status == upstream.status && Answer(upstream).body.fields[0] == ("error", JStr(UpstreamError))
    ensures upstream.UpstreamAnswered? && upstream.data == JNull ==> Answer(upstream).status == 500
    ensures upstream.UpstreamAnswered? && IsOk(upstream.status) ==>
      Answer(upstream).status == (if ChoicesPresent(upstream.data) then 200 else 500)
  {
  }

  /** The body is an object whose `choices` field exists and is not null. */
  predicate ChoicesPresent(data: Json)
  {
    data.JObject? && Lookup(data.fields, "choices").Some? && Lookup(data.fields, "choices").value != JNull
  }

  /**
   * An ok answer whose choices are an array with no first choice, or whose
   * first choice carries no content, is 200 with the fixed apology, whatever
   * other fields the body has.
   */
  lemma EmptyChoiceFallback(status: int, fields: seq<(string, Json)>, choices: seq<Json>)
    requires IsOk(status)
    requires Lookup(fields, "choices") == Some(JArray(choices))
    requires |choices| == 0 || !Truthy(GetOpt(GetOpt(Some(choices[0]), "message"), "content"))
    ensures Answer(UpstreamAnswered(status, JObject(fields)))
         == Response(200, JObject([("content", JStr(NoReply))]))
  {
  }

  /** The context after serving a sequence of requests in order (what Post leaves in contextData). */
  function ContextAfter(ctx: seq<Json>, requests: seq<(Env, Body)>): seq<Json>
    decreases |requests|
  {
    if |requests| == 0 then ctx
    else
      var v := Screen(requests[0].0, requests[0].1);
      ContextAfter(if v.Accepted? then ctx + [UserEntry(v.message)] else ctx, requests[1..])
  }

  /** The messages the guard chain accepts among the requests, in order. */
  function AcceptedMessages(requests: seq<(Env, Body)>): seq<Json>
    decreases |requests|
  {
    if |requests| == 0 then []
    else
      var v := Screen(requests[0].0, requests[0].1);
      (if v.Accepted? then [v.message] else []) + AcceptedMessages(requests[1..])
  }

  function UserEntries(ms: seq<Json>): seq<Json>
  {
    seq(|ms|, i requires 0 <= i < |ms| => UserEntry(ms[i]))
  }

  /**
   * The context only grows, by one user entry per accepted request, in request
   * order: the seed and earlier entries are never touched, and no assistant
   * reply is ever added.
   */
  lemma {:induction false} ContextIsSeedPlusUserEntries(ctx: seq<Json>, requests: seq<(Env, Body)>)
    ensures ContextAfter(ctx, requests) == ctx + UserEntries(AcceptedMessages(requests))
    decreases |requests|
  {
    if |requests| > 0 {
      var v := Screen(requests[0].0, requests[0].1);
      var next := if v.Accepted? then ctx + [UserEntry(v.message)] else ctx;
      ContextIsSeedPlusUserEntries(next, requests[1..]);
      var rest := AcceptedMessages(requests[1..]);
      if v.Accepted? {
        assert UserEntries([v.message] + rest) == [UserEntry(v.message)] + UserEntries(rest);
      } else {
        assert [] + rest == rest;
      }
    }
  }

  /** Every entry added after the seed has role "user". */
  lemma OnlyUserEntriesAdded(ctx: seq<Json>, requests: seq<(Env, Body)>, i: nat)
    requires |ctx| <= i < |ContextAfter(ctx, requests)|
    ensures ContextAfter(ctx, requests)[i].JObject? && |ContextAfter(ctx, requests)[i].fields| == 2
    ensures ContextAfter(ctx, requests)[i].fields[0] == ("role", JStr("user"))
  {
    ContextIsSeedPlusUserEntries(ctx, requests);
  }
}
