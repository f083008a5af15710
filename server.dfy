/** The two request handlers of the server (server/index.js), each a pure map from
    the request and what the outside world answers to the response. The sentiment
    lexicon, the completion provider, the process environment, the clock and the
    token signer are parameters. Each handler also reports what it asked of the
    outside world (the completion request it sent, the environment variables it
    read, the arguments it gave the signer), so that ordering rules can be stated. */
module Server {
  import opened Wrappers
  import opened JsonValues

  /** An HTTP response: status code and JSON body. */
  datatype Response = Response(status: int, body: Json)

  // ---------------------------------------------------------------- /chat

  const CompletionModel := "gpt-4o-mini"
  const Persona := "You are a kind, supportive mental health companion."
  const NoReplyText := "Sorry, I couldn't reply at the moment."
  const ChatFailureText := "Server error"

  datatype Turn = Turn(role: string, content: string)

  /** The body of the request sent to the completion provider. */
  datatype CompletionRequest = CompletionRequest(model: string, messages: seq<Turn>)

  /** What awaiting the provider yields: a parsed JSON body, or an exception
      (the fetch rejected, or the body was not JSON). */
  datatype ProviderOutcome = Answered(data: Json) | Threw

  /** The request the handler sent and the response it produced. */
  datatype ChatExchange = ChatExchange(sent: CompletionRequest, response: Response)

  /** `req.body.message || ""`: an absent or empty message becomes "". */
  function UserText(message: Option<string>): (t: string)
    ensures message.Some? ==> t == message.value
    ensures message.None? ==> t == ""
  {
    message.GetOr("")
  }

  /** The completion request: the fixed persona, then the user's text, and
      nothing else — no earlier turn of the conversation is forwarded. */
  function Prompt(userText: string): (q: CompletionRequest)
    ensures q.model == CompletionModel && |q.messages| == 2
    ensures q.messages[0] == Turn("system", Persona)
    ensures q.messages[1] == Turn("user", userText)
  {
    CompletionRequest(CompletionModel, [Turn("system", Persona), Turn("user", userText)])
  }

  /** The reply taken from the provider's answer:
      `data?.choices?.[0]?.message?.content || data?.error?.message || NoReplyText`. */
  function ReplyOf(data: Json): (r: Json)
    ensures Truthy(r)
    ensures IsTruthy(Content(data)) ==> r == Content(data).value
    ensures !IsTruthy(Content(data)) && IsTruthy(ErrorMessage(data)) ==> r == ErrorMessage(data).value
    ensures !IsTruthy(Content(data)) && !IsTruthy(ErrorMessage(data)) ==> r == JString(NoReplyText)
  {
    var candidates := [Content(data), ErrorMessage(data)];
    FirstTruthyIsTruthy(candidates, JString(NoReplyText));
    assert candidates[0] == Content(data) && candidates[1] == ErrorMessage(data);
    FirstTruthy(candidates, JString(NoReplyText))
  }

  /** `data?.choices?.[0]?.message?.content` */
  function Content(data: Json): Option<Json> {
    Member(Member(IndexZero(Member(Some(data), "choices")), "message"), "content")
  }

  /** `data?.error?.message` */
  function ErrorMessage(data: Json): Option<Json> {
    Member(Member(Some(data), "error"), "message")
  }

  /** `{ reply, moodScore }` */
  function ChatBody(reply: Json, moodScore: int): (j: Json)
    ensures Member(Some(j), "reply") == Some(reply)
    ensures Member(Some(j), "moodScore") == Some(JNumber(moodScore))
  {
    var fields := [("reply", reply), ("moodScore", JNumber(moodScore))];
    assert fields[..1] == [("reply", reply)];
    assert Lookup(fields[..1], "reply") == Some(reply);
    JObject(fields)
  }

  /** POST /chat. The mood score is the sentiment of the user's text, computed
      before the provider is asked and whatever it answers; an exception while
      awaiting the provider becomes a 500 with a fixed body. */
  function ChatHandler(message: Option<string>, sentiment: string -> int,
                       provider: CompletionRequest -> ProviderOutcome): (x: ChatExchange)
    ensures x.sent == Prompt(UserText(message))
    ensures x.response.status == 200 || x.response.status == 500
    ensures x.response.status == 500 <==> provider(x.sent).Threw?
    ensures x.response.status == 500 ==> x.response.body == ChatBody(JString(ChatFailureText), 0)
    ensures x.response.status == 200 ==>
      x.response.body == ChatBody(ReplyOf(provider(x.sent).data), sentiment(UserText(message)))
  {
    var userText := UserText(message);
    var moodScore := sentiment(userText);
    var sent := Prompt(userText);
    match provider(sent)
    case Threw => ChatExchange(sent, Response(500, ChatBody(JString(ChatFailureText), 0)))
    case Answered(data) => ChatExchange(sent, Response(200, ChatBody(ReplyOf(data), moodScore)))
  }

  /** The score a successful /chat reports is the sentiment of the user's own
      text: two providers answering differently give the same score, and a reply
      field that is never falsy. */
  lemma ChatMoodIgnoresReply(message: Option<string>, sentiment: string -> int,
                             p1: CompletionRequest -> ProviderOutcome,
                             p2: CompletionRequest -> ProviderOutcome)
    requires ChatHandler(message, sentiment, p1).response.status == 200
    requires ChatHandler(message, sentiment, p2).response.status == 200
    ensures Member(Some(ChatHandler(message, sentiment, p1).response.body), "moodScore")
         == Member(Some(ChatHandler(message, sentiment, p2).response.body), "moodScore")
         == Some(JNumber(sentiment(UserText(message))))
    ensures IsTruthy(Member(Some(ChatHandler(message, sentiment, p1).response.body), "reply"))
  {
  }

  // --------------------------------------------------------- /agora-token

  const AppIdVar := "AGORA_APP_ID"
  const CertificateVar := "AGORA_APP_CERTIFICATE"
  const TokenLifetimeSeconds := 60 * 60
  const ChannelRequiredText := "channel query param is required"
  const TokenFailureText := "Failed to generate token"

  /** `RtcRole.PUBLISHER`, the only role the server grants. */
  datatype Role = Publisher

  /** The arguments of `RtcTokenBuilder.buildTokenWithUid`. An unset environment
      variable is passed on as `undefined`. */
  datatype SignArgs = SignArgs(appId: Option<string>, certificate: Option<string>,
                               channel: string, uid: int, role: Role, expireTs: int)

  /** What the token builder does: return a token or throw. */
  datatype Signing = Signed(token: string) | SigningThrew

  /** The environment variables read (in order), the builder's arguments if it
      was called, and the response. */
  datatype TokenExchange = TokenExchange(envRead: seq<string>, signed: Option<SignArgs>, response: Response)

  function ErrorBody(text: string): Json {
    JObject([("error", JString(text))])
  }

  /** `Math.floor(nowMs / 1000) + 3600`. Dafny's `/` by a positive divisor rounds
      toward negative infinity, as `Math.floor` does. The result is one hour past
      the start of the current second. */
  function Expiry(nowMs: int): (ts: int)
    ensures (ts - TokenLifetimeSeconds) * 1000 <= nowMs < (ts - TokenLifetimeSeconds + 1) * 1000
  {
    nowMs / 1000 + TokenLifetimeSeconds
  }

  function EnvLookup(env: map<string, string>, name: string): Option<string> {
    if name in env then Some(env[name]) else None
  }

  /** `{ token, appId: appID }` after `JSON.stringify`: an undefined appId is
      dropped from the body. */
  function TokenBody(token: string, appId: Option<string>): (j: Json)
    ensures Member(Some(j), "token") == Some(JString(token))
    ensures Member(Some(j), "appId") == if appId.Some? then Some(JString(appId.value)) else None
  {
    var fields := [("token", JString(token))] + if appId.Some? then [("appId", JString(appId.value))] else [];
    assert appId.Some? ==> fields[..1] == [("token", JString(token))];
    assert Lookup([("token", JString(token))], "token") == Some(JString(token));
    JObject(fields)
  }

  /** GET /agora-token. The channel is validated before any secret is read or
      the builder is called; a builder exception becomes a 500. */
  function TokenHandler(channel: Option<string>, env: map<string, string>, nowMs: int,
                        build: SignArgs -> Signing): (x: TokenExchange)
    ensures x.response.status in {200, 400, 500}
    ensures x.response.status == 400 <==> channel.None? || channel.value == ""
    ensures x.response.status == 400 ==>
      x.envRead == [] && x.signed.None? && x.response.body == ErrorBody(ChannelRequiredText)
    ensures x.response.status != 400 ==>
      x.envRead == [AppIdVar, CertificateVar] &&
      x.signed == Some(SignArgs(EnvLookup(env, AppIdVar), EnvLookup(env, CertificateVar),
                                channel.value, 0, Publisher, Expiry(nowMs)))
    ensures x.response.status == 500 <==> x.signed.Some? && build(x.signed.value).SigningThrew?
    ensures x.response.status == 500 ==> x.response.body == ErrorBody(TokenFailureText)
    ensures x.response.status == 200 ==>
      x.response.body == TokenBody(build(x.signed.value).token, EnvLookup(env, AppIdVar))
  {
    if channel.None? || channel.value == "" then
      TokenExchange([], None, Response(400, ErrorBody(ChannelRequiredText)))
    else
      var appId := EnvLookup(env, AppIdVar);
      var certificate := EnvLookup(env, CertificateVar);
      var args := SignArgs(appId, certificate, channel.value, 0, Publisher, Expiry(nowMs));
      match build(args)
      case Signed(token) => TokenExchange([AppIdVar, CertificateVar], Some(args), Response(200, TokenBody(token, appId)))
      case SigningThrew => TokenExchange([AppIdVar, CertificateVar], Some(args), Response(500, ErrorBody(TokenFailureText)))
  }

  /** Two requests issued within the same second get the same expiry, and a
      request a full second later gets a later one. */
  lemma {:induction false} ExpiryMonotone(t1: int, t2: int)
    requires t1 <= t2
    ensures Expiry(t1) <= Expiry(t2)
    ensures t1 / 1000 == t2 / 1000 ==> Expiry(t1) == Expiry(t2)
    ensures t2 - t1 >= 1000 ==> Expiry(t1) < Expiry(t2)
  {
  }
}
