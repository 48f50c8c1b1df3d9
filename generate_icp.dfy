/**
 * The generation endpoint (app/api/generate-icp/route.ts): a chain of early returns that maps
 * the server's configuration, the request body and the upstream completion to a response.
 * The chat-completion call is represented by the request the handler would send and by its
 * outcome, which is a parameter.
 */
module GenerateIcp {
  import opened Options
  import opened StringOps

  /** The `biography` property of the parsed body; a non-string JSON value is kept only by its truthiness and its text. */
  datatype BiographyValue = Absent | Null | Text(s: string) | NonString(truthy: bool, rendered: string)

  datatype RequestBody = Unparsable(message: Option<string>) | Parsed(biography: BiographyValue)

  /** The upstream call either throws (message possibly missing) or returns the first choice's content. */
  datatype Upstream = Threw(message: Option<string>) | Replied(content: Option<string>)

  datatype Role = SystemRole | UserRole
  datatype ChatMessage = ChatMessage(role: Role, content: string)
  datatype ChatRequest = ChatRequest(model: string, messages: seq<ChatMessage>, maxTokens: nat)

  /** The three JSON bodies the handler writes: `{error}`, `{success: false, error}` and `{success: true, icp}`. */
  datatype Body = ErrorBody(error: string) | FailureBody(error: string) | SuccessBody(icp: string)

  datatype Response = Response(status: nat, body: Body)

  /** The request made to the upstream model, if any, and the response sent back. */
  datatype Handled = Handled(request: Option<ChatRequest>, response: Response)

  const ModelName := "gpt-4-turbo-preview"
  const MaxTokens: nat := 2500
  const UserMessagePrefix := "Aqui está a biografia do usuário para você gerar o ICP:\n\n"
  const MissingKeyMessage := "OpenAI API key não está configurada"
  const MissingBiographyMessage := "Biography is required"
  const NoContentMessage := "OpenAI não retornou conteúdo"
  const GenerationFallback := "Erro ao gerar ICP"
  const InternalFallback := "Erro interno do servidor"

  /** `process.env.OPENAI_API_KEY` is truthy. */
  predicate KeyConfigured(apiKey: Option<string>) {
    Truthy(apiKey)
  }

  predicate IsTruthy(b: BiographyValue) {
    match b
    case Absent => false
    case Null => false
    case Text(s) => s != ""
    case NonString(truthy, _) => truthy
  }

  /** How a template literal interpolates the value. */
  function Render(b: BiographyValue): string {
    match b
    case Absent => "undefined"
    case Null => "null"
    case Text(s) => s
    case NonString(_, rendered) => rendered
  }

  /** The user message: the fixed prefix followed by the biography, unmodified. */
  function UserMessage(biography: string): (m: string)
    ensures StartsWith(m, UserMessagePrefix)
    ensures m[|UserMessagePrefix|..] == biography
  {
    UserMessagePrefix + biography
  }

  /** Recovers the biography from a user message. */
  function BiographyOf(m: string): string
    requires StartsWith(m, UserMessagePrefix)
  {
    m[|UserMessagePrefix|..]
  }

  /**
   * The completion request: the fixed model and token budget, the system prompt, then the user
   * message from which the rendered biography is recovered unchanged.
   */
  function ChatFor(systemPrompt: string, biography: BiographyValue): (req: ChatRequest)
    ensures req.model == ModelName && req.maxTokens == MaxTokens && |req.messages| == 2
    ensures req.messages[0] == ChatMessage(SystemRole, systemPrompt)
    ensures req.messages[1].role == UserRole
    ensures StartsWith(req.messages[1].content, UserMessagePrefix)
    ensures BiographyOf(req.messages[1].content) == Render(biography)
  {
    ChatRequest(ModelName,
      [ChatMessage(SystemRole, systemPrompt), ChatMessage(UserRole, UserMessage(Render(biography)))],
      MaxTokens)
  }

  /** `e?.message || fallback`. */
  function MessageOr(message: Option<string>, fallback: string): (m: string)
    ensures Truthy(message) ==> m == message.value
    ensures !Truthy(message) ==> m == fallback
    ensures fallback != "" ==> m != ""
  {
    if Truthy(message) then message.value else fallback
  }

  /** Where the early-return chain ends: a response written before any upstream call, or the call to make. */
  datatype Step = Respond(response: Response) | Call(request: ChatRequest)

  /** The checks made before the upstream call, in the handler's order: key, body, biography. */
  function Front(apiKey: Option<string>, systemPrompt: string, body: RequestBody): (s: Step)
    ensures !KeyConfigured(apiKey) ==> s == Respond(Response(500, ErrorBody(MissingKeyMessage)))
    ensures KeyConfigured(apiKey) && body.Unparsable? ==>
              s == Respond(Response(500, FailureBody(MessageOr(body.message, InternalFallback))))
    ensures KeyConfigured(apiKey) && body.Parsed? && !IsTruthy(body.biography) ==>
              s == Respond(Response(400, ErrorBody(MissingBiographyMessage)))
    ensures s.Call? <==> KeyConfigured(apiKey) && body.Parsed? && IsTruthy(body.biography)
    ensures s.Call? ==> s.request == ChatFor(systemPrompt, body.biography)
  {
    if !KeyConfigured(apiKey) then Respond(Response(500, ErrorBody(MissingKeyMessage)))
    else match body
      case Unparsable(message) => Respond(Response(500, FailureBody(MessageOr(message, InternalFallback))))
      case Parsed(biography) =>
        if !IsTruthy(biography) then Respond(Response(400, ErrorBody(MissingBiographyMessage)))
        else Call(ChatFor(systemPrompt, biography))
  }

  /** The response to the upstream outcome, as written: the content is tested before it is trimmed. */
  function CompletionAsWritten(upstream: Upstream): (r: Response)
    ensures upstream.Threw? ==> r == Response(500, FailureBody(MessageOr(upstream.message, GenerationFallback)))
    ensures upstream.Replied? && !Truthy(upstream.content) ==> r == Response(500, FailureBody(NoContentMessage))
    ensures upstream.Replied? && Truthy(upstream.content) ==> r == Response(200, SuccessBody(Trim(upstream.content.value)))
  {
    match upstream
    case Threw(message) => Response(500, FailureBody(MessageOr(message, GenerationFallback)))
    case Replied(content) =>
      if !Truthy(content) then Response(500, FailureBody(NoContentMessage))
      else Response(200, SuccessBody(Trim(content.value)))
  }

  /** The response to the upstream outcome with whitespace-only content also treated as no content. */
  function Completion(upstream: Upstream): (r: Response)
    ensures r.body.SuccessBody? ==> r.status == 200 && r.body.icp != ""
    ensures r.body.SuccessBody? <==> upstream.Replied? && upstream.content.Some? && !AllSpace(upstream.content.value)
    ensures r.body.SuccessBody? ==> r.body.icp == Trim(upstream.content.value)
    ensures upstream.Threw? ==> r == Response(500, FailureBody(MessageOr(upstream.message, GenerationFallback)))
    ensures upstream.Replied? && !r.body.SuccessBody? ==> r == Response(500, FailureBody(NoContentMessage))
  {
    match upstream
    case Threw(message) => Response(500, FailureBody(MessageOr(message, GenerationFallback)))
    case Replied(content) =>
      if !Truthy(content) || Trim(content.value) == "" then Response(500, FailureBody(NoContentMessage))
      else Response(200, SuccessBody(Trim(content.value)))
  }

  /** `POST` as written. */
  function Post(apiKey: Option<string>, systemPrompt: string, body: RequestBody, upstream: Upstream): (h: Handled)
    ensures h.request.Some? <==> Front(apiKey, systemPrompt, body).Call?
    ensures h.request == None ==> h.response == Front(apiKey, systemPrompt, body).response
    ensures h.request.Some? ==> h.response == CompletionAsWritten(upstream)
  {
    match Front(apiKey, systemPrompt, body)
    case Respond(response) => Handled(None, response)
    case Call(request) => Handled(Some(request), CompletionAsWritten(upstream))
  }

  /** `POST` with the intended content check. */
  function PostIntended(apiKey: Option<string>, systemPrompt: string, body: RequestBody, upstream: Upstream): (h: Handled)
    ensures h.request.Some? <==> Front(apiKey, systemPrompt, body).Call?
    ensures h.request == None ==> h.response == Front(apiKey, systemPrompt, body).response
    ensures h.request.Some? ==> h.response == Completion(upstream)
  {
    match Front(apiKey, systemPrompt, body)
    case Respond(response) => Handled(None, response)
    case Call(request) => Handled(Some(request), Completion(upstream))
  }

  // ---------------------------------------------------------------------------------------------
  // Properties of the handler.

  /** A missing key is answered with 500 whatever the body and the upstream would have been. */
  lemma MissingKeyDecidesFirst(apiKey: Option<string>, p: string, b1: RequestBody, b2: RequestBody, u1: Upstream, u2: Upstream)
    requires !KeyConfigured(apiKey)
    ensures Post(apiKey, p, b1, u1) == Post(apiKey, p, b2, u2)
    ensures Post(apiKey, p, b1, u1) == Handled(None, Response(500, ErrorBody(MissingKeyMessage)))
  {
  }

  /** A falsy biography is answered with 400 and the upstream is never called. */
  lemma FalsyBiographyRejected(apiKey: Option<string>, p: string, b: BiographyValue, u: Upstream)
    requires KeyConfigured(apiKey) && !IsTruthy(b)
    ensures Post(apiKey, p, Parsed(b), u) == Handled(None, Response(400, ErrorBody(MissingBiographyMessage)))
  {
  }

  /** Every success is a 200 carrying the trimmed content, and every other response is an error status. */
  lemma StatusMatchesBody(apiKey: Option<string>, p: string, body: RequestBody, u: Upstream)
    ensures var r := Post(apiKey, p, body, u).response;
      (r.status == 200 <==> r.body.SuccessBody?) && (r.status == 200 || r.status == 400 || r.status == 500)
    ensures var h := Post(apiKey, p, body, u);
      h.response.body.SuccessBody? ==>
        h.request.Some? && u.Replied? && Truthy(u.content) && h.response.body.icp == Trim(u.content.value)
  {
  }

  /** The request carries the biography verbatim after the fixed prefix. */
  lemma RequestCarriesBiography(apiKey: Option<string>, p: string, s: string, u: Upstream)
    requires KeyConfigured(apiKey) && s != ""
    ensures var h := Post(apiKey, p, Parsed(Text(s)), u);
      h.request.Some? && |h.request.value.messages| == 2
      && h.request.value.messages[0] == ChatMessage(SystemRole, p)
      && h.request.value.messages[1].role == UserRole
      && BiographyOf(h.request.value.messages[1].content) == s
  {
  }

  /** Every error or failure body the handler writes carries a non-empty message. */
  lemma {:induction false} ErrorsCarryMessage(apiKey: Option<string>, p: string, body: RequestBody, u: Upstream)
    ensures var b := Post(apiKey, p, body, u).response.body;
      (b.ErrorBody? || b.FailureBody?) ==> b.error != ""
    ensures var b := PostIntended(apiKey, p, body, u).response.body;
      (b.ErrorBody? || b.FailureBody?) ==> b.error != ""
  {
    assert MissingKeyMessage != "" && MissingBiographyMessage != "" && NoContentMessage != "";
    assert GenerationFallback != "" && InternalFallback != "";
  }

  /** As written, content made only of whitespace passes the emptiness test and is returned as an empty ICP. */
  lemma BlankContentAcceptedAsWritten(apiKey: Option<string>, p: string, b: string, c: string)
    requires KeyConfigured(apiKey) && b != "" && c != "" && AllSpace(c)
    ensures Post(apiKey, p, Parsed(Text(b)), Replied(Some(c))).response == Response(200, SuccessBody(""))
  {
  }

  /** One such input: the content " ". */
  lemma BlankContentExample()
    ensures Post(Some("key"), "", Parsed(Text("bio")), Replied(Some(" "))).response == Response(200, SuccessBody(""))
  {
    BlankContentAcceptedAsWritten(Some("key"), "", "bio", " ");
  }

  /** With the intended check, a successful response always carries a non-empty ICP. */
  lemma IntendedIcpNonEmpty(apiKey: Option<string>, p: string, body: RequestBody, u: Upstream)
    ensures var r := PostIntended(apiKey, p, body, u).response;
      r.body.SuccessBody? ==> r.status == 200 && r.body.icp != ""
  {
  }

  /** The two handlers differ only on whitespace-only content. */
  lemma IntendedAgreesOtherwise(apiKey: Option<string>, p: string, body: RequestBody, u: Upstream)
    requires !(u.Replied? && Truthy(u.content) && AllSpace(u.content.value))
    ensures PostIntended(apiKey, p, body, u) == Post(apiKey, p, body, u)
  {
  }
}
