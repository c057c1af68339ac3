/** The chat request handler as a pure function.

    One invocation reads the caller's claims (for logging only), the JSON body
    with its `message` and optional `conversationHistory`, posts the message to
    the upstream generation service, appends the new user and assistant turns
    to the history and wraps the outcome in an HTTP-shaped envelope. Every
    exception raised on the way becomes the same status-500 envelope.

    The already-parsed event stands in for the JSON text, and the upstream
    service is an input: `upstream` is what the service would answer, and the
    returned `Invocation` holds the request the handler builds and hands to
    `urlopen`, if it gets that far.
 */
module Handler {
  import opened Results

  /** The text of a raised exception, which is never empty. */
  type Description = s: string | |s| > 0 witness "error"

  /** One conversation entry. Entries from the caller are passed through as they are. */
  datatype Turn = Turn(role: string, content: string)

  const UserRole: string := "user"
  const AssistantRole: string := "assistant"

  /** `event['requestContext']['authorizer']`, as far as the handler looks at it. */
  datatype Authorizer =
    | NoAuthorizer                              // no request context, or no authorizer in it
    | AuthorizerWithoutClaims                   // an authorizer that has no `claims` key
    | AuthorizerWithClaims(claims: map<string, string>)

  /** `body.get('conversationHistory', [])`. */
  datatype HistoryField =
    | HistoryAbsent
    | HistoryList(turns: seq<Turn>)
    | HistoryNotList(reason: Description)       // null or any other value without `append`

  /** The fields of a body that parsed to a JSON object. */
  datatype RequestBody = RequestBody(message: Option<string>, history: HistoryField)

  /** `event['body']` and what `json.loads` makes of it. */
  datatype BodyField =
    | BodyAbsent                                // no `body` key in the event
    | BodyUnreadable(reason: Description)       // null, not JSON, or JSON that is not an object
    | BodyObject(fields: RequestBody)

  datatype Event = Event(authorizer: Authorizer, body: BodyField)

  /** How a POST to the upstream service ends; a call that never ends is not modelled. */
  datatype Upstream =
    | Replied(fields: map<string, string>)      // a 2xx answer whose body is a JSON object
    | Unavailable(reason: Description)          // a call that ends with an unusable base URL, a connection error, an error status, or a body that is not a JSON object

  /** The JSON payload posted upstream; the two float sampling constants are not modelled. */
  datatype Payload = Payload(prompt: string, maxNewTokens: int, doSample: bool)

  /** The POST the handler sends to the generation service. */
  datatype GenerationRequest = GenerationRequest(endpoint: string, payload: Payload)

  datatype ResponseBody =
    | Answered(response: string, conversationHistory: seq<Turn>)   // `success: true`
    | Errored(error: string)                                       // `success: false`

  datatype Response = Response(statusCode: int, headers: map<string, string>, body: ResponseBody)

  /** The request handed to `urlopen`, if any, and the envelope returned to the caller. */
  datatype Invocation = Invocation(request: Option<GenerationRequest>, response: Response)

  /** Why an invocation failed: a missing dictionary key, or any other exception. */
  datatype Fault = MissingKey(key: string) | Raised(reason: Description)

  /** What a successful invocation produced. */
  datatype Reply = Reply(text: string, history: seq<Turn>)

  const GeneratePath: string := "/generate"
  const GeneratedTextKey: string := "generated_text"
  const MaxNewTokens: int := 512
  const StatusOk: int := 200
  const StatusError: int := 500

  const CorsHeaders: map<string, string> := map[
    "Content-Type" := "application/json",
    "Access-Control-Allow-Origin" := "*",
    "Access-Control-Allow-Headers" := "Content-Type,X-Amz-Date,Authorization,X-Api-Key,X-Amz-Security-Token",
    "Access-Control-Allow-Methods" := "OPTIONS,POST"
  ]

  /** `str(error)`: a `KeyError` prints its key in quotes; other exceptions print their own text. */
  function Describe(f: Fault): (d: string)
    ensures |d| > 0
    ensures f.MissingKey? ==> |d| == |f.key| + 2 && d[0] == '\'' && d[|d| - 1] == '\'' && d[1..|d| - 1] == f.key
  {
    match f
    case MissingKey(k) => "'" + k + "'"
    case Raised(r) => r
  }

  /** Reading `['claims']` from an authorizer that lacks it raises; the claims themselves are only logged. */
  function CheckClaims(a: Authorizer): (f: Option<Fault>)
    ensures f.Some? <==> a.AuthorizerWithoutClaims?
    ensures f.Some? ==> f.value == MissingKey("claims")
  {
    match a
    case AuthorizerWithoutClaims => Some(MissingKey("claims"))
    case _ => None
  }

  /** `json.loads(event['body'])['message']`, keeping the history field for later. */
  function ReadBody(b: BodyField): (r: Result<(string, HistoryField), Fault>)
    ensures r.Ok? <==> b.BodyObject? && b.fields.message.Some?
    ensures r.Ok? ==> r.value == (b.fields.message.value, b.fields.history)
    ensures b.BodyAbsent? ==> r == Err(MissingKey("body"))
    ensures b.BodyObject? && b.fields.message.None? ==> r == Err(MissingKey("message"))
  {
    match b
    case BodyAbsent => Err(MissingKey("body"))
    case BodyUnreadable(reason) => Err(Raised(reason))
    case BodyObject(fields) =>
      match fields.message
      case None => Err(MissingKey("message"))
      case Some(m) => Ok((m, fields.history))
  }

  /** The POST to `<base URL>/generate` carrying the message verbatim as the prompt. */
  function BuildRequest(apiUrl: string, message: string): (q: GenerationRequest)
    ensures |q.endpoint| == |apiUrl| + |GeneratePath|
    ensures q.endpoint[..|apiUrl|] == apiUrl && q.endpoint[|apiUrl|..] == GeneratePath
    ensures q.payload.prompt == message
    ensures q.payload.maxNewTokens == 512 && q.payload.doSample
  {
    GenerationRequest(apiUrl + GeneratePath, Payload(message, MaxNewTokens, true))
  }

  /** `result['generated_text']` of the upstream answer. */
  function ReadGeneratedText(u: Upstream): (r: Result<string, Fault>)
    ensures r.Ok? <==> u.Replied? && GeneratedTextKey in u.fields
    ensures r.Ok? ==> r.value == u.fields[GeneratedTextKey]
    ensures u.Replied? && GeneratedTextKey !in u.fields ==> r == Err(MissingKey(GeneratedTextKey))
  {
    match u
    case Unavailable(reason) => Err(Raised(reason))
    case Replied(fields) =>
      if GeneratedTextKey in fields then Ok(fields[GeneratedTextKey]) else Err(MissingKey(GeneratedTextKey))
  }

  /** The list the two new turns are appended to: the caller's list, or a fresh empty one. */
  function PriorTurns(h: HistoryField): (r: Result<seq<Turn>, Fault>)
    ensures r.Ok? <==> !h.HistoryNotList?
    ensures h.HistoryAbsent? ==> r == Ok([])
    ensures h.HistoryList? ==> r == Ok(h.turns)
  {
    match h
    case HistoryAbsent => Ok([])
    case HistoryList(turns) => Ok(turns)
    case HistoryNotList(reason) => Err(Raised(reason))
  }

  /** The caller's history followed by the user's message and then the assistant's reply. */
  function MergeHistory(prior: seq<Turn>, message: string, reply: string): (h: seq<Turn>)
    ensures |h| == |prior| + 2
    ensures forall i :: 0 <= i < |prior| ==> h[i] == prior[i]
    ensures h[|prior|] == Turn(UserRole, message)
    ensures h[|prior| + 1] == Turn(AssistantRole, reply)
  {
    prior + [Turn(UserRole, message), Turn(AssistantRole, reply)]
  }

  /** The body of the `try` block: the request it hands to `urlopen`, if it gets that far, and how it ends. */
  function Process(apiUrl: string, event: Event, upstream: Upstream): (Option<GenerationRequest>, Result<Reply, Fault>)
  {
    match CheckClaims(event.authorizer)
    case Some(f) => (None, Err(f))
    case None =>
      match ReadBody(event.body)
      case Err(f) => (None, Err(f))
      case Ok((message, historyField)) =>
        var request := BuildRequest(apiUrl, message);
        match ReadGeneratedText(upstream)
        case Err(f) => (Some(request), Err(f))
        case Ok(text) =>
          match PriorTurns(historyField)
          case Err(f) => (Some(request), Err(f))
          case Ok(prior) => (Some(request), Ok(Reply(text, MergeHistory(prior, message, text))))
  }

  /** The HTTP envelope: 200 with the reply, or 500 with the exception's text; the same headers either way. */
  function Envelope(outcome: Result<Reply, Fault>): (resp: Response)
    ensures resp.headers == CorsHeaders
    ensures resp.statusCode == StatusOk <==> resp.body.Answered?
    ensures resp.statusCode == StatusError <==> resp.body.Errored?
    ensures outcome.Ok? <==> resp.body.Answered?
    ensures outcome.Ok? ==> resp.body == Answered(outcome.value.text, outcome.value.history)
    ensures outcome.Err? ==> resp.body == Errored(Describe(outcome.error))
  {
    match outcome
    case Ok(reply) => Response(StatusOk, CorsHeaders, Answered(reply.text, reply.history))
    case Err(fault) => Response(StatusError, CorsHeaders, Errored(Describe(fault)))
  }

  /** The request is built and handed to `urlopen` exactly when the claims read and the body and `message` reads succeed. */
  predicate ReachesUpstream(event: Event) {
    && !event.authorizer.AuthorizerWithoutClaims?
    && event.body.BodyObject?
    && event.body.fields.message.Some?
  }

  /** Every step succeeds: the upstream is reached, answers with `generated_text`, and the history can be appended to. */
  predicate Succeeds(event: Event, upstream: Upstream) {
    && ReachesUpstream(event)
    && upstream.Replied?
    && GeneratedTextKey in upstream.fields
    && !event.body.fields.history.HistoryNotList?
  }

  /** The whole handler. */
  function LambdaHandler(apiUrl: string, event: Event, upstream: Upstream): (out: Invocation)
    ensures out.response.headers == CorsHeaders
    ensures out.response.statusCode == StatusOk || out.response.statusCode == StatusError
    ensures out.response.statusCode == StatusOk <==> out.response.body.Answered?
    ensures out.request.Some? <==> ReachesUpstream(event)
    ensures out.request.Some? ==>
              && out.request.value.endpoint == apiUrl + GeneratePath
              && out.request.value.payload == Payload(event.body.fields.message.value, MaxNewTokens, true)
    ensures out.response.statusCode == StatusOk <==> Succeeds(event, upstream)
    ensures out.response.body.Answered? ==>
              var message := event.body.fields.message.value;
              var text := upstream.fields[GeneratedTextKey];
              var prior := if event.body.fields.history.HistoryList? then event.body.fields.history.turns else [];
              && out.response.body.response == text
              && |out.response.body.conversationHistory| == |prior| + 2
              && out.response.body.conversationHistory[..|prior|] == prior
              && out.response.body.conversationHistory[|prior|] == Turn(UserRole, message)
              && out.response.body.conversationHistory[|prior| + 1] == Turn(AssistantRole, text)
    ensures out.response.body.Errored? ==> |out.response.body.error| > 0
  {
    var (request, outcome) := Process(apiUrl, event, upstream);
    Invocation(request, Envelope(outcome))
  }
}
