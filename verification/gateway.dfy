/** The OpenAI-compatible API: the bearer-key gate shared by
    `POST /api/v1/chat/completions` and `GET /api/v1/models`, the request
    body defaults, and the translation of the model runtime's replies into
    the OpenAI shapes. */
module Gateway {
  import opened Common
  import RateLimit

  const BearerPrefix: string := "Bearer "
  const DefaultCompletionModel: string := "llama3.2:3b"

  /** A stored API key row, looked up by its key value. */
  datatype ApiKeyRow = ApiKeyRow(id: string, userId: string, isActive: bool, lastUsed: Option<int>)

  /** One chat turn as the client sends it. */
  datatype Turn = Turn(role: string, content: string)

  /** OpenAI-shaped response payloads. */
  datatype Choice = Choice(index: nat, role: string, content: string, finishReason: string)
  datatype TokenUsage = TokenUsage(promptTokens: nat, completionTokens: nat, totalTokens: nat)
  datatype ChatCompletion = ChatCompletion(objectType: string, model: string, choices: seq<Choice>, usage: TokenUsage)
  datatype OpenAIModel = OpenAIModel(
    id: string, objectType: string, ownedBy: string, permission: seq<string>, root: string, parent: Option<string>)

  datatype Payload =
    | ErrorBody(message: string)
    | Completion(completion: ChatCompletion)
    | EventStream
    | ModelList(objectType: string, data: seq<OpenAIModel>)

  /** An HTTP response: status, payload, and the `X-RateLimit-Remaining`
      header when one is sent. */
  datatype Response = Response(status: nat, payload: Payload, remaining: Option<int>)

  function Failure(status: nat, message: string): Response
  {
    Response(status, ErrorBody(message), None)
  }

  /** The key carried by an `Authorization` header: present only when the
      header starts with exactly `Bearer ` (case-sensitive), and then it is
      the rest of the header. */
  function BearerToken(header: Option<string>): (token: Option<string>)
    ensures token.Some? <==> header.Some? && StartsWith(header.value, BearerPrefix)
    ensures token.Some? ==> header.value == BearerPrefix + token.value
  {
    if header.Some? && StartsWith(header.value, BearerPrefix) then
      Some(header.value[|BearerPrefix|..])
    else None
  }

  /** A client that sends `Bearer <key>` is read back as `<key>`. */
  lemma BearerRoundTrip(key: string)
    ensures BearerToken(Some(BearerPrefix + key)) == Some(key)
  {
    assert (BearerPrefix + key)[..|BearerPrefix|] == BearerPrefix;
    assert (BearerPrefix + key)[|BearerPrefix|..] == key;
  }

  /** The scheme is matched case-sensitively: `bearer <key>` is refused. */
  lemma LowercaseSchemeRejected(key: string)
    ensures BearerToken(Some("bearer " + key)).None?
  {
    assert ("bearer " + key)[0] == 'b';
  }

  predicate IsActiveKey(rows: map<string, ApiKeyRow>, token: string)
  {
    token in rows && rows[token].isActive
  }

  /** The database table of API keys, keyed by key value. */
  class ApiKeyTable {
    var rows: map<string, ApiKeyRow>

    constructor (rows: map<string, ApiKeyRow>)
      ensures this.rows == rows
    {
      this.rows := rows;
    }
  }

  /** Outcome of the gate: a finished error response, or the admitted key
      with the limiter's remaining count. */
  datatype GateResult = Rejected(response: Response) | Admitted(apiKey: string, remaining: int)

  /** Which key-table operations throw if they are reached: the lookup of
      the key, and the write of its `lastUsed` stamp. */
  datatype KeyFaults = KeyFaults(lookup: bool, stamp: bool)

  /** The answer of a route whose handler threw. */
  const InternalError: Response := Response(500, ErrorBody("Internal server error"), None)

  /** The ordered checks in front of both endpoints: bearer header, then an
      existing active key, then the rate limiter, then the key's `lastUsed`
      stamp. A check that fails ends the chain, and nothing after it runs.
      A failing lookup or stamp ends in the route's 500; a failing stamp
      comes after the limiter, so the slot is spent. */
  method Gate(header: Option<string>, keys: ApiKeyTable, limiter: RateLimit.RateLimiter,
              now: int, faults: RateLimit.Faults, keyFaults: KeyFaults) returns (g: GateResult)
    requires limiter.Valid()
    modifies keys, limiter
    ensures limiter.Valid()
    ensures BearerToken(header).None? ==>
              g == Rejected(Failure(401, "Missing or invalid API key"))
              && keys.rows == old(keys.rows) && limiter.store == old(limiter.store)
    ensures BearerToken(header).Some? && keyFaults.lookup ==>
              g == Rejected(InternalError)
              && keys.rows == old(keys.rows) && limiter.store == old(limiter.store)
    ensures BearerToken(header).Some? && !keyFaults.lookup
            && !IsActiveKey(old(keys.rows), BearerToken(header).value) ==>
              g == Rejected(Failure(401, "Invalid API key"))
              && keys.rows == old(keys.rows) && limiter.store == old(limiter.store)
    ensures BearerToken(header).Some? && !keyFaults.lookup
            && IsActiveKey(old(keys.rows), BearerToken(header).value) ==>
              var token := BearerToken(header).value;
              var a := RateLimit.Run(RateLimit.Lookup(old(limiter.store), token), now,
                                     limiter.limit, limiter.window, faults);
              && limiter.store == RateLimit.Store(old(limiter.store), token, a)
              && (a.decision.allowed && !keyFaults.stamp ==>
                    g == Admitted(token, a.decision.remaining)
                    && keys.rows == old(keys.rows)[token := old(keys.rows)[token].(lastUsed := Some(now))])
              && (a.decision.allowed && keyFaults.stamp ==>
                    g == Rejected(InternalError) && keys.rows == old(keys.rows))
              && (!a.decision.allowed ==>
                    g == Rejected(Response(429, ErrorBody("Rate limit exceeded"), Some(0)))
                    && keys.rows == old(keys.rows))
  {
    var token := BearerToken(header);
    if token.None? {
      return Rejected(Failure(401, "Missing or invalid API key"));
    }
    var apiKey := token.value;
    if keyFaults.lookup {
      return Rejected(InternalError);
    }
    if !IsActiveKey(keys.rows, apiKey) {
      return Rejected(Failure(401, "Invalid API key"));
    }
    var rl := limiter.CheckRateLimit(apiKey, now, faults);
    if !rl.allowed {
      return Rejected(Response(429, ErrorBody("Rate limit exceeded"), Some(0)));
    }
    if keyFaults.stamp {
      return Rejected(InternalError);
    }
    keys.rows := keys.rows[apiKey := keys.rows[apiKey].(lastUsed := Some(now))];
    g := Admitted(apiKey, rl.remaining);
  }

  // ---------------------------------------------------------------- completions

  /** The `messages` field of a request body. */
  datatype MessagesField = MessagesMissing | NotAnArray | Messages(turns: seq<Turn>)

  /** A parsed JSON request body; `None` fields were left out. */
  datatype CompletionBody = CompletionBody(model: Option<string>, messages: MessagesField, stream: Option<bool>)

  /** What is forwarded to the model runtime. */
  datatype CompletionRequest = CompletionRequest(model: string, messages: seq<Turn>, stream: bool)

  datatype BodyCheck = ValidBody(request: CompletionRequest) | InvalidBody(response: Response)

  /** Body defaults and validation: `model` defaults to `llama3.2:3b` and
      `stream` to false when left out; a missing or non-array `messages`
      is a 400. */
  function CheckCompletionBody(body: CompletionBody): (c: BodyCheck)
    ensures c.InvalidBody? <==> !body.messages.Messages?
    ensures c.InvalidBody? ==> c.response == Failure(400, "Invalid messages format")
    ensures c.ValidBody? ==>
              && c.request.messages == body.messages.turns
              && c.request.model == (if body.model.Some? then body.model.value else DefaultCompletionModel)
              && c.request.stream == (body.stream.Some? && body.stream.value)
  {
    if !body.messages.Messages? then InvalidBody(Failure(400, "Invalid messages format"))
    else
      ValidBody(CompletionRequest(
        if body.model.Some? then body.model.value else DefaultCompletionModel,
        body.messages.turns,
        if body.stream.Some? then body.stream.value else false))
  }

  /** The runtime's `message` object in a non-streamed reply. */
  datatype RuntimeMessage = RuntimeMessage(role: Option<string>, content: Option<string>)

  /** What the model runtime's chat endpoint did. */
  datatype ChatUpstream =
    | ChatUnreachable
    | ChatHttpError(status: nat)
    | ChatReply(message: Option<RuntimeMessage>)

  function RuntimeRole(m: Option<RuntimeMessage>): Option<string>
  {
    if m.Some? then m.value.role else None
  }

  function RuntimeContent(m: Option<RuntimeMessage>): Option<string>
  {
    if m.Some? then m.value.content else None
  }

  /** The OpenAI-shaped completion built from a runtime reply. */
  function ToOpenAICompletion(model: string, m: Option<RuntimeMessage>): (c: ChatCompletion)
    ensures c.objectType == "chat.completion" && c.model == model
    ensures |c.choices| == 1
    ensures c.choices[0].index == 0 && c.choices[0].finishReason == "stop"
    ensures c.choices[0].role == OrDefault(RuntimeRole(m), "assistant")
    ensures c.choices[0].content == OrDefault(RuntimeContent(m), "")
    ensures c.usage == TokenUsage(0, 0, 0)
  {
    ChatCompletion("chat.completion", model,
      [Choice(0, OrDefault(RuntimeRole(m), "assistant"), OrDefault(RuntimeContent(m), ""), "stop")],
      TokenUsage(0, 0, 0))
  }

  /** The runtime's own text reaches the client unchanged; a reply with no
      message becomes an empty assistant turn. */
  lemma CompletionCarriesReply(model: string, role: string, content: string)
    ensures var c := ToOpenAICompletion(model, Some(RuntimeMessage(Some(role), Some(content))));
            (content != "" ==> c.choices[0].content == content)
            && (role != "" ==> c.choices[0].role == role)
    ensures var c := ToOpenAICompletion(model, None);
            c.choices[0].role == "assistant" && c.choices[0].content == ""
  {
  }

  /** Everything after the gate: body parsing and validation, the runtime
      call, and the response. `body` is None when the request body is not
      JSON. Every response that follows a successful gate is a 400, a 500
      or a 200 carrying the limiter's remaining count. */
  function CompletionsAfterGate(remaining: int, body: Option<CompletionBody>, upstream: ChatUpstream): (r: Response)
    ensures body.None? ==> r == InternalError
    ensures body.Some? && CheckCompletionBody(body.value).InvalidBody? ==> r == Failure(400, "Invalid messages format")
    ensures body.Some? && CheckCompletionBody(body.value).ValidBody? ==>
              var req := CheckCompletionBody(body.value).request;
              if !upstream.ChatReply? then r == InternalError
              else if req.stream then r == Response(200, EventStream, Some(remaining))
              else r == Response(200, Completion(ToOpenAICompletion(req.model, upstream.message)), Some(remaining))
  {
    if body.None? then InternalError
    else match CheckCompletionBody(body.value)
      case InvalidBody(resp) => resp
      case ValidBody(req) =>
        if !upstream.ChatReply? then InternalError
        else if req.stream then Response(200, EventStream, Some(remaining))
        else Response(200, Completion(ToOpenAICompletion(req.model, upstream.message)), Some(remaining))
  }

  /** `POST /api/v1/chat/completions`. The gate runs first; a body that is
      then refused has still consumed its rate-limit slot and stamped the
      key's `lastUsed`. */
  method PostCompletions(header: Option<string>, body: Option<CompletionBody>, upstream: ChatUpstream,
                         keys: ApiKeyTable, limiter: RateLimit.RateLimiter,
                         now: int, faults: RateLimit.Faults, keyFaults: KeyFaults) returns (r: Response)
    requires limiter.Valid()
    modifies keys, limiter
    ensures limiter.Valid()
    ensures BearerToken(header).None? ==>
              r == Failure(401, "Missing or invalid API key")
              && keys.rows == old(keys.rows) && limiter.store == old(limiter.store)
    ensures BearerToken(header).Some? && keyFaults.lookup ==>
              r == InternalError
              && keys.rows == old(keys.rows) && limiter.store == old(limiter.store)
    ensures BearerToken(header).Some? && !keyFaults.lookup
            && !IsActiveKey(old(keys.rows), BearerToken(header).value) ==>
              r == Failure(401, "Invalid API key")
              && keys.rows == old(keys.rows) && limiter.store == old(limiter.store)
    ensures BearerToken(header).Some? && !keyFaults.lookup
            && IsActiveKey(old(keys.rows), BearerToken(header).value) ==>
              var token := BearerToken(header).value;
              var a := RateLimit.Run(RateLimit.Lookup(old(limiter.store), token), now,
                                     limiter.limit, limiter.window, faults);
              && limiter.store == RateLimit.Store(old(limiter.store), token, a)
              && (a.decision.allowed && !keyFaults.stamp ==>
                    r == CompletionsAfterGate(a.decision.remaining, body, upstream)
                    && keys.rows == old(keys.rows)[token := old(keys.rows)[token].(lastUsed := Some(now))])
              && (a.decision.allowed && keyFaults.stamp ==>
                    r == InternalError && keys.rows == old(keys.rows))
              && (!a.decision.allowed ==>
                    r == Response(429, ErrorBody("Rate limit exceeded"), Some(0))
                    && keys.rows == old(keys.rows))
  {
    var g := Gate(header, keys, limiter, now, faults, keyFaults);
    match g
    case Rejected(resp) => r := resp;
    case Admitted(_, remaining) => r := CompletionsAfterGate(remaining, body, upstream);
  }

  // ---------------------------------------------------------------- models

  /** One installed model as the runtime's tags endpoint lists it. */
  datatype RuntimeModel = RuntimeModel(name: string, modifiedAt: string)

  /** What the runtime's tags endpoint did; `models` is None when the
      reply has no `models` field. */
  datatype TagsUpstream =
    | TagsUnreachable
    | TagsHttpError(status: nat)
    | TagsReply(models: Option<seq<RuntimeModel>>)

  function ToOpenAIModel(m: RuntimeModel): OpenAIModel
  {
    OpenAIModel(m.name, "model", "ollama", [], m.name, None)
  }

  /** The OpenAI model list: one entry per runtime model, in the same
      order, and empty when the reply has no `models` field. */
  function ToOpenAIModels(models: Option<seq<RuntimeModel>>): (out: seq<OpenAIModel>)
    ensures models.None? ==> out == []
    ensures models.Some? ==> |out| == |models.value|
    ensures models.Some? ==> forall i :: 0 <= i < |out| ==>
              out[i] == OpenAIModel(models.value[i].name, "model", "ollama", [], models.value[i].name, None)
  {
    if models.None? then [] else seq(|models.value|, i requires 0 <= i < |models.value| => ToOpenAIModel(models.value[i]))
  }

  /** Each entry's id and root name the runtime model, so the list of ids is
      exactly the list of runtime names. */
  lemma ModelIdsAreNames(models: seq<RuntimeModel>, i: nat)
    requires i < |models|
    ensures ToOpenAIModels(Some(models))[i].id == models[i].name == ToOpenAIModels(Some(models))[i].root
  {
  }

  /** Everything after the gate for `GET /api/v1/models`. */
  function ModelsAfterGate(remaining: int, upstream: TagsUpstream): (r: Response)
    ensures upstream.TagsUnreachable? ==> r == InternalError
    ensures upstream.TagsHttpError? ==> r == Failure(500, "Failed to fetch models")
    ensures upstream.TagsReply? ==>
              r == Response(200, ModelList("list", ToOpenAIModels(upstream.models)), Some(remaining))
  {
    match upstream
    case TagsUnreachable => InternalError
    case TagsHttpError(_) => Failure(500, "Failed to fetch models")
    case TagsReply(models) => Response(200, ModelList("list", ToOpenAIModels(models)), Some(remaining))
  }

  /** `GET /api/v1/models`: the same gate, then the model list. */
  method GetModels(header: Option<string>, upstream: TagsUpstream,
                   keys: ApiKeyTable, limiter: RateLimit.RateLimiter,
                   now: int, faults: RateLimit.Faults, keyFaults: KeyFaults) returns (r: Response)
    requires limiter.Valid()
    modifies keys, limiter
    ensures limiter.Valid()
    ensures BearerToken(header).None? ==>
              r == Failure(401, "Missing or invalid API key")
              && keys.rows == old(keys.rows) && limiter.store == old(limiter.store)
    ensures BearerToken(header).Some? && keyFaults.lookup ==>
              r == InternalError
              && keys.rows == old(keys.rows) && limiter.store == old(limiter.store)
    ensures BearerToken(header).Some? && !keyFaults.lookup
            && !IsActiveKey(old(keys.rows), BearerToken(header).value) ==>
              r == Failure(401, "Invalid API key")
              && keys.rows == old(keys.rows) && limiter.store == old(limiter.store)
    ensures BearerToken(header).Some? && !keyFaults.lookup
            && IsActiveKey(old(keys.rows), BearerToken(header).value) ==>
              var token := BearerToken(header).value;
              var a := RateLimit.Run(RateLimit.Lookup(old(limiter.store), token), now,
                                     limiter.limit, limiter.window, faults);
              && limiter.store == RateLimit.Store(old(limiter.store), token, a)
              && (a.decision.allowed && !keyFaults.stamp ==>
                    r == ModelsAfterGate(a.decision.remaining, upstream)
                    && keys.rows == old(keys.rows)[token := old(keys.rows)[token].(lastUsed := Some(now))])
              && (a.decision.allowed && keyFaults.stamp ==>
                    r == InternalError && keys.rows == old(keys.rows))
              && (!a.decision.allowed ==>
                    r == Response(429, ErrorBody("Rate limit exceeded"), Some(0))
                    && keys.rows == old(keys.rows))
  {
    var g := Gate(header, keys, limiter, now, faults, keyFaults);
    match g
    case Rejected(resp) => r := resp;
    case Admitted(_, remaining) => r := ModelsAfterGate(remaining, upstream);
  }
}
