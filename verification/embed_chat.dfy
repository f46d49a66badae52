/** The embedded chat page shown inside the widget's iframe: it talks to
    the OpenAI-compatible completions endpoint with the key from its
    address, keeps the conversation on the page and shows errors in place. */
module EmbedChat {
  import opened Common
  import Gateway

  const DefaultTheme: string := "light"
  const DefaultModel: string := "llama3"

  /** A message on the page. */
  datatype EmbedMessage = EmbedMessage(id: string, role: string, content: string)

  /** The request the page sends: the `Authorization` header and the JSON
      body, which names the model and the whole conversation and leaves
      `stream` out. */
  datatype SentRequest = SentRequest(authorization: string, body: Gateway.CompletionBody)

  /** How a send ended: an ok reply with `choices[0].message.content` (None
      when any step of that path is missing), a refused request with the
      body's `error` field, or a failure (network or unreadable reply) with
      the thrown error's message. */
  datatype SendOutcome =
    | Replied(content: Option<string>)
    | Refused(error: Option<string>)
    | Failed(message: Option<string>)

  /** The conversation as the request carries it: role and content of
      each earlier message, then the new user turn. */
  function RequestTurns(prior: seq<EmbedMessage>, content: string): (turns: seq<Gateway.Turn>)
    ensures |turns| == |prior| + 1
    ensures forall i :: 0 <= i < |prior| ==> turns[i] == Gateway.Turn(prior[i].role, prior[i].content)
    ensures turns[|prior|] == Gateway.Turn("user", content)
  {
    seq(|prior|, i requires 0 <= i < |prior| => Gateway.Turn(prior[i].role, prior[i].content))
      + [Gateway.Turn("user", content)]
  }

  /** The request for one message. */
  function RequestFor(key: string, model: string, prior: seq<EmbedMessage>, content: string): (r: SentRequest)
    ensures r.authorization == Gateway.BearerPrefix + key
    ensures r.body.model == Some(model) && r.body.stream.None?
    ensures r.body.messages == Gateway.Messages(RequestTurns(prior, content))
  {
    SentRequest("Bearer " + key,
                Gateway.CompletionBody(Some(model), Gateway.Messages(RequestTurns(prior, content)), None))
  }

  /** The completions endpoint reads the page's request as intended: the
      key comes back out of the header, the body passes validation, the
      model and conversation are forwarded as sent, and no stream is asked
      for. */
  lemma RequestAccepted(key: string, model: string, prior: seq<EmbedMessage>, content: string)
    ensures Gateway.BearerToken(Some(RequestFor(key, model, prior, content).authorization)) == Some(key)
    ensures Gateway.CheckCompletionBody(RequestFor(key, model, prior, content).body)
            == Gateway.ValidBody(Gateway.CompletionRequest(model, RequestTurns(prior, content), false))
  {
    Gateway.BearerRoundTrip(key);
  }

  /** `choices?.[0]?.message?.content` of a completion. */
  function FirstContent(c: Gateway.ChatCompletion): (r: Option<string>)
    ensures r.Some? <==> |c.choices| > 0
  {
    if |c.choices| > 0 then Some(c.choices[0].content) else None
  }

  /** From runtime to page: the runtime's non-empty reply text is what the
      page shows, and a missing or empty one shows the fixed notice. */
  lemma ReplyReachesPage(model: string, m: Option<Gateway.RuntimeMessage>)
    ensures AssistantContent(FirstContent(Gateway.ToOpenAICompletion(model, m)))
            == OrDefault(Gateway.RuntimeContent(m), NoReply)
  {
  }

  class EmbedChatPage {
    const userKey: Option<string>
    const theme: string
    const model: string
    var messages: seq<EmbedMessage>
    var loading: bool
    var error: Option<string>

    /** The page for the query parameters `userKey`, `theme` and `model`;
        missing or empty theme and model fall back to their defaults. */
    constructor (userKeyParam: Option<string>, themeParam: Option<string>, modelParam: Option<string>)
      ensures userKey == userKeyParam
      ensures theme == OrDefault(themeParam, DefaultTheme) && model == OrDefault(modelParam, DefaultModel)
      ensures messages == [] && !loading && error.None?
    {
      userKey := userKeyParam;
      theme := OrDefault(themeParam, DefaultTheme);
      model := OrDefault(modelParam, DefaultModel);
      messages, loading, error := [], false, None;
    }

    /** Send one message. Without a key, only the error is set and no
        request is made. Otherwise the user's message is shown at once, the
        error is cleared, the request carries the conversation before this
        message plus the new turn, and then: a reply appends the assistant's
        message; a refusal or failure keeps the user's message and shows the
        server's error, the thrown message, or a fixed text. Loading ends
        either way. The ids are the page's clock-based ids. */
    method HandleSendMessage(content: string, userId: string, assistantId: string, outcome: SendOutcome)
      returns (request: Option<SentRequest>)
      modifies this
      ensures userKey.None? || userKey.value == "" ==>
                error == Some("Missing API key") && request.None?
                && messages == old(messages) && loading == old(loading)
      ensures userKey.Some? && userKey.value != "" ==>
                var userMsg := EmbedMessage(userId, "user", content);
                && request == Some(RequestFor(userKey.value, model, old(messages), content))
                && !loading
                && (outcome.Replied? ==>
                      messages == old(messages) + [userMsg, EmbedMessage(assistantId, "assistant", AssistantContent(outcome.content))]
                      && error.None?)
                && (outcome.Refused? ==>
                      messages == old(messages) + [userMsg]
                      && error == Some(OrDefault(outcome.error, "Failed to get response")))
                && (outcome.Failed? ==>
                      messages == old(messages) + [userMsg]
                      && error == Some(OrDefault(outcome.message, "An error occurred")))
    {
      if userKey.None? || userKey.value == "" {
        error := Some("Missing API key");
        return None;
      }
      var prior := messages;
      var userMsg := EmbedMessage(userId, "user", content);
      messages := messages + [userMsg];
      loading := true;
      error := None;
      request := Some(RequestFor(userKey.value, model, prior, content));
      match outcome {
        case Replied(reply) =>
          messages := messages + [EmbedMessage(assistantId, "assistant", AssistantContent(reply))];
        case Refused(serverError) =>
          // the thrown error's message is never empty, so it is shown as is
          error := Some(OrDefault(serverError, "Failed to get response"));
        case Failed(thrown) =>
          error := Some(OrDefault(thrown, "An error occurred"));
      }
      loading := false;
    }
  }
}
