/** The Anthropic adapter: the provider descriptor, and `chat` split into the
    request it builds (with the system prompt moved to its own field) and the
    interpretation of the reply. */
module Anthropic {
  import opened Wrappers
  import opened Text
  import opened Types
  import opened Http
  import Utils

  const Provider := LLMProvider("anthropic", "Anthropic", true, AnthropicChat)

  const Endpoint := "https://api.anthropic.com/v1/messages"
  const DefaultModel := "claude-3-5-sonnet-20241022"
  const DefaultTemperature: real := 0.7
  const DefaultMaxTokens := 1000
  const ApiVersion := "2023-06-01"
  const MissingKey := "Anthropic API key is required"
  const NoResponse := "No response from Anthropic"

  /** The JSON body: `{ model, max_tokens, temperature, system, messages }`;
      `system: undefined` is dropped by `JSON.stringify`, shown here as `None`. */
  datatype RequestBody = RequestBody(
    model: string, maxTokens: int, temperature: real, system: Option<string>, messages: seq<ChatMessage>)

  datatype Request = Request(url: string, httpMethod: string, headers: seq<(string, string)>, body: RequestBody)

  /** One entry of `content`: its `text`. */
  datatype ContentBlock = ContentBlock(text: Option<string>)

  /** The parsed body of an ok reply: its `content`, when present. */
  datatype ResponseBody = ResponseBody(content: Option<seq<ContentBlock>>)

  /** The request `chat` sends, or the error it throws before sending anything. */
  function BuildRequest(messages: seq<ChatMessage>, options: Option<LLMOptions>, token: Option<string>)
    : (r: Result<Request, string>)
    ensures r.Failure? <==> !Truthy(token)
    ensures r.Failure? ==> r.error == MissingKey
    ensures r.Success? ==>
      && r.value.url == Endpoint && r.value.httpMethod == "POST"
      && r.value.headers == [("Content-Type", "application/json"), ("x-api-key", token.value), ("anthropic-version", ApiVersion)]
      && r.value.body.model == (if options.Some? && Truthy(options.value.model) then options.value.model.value else DefaultModel)
      && r.value.body.temperature == TemperatureOr(options, DefaultTemperature)
      && r.value.body.maxTokens == MaxTokensOr(options, DefaultMaxTokens)
      // the first system message, if any, becomes the `system` field ...
      && (r.value.body.system.None? <==> CountRole(messages, System) == 0)
      && (r.value.body.system.Some? ==>
            exists i :: FirstSystemAt(messages, i) && messages[i].content == r.value.body.system.value)
      // ... and every other message goes out, in order
      && r.value.body.messages == NonSystem(messages)
  {
    if !Truthy(token) then Failure(MissingKey)
    else
      var body := RequestBody(ModelOr(options, DefaultModel), MaxTokensOr(options, DefaultMaxTokens),
                              TemperatureOr(options, DefaultTemperature),
                              FirstSystemContent(messages), NonSystem(messages));
      Success(Request(Endpoint, "POST",
                      [("Content-Type", "application/json"), ("x-api-key", token.value), ("anthropic-version", ApiVersion)],
                      body))
  }

  /** What `chat` resolves to, or the message of the error it throws, for a reply. */
  function InterpretResponse(reply: Reply<ResponseBody>): (r: Result<string, string>)
    ensures reply.NetworkError? ==> r == Failure(reply.reason)
    ensures reply.NotOk? && reply.errorBody.NullJson? ==> r == Failure(NullBodyError)
    ensures reply.NotOk? && !reply.errorBody.NullJson? ==>
              r == Failure(ApiErrorMessage("Anthropic", reply.status, reply.statusText, reply.errorBody))
    ensures reply.Ok? ==>
              (r == Failure(NoResponse) <==> reply.body.content.None? || reply.body.content.value == [])
    ensures reply.Ok? && reply.body.content.Some? && reply.body.content.value != [] ==>
              r == Success(if Truthy(reply.body.content.value[0].text)
                           then reply.body.content.value[0].text.value
                           else NoResponseGenerated)
    ensures r.Success? ==> reply.Ok? && r.value != ""
  {
    match reply
    case NetworkError(reason) => Failure(reason)
    case NotOk(status, statusText, errorBody) =>
      if errorBody.NullJson? then Failure(NullBodyError)
      else Failure(ApiErrorMessage("Anthropic", status, statusText, errorBody))
    case Ok(body) =>
      if body.content.None? || |body.content.value| == 0 then Failure(NoResponse)
      else Success(OrElse(body.content.value[0].text, NoResponseGenerated))
  }

  /** `chat`, with `fetch` given as `send`. Without a token it fails before
      anything is sent. */
  function Chat(messages: seq<ChatMessage>, options: Option<LLMOptions>, token: Option<string>,
                send: Request -> Reply<ResponseBody>): (r: Result<string, string>)
    ensures !Truthy(token) ==> r == Failure(MissingKey)
    ensures Truthy(token) ==> r == InterpretResponse(send(BuildRequest(messages, options, token).value))
  {
    match BuildRequest(messages, options, token)
    case Failure(e) => Failure(e)
    case Success(request) => InterpretResponse(send(request))
  }

  /** For a list with exactly one system message, at its head, the split sends
      that message's content as `system` and all the rest, in order, as `messages`. */
  lemma SplitOfLeadingSystem(ms: seq<ChatMessage>)
    requires ms != [] && ms[0].role == System && CountRole(ms, System) == 1
    ensures FirstSystemContent(ms) == Some(ms[0].content)
    ensures NonSystem(ms) == ms[1..]
  {
    assert ms == [ms[0]] + ms[1..];
    CountRoleAppend([ms[0]], ms[1..], System);
    NonSystemOfSystemFree(ms[1..]);
  }

  /** A list led by its only system message is sent as that message's
      content in `system` and the rest, unchanged, in `messages`. */
  lemma RequestOfLeadingSystem(ms: seq<ChatMessage>, options: Option<LLMOptions>, token: Option<string>)
    requires Truthy(token)
    requires ms != [] && ms[0].role == System && CountRole(ms, System) == 1
    ensures var body := BuildRequest(ms, options, token).value.body;
            body.system == Some(ms[0].content) && body.messages == ms[1..]
  {
    SplitOfLeadingSystem(ms);
  }

  /** For an assembled chat, the prompt is sent once as `system`, and the
      filtered history and the new user message are each sent once, in order. */
  lemma AssembledChatSplit(c: BookContext, userMessage: string, prev: seq<ChatMessage>,
                           options: Option<LLMOptions>, token: Option<string>)
    requires Truthy(token)
    ensures var body := BuildRequest(Utils.CreateChatMessages(c, userMessage, prev), options, token).value.body;
            && body.system == Some(Utils.BuildSystemPrompt(c))
            && body.messages == NonSystem(prev) + [ChatMessage(User, userMessage)]
            && CountRole(body.messages, System) == 0
  {
    var ms := Utils.CreateChatMessages(c, userMessage, prev);
    RequestOfLeadingSystem(ms, options, token);
    Utils.AfterPrompt(c, userMessage, prev);
  }

  /** A successful reply with no content blocks is an error, not an empty answer. */
  lemma EmptyContentReply()
    ensures InterpretResponse(Ok(ResponseBody(Some([])))) == Failure(NoResponse)
  {
  }
}
