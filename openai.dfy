/** The OpenAI adapter: the provider descriptor, and `chat` split into the
    request it builds and the interpretation of the reply. */
module OpenAI {
  import opened Wrappers
  import opened Text
  import opened Types
  import opened Http

  const Provider := LLMProvider("openai", "OpenAI", true, OpenAIChat)

  const Endpoint := "https://api.openai.com/v1/chat/completions"
  const DefaultModel := "gpt-4o-mini"
  const DefaultTemperature: real := 0.7
  const DefaultMaxTokens := 1000
  const MissingKey := "OpenAI API key is required"
  const NoResponse := "No response from OpenAI"

  /** The JSON body: `{ model, messages, temperature, max_tokens }`. */
  datatype RequestBody = RequestBody(model: string, messages: seq<ChatMessage>, temperature: real, maxTokens: int)

  datatype Request = Request(url: string, httpMethod: string, headers: seq<(string, string)>, body: RequestBody)

  /** One entry of `choices`: its `message.content`. */
  datatype Choice = Choice(content: Option<string>)

  /** The parsed body of an ok reply: its `choices`, when present. */
  datatype ResponseBody = ResponseBody(choices: Option<seq<Choice>>)

  /** The request `chat` sends, or the error it throws before sending anything. */
  function BuildRequest(messages: seq<ChatMessage>, options: Option<LLMOptions>, token: Option<string>)
    : (r: Result<Request, string>)
    ensures r.Failure? <==> !Truthy(token)
    ensures r.Failure? ==> r.error == MissingKey
    ensures r.Success? ==>
      && r.value.url == Endpoint && r.value.httpMethod == "POST"
      && r.value.headers == [("Content-Type", "application/json"), ("Authorization", "Bearer " + token.value)]
      // the messages go out unchanged, system message included
      && r.value.body.messages == messages
      && r.value.body.model == (if options.Some? && Truthy(options.value.model) then options.value.model.value else DefaultModel)
      && r.value.body.temperature == TemperatureOr(options, DefaultTemperature)
      && r.value.body.maxTokens == MaxTokensOr(options, DefaultMaxTokens)
  {
    if !Truthy(token) then Failure(MissingKey)
    else
      var body := RequestBody(ModelOr(options, DefaultModel), messages,
                              TemperatureOr(options, DefaultTemperature), MaxTokensOr(options, DefaultMaxTokens));
      Success(Request(Endpoint, "POST",
                      [("Content-Type", "application/json"), ("Authorization", "Bearer " + token.value)], body))
  }

  /** What `chat` resolves to, or the message of the error it throws, for a reply. */
  function InterpretResponse(reply: Reply<ResponseBody>): (r: Result<string, string>)
    ensures reply.NetworkError? ==> r == Failure(reply.reason)
    ensures reply.NotOk? && reply.errorBody.NullJson? ==> r == Failure(NullBodyError)
    ensures reply.NotOk? && !reply.errorBody.NullJson? ==>
              r == Failure(ApiErrorMessage("OpenAI", reply.status, reply.statusText, reply.errorBody))
    ensures reply.Ok? ==>
              (r == Failure(NoResponse) <==> reply.body.choices.None? || reply.body.choices.value == [])
    ensures reply.Ok? && reply.body.choices.Some? && reply.body.choices.value != [] ==>
              r == Success(if Truthy(reply.body.choices.value[0].content)
                           then reply.body.choices.value[0].content.value
                           else NoResponseGenerated)
    // a reply is only ever a non-empty text taken from an ok response
    ensures r.Success? ==> reply.Ok? && r.value != ""
  {
    match reply
    case NetworkError(reason) => Failure(reason)
    case NotOk(status, statusText, errorBody) =>
      if errorBody.NullJson? then Failure(NullBodyError)
      else Failure(ApiErrorMessage("OpenAI", status, statusText, errorBody))
    case Ok(body) =>
      if body.choices.None? || |body.choices.value| == 0 then Failure(NoResponse)
      else Success(OrElse(body.choices.value[0].content, NoResponseGenerated))
  }

  /** `chat`, with `fetch` given as `send`. Without a token it fails before
      anything is sent, whatever the network would have answered. */
  function Chat(messages: seq<ChatMessage>, options: Option<LLMOptions>, token: Option<string>,
                send: Request -> Reply<ResponseBody>): (r: Result<string, string>)
    ensures !Truthy(token) ==> r == Failure(MissingKey)
    ensures Truthy(token) ==> r == InterpretResponse(send(BuildRequest(messages, options, token).value))
  {
    match BuildRequest(messages, options, token)
    case Failure(e) => Failure(e)
    case Success(request) => InterpretResponse(send(request))
  }

  /** A 429 whose body carries a message yields the status line, with the
      code written out, followed by the provider's message. */
  lemma RateLimitedReply()
    ensures InterpretResponse(NotOk(429, "Too Many Requests", ErrorJson(Some("rate limited"))))
            == Failure(StatusLine("OpenAI", 429, "Too Many Requests") + " - " + "rate limited")
    ensures StatusLine("OpenAI", 429, "Too Many Requests") == "OpenAI" + " API error: " + "429" + " " + "Too Many Requests"
  {
    assert NatToString(4) == "4";
    assert NatToString(42) == "42";
    assert NatToString(429) == "429";
  }

  /** An unparsable error body gives the status line alone. */
  lemma UnparsableErrorBody(status: nat, statusText: string)
    ensures InterpretResponse(NotOk(status, statusText, Unparsable)) == Failure(StatusLine("OpenAI", status, statusText))
  {
  }
}
