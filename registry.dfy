/** The provider registry: a fixed record from provider name to provider,
    its listing in declaration order, lookup by name, and dispatch of `chat`
    to the provider's adapter. */
module Registry {
  import opened Wrappers
  import opened Text
  import opened Types
  import opened Http
  import OpenAI
  import Anthropic

  /** `LLM_PROVIDERS`. */
  const LLMProviders: map<string, LLMProvider> := map["openai" := OpenAI.Provider, "anthropic" := Anthropic.Provider]

  /** `getLLMProviders()`: `Object.values(LLM_PROVIDERS)`, in insertion order. */
  function GetLLMProviders(): (ps: seq<LLMProvider>)
    ensures |ps| == 2 && ps[0].name == "openai" && ps[1].name == "anthropic"
    // every listed provider is the registry's entry under its own name ...
    ensures forall i :: 0 <= i < |ps| ==> ps[i].name in LLMProviders && LLMProviders[ps[i].name] == ps[i]
    // ... and every entry is listed
    ensures forall k :: k in LLMProviders ==> LLMProviders[k] in ps
  {
    [LLMProviders["openai"], LLMProviders["anthropic"]]
  }

  /** `getLLMProvider(name)`: the provider registered under `name`, or null. */
  function GetLLMProvider(name: string): (p: Option<LLMProvider>)
    ensures p.Some? <==> name == "openai" || name == "anthropic"
    ensures p.Some? ==> p.value.name == name && p.value in GetLLMProviders()
  {
    if name in LLMProviders then Some(LLMProviders[name]) else None
  }

  /** The two names resolve to the two adapters' descriptors. */
  lemma LookupByName()
    ensures GetLLMProvider("openai") == Some(OpenAI.Provider)
    ensures GetLLMProvider("anthropic") == Some(Anthropic.Provider)
    ensures OpenAI.Provider.authRequired && Anthropic.Provider.authRequired
  {
  }

  /** A registry key is always the `name` of the provider stored under it, so
      every listed provider is found by looking up its own name. */
  lemma ListedProviderFoundByName(p: LLMProvider)
    requires p in GetLLMProviders()
    ensures GetLLMProvider(p.name) == Some(p)
  {
  }

  /** The network, one `fetch` per wire format. */
  datatype Network = Network(
    openai: OpenAI.Request -> Reply<OpenAI.ResponseBody>,
    anthropic: Anthropic.Request -> Reply<Anthropic.ResponseBody>)

  /** `provider.chat(messages, options, token)`, sent through `net`. */
  function Chat(provider: LLMProvider, messages: seq<ChatMessage>, options: Option<LLMOptions>,
                token: Option<string>, net: Network): (r: Result<string, string>)
    ensures provider.chat.OpenAIChat? ==> r == OpenAI.Chat(messages, options, token, net.openai)
    ensures provider.chat.AnthropicChat? ==> r == Anthropic.Chat(messages, options, token, net.anthropic)
    ensures !Truthy(token) ==> r.Failure?
    ensures r.Success? ==> r.value != ""
  {
    match provider.chat
    case OpenAIChat => OpenAI.Chat(messages, options, token, net.openai)
    case AnthropicChat => Anthropic.Chat(messages, options, token, net.anthropic)
  }
}
