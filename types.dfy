/** The shared vocabulary of the LLM service: chat messages, request options,
    the book context, provider descriptors and the ordered model table. */
module Types {
  import opened Wrappers
  import opened Text

  /** A chat message's role is exactly one of these three. */
  datatype Role = System | User | Assistant

  datatype ChatMessage = ChatMessage(role: Role, content: string)

  /** Per-call tuning; every field may be left out. `temperature` is a
      JavaScript number carried as a real and never computed with. */
  datatype LLMOptions = LLMOptions(temperature: Option<real>, maxTokens: Option<int>, model: Option<string>)

  /** Book title, author and selected text are always present; chapter,
      page context and language are optional. */
  datatype BookContext = BookContext(
    bookTitle: string,
    author: string,
    selectedText: string,
    currentChapter: Option<string>,
    currentPageContext: Option<string>,
    language: Option<string>)

  /** Which `chat` implementation a provider object carries. */
  datatype ChatApi = OpenAIChat | AnthropicChat

  /** A provider descriptor: its name, display label (`label`), whether a credential is
      mandatory, and its `chat` capability. */
  datatype LLMProvider = LLMProvider(name: string, displayLabel: string, authRequired: bool, chat: ChatApi)

  /** One `key: label` entry of a provider's model table. */
  datatype ModelEntry = ModelEntry(key: string, displayLabel: string)

  /** `LLM_MODELS.openai`, in declaration order. */
  const OpenAIModels: seq<ModelEntry> := [
    ModelEntry("gpt-4o", "GPT-4o"),
    ModelEntry("gpt-4o-mini", "GPT-4o Mini"),
    ModelEntry("gpt-3.5-turbo", "GPT-3.5 Turbo")
  ]

  /** `LLM_MODELS.anthropic`, in declaration order. */
  const AnthropicModels: seq<ModelEntry> := [
    ModelEntry("claude-3-5-sonnet-20241022", "Claude 3.5 Sonnet"),
    ModelEntry("claude-3-haiku-20240307", "Claude 3 Haiku")
  ]

  /** The keys of a model table, in order (`Object.keys`). */
  function Keys(table: seq<ModelEntry>): (ks: seq<string>)
    ensures |ks| == |table|
    ensures forall i :: 0 <= i < |table| ==> ks[i] == table[i].key
  {
    if table == [] then [] else [table[0].key] + Keys(table[1..])
  }

  predicate IsOpenAIModel(m: string) { m in Keys(OpenAIModels) }

  predicate IsAnthropicModel(m: string) { m in Keys(AnthropicModels) }

  /** `LLMModel = OpenAIModel | AnthropicModel`. */
  predicate IsLLMModel(m: string) { IsOpenAIModel(m) || IsAnthropicModel(m) }

  lemma OpenAIModelKeys()
    ensures Keys(OpenAIModels) == ["gpt-4o", "gpt-4o-mini", "gpt-3.5-turbo"]
  {
  }

  lemma AnthropicModelKeys()
    ensures Keys(AnthropicModels) == ["claude-3-5-sonnet-20241022", "claude-3-haiku-20240307"]
  {
  }

  /** No model key belongs to both providers, so the union is a disjoint one. */
  lemma ModelKeySetsDisjoint(m: string)
    ensures !(IsOpenAIModel(m) && IsAnthropicModel(m))
  {
    OpenAIModelKeys();
    AnthropicModelKeys();
  }

  // The `options?.field || default` reads shared by both adapters. A number
  // is falsy when it is absent or zero.

  /** `options?.model || default`: the caller's model unless it is absent or empty. */
  function ModelOr(options: Option<LLMOptions>, default: string): (m: string)
    ensures options.Some? && Truthy(options.value.model) ==> m == options.value.model.value
    ensures !(options.Some? && Truthy(options.value.model)) ==> m == default
    ensures default != "" ==> m != ""
  {
    if options.Some? then OrElse(options.value.model, default) else default
  }

  /** `options?.temperature || default`: a temperature of 0 is replaced too. */
  function TemperatureOr(options: Option<LLMOptions>, default: real): (t: real)
    ensures t == default || (options.Some? && options.value.temperature == Some(t))
    ensures options.Some? && options.value.temperature == Some(0.0) ==> t == default
    ensures default != 0.0 ==> t != 0.0
  {
    if options.Some? && options.value.temperature.Some? && options.value.temperature.value != 0.0
    then options.value.temperature.value
    else default
  }

  /** `options?.maxTokens || default`: a bound of 0 is replaced too. */
  function MaxTokensOr(options: Option<LLMOptions>, default: int): (n: int)
    ensures n == default || (options.Some? && options.value.maxTokens == Some(n))
    ensures options.Some? && options.value.maxTokens == Some(0) ==> n == default
    ensures default != 0 ==> n != 0
  {
    if options.Some? && options.value.maxTokens.Some? && options.value.maxTokens.value != 0
    then options.value.maxTokens.value
    else default
  }

  /** The number of messages with role `role`. */
  function CountRole(ms: seq<ChatMessage>, role: Role): (n: nat)
    ensures n <= |ms|
    ensures n == 0 <==> forall i :: 0 <= i < |ms| ==> ms[i].role != role
  {
    if ms == [] then 0
    else (if ms[0].role == role then 1 else 0) + CountRole(ms[1..], role)
  }

  lemma {:induction false} CountRoleAppend(a: seq<ChatMessage>, b: seq<ChatMessage>, role: Role)
    ensures CountRole(a + b, role) == CountRole(a, role) + CountRole(b, role)
  {
    if a != [] {
      assert (a + b)[1..] == a[1..] + b;
      CountRoleAppend(a[1..], b, role);
    } else {
      assert a + b == b;
    }
  }

  /** `messages.filter(m => m.role !== 'system')`. */
  function NonSystem(ms: seq<ChatMessage>): (r: seq<ChatMessage>)
    ensures |r| == |ms| - CountRole(ms, System)
    ensures CountRole(r, System) == 0
    ensures forall m :: m in r <==> m in ms && m.role != System
  {
    if ms == [] then []
    else if ms[0].role == System then NonSystem(ms[1..])
    else [ms[0]] + NonSystem(ms[1..])
  }

  /** Filtering commutes with concatenation, so the kept messages stay in their original order. */
  lemma {:induction false} NonSystemAppend(a: seq<ChatMessage>, b: seq<ChatMessage>)
    ensures NonSystem(a + b) == NonSystem(a) + NonSystem(b)
  {
    if a != [] {
      assert (a + b)[1..] == a[1..] + b;
      NonSystemAppend(a[1..], b);
      if a[0].role != System {
        assert [a[0]] + NonSystem(a[1..]) + NonSystem(b) == [a[0]] + (NonSystem(a[1..]) + NonSystem(b));
      }
    } else {
      assert a + b == b;
    }
  }

  /** A list without system messages passes the filter unchanged. */
  lemma {:induction false} NonSystemOfSystemFree(ms: seq<ChatMessage>)
    requires CountRole(ms, System) == 0
    ensures NonSystem(ms) == ms
  {
    if ms != [] {
      assert ms[0].role != System;
      NonSystemOfSystemFree(ms[1..]);
    }
  }

  /** Index `i` holds the first system message of `ms`. */
  predicate FirstSystemAt(ms: seq<ChatMessage>, i: int) {
    && 0 <= i < |ms|
    && ms[i].role == System
    && forall j :: 0 <= j < i ==> ms[j].role != System
  }

  /** `messages.find(m => m.role === 'system')?.content`. */
  function FirstSystemContent(ms: seq<ChatMessage>): (r: Option<string>)
    ensures r.None? <==> CountRole(ms, System) == 0
    ensures r.Some? ==> exists i :: FirstSystemAt(ms, i) && ms[i].content == r.value
  {
    if ms == [] then None
    else if ms[0].role == System then
      assert FirstSystemAt(ms, 0);
      Some(ms[0].content)
    else
      var r := FirstSystemContent(ms[1..]);
      if r.Some? then
        var i :| FirstSystemAt(ms[1..], i) && ms[1..][i].content == r.value;
        assert FirstSystemAt(ms, i + 1);
        r
      else
        r
  }
}
