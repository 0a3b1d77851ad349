/** The chat popup of the reader: its conversation state, the provider and
    model it sends with, the send flow (admission, the user turn, the call to
    the provider, the assistant turn or the error), and the provider and model
    selectors. */
module Popup {
  import opened Wrappers
  import opened Text
  import opened Types
  import Registry
  import Utils
  import OpenAI
  import Anthropic

  // ---------------------------------------------------------------------
  // Entities

  datatype TurnRole = UserTurn | AssistantTurn

  /** `ChatbotMessage`: one turn of the conversation shown in the popup. */
  datatype ChatbotMessage = ChatbotMessage(id: string, role: TurnRole, content: string, timestamp: nat)

  /** The part of the global read settings the popup reads and writes; `others`
      stands for every other field, which the spread copies unchanged. */
  datatype ReadSettings = ReadSettings(llmProvider: Option<string>, llmModel: Option<string>, others: map<string, string>)

  datatype Settings = Settings(globalReadSettings: ReadSettings, others: map<string, string>)

  /** An entry of the model selector. */
  datatype ModelOption = ModelOption(value: string, displayLabel: string)

  /** An entry of the provider selector. */
  datatype ProviderOption = ProviderOption(name: string, displayLabel: string)

  const DefaultProvider := "openai"
  const DefaultModel := "gpt-4o-mini"
  const ProviderUnavailable := "Selected LLM provider not available"
  const LoginRequired := "Please log in to use the chatbot"
  const LoginRequiredSuffix := " (Login Required)"
  const SendTemperature: real := 0.7
  const SendMaxTokens := 1000
  const PreviewLimit: nat := 100

  // ---------------------------------------------------------------------
  // Selectors

  function ModelOptions(table: seq<ModelEntry>): (r: seq<ModelOption>)
    ensures |r| == |table|
    ensures forall i :: 0 <= i < |r| ==> r[i].value == table[i].key && r[i].displayLabel == table[i].displayLabel
  {
    if table == [] then [] else [ModelOption(table[0].key, table[0].displayLabel)] + ModelOptions(table[1..])
  }

  function ModelValues(options: seq<ModelOption>): (vs: seq<string>)
    ensures |vs| == |options|
    ensures forall i :: 0 <= i < |vs| ==> vs[i] == options[i].value
  {
    if options == [] then [] else [options[0].value] + ModelValues(options[1..])
  }

  /** `getAvailableModels()` for the provider `provider`: its model table, in
      declaration order, or nothing for any other name. */
  function GetAvailableModels(provider: string): (r: seq<ModelOption>)
    ensures r == [] <==> provider != "openai" && provider != "anthropic"
    ensures provider == "openai" ==> r == ModelOptions(OpenAIModels) && ModelValues(r) == Keys(OpenAIModels)
    ensures provider == "anthropic" ==> r == ModelOptions(AnthropicModels) && ModelValues(r) == Keys(AnthropicModels)
  {
    if provider == "openai" then ModelOptions(OpenAIModels)
    else if provider == "anthropic" then ModelOptions(AnthropicModels)
    else []
  }

  /** The model selector's entries for each provider, value and label. */
  lemma AvailableModelEntries()
    ensures GetAvailableModels("openai") == [ModelOption("gpt-4o", "GPT-4o"), ModelOption("gpt-4o-mini", "GPT-4o Mini"),
                                             ModelOption("gpt-3.5-turbo", "GPT-3.5 Turbo")]
    ensures GetAvailableModels("anthropic") == [ModelOption("claude-3-5-sonnet-20241022", "Claude 3.5 Sonnet"),
                                                ModelOption("claude-3-haiku-20240307", "Claude 3 Haiku")]
  {
    var o := GetAvailableModels("openai");
    assert o[0] == ModelOption("gpt-4o", "GPT-4o");
    assert o[1] == ModelOption("gpt-4o-mini", "GPT-4o Mini");
    assert o[2] == ModelOption("gpt-3.5-turbo", "GPT-3.5 Turbo");
    var a := GetAvailableModels("anthropic");
    assert a[0] == ModelOption("claude-3-5-sonnet-20241022", "Claude 3.5 Sonnet");
    assert a[1] == ModelOption("claude-3-haiku-20240307", "Claude 3 Haiku");
  }

  /** Every registered provider has models to choose from, and each adapter's
      fallback model is among its provider's choices. */
  lemma RegisteredProvidersHaveModels()
    ensures forall p :: p in Registry.GetLLMProviders() ==> GetAvailableModels(p.name) != []
    ensures OpenAI.DefaultModel in ModelValues(GetAvailableModels(OpenAI.Provider.name))
    ensures Anthropic.DefaultModel in ModelValues(GetAvailableModels(Anthropic.Provider.name))
    ensures DefaultModel in ModelValues(GetAvailableModels(DefaultProvider))
  {
    OpenAIModelKeys();
    AnthropicModelKeys();
    assert Keys(OpenAIModels)[1] == OpenAI.DefaultModel;
    assert Keys(AnthropicModels)[0] == Anthropic.DefaultModel;
  }

  /** The label a provider is listed under. */
  function ProviderLabel(p: LLMProvider, token: Option<string>): (shown: string)
    ensures IsPrefix(p.displayLabel, shown)
    ensures shown == p.displayLabel <==> !(p.authRequired && !Truthy(token))
    ensures shown != p.displayLabel ==> shown[|p.displayLabel|..] == LoginRequiredSuffix
  {
    if p.authRequired && !Truthy(token) then p.displayLabel + LoginRequiredSuffix else p.displayLabel
  }

  /** The provider selector's entries: every provider, in order, under its
      label, marked as needing a login exactly when it requires one and no
      one is logged in. */
  function ProviderOptions(providers: seq<LLMProvider>, token: Option<string>): (r: seq<ProviderOption>)
    ensures |r| == |providers|
    ensures forall i :: 0 <= i < |r| ==>
              && r[i].name == providers[i].name
              && IsPrefix(providers[i].displayLabel, r[i].displayLabel)
              && (r[i].displayLabel == providers[i].displayLabel <==> !(providers[i].authRequired && !Truthy(token)))
              && (r[i].displayLabel != providers[i].displayLabel ==>
                    r[i].displayLabel[|providers[i].displayLabel|..] == LoginRequiredSuffix)
  {
    if providers == [] then []
    else [ProviderOption(providers[0].name, ProviderLabel(providers[0], token))] + ProviderOptions(providers[1..], token)
  }

  /** Logged out, both registered providers are marked; logged in, neither is. */
  lemma ProviderOptionsByLogin(token: Option<string>)
    ensures var r := ProviderOptions(Registry.GetLLMProviders(), token);
            && |r| == 2
            && (Truthy(token) ==> r[0].displayLabel == "OpenAI" && r[1].displayLabel == "Anthropic")
            && (!Truthy(token) ==>
                  r[0].displayLabel == "OpenAI" + LoginRequiredSuffix && r[1].displayLabel == "Anthropic" + LoginRequiredSuffix)
  {
  }

  /** The selected text as previewed above the conversation: at most the
      first hundred characters, followed by an ellipsis when there were more. */
  function SelectedTextPreview(text: string): (r: string)
    ensures |text| <= PreviewLimit ==> r == text
    ensures |text| > PreviewLimit ==> |r| == PreviewLimit + 3 && r[..PreviewLimit] == text[..PreviewLimit]
                                      && r[PreviewLimit..] == "..."
  {
    Slice(text, PreviewLimit) + (if |text| > PreviewLimit then "..." else "")
  }

  // ---------------------------------------------------------------------
  // Provider change

  /** The model `handleProviderChange` selects: the first model offered for
      `provider` when it offers any, otherwise the current one. */
  function FirstModelOr(provider: string, currentModel: string): (m: string)
    ensures GetAvailableModels(provider) == [] ==> m == currentModel
    ensures GetAvailableModels(provider) != [] ==> m in ModelValues(GetAvailableModels(provider))
    ensures provider == "openai" ==> m == "gpt-4o"
    ensures provider == "anthropic" ==> m == "claude-3-5-sonnet-20241022"
  {
    var available := GetAvailableModels(provider);
    if available != [] then
      assert ModelValues(available)[0] == available[0].value;
      available[0].value
    else currentModel
  }

  /** As written, the reset reads the models of the provider selected BEFORE the
      change: switching from OpenAI to Anthropic selects an OpenAI model, and
      back again an Anthropic one. */
  lemma StaleModelReset(currentModel: string)
    ensures FirstModelOr("openai", currentModel) == "gpt-4o"
    ensures !IsAnthropicModel(FirstModelOr("openai", currentModel))
    ensures FirstModelOr("anthropic", currentModel) == "claude-3-5-sonnet-20241022"
    ensures !IsOpenAIModel(FirstModelOr("anthropic", currentModel))
  {
    AnthropicModelKeys();
    OpenAIModelKeys();
  }

  /** With the new provider read, the selected model always belongs to it. */
  lemma IntendedModelReset(newProvider: string, currentModel: string)
    ensures newProvider == "openai" ==> IsOpenAIModel(FirstModelOr(newProvider, currentModel))
    ensures newProvider == "anthropic" ==> IsAnthropicModel(FirstModelOr(newProvider, currentModel))
  {
  }

  function WithProvider(s: Settings, provider: string): (r: Settings)
    ensures r.globalReadSettings.llmProvider == Some(provider)
    ensures r.globalReadSettings.llmModel == s.globalReadSettings.llmModel
    ensures r.globalReadSettings.others == s.globalReadSettings.others && r.others == s.others
  {
    s.(globalReadSettings := s.globalReadSettings.(llmProvider := Some(provider)))
  }

  function WithModel(s: Settings, model: string): (r: Settings)
    ensures r.globalReadSettings.llmModel == Some(model)
    ensures r.globalReadSettings.llmProvider == s.globalReadSettings.llmProvider
    ensures r.globalReadSettings.others == s.globalReadSettings.others && r.others == s.others
  {
    s.(globalReadSettings := s.globalReadSettings.(llmModel := Some(model)))
  }

  // ---------------------------------------------------------------------
  // Sending

  /** The conversation as handed to `createChatMessages`: user turns stay user
      messages, every other turn becomes an assistant message. */
  function ToChatHistory(ms: seq<ChatbotMessage>): (r: seq<ChatMessage>)
    ensures |r| == |ms|
    ensures forall i :: 0 <= i < |ms| ==>
              && r[i].content == ms[i].content
              && r[i].role != System
              && (r[i].role == User <==> ms[i].role == UserTurn)
    ensures CountRole(r, System) == 0
  {
    if ms == [] then []
    else [ChatMessage(if ms[0].role == UserTurn then User else Assistant, ms[0].content)] + ToChatHistory(ms[1..])
  }

  /** The number of turns with role `role`. */
  function CountTurns(ms: seq<ChatbotMessage>, role: TurnRole): (n: nat)
    ensures n <= |ms|
  {
    if ms == [] then 0 else (if ms[0].role == role then 1 else 0) + CountTurns(ms[1..], role)
  }

  lemma {:induction false} ToChatHistoryCountsUsers(ms: seq<ChatbotMessage>)
    ensures CountRole(ToChatHistory(ms), User) == CountTurns(ms, UserTurn)
    ensures CountRole(ToChatHistory(ms), Assistant) == CountTurns(ms, AssistantTurn)
  {
    if ms != [] {
      var r := ToChatHistory(ms);
      assert r[1..] == ToChatHistory(ms[1..]);
      ToChatHistoryCountsUsers(ms[1..]);
    }
  }

  /** What `sendMessage` asks the provider with, for the conversation
      `history` before the new turn and the new turn's text `content`. */
  function SentMessages(bookData: Utils.BookData, view: Utils.View, text: string,
                        history: seq<ChatbotMessage>, content: string): (sent: seq<ChatMessage>)
    ensures |sent| == |history| + 2
    ensures sent[0].role == System && sent[|sent| - 1] == ChatMessage(User, content)
  {
    NonSystemOfSystemFree(ToChatHistory(history));
    Utils.CreateChatMessages(Utils.BookContextOf(bookData, view, text, None), content, ToChatHistory(history))
  }

  /** The sent list is the prompt, then every earlier turn once, in order,
      then the new text once: it is built from the conversation as it was
      before the new turn was appended, so that turn is not sent twice. */
  lemma SentMessagesShape(bookData: Utils.BookData, view: Utils.View, text: string,
                          history: seq<ChatbotMessage>, content: string)
    ensures var sent := SentMessages(bookData, view, text, history, content);
            && sent == [ChatMessage(System, Utils.BuildSystemPrompt(Utils.BookContextOf(bookData, view, text, None)))]
                       + ToChatHistory(history) + [ChatMessage(User, content)]
            && |sent| == |history| + 2
            && CountRole(sent, System) == 1
            && CountRole(sent, User) == CountTurns(history, UserTurn) + 1
  {
    var context := Utils.BookContextOf(bookData, view, text, None);
    var h := ToChatHistory(history);
    var sent := SentMessages(bookData, view, text, history, content);
    NonSystemOfSystemFree(h);
    var prompt := [ChatMessage(System, Utils.BuildSystemPrompt(context))];
    assert sent == prompt + h + [ChatMessage(User, content)];
    CountRoleAppend(prompt, h, User);
    CountRoleAppend(prompt + h, [ChatMessage(User, content)], User);
    ToChatHistoryCountsUsers(history);
  }

  /** The options `sendMessage` passes: the selected model, temperature 0.7
      and at most 1000 tokens. */
  function SendOptions(model: string): (o: LLMOptions)
    // whatever default an adapter has, it sends temperature 0.7 and at most
    // 1000 tokens, and the selected model unless that is empty
    ensures forall d: real :: TemperatureOr(Some(o), d) == SendTemperature
    ensures forall d: int :: MaxTokensOr(Some(o), d) == SendMaxTokens
    ensures forall d: string :: ModelOr(Some(o), d) == (if model != "" then model else d)
  {
    LLMOptions(Some(SendTemperature), Some(SendMaxTokens), Some(model))
  }

  /** How `sendMessage` treats the state it finds. */
  datatype Admission = Skip | Reject(reason: string) | Admit(provider: LLMProvider, content: string)

  /** The guards of `sendMessage`, in order: nothing to send or a reply still
      pending; an unknown provider; a provider that needs a login nobody has. */
  function AdmissionOf(inputMessage: string, loading: bool, provider: string, token: Option<string>): (a: Admission)
    ensures a.Skip? <==> Trim(inputMessage) == "" || loading
    ensures a.Reject? <==> !a.Skip? && (Registry.GetLLMProvider(provider).None?
                                      || (Registry.GetLLMProvider(provider).value.authRequired && !Truthy(token)))
    ensures a.Reject? ==> a.reason == (if Registry.GetLLMProvider(provider).None? then ProviderUnavailable else LoginRequired)
    // every registered provider needs a login, so a chat is only admitted with a token
    ensures a.Admit? ==> && Registry.GetLLMProvider(provider) == Some(a.provider)
                         && Truthy(token)
                         && a.content == Trim(inputMessage) && TrimmedText(a.content)
  {
    var content := Trim(inputMessage);
    if content == "" || loading then Skip
    else
      match Registry.GetLLMProvider(provider)
      case None => Reject(ProviderUnavailable)
      case Some(p) =>
        if p.authRequired && !Truthy(token) then Reject(LoginRequired)
        else Admit(p, content)
  }

  /** What `sendMessage` has started when it gets past its guards: the
      provider to ask, the conversation as it was before the new turn, the
      new turn's text and the options to send with. */
  datatype BeginOutcome =
    | Skipped
    | Rejected
    | Started(provider: LLMProvider, history: seq<ChatbotMessage>, content: string, options: LLMOptions)

  /** Non-empty text with no white space at either end. */
  predicate TrimmedText(s: string) {
    s != "" && !IsWhiteSpace(s[0]) && !IsWhiteSpace(s[|s| - 1])
  }

  /** Such text is exactly what `trim()` leaves: trimming it changes nothing. */
  lemma TrimmedTextIsFixed(s: string)
    requires TrimmedText(s)
    ensures Trim(s) == s
  {
    assert TrimEnd(s) == s;
    assert TrimStart(s) == s;
  }

  /** The conversation invariant: while a reply is pending the newest turn is
      the user's, and every user turn holds trimmed, non-empty text. */
  predicate ValidConversation(ms: seq<ChatbotMessage>, loading: bool) {
    && (loading ==> ms != [] && ms[|ms| - 1].role == UserTurn)
    && forall i :: 0 <= i < |ms| && ms[i].role == UserTurn ==> TrimmedText(ms[i].content)
  }

  /** Appending a user turn with trimmed text leaves a reply pending on a valid conversation. */
  lemma UserTurnKeepsValid(ms: seq<ChatbotMessage>, turn: ChatbotMessage)
    requires ValidConversation(ms, false)
    requires turn.role == UserTurn && TrimmedText(turn.content)
    ensures ValidConversation(ms + [turn], true)
  {
    var ms' := ms + [turn];
    forall i | 0 <= i < |ms'| && ms'[i].role == UserTurn
      ensures TrimmedText(ms'[i].content)
    {
      if i < |ms| {
        assert ms'[i] == ms[i];
      }
    }
  }

  /** Appending an assistant turn keeps a conversation valid with no reply pending. */
  lemma AssistantTurnKeepsValid(ms: seq<ChatbotMessage>, loading: bool, turn: ChatbotMessage)
    requires ValidConversation(ms, loading)
    requires turn.role == AssistantTurn
    ensures ValidConversation(ms + [turn], false)
  {
    var ms' := ms + [turn];
    forall i | 0 <= i < |ms'| && ms'[i].role == UserTurn
      ensures TrimmedText(ms'[i].content)
    {
      assert i < |ms| && ms'[i] == ms[i];
    }
  }

  /** The user's turn: its id is the clock, in decimal, and so is its timestamp. */
  function UserTurnAt(now: nat, content: string): (m: ChatbotMessage)
    ensures m.role == UserTurn && m.content == content && m.timestamp == now
    ensures IsDigits(m.id) && ParseDecimal(m.id) == m.timestamp
  {
    ParseNatToString(now);
    ChatbotMessage(NatToString(now), UserTurn, content, now)
  }

  /** The assistant's turn: its id is the clock plus one, so that it differs
      from the id of a user turn taken at the same instant. */
  function AssistantTurnAt(now: nat, content: string): (m: ChatbotMessage)
    ensures m.id != UserTurnAt(now, content).id
    ensures m.role == AssistantTurn && m.content == content && m.timestamp == now
    ensures IsDigits(m.id) && ParseDecimal(m.id) == m.timestamp + 1
  {
    var m := ChatbotMessage(NatToString(now + 1), AssistantTurn, content, now);
    ParseNatToString(now + 1);
    ParseNatToString(now);
    m
  }

  // ---------------------------------------------------------------------
  // The popup

  class ChatbotPopup {
    const text: string
    const bookData: Utils.BookData
    const view: Utils.View
    const token: Option<string>

    var messages: seq<ChatbotMessage>
    var inputMessage: string
    var loading: bool
    var error: Option<string>
    var provider: string
    var model: string
    var settings: Settings

    ghost predicate Valid()
      reads this
    {
      ValidConversation(messages, loading)
    }

    /** The selected model is one the selected provider offers. */
    ghost predicate ModelMatchesProvider()
      reads this
    {
      GetAvailableModels(provider) != [] ==> model in ModelValues(GetAvailableModels(provider))
    }

    /** The popup as it opens: an empty conversation, and the provider and
        model saved in the settings, or OpenAI's GPT-4o Mini. */
    constructor (text: string, bookData: Utils.BookData, view: Utils.View, token: Option<string>, settings: Settings)
      ensures Valid()
      ensures this.text == text && this.bookData == bookData && this.view == view && this.token == token
      ensures messages == [] && inputMessage == "" && !loading && error == None
      ensures provider == OrElse(settings.globalReadSettings.llmProvider, DefaultProvider)
      ensures model == OrElse(settings.globalReadSettings.llmModel, DefaultModel)
      ensures this.settings == settings
    {
      this.text := text;
      this.bookData := bookData;
      this.view := view;
      this.token := token;
      messages := [];
      inputMessage := "";
      loading := false;
      error := None;
      provider := OrElse(settings.globalReadSettings.llmProvider, DefaultProvider);
      model := OrElse(settings.globalReadSettings.llmModel, DefaultModel);
      this.settings := settings;
    }

    /** Typing into the input, which is disabled while a reply is pending. */
    method SetInputMessage(value: string)
      requires Valid()
      modifies this
      ensures Valid()
      ensures inputMessage == (if old(loading) then old(inputMessage) else value)
      ensures messages == old(messages) && loading == old(loading) && error == old(error)
      ensures provider == old(provider) && model == old(model) && settings == old(settings)
    {
      if !loading {
        inputMessage := value;
      }
    }

    /** `sendMessage` up to the call to the provider: the guards, then the
        user turn appended, the input cleared, loading set and the error
        cleared. A rejected send records its reason and changes nothing else. */
    method Begin(now: nat) returns (outcome: BeginOutcome)
      requires Valid()
      modifies this
      ensures Valid()
      ensures provider == old(provider) && model == old(model) && settings == old(settings)
      ensures var a := AdmissionOf(old(inputMessage), old(loading), old(provider), token);
              if a.Skip? then
                && outcome == Skipped
                && messages == old(messages) && inputMessage == old(inputMessage)
                && loading == old(loading) && error == old(error)
              else if a.Reject? then
                && outcome == Rejected
                && messages == old(messages) && inputMessage == old(inputMessage)
                && loading == old(loading) && error == Some(a.reason)
              else
                && outcome == Started(a.provider, old(messages), a.content, SendOptions(old(model)))
                && messages == old(messages) + [UserTurnAt(now, a.content)]
                && inputMessage == "" && loading && error == None
    {
      var a := AdmissionOf(inputMessage, loading, provider, token);
      if a.Skip? {
        return Skipped;
      }
      if a.Reject? {
        error := Some(a.reason);
        return Rejected;
      }
      UserTurnKeepsValid(messages, UserTurnAt(now, a.content));
      outcome := Started(a.provider, messages, a.content, SendOptions(model));
      messages := messages + [UserTurnAt(now, a.content)];
      inputMessage := "";
      loading := true;
      error := None;
    }

    /** `sendMessage` after the provider has answered: a reply is appended as
        the assistant's turn, a failure becomes the error; loading ends
        either way. */
    method Complete(reply: Result<string, string>, now: nat)
      requires Valid()
      modifies this
      ensures Valid()
      ensures !loading
      ensures inputMessage == old(inputMessage) && provider == old(provider)
      ensures model == old(model) && settings == old(settings)
      ensures reply.Success? ==> messages == old(messages) + [AssistantTurnAt(now, reply.value)] && error == old(error)
      ensures reply.Failure? ==> messages == old(messages) && error == Some(reply.error)
    {
      if reply.Success? {
        AssistantTurnKeepsValid(messages, loading, AssistantTurnAt(now, reply.value));
      }
      match reply {
        case Success(response) =>
          messages := messages + [AssistantTurnAt(now, response)];
        case Failure(message) =>
          error := Some(message);
      }
      loading := false;
    }

    /** `handleProviderChange` as written: the model is reset from the models
        of the provider selected before the change. */
    method HandleProviderChange(newProvider: string)
      requires Valid()
      modifies this
      ensures Valid()
      ensures provider == newProvider
      ensures model == FirstModelOr(old(provider), old(model))
      ensures settings == WithProvider(old(settings), newProvider)
      ensures messages == old(messages) && inputMessage == old(inputMessage)
      ensures loading == old(loading) && error == old(error)
    {
      var available := GetAvailableModels(provider);
      provider := newProvider;
      if available != [] {
        model := available[0].value;
      }
      settings := WithProvider(settings, newProvider);
    }

    /** `handleProviderChange` resetting from the new provider's models, which
        keeps the selected model one the selected provider offers. */
    method HandleProviderChangeIntended(newProvider: string)
      requires Valid()
      modifies this
      ensures Valid() && ModelMatchesProvider()
      ensures provider == newProvider
      ensures model == FirstModelOr(newProvider, old(model))
      ensures settings == WithProvider(old(settings), newProvider)
      ensures messages == old(messages) && inputMessage == old(inputMessage)
      ensures loading == old(loading) && error == old(error)
    {
      var available := GetAvailableModels(newProvider);
      provider := newProvider;
      if available != [] {
        model := available[0].value;
      }
      settings := WithProvider(settings, newProvider);
    }

    /** `handleModelChange`: selects the model and saves it in the settings. */
    method HandleModelChange(newModel: string)
      requires Valid()
      modifies this
      ensures Valid()
      ensures model == newModel && settings == WithModel(old(settings), newModel)
      ensures provider == old(provider) && messages == old(messages) && inputMessage == old(inputMessage)
      ensures loading == old(loading) && error == old(error)
    {
      model := newModel;
      settings := WithModel(settings, newModel);
    }
  }
}
