# Readest AI Assistant: a Dafny model of the chat core

Readest's reader has an "AI Assistant" popup. A user selects text, asks a
question, and the popup sends the question to a large-language-model provider
(OpenAI or Anthropic) together with a system prompt describing the book. This
project models that chat core and proves properties of the model:

- **Context and prompt** (`utils.dfy`, module `Utils`):
  - `buildBookContext` fills in the book context, with defaults, the page text
    from the view, a 2000-character cut and the override;
  - `buildSystemPrompt` renders the prompt template with its optional sections;
  - `createChatMessages` builds the message list: one fresh system message,
    the history without system entries, then the new user message.
- **Provider adapters** (`openai.dfy`, `anthropic.dfy`). Each provider's
  `chat` is two pure functions around an abstract HTTP exchange (`http.dfy`):
  - building the request: the token guard, the `||` defaults, the headers and
    the body. For Anthropic this includes moving the first system message into
    its own `system` field;
  - interpreting the reply: an ok body, a non-ok status, or a transport
    failure, turned into the answer or the exact error text.
- **Registry and model table** (`registry.dfy`, `types.dfy`):
  - the two-entry provider record, its ordered listing and lookup by name;
  - each provider's ordered model table.
- **The popup** (`chatbot_popup.dfy`, module `Popup`). A class with the
  component's state: `messages`, `inputMessage`, `loading`, `error`,
  `provider`, `model` and `settings`. Its methods:
  - `sendMessage`, as `Begin` (the guards, appending the user turn, clearing
    the input, `loading` set) and `Complete` (appending the assistant turn or
    recording the error, then `loading` cleared);
  - `handleProviderChange` and `handleModelChange`;
  - the pure helpers for the model list, the provider labels and the preview
    of the selected text.

Shared JavaScript semantics are written out in `text.dfy`:
- truthiness of an optional string, and `||` defaults, where a number is also
  falsy when it is 0;
- `slice(0, n)`;
- `trim()` with ECMAScript's white-space set;
- the decimal rendering of a number inside a template literal.

`wrappers.dfy` holds `Option` and `Result`.

What is abstracted:
- `fetch`, JSON parsing and the transport are a reply value
  `Ok(body) | NotOk(status, statusText, errorBody) | NetworkError(reason)`. A
  transport failure's message is passed through unchanged.
- The reading view is `NoView | Throws | Contents(texts)`. Each entry of
  `texts` is the body text of one content document, or `None`.
- `Date.now()` is a `now` parameter of the methods that read it.
- The temperature 0.7 is an opaque `real` constant.

Two behaviours of the code worth noting:
- `selectedText` is stored on the context unchanged, with no 2000-character
  cut (utils.ts:15).
- When the provider is unknown or a login is missing, `sendMessage` records the
  error before appending anything (ChatbotPopup.tsx:118-127). No user turn is
  appended and the input is kept.

## Model

Source paths are relative to the repository root.

| member | source | states |
|---|---|---|
| Text.Slice | apps/readest-app/src/services/llm/utils.ts:31 | `s.slice(0, n)` has length min(\|s\|, n) and is a prefix of `s`. |
| Text.TrimStart | apps/readest-app/src/app/reader/components/annotator/ChatbotPopup.tsx:116 | The result is a suffix of the input. What was removed is all white space, and the result does not start with white space. |
| Text.TrimEnd | apps/readest-app/src/app/reader/components/annotator/ChatbotPopup.tsx:116 | Symmetric to TrimStart, at the end of the string. |
| Text.Trim | apps/readest-app/src/app/reader/components/annotator/ChatbotPopup.tsx:116 | `trim()` removes exactly the leading and trailing white space. The result is empty iff the input is all white space. |
| Text.TrimIdempotent | apps/readest-app/src/app/reader/components/annotator/ChatbotPopup.tsx:132 | Trimming an already trimmed text changes nothing. |
| Text.NatToString | apps/readest-app/src/services/llm/providers/openai.ts:37 | `${n}` is a non-empty string of decimal digits with no leading zero. |
| Text.ParseNatToString | apps/readest-app/src/services/llm/providers/openai.ts:37 | Reading the rendered digits back gives the number again (round trip). |
| Text.NatToStringInjective | apps/readest-app/src/app/reader/components/annotator/ChatbotPopup.tsx:159 | Distinct clock values give distinct ids. |
| Types.Keys | apps/readest-app/src/services/llm/types.ts:40-50 | The keys of a model table, index by index, in declaration order. |
| Types.OpenAIModelKeys | apps/readest-app/src/services/llm/types.ts:41-45 | The OpenAI keys, in order: gpt-4o, gpt-4o-mini, gpt-3.5-turbo. |
| Types.AnthropicModelKeys | apps/readest-app/src/services/llm/types.ts:46-49 | The Anthropic keys, in order: claude-3-5-sonnet-20241022, claude-3-haiku-20240307. |
| Types.ModelKeySetsDisjoint | apps/readest-app/src/services/llm/types.ts:52-54 | No key is both an OpenAI and an Anthropic model. `LLMModel` is the union of the two key lists. |
| Types.CountRole | apps/readest-app/src/services/llm/utils.ts:76 | The count of messages with a role is at most the length, and is 0 iff no message has that role. |
| Types.CountRoleAppend | apps/readest-app/src/services/llm/utils.ts:74-78 | Counting over a concatenation adds the counts. |
| Types.NonSystem | apps/readest-app/src/services/llm/utils.ts:76 | `filter(m => m.role !== 'system')`: drops exactly the system messages. The result has no system message, and its length is the input length minus their count. |
| Types.NonSystemAppend | apps/readest-app/src/services/llm/utils.ts:76 | The filter distributes over concatenation, so order is kept. |
| Types.NonSystemOfSystemFree | apps/readest-app/src/services/llm/utils.ts:76 | The filter leaves a list without system messages unchanged. |
| Types.FirstSystemContent | apps/readest-app/src/services/llm/providers/anthropic.ts:21 | `find(m => m.role === 'system')?.content`: absent iff there is no system message, otherwise the content of the first one. |
| Types.ModelOr | apps/readest-app/src/services/llm/providers/openai.ts:16 | `options?.model \|\| default`: the caller's model when present and non-empty, the default otherwise; never empty with a non-empty default. |
| Types.TemperatureOr | apps/readest-app/src/services/llm/providers/openai.ts:17 | `options?.temperature \|\| default`: the caller's temperature or the default, with 0 replaced by the default; never 0 with a non-zero default. |
| Types.MaxTokensOr | apps/readest-app/src/services/llm/providers/anthropic.ts:18 | `options?.maxTokens \|\| default`: the caller's bound or the default, with 0 replaced by the default; never 0 with a non-zero default. |
| Http.ApiErrorMessage | apps/readest-app/src/services/llm/providers/openai.ts:35-38 | `<vendor> API error: <status> <statusText>`, followed by ` - <message>` exactly when the error body parsed and carried a non-empty message. |
| Http.StatusRecoverable | apps/readest-app/src/services/llm/providers/openai.ts:37 | The status code sits at a fixed offset in the error text and reads back as the status. |
| Utils.ViewPageText | apps/readest-app/src/services/llm/utils.ts:20-34 | The view yields page text iff it has contents whose first entry has non-empty body text. |
| Utils.BookContextOf | apps/readest-app/src/services/llm/utils.ts:5-46 | Title, author and language default to "Unknown Title", "Unknown Author" and "en", so language is always set. `selectedText` is kept unchanged and there is no chapter. A non-empty override decides the page context, which is then at most 2000 characters and a prefix of the override. Otherwise the view's text decides it in the same way. The page context is absent iff there is neither. |
| Utils.BuildBookContext | apps/readest-app/src/services/llm/utils.ts:5-46 | The step-by-step construction returns exactly BookContextOf. A view that throws leaves the page context unset, and construction never fails. |
| Utils.BuildSystemPrompt | apps/readest-app/src/services/llm/utils.ts:48-65 | The prompt's length is the template's fixed text plus the title, author and selected text once each, plus the Language line and the page section, each of which adds nothing exactly when its field is empty or absent. |
| Utils.PromptFrame | apps/readest-app/src/services/llm/utils.ts:51-62 | The prompt opens with the fixed preamble and the quoted title, and ends with the fixed closing paragraph. |
| Utils.LanguageLineIffLanguage | apps/readest-app/src/services/llm/utils.ts:56 | The language line is emitted iff the language is non-empty. With it, the prompt is the prompt without it with the line inserted after the author line. |
| Utils.PageSectionIffPageContext | apps/readest-app/src/services/llm/utils.ts:60 | The "Current Page Context" section is emitted iff the page context is non-empty, inserted after the selected text. |
| Utils.PromptQuotesFields | apps/readest-app/src/services/llm/utils.ts:54-58 | The title, the author and the selected text occur in double quotes at their fixed positions in the prompt. |
| Utils.CreateChatMessages | apps/readest-app/src/services/llm/utils.ts:67-81 | The first message is the system prompt and the last is the user message. Between them is the history with system entries removed, in order. The length is 2 plus the number of non-system history entries, and there is exactly one system message. |
| Utils.AfterPrompt | apps/readest-app/src/services/llm/utils.ts:74-78 | Everything after the prompt is the filtered history followed by the new user message. |
| Utils.ReassemblyDropsOldPrompt | apps/readest-app/src/services/llm/utils.ts:67-81 | Re-assembling an already assembled list replaces the old prompt with the new one and keeps every other message once, in order. |
| OpenAI.BuildRequest | apps/readest-app/src/services/llm/providers/openai.ts:12-33 | Fails with "OpenAI API key is required" iff the token is falsy. Otherwise it POSTs to the completions endpoint with a Bearer header. The messages go out unchanged, and model, temperature and max_tokens default to gpt-4o-mini, 0.7 and 1000, where 0 also counts as falsy. |
| OpenAI.InterpretResponse | apps/readest-app/src/services/llm/providers/openai.ts:35-46 | A transport error passes through. A non-ok reply gives the API error text, except that an error body of JSON `null` gives the TypeError thrown when `.error` is read on it. An ok reply without choices gives "No response from OpenAI". Otherwise the result is the first choice's content, or "No response generated" when that is empty. An answer is never empty. |
| OpenAI.Chat | apps/readest-app/src/services/llm/providers/openai.ts:7-51 | Without a token nothing is sent. With one, the result is the interpreted reply to the built request. |
| OpenAI.RateLimitedReply | apps/readest-app/src/services/llm/providers/openai.ts:37 | A 429 with message "rate limited" gives "OpenAI API error: 429 Too Many Requests - rate limited". |
| OpenAI.UnparsableErrorBody | apps/readest-app/src/services/llm/providers/openai.ts:36-37 | An unparsable error body gives the status line alone. |
| Anthropic.BuildRequest | apps/readest-app/src/services/llm/providers/anthropic.ts:12-39 | Fails with "Anthropic API key is required" iff the token is falsy. Otherwise it sends the headers x-api-key = token and anthropic-version 2023-06-01, and the defaults claude-3-5-sonnet-20241022, 0.7 and 1000. `system` is absent iff there is no system message, otherwise it is the first one's content. `messages` is the non-system messages in order. |
| Anthropic.InterpretResponse | apps/readest-app/src/services/llm/providers/anthropic.ts:41-52 | As for OpenAI (a `null` error body included), with the "Anthropic API error:" prefix and "No response from Anthropic". An empty first text gives "No response generated". |
| Anthropic.Chat | apps/readest-app/src/services/llm/providers/anthropic.ts:7-57 | Without a token nothing is sent. With one, the result is the interpreted reply to the built request. |
| Anthropic.SplitOfLeadingSystem | apps/readest-app/src/services/llm/providers/anthropic.ts:21-22 | For a list whose only system message is at its head, `find` returns that head and `filter` returns the rest. |
| Anthropic.RequestOfLeadingSystem | apps/readest-app/src/services/llm/providers/anthropic.ts:36-37 | Such a list is sent as its head's content in `system` and the rest in `messages`. |
| Anthropic.AssembledChatSplit | apps/readest-app/src/services/llm/providers/anthropic.ts:21-37 | For assembled messages, the prompt is sent once as `system`. The filtered history and the new user message are each sent once, in order, and `messages` holds no system entry. |
| Anthropic.EmptyContentReply | apps/readest-app/src/services/llm/providers/anthropic.ts:48-50 | An ok reply with an empty content array is an error, not an empty answer. |
| Registry.GetLLMProviders | apps/readest-app/src/services/llm/index.ts:12-14 | Exactly two providers, openai then anthropic. Each is the record entry under its own name, and every entry is listed. |
| Registry.GetLLMProvider | apps/readest-app/src/services/llm/index.ts:16-18 | Found iff the name is "openai" or "anthropic", and the provider found carries that name. Any other name gives null. |
| Registry.LookupByName | apps/readest-app/src/services/llm/index.ts:7-10 | "openai" and "anthropic" resolve to the two adapters, and both require a login. |
| Registry.ListedProviderFoundByName | apps/readest-app/src/services/llm/index.ts:7-18 | Every listed provider is found by looking up its own `name`. |
| Registry.Chat | apps/readest-app/src/services/llm/types.ts:5-9 | `provider.chat` dispatches to that provider's adapter. Without a token it always fails, and an answer is never empty. |
| Popup.ModelOptions | apps/readest-app/src/app/reader/components/annotator/ChatbotPopup.tsx:80 | `Object.entries(table).map(([key, label]) => ({value: key, label}))`, entry by entry. |
| Popup.GetAvailableModels | apps/readest-app/src/app/reader/components/annotator/ChatbotPopup.tsx:78-85 | The entries of the openai or the anthropic table, value and label, in declaration order; empty iff the provider is neither. |
| Popup.AvailableModelEntries | apps/readest-app/src/app/reader/components/annotator/ChatbotPopup.tsx:78-85 | The selector offers GPT-4o, GPT-4o Mini and GPT-3.5 Turbo for openai, and Claude 3.5 Sonnet and Claude 3 Haiku for anthropic, each with its key as value. |
| Popup.RegisteredProvidersHaveModels | apps/readest-app/src/app/reader/components/annotator/ChatbotPopup.tsx:78-85 | Every registered provider offers models. Each adapter's fallback model, and the popup's initial gpt-4o-mini, is among its provider's choices. |
| Popup.ProviderLabel | apps/readest-app/src/app/reader/components/annotator/ChatbotPopup.tsx:60-63 | The provider's label, extended by exactly " (Login Required)" when the provider requires a login and there is no token, and unchanged otherwise. |
| Popup.ProviderOptions | apps/readest-app/src/app/reader/components/annotator/ChatbotPopup.tsx:59-65 | One entry per provider, in order, under its own name. The label gains " (Login Required)" iff the provider requires a login and the token is falsy, and is otherwise unchanged. |
| Popup.ProviderOptionsByLogin | apps/readest-app/src/app/reader/components/annotator/ChatbotPopup.tsx:58-67 | Logged in, the labels are "OpenAI" and "Anthropic". Logged out, both carry the suffix. |
| Popup.SelectedTextPreview | apps/readest-app/src/app/reader/components/annotator/ChatbotPopup.tsx:217 | Text of at most 100 characters is shown whole. Longer text shows its first 100 characters followed by "...". |
| Popup.FirstModelOr | apps/readest-app/src/app/reader/components/annotator/ChatbotPopup.tsx:90-93 | The first model the given provider offers (gpt-4o, or claude-3-5-sonnet-20241022), or the current model when the provider offers none. |
| Popup.StaleModelReset | apps/readest-app/src/app/reader/components/annotator/ChatbotPopup.tsx:87-93 | Read with the provider selected before the change, the reset moves openai→anthropic to gpt-4o, which is not an Anthropic model, and anthropic→openai to a model that is not an OpenAI one. |
| Popup.IntendedModelReset | apps/readest-app/src/app/reader/components/annotator/ChatbotPopup.tsx:89-93 | Read with the new provider, the reset always selects a model of that provider. |
| Popup.WithProvider | apps/readest-app/src/app/reader/components/annotator/ChatbotPopup.tsx:95-101 | The saved settings change `llmProvider` and nothing else. |
| Popup.WithModel | apps/readest-app/src/app/reader/components/annotator/ChatbotPopup.tsx:106-112 | The saved settings change `llmModel` and nothing else. |
| Popup.ToChatHistory | apps/readest-app/src/app/reader/components/annotator/ChatbotPopup.tsx:149 | Turn by turn, same content. User turns stay user messages, others become assistant messages, and none is a system message. |
| Popup.ToChatHistoryCountsUsers | apps/readest-app/src/app/reader/components/annotator/ChatbotPopup.tsx:149 | Roles are preserved in number: as many user and assistant messages as user and assistant turns. |
| Popup.SentMessages | apps/readest-app/src/app/reader/components/annotator/ChatbotPopup.tsx:143-150 | The sent list has two entries more than the conversation: it opens with a system message and ends with the new text as a user message. |
| Popup.SentMessagesShape | apps/readest-app/src/app/reader/components/annotator/ChatbotPopup.tsx:143-150 | The sent list is the prompt, then the earlier turns once each, in order, then the new text once. It has \|history\| + 2 entries, one system message, and one more user message than the history has user turns. |
| Popup.SendOptions | apps/readest-app/src/app/reader/components/annotator/ChatbotPopup.tsx:152-156 | Whatever defaults an adapter has, it sends temperature 0.7, at most 1000 tokens, and the selected model unless that is empty. |
| Popup.AdmissionOf | apps/readest-app/src/app/reader/components/annotator/ChatbotPopup.tsx:116-127 | Skipped iff the trimmed input is empty or a reply is pending. Otherwise rejected iff the provider is unknown ("Selected LLM provider not available") or needs a login and the token is falsy ("Please log in to use the chatbot"). When admitted, the token is truthy and the content is the trimmed, non-empty input. |
| Popup.TrimmedTextIsFixed | apps/readest-app/src/app/reader/components/annotator/ChatbotPopup.tsx:132 | Text with no white space at either end is left unchanged by `trim()`. |
| Popup.UserTurnKeepsValid | apps/readest-app/src/app/reader/components/annotator/ChatbotPopup.tsx:129-138 | Appending a trimmed user turn keeps the conversation invariant, with a reply now pending. |
| Popup.AssistantTurnKeepsValid | apps/readest-app/src/app/reader/components/annotator/ChatbotPopup.tsx:158-170 | Appending an assistant turn keeps the conversation invariant, with no reply pending. |
| Popup.UserTurnAt | apps/readest-app/src/app/reader/components/annotator/ChatbotPopup.tsx:129-134 | The user turn holds the text as given, with the clock as timestamp and the clock in decimal as id. |
| Popup.AssistantTurnAt | apps/readest-app/src/app/reader/components/annotator/ChatbotPopup.tsx:158-163 | The assistant turn's id is the clock plus one in decimal, so it differs from a user turn's id taken at the same instant. |
| Popup.ChatbotPopup.constructor | apps/readest-app/src/app/reader/components/annotator/ChatbotPopup.tsx:45-50 | The popup opens with an empty conversation, no error and nothing pending. The provider and model are the saved ones, or openai and gpt-4o-mini. |
| Popup.ChatbotPopup.SetInputMessage | apps/readest-app/src/app/reader/components/annotator/ChatbotPopup.tsx:261-266 | Typing replaces the input unless a reply is pending, because the input is disabled then. Nothing else changes. |
| Popup.ChatbotPopup.Begin | apps/readest-app/src/app/reader/components/annotator/ChatbotPopup.tsx:115-156 | Skipped, it changes nothing. Rejected, it sets only the error: no turn is appended and the input and `loading` are kept. Admitted, it appends one user turn with the trimmed text, clears the input, sets `loading` and clears the error. It returns the provider, the options {model, 0.7, 1000} and the conversation as it was before the append, from which the sent list is built. |
| Popup.ChatbotPopup.Complete | apps/readest-app/src/app/reader/components/annotator/ChatbotPopup.tsx:158-171 | A reply appends one assistant turn with that content. A failure sets the error to its message and keeps the user turn. `loading` ends either way. |
| Popup.ChatbotPopup.HandleProviderChange | apps/readest-app/src/app/reader/components/annotator/ChatbotPopup.tsx:87-102 | Sets the provider and saves only `llmProvider`. As written, the model is reset from the models of the provider selected before the change. |
| Popup.ChatbotPopup.HandleProviderChangeIntended | apps/readest-app/src/app/reader/components/annotator/ChatbotPopup.tsx:87-102 | The same, resetting from the new provider's models, so that the selected model is one the new provider offers. |
| Popup.ChatbotPopup.HandleModelChange | apps/readest-app/src/app/reader/components/annotator/ChatbotPopup.tsx:104-113 | Sets the model and saves only `llmModel`. The provider, the conversation, the input and `loading` are untouched. |

The `Valid()` invariant of `Popup.ChatbotPopup` holds for every method.
While a reply is pending, the newest turn is the user's. Every user turn holds
trimmed, non-empty text.

## Left out

- Rendering: JSX, the `Popup` and `Select` components, scrolling, focus and key handling. `_()` translation is taken as the identity.
- `fetch`, JSON parsing and the transport are abstracted as a reply value. An ok body that is not JSON, an ok body of JSON `null`, and an ok body whose `choices[0].message` (or `content[0]`) is missing, would throw inside `chat`; the model folds both into `NetworkError`, whose message passes through.
- Popup.ChatbotPopup.Begin: between this call and `Complete`, the provider runs behind the `await`. The model does not compose the two halves with the provider call into one method. Any other event, such as a provider or model change, may run in between, as it can in the component. The list that is sent is `Popup.SentMessages` of the returned history and text; `Popup.SentMessagesShape` proves its shape.
- Popup.ChatbotPopup.Begin: reads the clock once for both the user turn's id and its timestamp. The source reads `Date.now()` twice (lines 130 and 133).
- Popup.ChatbotPopup.Complete: reads the clock once for the assistant turn. The source reads it twice (lines 159 and 162).
- The `'Failed to send message'` fallback (ChatbotPopup.tsx:168) is not modelled: every failure of `chat` here is an `Error` with a message.
- React scheduling: state batching, closures read across renders (apart from the stale provider in `handleProviderChange`) and writes after the popup unmounts.
- The page text is read from a view value. Reading it from `view.renderer.getContents()` and `doc.body.textContent` is not modelled, and a view without a book counts as `NoView`.
- Text.Slice: counts Unicode characters, where JavaScript counts UTF-16 code units. The two differ only for text outside the Basic Multilingual Plane.
- Temperature is an opaque `real`. NaN, and floating point in general, are not modelled.
- `LLM_PROVIDERS[name] || null` also finds inherited object keys such as `"constructor"`; the registry here is a two-entry map.
- `console.error`/`console.warn`, the settings store itself (only the new settings value is recorded), and the unused `ChatSession` type.

## Findings

| source | as written | input that shows it | evidently intended | confidence | as-written member | corrected member |
|---|---|---|---|---|---|---|
| apps/readest-app/src/app/reader/components/annotator/ChatbotPopup.tsx:88-92 | `getAvailableModels()` reads `provider`, which still holds the value before `setProvider(newProvider)` takes effect, so the reset picks the first model of the old provider | provider "openai" changed to "anthropic": the model becomes "gpt-4o", which Anthropic does not offer | reset to the first model of the new provider | not executed; follows from React state being read from the current render | Popup.ChatbotPopup.HandleProviderChange (exhibited by Popup.StaleModelReset) | Popup.ChatbotPopup.HandleProviderChangeIntended (with Popup.IntendedModelReset) |
