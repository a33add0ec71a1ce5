# Conversation summary pipeline (bolt.diy `createSummary`)

This project models the decision logic of bolt.diy's conversation-summary step,
`app/lib/.server/llm/create-summary.ts`, in Dafny, and proves properties of it.
The step does six things:

- It rewrites the chat history message by message. User turns feed a running
  "current model / current provider" override, and the last non-empty directive
  wins. Assistant turns have their action markup simplified and their reasoning
  blocks removed. Other turns pass through unchanged.
- It resolves the provider. An unknown provider name falls back to the default
  provider.
- It resolves the model through a chain of fallbacks:
  - a hit in the provider's static list wins;
  - otherwise the provider's declared models and the dynamically listed models
    are combined; an empty combined list is an error, an exact match is used,
    and failing both the first combined entry is used with a warning.
- It cuts the history after the message the previous `chatSummary` checkpoint
  is anchored to.
- It sends the remaining messages, as role and plain text, to the model.
- It reports every failure as the single error `Summary generation failed`.

Modules, one per concern:

| file | module | what it holds |
|---|---|---|
| `wrappers.dfy` | `Wrappers` | `Option` and `Result` |
| `find.dfy` | `Find` | `FindFirst`, the `find`/`findIndex` of JavaScript arrays |
| `sanitize.dfy` | `LogSanitizer` | `sanitizeLogInput`; removal of `\r`, `\n` and `\t` |
| `markup.dfy` | `Markup` | global non-greedy dot-all span removal; the two reasoning-block passes |
| `messages.dfy` | `Messages` | messages and content parts; `extractTextContent`; `findMessageIndex` |
| `models.dfy` | `ModelResolution` | providers, models, the provider lookup and the model fallback chain |
| `summary.dfy` | `Summary` | the per-message loop, checkpoint slicing, the prompt and `createSummary` itself |

The pure helpers are functions with lemmas. `createSummary` keeps its
imperative form:

- The `map` callback that updates `currentModel` and `currentProvider` is the
  method `ProcessMessages`. It is a loop proved against the specification
  functions `Processed` and `LastSetting`.
- The reassignment chain of `modelDetails` is the method `ResolveModelDetails`.
  It is proved against the function `ResolveModel`.
- The conditional overwrites of `slicedMessages` and `chatId` are the method
  `SliceAtCheckpoint`. It is proved against `CheckpointSlice`.

Code the step calls but does not define is a parameter of the model. These are
the `./utils` helpers `extractPropertiesFromMessage`, `simplifyBoltActions` and
`extractCurrentContext`, the manager's static and dynamic model lists, and the
model instantiation plus text generation. All of them are fields of the
`Collaborators` datatype. Every one of them except `simplifyBoltActions`
returns an `Option`, and a `None` stands for that call throwing. The request
handed to generation carries the resolved provider itself, not only its name.

A message carries its id, role and content, plus an opaque `rest` holding every
other field (annotations, creation time and so on). The transform copies `rest`
along unchanged. The context reader is applied to the processed messages, so it
sees `rest` too.

Two places where the code does something other than what a reader might expect.
The model follows the code in both:

- The `chatId` returned next to the summary is the previous checkpoint's own
  `chatId`, as the annotation carries it. Control characters are not removed.
  It is returned whenever the annotation is a `chatSummary`, even when the id
  matched no message, and is absent only when the annotation carries none. It
  is not the id of the newest message.
- Removing reasoning blocks is not idempotent. The removal does one left-to-right
  pass per marker pair, and deleting an inner block can join two fragments into a
  new block. `Markup.StripThoughtsNotIdempotent` proves this on a concrete
  message.

## Model

| member | source | states |
|---|---|---|
| Find.FindFirst | app/lib/.server/llm/create-summary.ts:82 | the index returned is the least one whose element satisfies the predicate; `None` exactly when no element does (the same function also stands for the `find` calls at lines 63, 122, 124 and 140) |
| LogSanitizer.ReplaceControl | app/lib/.server/llm/create-summary.ts:58 | each `\r`, `\n`, `\t` becomes one space and every other character is kept, so the length is unchanged and no control character remains |
| LogSanitizer.SanitizeLogInput | app/lib/.server/llm/create-summary.ts:57-59 | the result has length exactly min(\|input\|, 100), holds no `\r`, `\n` or `\t`, and agrees position by position with the input except that control characters became spaces |
| LogSanitizer.SanitizeLogInputIdempotent | app/lib/.server/llm/create-summary.ts:57-59 | sanitising an already sanitised string changes nothing |
| LogSanitizer.StripControl | app/lib/.server/llm/create-summary.ts:80 | removal leaves no control character, never lengthens, and leaves clean strings unchanged |
| LogSanitizer.StripControlMembers | app/lib/.server/llm/create-summary.ts:80 | a character occurs in the result exactly when it occurs in the input and is not a control character |
| LogSanitizer.StripControlCounts | app/lib/.server/llm/create-summary.ts:80 | every non-control character is kept exactly as many times as it occurs in the input, and no control character is kept |
| LogSanitizer.StripControlAppend | app/lib/.server/llm/create-summary.ts:80 | removal distributes over concatenation, so it acts character by character and keeps the order of what it keeps |
| LogSanitizer.StripControlIdentityIff | app/lib/.server/llm/create-summary.ts:80 | removal leaves a string unchanged if and only if it has no control character |
| Messages.ExtractTextContent | app/lib/.server/llm/create-summary.ts:61-65 | string content comes back unchanged; parts content yields the text of the first part typed `text`, and `''` when there is no such part |
| Messages.FindMessageIndex | app/lib/.server/llm/create-summary.ts:73-83 | an empty id gives -1; otherwise the result is the least index whose message id equals the id with `\r\n\t` removed, or -1 exactly when no message has that id |
| Markup.IndexOfIsFirst | app/lib/.server/llm/create-summary.ts:113-114 | the marker search finds the leftmost occurrence at or after the scan position, and nothing only when there is none |
| Markup.RemoveSpansFrom | app/lib/.server/llm/create-summary.ts:113-114 | the rest of the text after a scan position is never lengthened by the replacement |
| Markup.RemoveSpans | app/lib/.server/llm/create-summary.ts:113-114 | the global replacement never lengthens its input |
| Markup.RemoveSpansMatch | app/lib/.server/llm/create-summary.ts:113-114 | the leftmost open marker is paired with the nearest close marker after it; the span is deleted and the scan resumes after that close marker |
| Markup.RemoveSpansNoOpen | app/lib/.server/llm/create-summary.ts:113-114 | with no open marker left, the text is kept unchanged |
| Markup.RemoveSpansUnterminated | app/lib/.server/llm/create-summary.ts:113-114 | when the leftmost open marker has no close marker after it, the text is kept unchanged |
| Markup.RemoveSpansShrinks | app/lib/.server/llm/create-summary.ts:113-114 | when an open marker is followed by a close marker, the result is shorter by at least both markers |
| Markup.StripThoughts | app/lib/.server/llm/create-summary.ts:113-114 | removing the `__boltThought__` blocks and then the `<think>` blocks never lengthens the content |
| Markup.StripThoughtsNoMarkers | app/lib/.server/llm/create-summary.ts:113-114 | content with neither open marker passes through both passes unchanged |
| Markup.ShortTextHasNoThoughtBlock | app/lib/.server/llm/create-summary.ts:113 | content shorter than the `__boltThought__` open marker passes through the first pass unchanged |
| Markup.ExampleFirstPass | app/lib/.server/llm/create-summary.ts:114 | on `<<think></think>think></think>` one pass deletes only the inner block and leaves `<think></think>` |
| Markup.StripThoughtsNotIdempotent | app/lib/.server/llm/create-summary.ts:113-114 | there is a reply that a second stripping changes: `<<think></think>think></think>` strips to `<think></think>`, which strips to `''` |
| Markup.LeadingThinkBlockRemoved | app/lib/.server/llm/create-summary.ts:114 | `<think>x</think>hello` strips to `hello` |
| ModelResolution.ResolveProvider | app/lib/.server/llm/create-summary.ts:122 | the first provider of the requested name is chosen, and the default provider when none has that name; the lookup cannot fail |
| ModelResolution.FindModel | app/lib/.server/llm/create-summary.ts:124 | the model returned is a member of the list with the requested name, the first such one; `None` exactly when no model has that name |
| ModelResolution.ResolveModel | app/lib/.server/llm/create-summary.ts:123-148 | a static hit is returned without a warning whatever the dynamic lookup gives; a static miss with a failed lookup fails; a resolved model is always in the static list or the combined list, and it has the requested name unless a warning is attached |
| ModelResolution.ResolveModelNoCandidates | app/lib/.server/llm/create-summary.ts:127-138 | after a static miss, resolution fails exactly when the combined list is empty, with a `No models found` error whose text has no control character |
| ModelResolution.ResolveModelExactMatch | app/lib/.server/llm/create-summary.ts:140 | after a static miss, a model of the requested name in the combined list is returned without a warning |
| ModelResolution.ResolveModelFallback | app/lib/.server/llm/create-summary.ts:142-147 | after a static miss with no match in a non-empty combined list, the combined list's first model is returned with a warning that has no control character |
| ModelResolution.FallbackOrder | app/lib/.server/llm/create-summary.ts:123-147 | on a provider with static models `[a, b]`: asking for `a` ignores the lookup, `c` is found in the looked-up `[c, d]`, an unknown name falls back to `a`, and no candidates at all fails |
| Summary.LastSetting | app/lib/.server/llm/create-summary.ts:93-106 | the model (provider) left after the loop is the default or the value of some user turn's non-empty directive, so it is never empty unless the default is |
| Summary.LastSettingWithoutOverride | app/lib/.server/llm/create-summary.ts:93-106 | when no user turn sets a non-empty model (provider), the default model (provider) stays selected |
| Summary.LastSettingIsNewestOverride | app/lib/.server/llm/create-summary.ts:97-106 | the selected model (provider) is the one set by the newest user turn that sets a non-empty one |
| Summary.TransformMessage | app/lib/.server/llm/create-summary.ts:96-119 | the callback's result differs from its message at most in the content: the extracted content for a user turn, the simplified text with both kinds of reasoning block removed for an assistant turn, and no change for system and data turns |
| Summary.Processed | app/lib/.server/llm/create-summary.ts:96-120 | the transformed history keeps length and order, and each message differs from the original at most in its content (id, role and every other field kept); system and data turns are unchanged; user turns carry the extracted content; assistant turns carry the simplified content with both kinds of reasoning block removed |
| Summary.ProcessMessages | app/lib/.server/llm/create-summary.ts:93-120 | the loop fails exactly when the directive extractor throws on some user turn; otherwise it yields the transformed history and the last-override-wins model and provider |
| Summary.CheckpointSlice | app/lib/.server/llm/create-summary.ts:150-164 | the messages sent are always a suffix of the processed history: the messages after the anchor when the checkpoint is a `chatSummary` with a non-empty id found in the history, the whole history otherwise; the id returned is the checkpoint's raw id for a `chatSummary` and absent otherwise |
| Summary.CheckpointResume | app/lib/.server/llm/create-summary.ts:154-161 | when the id, once control characters are removed, first names message `k`, exactly the messages after `k` are sent |
| Summary.SliceAtCheckpoint | app/lib/.server/llm/create-summary.ts:150-164 | the overwrites of `slicedMessages` and `chatId` produce exactly the checkpoint slice |
| Summary.Prompt | app/lib/.server/llm/create-summary.ts:178-181 | one prompt message per sliced message, in order, with its role and its plain text |
| Summary.PromptOfProcessed | app/lib/.server/llm/create-summary.ts:96-181 | for every history, each processed turn is sent with its own role; an assistant turn's text is its simplified content with both kinds of reasoning block removed, a user turn's is the text of the extracted content, and system and data turns send their own text |
| Summary.PromptSuffix | app/lib/.server/llm/create-summary.ts:178-181 | rendering a suffix of the history gives the same suffix of the rendered history |
| Summary.RequestIsPromptTail | app/lib/.server/llm/create-summary.ts:150-181 | the messages sent are exactly a tail of the rendered processed history: cutting at the checkpoint only drops a head |
| Summary.TwoTurnScenario | app/lib/.server/llm/create-summary.ts:96-181 | for `hi` and `<think>x</think>hello` with no checkpoint, the model is sent the user `hi` and the assistant `hello` |
| Summary.ResolveModelDetails | app/lib/.server/llm/create-summary.ts:123-148 | a throwing static-list lookup yields no model; otherwise the reassignment chain of `modelDetails` yields a model exactly when the fallback chain resolves one, and it yields that model |
| Summary.CreateSummary | app/lib/.server/llm/create-summary.ts:85-191 | every failure is `Summary generation failed`; the run fails when the directive extractor, the static-list lookup, the model resolution, the context reader or generation fails; otherwise the resolved provider and model are asked about the sliced prompt, and the reply comes back with the checkpoint's raw id |

## Left out

- The text of the system prompt (lines 10-55) is not modelled. The request
  carries no system prompt, because the prompt is a constant that does not
  affect any decision.
- Logging is not modelled: the debug line, the fallback warning output and the
  error log. The warning text is computed, and its lack of control characters
  is proved, but it is not emitted.
- The three `./utils` helpers are not modelled. Their source is not part of
  this model, so they are uninterpreted function parameters.
- The message fields other than id, role and content are the opaque `rest`.
  The model only promises that the transform keeps them, and that the context
  reader receives them.
- `getStaticModelListFromProvider`, `getModelListFromProvider`,
  `getModelInstance` and `generateText` are inputs rather than code. They are
  LLM manager and SDK calls. API keys, provider settings and the server
  environment are passed straight through to them, so they are left out.
- `simplifyBoltActions` is typed as a function from
  content to text, so a call that throws on content it cannot handle is not
  modelled.
- Messages.FindMessageIndex: the `typeof chatId !== 'string'` guard is not
  modelled. The id is always a string in the model.
- Lengths are counted in Dafny characters rather than UTF-16 code units. A
  100-character truncation can therefore differ from JavaScript's `substring`
  on text outside the Basic Multilingual Plane.
- Async sequencing is not modelled: the awaits run one after another and carry
  no concurrency.
- `app/components/chat/ModelSelector.tsx`, `app/lib/stores/models.ts` and
  `app/lib/services/ollama.ts` are not part of this model. They are UI, a
  constant catalogue and an HTTP client.
