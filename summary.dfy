/**
 * `createSummary`: transform the history, resolve the model, cut the history
 * at the last summary checkpoint and ask the model for a new summary.
 *
 * The collaborators the pipeline calls but does not define are parameters:
 * extracting a user turn's model/provider directives, simplifying action
 * markup, reading the current context annotations, the static and dynamic
 * model lists, and instantiating the model and generating text.
 */
module Summary {
  import opened Wrappers
  import opened LogSanitizer
  import opened Markup
  import opened Messages
  import opened ModelResolution

  /** What the directive extractor returns for a user turn: optional model and provider, and the cleaned content. */
  datatype Properties = Properties(model: Option<string>, provider: Option<string>, content: Content)

  /** The context annotation the history carries; a checkpoint has kind `chatSummary`. */
  datatype Annotation = Annotation(kind: string, chatId: Option<string>)

  /** One message as handed to the generator: its role and plain text. */
  datatype PromptMessage = PromptMessage(role: Role, content: string)

  /** The generation request: the resolved provider, the resolved model name and the messages after the checkpoint. */
  datatype Request = Request(provider: Provider, modelName: string, messages: seq<PromptMessage>)

  /** The result: the generated text and the previous checkpoint's anchor id, if any. */
  datatype SummaryOutput = SummaryOutput(summary: string, chatId: Option<string>)

  /** What the context reader returns; `summary` is absent when the history holds no summary annotation. */
  datatype Context = Context(summary: Option<Annotation>)

  /**
   * The code the pipeline calls without defining it. A `None` from any of
   * them means that call threw.
   */
  datatype Collaborators = Collaborators(
    extractProperties: Message -> Option<Properties>,
    simplifyActions: Content -> string,
    extractContext: seq<Message> -> Option<Context>,
    staticModelList: Provider -> Option<seq<ModelInfo>>,
    dynamicModelList: Provider -> Option<seq<ModelInfo>>,
    generate: Request -> Option<string>)

  const ChatSummaryKind := "chatSummary"

  /** The one error the caller ever sees. */
  const GenericFailure := "Summary generation failed"

  /** A directive counts only when present and non-empty, as JavaScript truthiness has it. */
  predicate Truthy(o: Option<string>) {
    o.Some? && o.value != ""
  }

  datatype Setting = ModelSetting | ProviderSetting

  function Pick(props: Properties, setting: Setting): Option<string> {
    match setting
    case ModelSetting => props.model
    case ProviderSetting => props.provider
  }

  /** `message` is a user turn that sets `setting`. */
  predicate Overrides(message: Message, extract: Message -> Option<Properties>, setting: Setting) {
    message.role.User? && extract(message).Some? && Truthy(Pick(extract(message).value, setting))
  }

  /**
   * The running value of a setting after the history: the last override
   * wins, `initial` when there is none. Whatever it is, it is the initial
   * value or the value of some override, so it is never empty unless the
   * initial value is.
   */
  function LastSetting(messages: seq<Message>, extract: Message -> Option<Properties>, setting: Setting, initial: string)
    : (r: string)
    ensures r == initial || exists i :: 0 <= i < |messages| && Overrides(messages[i], extract, setting)
                                       && r == Pick(extract(messages[i]).value, setting).value
    ensures initial != "" ==> r != ""
    decreases |messages|
  {
    if messages == [] then initial
    else
      var last := messages[|messages| - 1];
      if Overrides(last, extract, setting) then Pick(extract(last).value, setting).value
      else LastSetting(messages[..|messages| - 1], extract, setting, initial)
  }

  /** With no user turn overriding it, a setting keeps its initial value. */
  lemma LastSettingWithoutOverride(messages: seq<Message>, extract: Message -> Option<Properties>,
                                   setting: Setting, initial: string)
    requires forall i :: 0 <= i < |messages| ==> !Overrides(messages[i], extract, setting)
    ensures LastSetting(messages, extract, setting, initial) == initial
  {
  }

  /** The setting the history selects is the value of its newest override. */
  lemma {:induction false} LastSettingIsNewestOverride(messages: seq<Message>, extract: Message -> Option<Properties>,
                                                      setting: Setting, initial: string, i: nat)
    requires i < |messages| && Overrides(messages[i], extract, setting)
    requires forall j :: i < j < |messages| ==> !Overrides(messages[j], extract, setting)
    ensures LastSetting(messages, extract, setting, initial) == Pick(extract(messages[i]).value, setting).value
    decreases |messages|
  {
    var n := |messages| - 1;
    if i < n {
      var front := messages[..n];
      assert front[i] == messages[i];
      assert forall j :: i < j < |front| ==> front[j] == messages[j];
      LastSettingIsNewestOverride(front, extract, setting, initial, i);
    }
  }

  /** Every user turn of the history has its directives extracted without a throw. */
  predicate Extracts(messages: seq<Message>, extract: Message -> Option<Properties>) {
    forall i :: 0 <= i < |messages| && messages[i].role.User? ==> extract(messages[i]).Some?
  }

  /**
   * What the `map` callback returns for one message: a copy that differs at
   * most in its content, which is the extracted content for a user turn and
   * the simplified, stripped text for an assistant turn.
   */
  function TransformMessage(message: Message, extract: Message -> Option<Properties>, simplify: Content -> string)
    : (r: Message)
    requires message.role.User? ==> extract(message).Some?
    ensures r == message.(content := r.content)
    ensures message.role.User? ==> r.content == extract(message).value.content
    ensures message.role.Assistant? ==> r.content == Text(StripThoughts(simplify(message.content)))
    ensures message.role.System? || message.role.Data? ==> r == message
  {
    match message.role
    case User => message.(content := extract(message).value.content)
    case Assistant => message.(content := Text(StripThoughts(simplify(message.content))))
    case _ => message
  }

  /** The transformed history, one message per message, each changed in its content at most. */
  function Processed(messages: seq<Message>, extract: Message -> Option<Properties>, simplify: Content -> string)
    : (r: seq<Message>)
    requires Extracts(messages, extract)
    ensures |r| == |messages|
    ensures forall i :: 0 <= i < |messages| ==> r[i] == messages[i].(content := r[i].content)
    ensures forall i :: 0 <= i < |messages| && (messages[i].role.System? || messages[i].role.Data?) ==> r[i] == messages[i]
    ensures forall i :: 0 <= i < |messages| && messages[i].role.User? ==> r[i].content == extract(messages[i]).value.content
    ensures forall i :: 0 <= i < |messages| && messages[i].role.Assistant? ==>
              r[i].content == Text(StripThoughts(simplify(messages[i].content)))
    decreases |messages|
  {
    if messages == [] then []
    else
      var n := |messages| - 1;
      Processed(messages[..n], extract, simplify) + [TransformMessage(messages[n], extract, simplify)]
  }

  /** Proof helper: one more message extends the running setting by that message alone. */
  lemma LastSettingStep(messages: seq<Message>, extract: Message -> Option<Properties>, setting: Setting,
                        initial: string, i: nat)
    requires i < |messages|
    ensures LastSetting(messages[..i + 1], extract, setting, initial)
            == if Overrides(messages[i], extract, setting) then Pick(extract(messages[i]).value, setting).value
               else LastSetting(messages[..i], extract, setting, initial)
  {
    assert messages[..i + 1][..i] == messages[..i];
  }

  /** Proof helper: one more message extends the processed history by its transform alone. */
  lemma ProcessedStep(messages: seq<Message>, extract: Message -> Option<Properties>, simplify: Content -> string, i: nat)
    requires i < |messages| && Extracts(messages[..i + 1], extract)
    ensures Extracts(messages[..i], extract)
    ensures Processed(messages[..i + 1], extract, simplify)
            == Processed(messages[..i], extract, simplify) + [TransformMessage(messages[i], extract, simplify)]
  {
    assert messages[..i + 1][..i] == messages[..i];
  }

  /**
   * The `map` over the history with its running override state: each user
   * turn may replace the current model and provider, each assistant turn is
   * simplified and stripped of reasoning spans, other turns pass through.
   */
  method ProcessMessages(messages: seq<Message>, extract: Message -> Option<Properties>, simplify: Content -> string,
                         defaultModel: string, defaultProvider: string)
    returns (processed: Option<seq<Message>>, currentModel: string, currentProvider: string)
    ensures processed.Some? <==> Extracts(messages, extract)
    ensures processed.Some? ==> processed.value == Processed(messages, extract, simplify)
    ensures processed.Some? ==> currentModel == LastSetting(messages, extract, ModelSetting, defaultModel)
    ensures processed.Some? ==> currentProvider == LastSetting(messages, extract, ProviderSetting, defaultProvider)
  {
    currentModel, currentProvider := defaultModel, defaultProvider;
    var done := [];
    for i := 0 to |messages|
      invariant Extracts(messages[..i], extract)
      invariant done == Processed(messages[..i], extract, simplify)
      invariant currentModel == LastSetting(messages[..i], extract, ModelSetting, defaultModel)
      invariant currentProvider == LastSetting(messages[..i], extract, ProviderSetting, defaultProvider)
    {
      var message := messages[i];
      LastSettingStep(messages, extract, ModelSetting, defaultModel, i);
      LastSettingStep(messages, extract, ProviderSetting, defaultProvider, i);
      var next := message;
      if message.role.User? {
        var props := extract(message);
        if props.None? {
          return None, currentModel, currentProvider;
        }
        if Truthy(props.value.model) {
          currentModel := props.value.model.value;
        }
        if Truthy(props.value.provider) {
          currentProvider := props.value.provider.value;
        }
        next := message.(content := props.value.content);
      } else if message.role.Assistant? {
        var content := simplify(message.content);
        content := RemoveSpans(content, ThoughtOpen, ThoughtClose);
        content := RemoveSpans(content, ThinkOpen, ThinkClose);
        next := message.(content := Text(content));
      }
      assert Extracts(messages[..i + 1], extract);
      ProcessedStep(messages, extract, simplify, i);
      assert next == TransformMessage(message, extract, simplify);
      done := done + [next];
    }
    assert messages[..|messages|] == messages;
    processed := Some(done);
  }

  /** The checkpoint is usable: a `chatSummary` whose non-empty anchor id locates a message. */
  predicate Anchored(processed: seq<Message>, summary: Option<Annotation>) {
    && summary.Some? && summary.value.kind == ChatSummaryKind
    && Truthy(summary.value.chatId)
    && FindMessageIndex(processed, summary.value.chatId.value) != -1
  }

  /** The messages to summarise and the anchor id to return. */
  datatype Slice = Slice(messages: seq<Message>, chatId: Option<string>)

  /**
   * Checkpoint slicing: everything after the anchor message when the
   * checkpoint is usable, the whole history otherwise; the returned id is the
   * checkpoint's own, unsanitised, whenever the annotation is a `chatSummary`.
   */
  function CheckpointSlice(processed: seq<Message>, summary: Option<Annotation>): (r: Slice)
    ensures |r.messages| <= |processed| && r.messages == processed[|processed| - |r.messages|..]
    ensures r.chatId == if summary.Some? && summary.value.kind == ChatSummaryKind then summary.value.chatId else None
    ensures Anchored(processed, summary) ==>
              r.messages == processed[FindMessageIndex(processed, summary.value.chatId.value) + 1..]
    ensures !Anchored(processed, summary) ==> r.messages == processed
  {
    if summary.Some? && summary.value.kind == ChatSummaryKind then
      var chatId := summary.value.chatId;
      if Truthy(chatId) then
        var index := FindMessageIndex(processed, chatId.value);
        if index != -1 then Slice(processed[index + 1..], chatId)
        else Slice(processed, chatId)
      else Slice(processed, chatId)
    else Slice(processed, None)
  }

  /**
   * Resuming at a checkpoint: when the anchor id, once its control characters
   * are removed, first names message `k`, exactly the messages after `k` are
   * summarised; when it names no message, the whole history is.
   */
  lemma CheckpointResume(processed: seq<Message>, chatId: string, k: nat)
    requires chatId != "" && k < |processed| && processed[k].id == StripControl(chatId)
    requires forall j :: 0 <= j < k ==> processed[j].id != processed[k].id
    ensures CheckpointSlice(processed, Some(Annotation(ChatSummaryKind, Some(chatId)))).messages == processed[k + 1..]
  {
    assert FindMessageIndex(processed, chatId) == k;
  }

  /** The generator's view of the messages: role and plain text, in order. */
  function Prompt(messages: seq<Message>): (r: seq<PromptMessage>)
    ensures |r| == |messages|
    ensures forall i :: 0 <= i < |messages| ==> r[i] == PromptMessage(messages[i].role, ExtractTextContent(messages[i]))
  {
    seq(|messages|, i requires 0 <= i < |messages| => PromptMessage(messages[i].role, ExtractTextContent(messages[i])))
  }

  /**
   * What each processed turn becomes in the request: its own role, and as
   * text the stripped simplification for an assistant turn, the text of the
   * extracted content for a user turn and the turn's own text otherwise.
   */
  lemma PromptOfProcessed(messages: seq<Message>, extract: Message -> Option<Properties>, simplify: Content -> string, i: nat)
    requires Extracts(messages, extract) && i < |messages|
    ensures var p := Prompt(Processed(messages, extract, simplify))[i];
            && p.role == messages[i].role
            && (messages[i].role.Assistant? ==> p.content == StripThoughts(simplify(messages[i].content)))
            && (messages[i].role.User? ==>
                  p.content == ExtractTextContent(messages[i].(content := extract(messages[i]).value.content)))
            && (messages[i].role.System? || messages[i].role.Data? ==> p.content == ExtractTextContent(messages[i]))
  {
  }

  /** Rendering a suffix of the history gives the same suffix of the rendered history. */
  lemma PromptSuffix(messages: seq<Message>, k: nat)
    requires k <= |messages|
    ensures Prompt(messages[k..]) == Prompt(messages)[k..]
  {
  }

  /** The messages sent are the tail of the rendered processed history: cutting at the checkpoint drops only its head. */
  lemma RequestIsPromptTail(processed: seq<Message>, summary: Option<Annotation>)
    ensures var sent := Prompt(CheckpointSlice(processed, summary).messages);
            && |sent| <= |processed|
            && sent == Prompt(processed)[|processed| - |sent|..]
  {
    var slice := CheckpointSlice(processed, summary);
    var k := |processed| - |slice.messages|;
    assert slice.messages == processed[k..];
    PromptSuffix(processed, k);
  }

  /**
   * A two-turn history with no checkpoint: a user turn `hi` and an assistant
   * turn whose reasoning block precedes `hello`. When the collaborators leave
   * both texts alone, the generator is sent both turns, the block removed.
   */
  lemma TwoTurnScenario(extract: Message -> Option<Properties>, simplify: Content -> string, user: Message, assistant: Message)
    requires user.role == User && user.content == Text("hi")
    requires assistant.role == Assistant && simplify(assistant.content) == "<think>x</think>hello"
    requires extract(user).Some? && extract(user).value.content == user.content
    ensures Prompt(CheckpointSlice(Processed([user, assistant], extract, simplify), None).messages)
            == [PromptMessage(User, "hi"), PromptMessage(Assistant, "hello")]
  {
    var history := [user, assistant];
    var processed := Processed(history, extract, simplify);
    LeadingThinkBlockRemoved("<think>x</think>hello");
    assert processed[0].content == Text("hi");
    assert processed[1].content == Text("hello");
    assert CheckpointSlice(processed, None).messages == processed;
    var prompt := Prompt(processed);
    assert ExtractTextContent(processed[0]) == "hi";
    assert ExtractTextContent(processed[1]) == "hello";
    assert prompt == [prompt[0], prompt[1]];
  }

  /**
   * The `modelDetails` fallback chain, run against the resolved provider. A
   * failure here (a list lookup threw, or there is no candidate) ends the run.
   */
  method ResolveModelDetails(provider: Provider, env: Collaborators, currentModel: string)
    returns (modelDetails: Option<ModelInfo>)
    ensures env.staticModelList(provider).None? ==> modelDetails.None?
    ensures env.staticModelList(provider).Some? ==>
              var resolved := ResolveModel(provider, env.staticModelList(provider).value, env.dynamicModelList(provider),
                                           currentModel);
              && (modelDetails.Some? <==> resolved.Success?)
              && (modelDetails.Some? ==> modelDetails.value == resolved.value.model)
  {
    var staticModels := env.staticModelList(provider);
    if staticModels.None? {
      return None;
    }
    modelDetails := FindModel(staticModels.value, currentModel);
    if modelDetails.None? {
      var dynamicModels := env.dynamicModelList(provider);
      if dynamicModels.None? {
        return None;
      }
      var modelsList := provider.staticModels + dynamicModels.value;
      if |modelsList| == 0 {
        return None;
      }
      modelDetails := FindModel(modelsList, currentModel);
      if modelDetails.None? {
        modelDetails := Some(modelsList[0]);
      }
    }
  }

  /** Cutting the processed history at the last checkpoint, as `slicedMessages` and `chatId` are overwritten. */
  method SliceAtCheckpoint(processed: seq<Message>, summary: Option<Annotation>)
    returns (slicedMessages: seq<Message>, chatId: Option<string>)
    ensures Slice(slicedMessages, chatId) == CheckpointSlice(processed, summary)
  {
    slicedMessages := processed;
    chatId := None;
    if summary.Some? && summary.value.kind == ChatSummaryKind {
      chatId := summary.value.chatId;
      if Truthy(chatId) {
        var index := FindMessageIndex(processed, chatId.value);
        if index != -1 {
          slicedMessages := processed[index + 1..];
        }
      }
    }
    assert Slice(slicedMessages, chatId) == CheckpointSlice(processed, summary);
  }

  /**
   * The whole pipeline. Every failure, whichever step it comes from, reaches
   * the caller as the one generic error; on success the output carries the
   * generated text and the previous checkpoint's anchor id.
   */
  method CreateSummary(messages: seq<Message>, registry: Registry, env: Collaborators)
    returns (r: Result<SummaryOutput, string>)
    ensures r.Failure? ==> r.error == GenericFailure
    ensures !Extracts(messages, env.extractProperties) ==> r == Failure(GenericFailure)
    ensures Extracts(messages, env.extractProperties) ==>
      var processed := Processed(messages, env.extractProperties, env.simplifyActions);
      var provider := ResolveProvider(registry, LastSetting(messages, env.extractProperties, ProviderSetting,
                                                             registry.defaultProvider.name));
      var modelName := LastSetting(messages, env.extractProperties, ModelSetting, registry.defaultModel);
      var staticList := env.staticModelList(provider);
      var context := env.extractContext(processed);
      && (staticList.None? ==> r == Failure(GenericFailure))
      && (staticList.Some? ==>
            var resolved := ResolveModel(provider, staticList.value, env.dynamicModelList(provider), modelName);
            && (resolved.Failure? || context.None? ==> r == Failure(GenericFailure))
            && (resolved.Success? && context.Some? ==>
                  var slice := CheckpointSlice(processed, context.value.summary);
                  var reply := env.generate(Request(provider, resolved.value.model.name, Prompt(slice.messages)));
                  r == if reply.None? then Failure(GenericFailure) else Success(SummaryOutput(reply.value, slice.chatId))))
  {
    var processed, currentModel, currentProvider :=
      ProcessMessages(messages, env.extractProperties, env.simplifyActions,
                      registry.defaultModel, registry.defaultProvider.name);
    if processed.None? {
      return Failure(GenericFailure);
    }
    var provider := ResolveProvider(registry, currentProvider);
    var modelDetails := ResolveModelDetails(provider, env, currentModel);
    if modelDetails.None? {
      return Failure(GenericFailure);
    }
    var context := env.extractContext(processed.value);
    if context.None? {
      return Failure(GenericFailure);
    }
    var slicedMessages, chatId := SliceAtCheckpoint(processed.value, context.value.summary);
    var reply := env.generate(Request(provider, modelDetails.value.name, Prompt(slicedMessages)));
    if reply.None? {
      return Failure(GenericFailure);
    }
    return Success(SummaryOutput(reply.value, chatId));
  }
}
