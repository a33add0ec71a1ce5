/**
 * Resolving the provider and model a summary is generated with: an unknown
 * provider falls back to the default one; a model is looked up first in the
 * provider's static list and only then in its static models followed by the
 * models listed dynamically, whose first entry is the fallback.
 */
module ModelResolution {
  import opened Wrappers
  import opened Find
  import opened LogSanitizer

  datatype ModelInfo = ModelInfo(name: string, displayName: string, maxTokenAllowed: nat)

  /** A provider as the registry holds it; `staticModels` is empty when the provider declares none. */
  datatype Provider = Provider(name: string, staticModels: seq<ModelInfo>)

  /** The process-wide catalogue: every provider, the default provider and the default model name. */
  datatype Registry = Registry(providers: seq<Provider>, defaultProvider: Provider, defaultModel: string)

  /** The provider named `name`, the first one if several share it, else the default provider. */
  function ResolveProvider(registry: Registry, name: string): (p: Provider)
    ensures (forall i :: 0 <= i < |registry.providers| ==> registry.providers[i].name != name)
            ==> p == registry.defaultProvider
    ensures forall i :: 0 <= i < |registry.providers| && registry.providers[i].name == name
                        && (forall j :: 0 <= j < i ==> registry.providers[j].name != name)
                        ==> p == registry.providers[i]
  {
    match FindFirst(registry.providers, (q: Provider) => q.name == name)
    case Some(i) => registry.providers[i]
    case None => registry.defaultProvider
  }

  /** `models.find((m) => m.name === name)`: the first model with that name. */
  function FindModel(models: seq<ModelInfo>, name: string): (r: Option<ModelInfo>)
    ensures r.Some? ==> r.value in models && r.value.name == name
    ensures r.None? <==> forall i :: 0 <= i < |models| ==> models[i].name != name
    ensures forall i :: 0 <= i < |models| && models[i].name == name
                        && (forall j :: 0 <= j < i ==> models[j].name != name)
                        ==> r == Some(models[i])
  {
    match FindFirst(models, (m: ModelInfo) => m.name == name)
    case Some(i) => Some(models[i])
    case None => None
  }

  /** Why resolution produced no model: the dynamic lookup threw, or there was no candidate at all. */
  datatype ResolveError = LookupFailed | NoModelsFound(message: string)

  /** The model chosen, with the warning logged when it is a substitute for the one requested. */
  datatype Resolution = Resolution(model: ModelInfo, warning: Option<string>)

  const NoModelsPrefix := "No models found for provider: "
  const FallbackPrefix := "Model not found, using fallback: "
  const FallbackArrow := " -> "

  /**
   * The fallback chain. `staticList` is the manager's static list for the
   * provider; `dynamicList` is what the dynamic lookup returned, `None` when
   * it threw. The dynamic list is looked at only on a static miss.
   */
  function ResolveModel(provider: Provider, staticList: seq<ModelInfo>, dynamicList: Option<seq<ModelInfo>>, modelName: string)
    : (r: Result<Resolution, ResolveError>)
    // a static hit is returned as it is, whatever the dynamic lookup would give
    ensures FindModel(staticList, modelName).Some? ==> r == Success(Resolution(FindModel(staticList, modelName).value, None))
    // on a static miss a failed lookup fails the resolution
    ensures FindModel(staticList, modelName).None? && dynamicList.None? ==> r == Failure(LookupFailed)
    // a resolved model always comes from one of the two lists, and is the requested one unless a warning says otherwise
    ensures r.Success? ==> r.value.model in staticList || (dynamicList.Some? && r.value.model in provider.staticModels + dynamicList.value)
    ensures r.Success? && r.value.warning.None? ==> r.value.model.name == modelName
  {
    match FindModel(staticList, modelName)
    case Some(m) => Success(Resolution(m, None))
    case None =>
      match dynamicList
      case None => Failure(LookupFailed)
      case Some(dynamicModels) =>
        var modelsList := provider.staticModels + dynamicModels;
        if modelsList == [] then
          Failure(NoModelsFound(NoModelsPrefix + SanitizeLogInput(provider.name)))
        else
          match FindModel(modelsList, modelName)
          case Some(m) => Success(Resolution(m, None))
          case None =>
            Success(Resolution(modelsList[0], Some(FallbackPrefix + SanitizeLogInput(modelName) + FallbackArrow
                                                      + SanitizeLogInput(modelsList[0].name))))
  }

  /**
   * On a static miss with a successful lookup, resolution fails exactly when
   * the combined list is empty, and the failure names the provider without
   * any control character.
   */
  lemma ResolveModelNoCandidates(provider: Provider, staticList: seq<ModelInfo>, dynamicModels: seq<ModelInfo>, modelName: string)
    requires FindModel(staticList, modelName).None?
    ensures var r := ResolveModel(provider, staticList, Some(dynamicModels), modelName);
            && (r.Failure? <==> provider.staticModels + dynamicModels == [])
            && (r.Failure? ==> r.error.NoModelsFound? && NoControl(r.error.message))
  {
  }

  /** On a static miss, a model of the requested name in the combined list is returned without a warning. */
  lemma ResolveModelExactMatch(provider: Provider, staticList: seq<ModelInfo>, dynamicModels: seq<ModelInfo>, modelName: string, i: nat)
    requires FindModel(staticList, modelName).None?
    requires i < |provider.staticModels + dynamicModels| && (provider.staticModels + dynamicModels)[i].name == modelName
    ensures var r := ResolveModel(provider, staticList, Some(dynamicModels), modelName);
            && r.Success? && r.value.warning.None? && r.value.model.name == modelName
            && r.value.model in provider.staticModels + dynamicModels
  {
  }

  /**
   * On a static miss, when no model in a non-empty combined list has the
   * requested name, its first model is returned with a warning free of
   * control characters.
   */
  lemma ResolveModelFallback(provider: Provider, staticList: seq<ModelInfo>, dynamicModels: seq<ModelInfo>, modelName: string)
    requires FindModel(staticList, modelName).None?
    requires provider.staticModels + dynamicModels != []
    requires forall i :: 0 <= i < |provider.staticModels + dynamicModels| ==> (provider.staticModels + dynamicModels)[i].name != modelName
    ensures var r := ResolveModel(provider, staticList, Some(dynamicModels), modelName);
            && r.Success? && r.value.model == (provider.staticModels + dynamicModels)[0]
            && r.value.warning.Some? && NoControl(r.value.warning.value)
  {
    var combined := provider.staticModels + dynamicModels;
    var left := SanitizeLogInput(modelName);
    var right := SanitizeLogInput(combined[0].name);
    var warning := FallbackPrefix + left + FallbackArrow + right;
    assert NoControl(FallbackPrefix) && NoControl(FallbackArrow);
    assert NoControl(warning) by {
      forall k | 0 <= k < |warning| ensures !IsControl(warning[k]) {
        var p, q, t := |FallbackPrefix|, |FallbackPrefix| + |left|, |FallbackPrefix| + |left| + |FallbackArrow|;
        if k < p {
          assert warning[k] == FallbackPrefix[k];
        } else if k < q {
          assert warning[k] == left[k - p];
        } else if k < t {
          assert warning[k] == FallbackArrow[k - q];
        } else {
          assert warning[k] == right[k - t];
        }
      }
    }
  }

  /**
   * The fallback order on a provider whose static models are `[a, b]`:
   * asking for `a` never depends on the lookup, asking for `c` finds it in the
   * looked-up `[c, d]`, asking for an unknown name falls back to `a`, the head
   * of the combined list, and a provider with no candidates at all fails.
   */
  lemma FallbackOrder(provider: Provider, a: ModelInfo, b: ModelInfo, c: ModelInfo, d: ModelInfo, z: string,
                      lookup: Option<seq<ModelInfo>>)
    requires provider.staticModels == [a, b]
    requires a.name != b.name && c.name !in {a.name, b.name} && z !in {a.name, b.name, c.name, d.name}
    ensures ResolveModel(provider, [a, b], lookup, a.name) == Success(Resolution(a, None))
    ensures ResolveModel(provider, [a, b], Some([c, d]), c.name) == Success(Resolution(c, None))
    ensures ResolveModel(provider, [a, b], Some([c, d]), z).Success?
    ensures ResolveModel(provider, [a, b], Some([c, d]), z).value.model == a
    ensures ResolveModel(provider.(staticModels := []), [], Some([]), z).Failure?
  {
    var combined := [a, b] + [c, d];
    assert combined[2] == c;
    assert FindModel(combined, c.name) == Some(c);
  }
}
