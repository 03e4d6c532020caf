/**
 * The rules of the model-configuration form (Settings/AIConfig.tsx): the
 * provider-to-models table, the model options a provider brings, the reset
 * of the model when the provider changes, the validation done on save and
 * the actions the form dispatches to the store.
 *
 * The form's state is a class whose fields are the component's state
 * hooks: the form data, the model options of the form schema, the pending
 * configuration and the error list. Dispatching is modelled by returning
 * the dispatched action.
 */
module AIConfigForm {
  import opened Js
  import opened AIConfigReducer

  /** `PROVIDERS_AND_MODELS`: each provider's selectable models. */
  const ProvidersAndModels: map<string, seq<string>> := map[
    "OpenAI" := ["gpt-4o", "gpt-4o-mini"],
    "xAI" := ["grok-2-1212"],
    "Ollama" := ["llama2:13b"],
    "Cohere" := ["command-r-plus"]
  ]

  /** `PROVIDERS`: the providers the form offers (Ollama is not offered). */
  const Providers: seq<string> := ["xAI", "OpenAI", "Cohere"]

  const ErrorApiKey: string := "Insert an API KEY!"
  const ErrorModel: string := "Select a Model Name!"
  const ErrorProvider: string := "Selct a Provider!"

  /** The form's data. An empty string stands for an unset field. */
  datatype FormData = FormData(provider: string, model: string, apiKey: string)

  /** The pending configuration `TConfig` (everything of `TModel` but `baseURL`). */
  datatype FormConfig = FormConfig(model: string, apiKey: string, provider: string)

  /** A provider the table knows, or none chosen yet. */
  predicate KnownProvider(provider: string) {
    provider == "" || provider in ProvidersAndModels
  }

  /** `PROVIDERS_AND_MODELS[provider].models`. */
  function ModelsFor(provider: string): (r: seq<string>)
    requires provider in ProvidersAndModels
    ensures |r| > 0
    ensures forall m :: m in r ==> m != ""
  {
    ProvidersAndModels[provider]
  }

  /** Every provider the form offers has an entry in the table. */
  lemma OfferedProvidersAreKnown()
    ensures forall p :: p in Providers ==> p in ProvidersAndModels && |ModelsFor(p)| > 0
  {
  }

  /** The model options for a stored configuration: its provider's models, or none without a provider. */
  function StoredModelOptions(provider: string): (r: seq<string>)
    requires KnownProvider(provider)
    ensures provider == "" <==> r == []
    ensures provider != "" ==> r == ModelsFor(provider)
  {
    if provider != "" then ModelsFor(provider) else []
  }

  /**
   * The stored record as the form reads it: the initial `{}` has no fields,
   * and each missing field reads as empty, like the cleared record.
   */
  function StoredFields(store: AIConfigState): ModelConfig {
    match store
    case Unset => Cleared
    case Config(c) => c
  }

  /** The event chose a provider other than the current one: the case that resets the model. */
  predicate NewProvider(current: FormData, incoming: FormData) {
    incoming.provider != "" && incoming.provider != current.provider
  }

  /**
   * The form data and model options after a change event: a newly chosen
   * provider (non-empty and different from the current one) clears the model
   * and brings its own model list; otherwise the event's data and options
   * are taken as they come.
   */
  function ChangedForm(current: FormData, incoming: FormData, eventOptions: seq<string>): (r: (FormData, seq<string>))
    requires NewProvider(current, incoming) ==> incoming.provider in ProvidersAndModels
    ensures NewProvider(current, incoming) ==>
      r.0 == FormData(incoming.provider, "", incoming.apiKey) && r.1 == ModelsFor(incoming.provider)
    ensures !NewProvider(current, incoming) ==> r.0 == incoming && r.1 == eventOptions
    ensures r.0.provider == incoming.provider && r.0.apiKey == incoming.apiKey
  {
    if NewProvider(current, incoming) then
      (incoming.(model := ""), ModelsFor(incoming.provider))
    else
      (incoming, eventOptions)
  }

  /** A field the save check finds missing: no configuration at all, or that field empty. */
  predicate MissingModel(config: Option<FormConfig>) { config.None? || config.value.model == "" }
  predicate MissingProvider(config: Option<FormConfig>) { config.None? || config.value.provider == "" }
  predicate MissingApiKey(config: Option<FormConfig>) { config.None? || config.value.apiKey == "" }

  /** The position of an error message in the fixed order model, provider, API key. */
  function ErrorRank(e: string): nat {
    if e == ErrorModel then 0 else if e == ErrorProvider then 1 else 2
  }

  /**
   * The errors `handleSave` reports: one message per missing field, each at
   * most once, in the order model, provider, API key.
   */
  function SaveErrors(config: Option<FormConfig>): (r: seq<string>)
    ensures ErrorModel in r <==> MissingModel(config)
    ensures ErrorProvider in r <==> MissingProvider(config)
    ensures ErrorApiKey in r <==> MissingApiKey(config)
    ensures forall e :: e in r ==> e == ErrorModel || e == ErrorProvider || e == ErrorApiKey
    ensures forall i, j :: 0 <= i < j < |r| ==> ErrorRank(r[i]) < ErrorRank(r[j])
    ensures |r| <= 3
    ensures r == [] <==> config.Some? && config.value.model != "" && config.value.provider != "" && config.value.apiKey != ""
  {
    (if MissingModel(config) then [ErrorModel] else []) +
    (if MissingProvider(config) then [ErrorProvider] else []) +
    (if MissingApiKey(config) then [ErrorApiKey] else [])
  }

  /** The state of the configuration form. */
  class ConfigForm {
    var formData: FormData
    var modelOptions: seq<string>
    var config: Option<FormConfig>
    var errors: seq<string>

    /** The form as first rendered: empty data, no model options, no configuration, no errors. */
    constructor ()
      ensures formData == FormData("", "", "") && modelOptions == []
      ensures config == None && errors == []
    {
      formData := FormData("", "", "");
      modelOptions := [];
      config := None;
      errors := [];
    }

    /**
     * The effect run when the stored provider changes: the pending
     * configuration, the form data and the model options are taken from the
     * stored record.
     */
    method SyncFromStore(store: AIConfigState)
      requires KnownProvider(StoredFields(store).provider)
      modifies this
      ensures var s := StoredFields(store);
        && config == Some(FormConfig(s.model, s.apiKey, s.provider))
        && formData == FormData(s.provider, s.model, s.apiKey)
        && modelOptions == StoredModelOptions(s.provider)
      ensures errors == old(errors)
    {
      var storeConfig := StoredFields(store);
      config := Some(FormConfig(storeConfig.model, storeConfig.apiKey, storeConfig.provider));
      formData := FormData(storeConfig.provider, storeConfig.model, storeConfig.apiKey);
      modelOptions := if storeConfig.provider != "" then ModelsFor(storeConfig.provider) else [];
    }

    /**
     * `formChange`: an event without data changes nothing; otherwise the form
     * takes the event's data and options, with the model cleared and the
     * options replaced when a new provider was chosen, and the pending
     * configuration mirrors the resulting data.
     */
    method FormChange(incoming: Option<FormData>, eventOptions: seq<string>)
      requires incoming.Some? && NewProvider(formData, incoming.value) ==> incoming.value.provider in ProvidersAndModels
      modifies this
      ensures incoming.None? ==>
        formData == old(formData) && modelOptions == old(modelOptions) && config == old(config)
      ensures incoming.Some? ==>
        (formData, modelOptions) == ChangedForm(old(formData), incoming.value, eventOptions)
      ensures incoming.Some? ==> config == Some(FormConfig(formData.model, formData.apiKey, formData.provider))
      ensures errors == old(errors)
    {
      if incoming.Some? {
        var data := incoming.value;
        var newData, newOptions := data, eventOptions;
        if data.provider != "" && data.provider != formData.provider {
          newOptions := ModelsFor(data.provider);
          newData := data.(model := "");
        }
        formData, modelOptions := newData, newOptions;
        config := Some(FormConfig(newData.model, newData.apiKey, newData.provider));
      }
    }

    /**
     * `handleSave`: the errors are collected and shown; only when there are
     * none is a save of the pending configuration, with an empty `baseURL`,
     * dispatched.
     */
    method HandleSave() returns (dispatched: Option<CoreAction>)
      modifies this
      ensures errors == SaveErrors(config)
      ensures dispatched.Some? <==> errors == [] && config.Some?
      ensures dispatched.Some? ==>
        dispatched.value == SaveAIConfig(ModelConfig(config.value.provider, config.value.apiKey, config.value.model, ""))
      ensures formData == old(formData) && modelOptions == old(modelOptions) && config == old(config)
    {
      var errs: seq<string> := [];
      if config.None? || config.value.model == "" {
        errs := errs + [ErrorModel];
      }
      if config.None? || config.value.provider == "" {
        errs := errs + [ErrorProvider];
      }
      if config.None? || config.value.apiKey == "" {
        errs := errs + [ErrorApiKey];
      }
      errors := errs;
      if |errs| == 0 && config.Some? {
        var c := config.value;
        dispatched := Some(SaveAIConfig(ModelConfig(c.provider, c.apiKey, c.model, "")));
      } else {
        dispatched := None;
      }
    }

    /** `clearPreviousConfig`: a clear is dispatched only when the store holds a configuration. */
    method ClearPreviousConfig(store: Option<AIConfigState>) returns (dispatched: Option<CoreAction>)
      ensures dispatched.Some? <==> store.Some?
      ensures dispatched.Some? ==> dispatched.value == ClearAIConfig
    {
      if store.Some? {
        dispatched := Some(ClearAIConfig);
      } else {
        dispatched := None;
      }
    }
  }

  /**
   * A save the form dispatches, once reduced, stores exactly the pending
   * configuration with an empty `baseURL`.
   */
  lemma SavedConfigReachesStore(state: AIConfigState, c: FormConfig)
    requires SaveErrors(Some(c)) == []
    ensures Reduce(state, SaveAIConfig(ModelConfig(c.provider, c.apiKey, c.model, ""))) ==
      Config(ModelConfig(c.provider, c.apiKey, c.model, ""))
    ensures c.model != "" && c.provider != "" && c.apiKey != ""
  {
  }
}
