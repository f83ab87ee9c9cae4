/** The model picker: the fixed list of models it offers, and the change
    handler that keeps the store's provider in step with the chosen model. */
module ModelSelector {
  import opened Common
  import opened Settings

  datatype Model = Model(id: string, name: string, provider: Provider)

  const AnthropicModels: seq<Model> := [
    Model("anthropic/claude-opus-4-5-20251101", "Claude Opus 4.5", Anthropic),
    Model("anthropic/claude-sonnet-4-5-20250929", "Claude Sonnet 4.5", Anthropic),
    Model("anthropic/claude-haiku-4-5-20251001", "Claude Haiku 4.5", Anthropic)
  ]

  const OpenaiModels: seq<Model> := [
    Model("openai/gpt-5.2", "GPT-5.2", OpenAI),
    Model("openai/gpt-5.2-pro", "GPT-5.2 Pro", OpenAI),
    Model("openai/gpt-5.1-codex", "GPT-5.1 Codex", OpenAI),
    Model("openai/gpt-5.1-codex-mini", "GPT-5.1 Codex Mini", OpenAI),
    Model("openai/gpt-5.1-codex-max", "GPT-5.1 Codex Max", OpenAI)
  ]

  const AllModels: seq<Model> := AnthropicModels + OpenaiModels

  /** The provider a model id belongs to: anything without the Anthropic
      prefix counts as OpenAI. */
  function ProviderOf(modelId: string): (r: Provider)
    ensures r == Anthropic <==> StartsWith(modelId, "anthropic/")
    ensures r == OpenAI <==> !StartsWith(modelId, "anthropic/")
  {
    if StartsWith(modelId, "anthropic/") then Anthropic else OpenAI
  }

  /** The store's provider is the one its model belongs to. */
  predicate Consistent(s: ApiSettings)
  {
    ProviderOf(s.selectedModel) == s.selectedProvider
  }

  /** `handleModelChange(modelId)`: switch the provider when the model's
      provider differs, then select the model. */
  function ModelChanged(s: ApiSettings, modelId: string): ApiSettings
  {
    var provider := ProviderOf(modelId);
    var switched := if provider != s.selectedProvider then ProviderSelected(s, provider) else s;
    ModelSelected(switched, modelId)
  }

  /** Every listed id carries the prefix of the provider it is listed under. */
  lemma TablesAgree()
    ensures forall i :: 0 <= i < |AnthropicModels| ==>
      AnthropicModels[i].provider == Anthropic && ProviderOf(AnthropicModels[i].id) == Anthropic
    ensures forall i :: 0 <= i < |OpenaiModels| ==>
      OpenaiModels[i].provider == OpenAI && ProviderOf(OpenaiModels[i].id) == OpenAI
    ensures forall m :: m in AllModels ==> ProviderOf(m.id) == m.provider
  {
    AnthropicTableAgrees();
    OpenaiTableAgrees();
    forall m | m in AllModels
      ensures ProviderOf(m.id) == m.provider
    {
      var i :| 0 <= i < |AllModels| && AllModels[i] == m;
      if i >= |AnthropicModels| {
        assert m == OpenaiModels[i - |AnthropicModels|];
      }
    }
  }

  lemma AnthropicTableAgrees()
    ensures forall i :: 0 <= i < |AnthropicModels| ==>
      AnthropicModels[i].provider == Anthropic && ProviderOf(AnthropicModels[i].id) == Anthropic
  {
    assert AnthropicModels[0].id[..10] == "anthropic/";
    assert AnthropicModels[1].id[..10] == "anthropic/";
    assert AnthropicModels[2].id[..10] == "anthropic/";
  }

  lemma OpenaiTableAgrees()
    ensures forall i :: 0 <= i < |OpenaiModels| ==>
      OpenaiModels[i].provider == OpenAI && ProviderOf(OpenaiModels[i].id) == OpenAI
  {
    forall i | 0 <= i < |OpenaiModels|
      ensures ProviderOf(OpenaiModels[i].id) == OpenAI
    {
      assert OpenaiModels[i].id[0] == 'o';
      NotAnthropic(OpenaiModels[i].id);
    }
  }

  /** An id that does not start with `a` is an OpenAI id. */
  lemma NotAnthropic(id: string)
    requires |id| > 0 && id[0] != 'a'
    ensures ProviderOf(id) == OpenAI
  {
  }

  /** Each provider's default model belongs to that provider; the Anthropic
      one is listed, the OpenAI one (`openai/gpt-4.1`) is not. */
  lemma DefaultModels()
    ensures ProviderOf(DefaultModel(Anthropic)) == Anthropic
    ensures ProviderOf(DefaultModel(OpenAI)) == OpenAI
    ensures AnthropicModels[1].id == DefaultModel(Anthropic)
    ensures forall m :: m in AllModels ==> m.id != DefaultModel(OpenAI)
  {
    assert DefaultModel(Anthropic)[..10] == "anthropic/";
    assert DefaultModel(OpenAI)[0] == 'o';
    var d := DefaultModel(OpenAI);
    assert d[11] == '4';
    assert forall i :: 0 <= i < |AnthropicModels| ==> AnthropicModels[i].id[0] == 'a';
    assert OpenaiModels[0].id[11] == '5';
    assert OpenaiModels[1].id[11] == '5';
    assert OpenaiModels[2].id[11] == '5';
    assert OpenaiModels[3].id[11] == '5';
    assert OpenaiModels[4].id[11] == '5';
  }

  /** Whatever the provider was, the change ends with the chosen model and
      its provider; the provider switch's reset of the model is overwritten,
      and no key, URL or flag changes. */
  lemma ModelChangedSelects(s: ApiSettings, modelId: string)
    ensures ModelChanged(s, modelId) == s.(selectedProvider := ProviderOf(modelId), selectedModel := modelId)
    ensures Consistent(ModelChanged(s, modelId))
  {
  }

  /** The provider is switched only when it differs: picking a model of the
      current provider is the same as selecting the model alone. */
  lemma SameProviderOnlySelects(s: ApiSettings, modelId: string)
    requires ProviderOf(modelId) == s.selectedProvider
    ensures ModelChanged(s, modelId) == ModelSelected(s, modelId)
  {
  }

  /** Choosing a listed model sets the provider it is listed under. */
  lemma ListedModelSetsItsProvider(s: ApiSettings, m: Model)
    requires m in AllModels
    ensures ModelChanged(s, m.id).selectedProvider == m.provider
    ensures ModelChanged(s, m.id).selectedModel == m.id
  {
    TablesAgree();
  }

  /** Every store operation but a bare model selection keeps the provider in
      step with the model; the picker's handler restores it from any state. */
  lemma ConsistencyKept(s: ApiSettings, f: Field, value: string, p: Provider, c: ServerConfig, modelId: string)
    ensures Consistent(Defaults)
    ensures Consistent(s) ==> Consistent(Typed(s, f, value))
    ensures Consistent(ProviderSelected(s, p))
    ensures Consistent(s) ==> Consistent(Merged(s, c))
    ensures Consistent(ModelChanged(s, modelId))
  {
    DefaultModels();
  }

  /** A bare model selection can leave the provider behind. */
  lemma BareSelectionCanDisagree()
    ensures Consistent(Defaults)
    ensures !Consistent(ModelSelected(Defaults, "openai/gpt-5.2"))
  {
    DefaultModels();
    assert "openai/gpt-5.2"[0] == 'o';
  }

  /** `handleModelChange` on the store. */
  method HandleModelChange(store: SettingsStore, modelId: string)
    modifies store
    ensures store.State() == ModelChanged(old(store.State()), modelId)
  {
    var provider := if StartsWith(modelId, "anthropic/") then Anthropic else OpenAI;
    if provider != store.selectedProvider {
      store.SetSelectedProvider(provider);
    }
    store.SetSelectedModel(modelId);
  }
}
