/** The API settings store of the web client: the keys, the base URL and
    the model choice the chat request carries, with the setters the settings
    panel calls and the merge with what the server's environment provides.
    The store is a plain object here; its persistence to local storage is
    not modelled. */
module Settings {
  import opened Common

  datatype Provider = Anthropic | OpenAI

  datatype ApiSettings = ApiSettings(
    anthropicApiKey: string,
    anthropicBaseUrl: string,
    tavilyApiKey: string,
    openaiApiKey: string,
    selectedProvider: Provider,
    selectedModel: string,
    useServerDefaults: bool)

  /** What `/api/config` answers: which keys the server's environment holds,
      and the base URL it uses. */
  datatype ServerConfig = ServerConfig(
    hasAnthropicApiKey: bool,
    anthropicBaseUrl: string,
    hasTavilyApiKey: bool,
    hasOpenaiApiKey: bool)

  /** The placeholder stored for a key the server holds, so that the panel
      can show that one is available without ever seeing it. */
  const FromServer: string := "[FROM_SERVER]"

  /** The model a provider switch selects. */
  function DefaultModel(p: Provider): string
  {
    match p
    case Anthropic => "anthropic/claude-sonnet-4-5-20250929"
    case OpenAI => "openai/gpt-4.1"
  }

  const Defaults: ApiSettings := ApiSettings(
    "", "https://api.anthropic.com/v1", "", "", Anthropic,
    "anthropic/claude-sonnet-4-5-20250929", true)

  /** The four text fields the settings panel edits. */
  datatype Field = AnthropicKeyField | AnthropicBaseUrlField | TavilyKeyField | OpenaiKeyField

  function FieldOf(s: ApiSettings, f: Field): string
  {
    match f
    case AnthropicKeyField => s.anthropicApiKey
    case AnthropicBaseUrlField => s.anthropicBaseUrl
    case TavilyKeyField => s.tavilyApiKey
    case OpenaiKeyField => s.openaiApiKey
  }

  /** The key a provider's requests use. */
  function KeyOf(s: ApiSettings, p: Provider): string
  {
    match p
    case Anthropic => s.anthropicApiKey
    case OpenAI => s.openaiApiKey
  }

  // ---------------------------------------------------------------------------
  // The store's operations on a settings value
  // ---------------------------------------------------------------------------

  /** A text field typed into the panel: the store stops following the
      server's defaults. */
  function Typed(s: ApiSettings, f: Field, value: string): ApiSettings
  {
    match f
    case AnthropicKeyField => s.(anthropicApiKey := value, useServerDefaults := false)
    case AnthropicBaseUrlField => s.(anthropicBaseUrl := value, useServerDefaults := false)
    case TavilyKeyField => s.(tavilyApiKey := value, useServerDefaults := false)
    case OpenaiKeyField => s.(openaiApiKey := value, useServerDefaults := false)
  }

  function ProviderSelected(s: ApiSettings, p: Provider): ApiSettings
  {
    s.(selectedProvider := p, selectedModel := DefaultModel(p))
  }

  function ModelSelected(s: ApiSettings, model: string): ApiSettings
  {
    s.(selectedModel := model)
  }

  /** A key the user typed, as opposed to none or the server placeholder. */
  predicate IsUserKey(k: string)
  {
    k != "" && k != FromServer
  }

  /** The state after a successful `/api/config` answer: user keys stay, the
      other keys show whether the server has one, the base URL is the
      server's, and the store follows the server's defaults exactly when no
      user key is left and the server has some key. */
  function Merged(s: ApiSettings, c: ServerConfig): ApiSettings
  {
    var userAnthropic := IsUserKey(s.anthropicApiKey);
    var userOpenai := IsUserKey(s.openaiApiKey);
    var userTavily := IsUserKey(s.tavilyApiKey);
    s.(anthropicApiKey := if userAnthropic then s.anthropicApiKey else if c.hasAnthropicApiKey then FromServer else "",
       anthropicBaseUrl := c.anthropicBaseUrl,
       tavilyApiKey := if userTavily then s.tavilyApiKey else if c.hasTavilyApiKey then FromServer else "",
       openaiApiKey := if userOpenai then s.openaiApiKey else if c.hasOpenaiApiKey then FromServer else "",
       useServerDefaults := !userAnthropic && !userOpenai && !userTavily
         && (c.hasAnthropicApiKey || c.hasOpenaiApiKey || c.hasTavilyApiKey))
  }

  /** `hasApiKey(provider)`: the two modes test the key the same way. */
  function HasApiKey(s: ApiSettings, p: Provider): (r: bool)
    ensures r <==> KeyOf(s, p) != ""
    ensures KeyOf(s, p) == FromServer ==> r
  {
    if s.useServerDefaults then
      if p == Anthropic then s.anthropicApiKey != "" else s.openaiApiKey != ""
    else
      if p == Anthropic then Truthy(Str(s.anthropicApiKey)) else Truthy(Str(s.openaiApiKey))
  }

  /** `hasAnyApiKey()`: the search key does not count. */
  function HasAnyApiKey(s: ApiSettings): (r: bool)
    ensures r <==> HasApiKey(s, Anthropic) || HasApiKey(s, OpenAI)
  {
    Truthy(Str(s.anthropicApiKey)) || Truthy(Str(s.openaiApiKey))
  }

  /** The key the chat request sends to the server: the placeholder becomes
      empty, so that the server falls back on its own key. */
  function KeyForServer(k: string): (r: string)
    ensures IsUserKey(k) ==> r == k
    ensures !IsUserKey(k) ==> r == ""
  {
    if k == FromServer then "" else k
  }

  // ---------------------------------------------------------------------------
  // Properties
  // ---------------------------------------------------------------------------

  /** A setter changes its own field, turns off the server defaults, and
      leaves every other field as it was. */
  lemma TypedChangesOnlyItsField(s: ApiSettings, f: Field, value: string, g: Field)
    ensures FieldOf(Typed(s, f, value), g) == if g == f then value else FieldOf(s, g)
    ensures !Typed(s, f, value).useServerDefaults
    ensures Typed(s, f, value).selectedProvider == s.selectedProvider
    ensures Typed(s, f, value).selectedModel == s.selectedModel
  {
  }

  /** A provider switch picks that provider's default model and leaves the
      keys, the base URL and the defaults flag alone. */
  lemma ProviderSelectedKeepsKeys(s: ApiSettings, p: Provider, f: Field)
    ensures ProviderSelected(s, p).selectedProvider == p
    ensures ProviderSelected(s, p).selectedModel == DefaultModel(p)
    ensures FieldOf(ProviderSelected(s, p), f) == FieldOf(s, f)
    ensures ProviderSelected(s, p).useServerDefaults == s.useServerDefaults
  {
  }

  /** The reset state holds no key and follows the server's defaults. */
  lemma DefaultsHoldNoKey()
    ensures !HasAnyApiKey(Defaults)
    ensures !IsUserKey(Defaults.tavilyApiKey)
    ensures Defaults.useServerDefaults
    ensures Defaults.selectedModel == DefaultModel(Defaults.selectedProvider)
  {
  }

  /** A key the user typed survives the merge; any other key becomes the
      placeholder exactly when the server holds that key, and empty
      otherwise, so that a stale placeholder is cleared. */
  lemma MergeKeys(s: ApiSettings, c: ServerConfig)
    ensures IsUserKey(s.anthropicApiKey) ==> Merged(s, c).anthropicApiKey == s.anthropicApiKey
    ensures !IsUserKey(s.anthropicApiKey) ==>
      (Merged(s, c).anthropicApiKey == FromServer <==> c.hasAnthropicApiKey)
      && (Merged(s, c).anthropicApiKey == "" <==> !c.hasAnthropicApiKey)
    ensures IsUserKey(s.openaiApiKey) ==> Merged(s, c).openaiApiKey == s.openaiApiKey
    ensures !IsUserKey(s.openaiApiKey) ==>
      (Merged(s, c).openaiApiKey == FromServer <==> c.hasOpenaiApiKey)
      && (Merged(s, c).openaiApiKey == "" <==> !c.hasOpenaiApiKey)
    ensures IsUserKey(s.tavilyApiKey) ==> Merged(s, c).tavilyApiKey == s.tavilyApiKey
    ensures !IsUserKey(s.tavilyApiKey) ==>
      (Merged(s, c).tavilyApiKey == FromServer <==> c.hasTavilyApiKey)
      && (Merged(s, c).tavilyApiKey == "" <==> !c.hasTavilyApiKey)
    ensures Merged(s, c).anthropicBaseUrl == c.anthropicBaseUrl
    ensures Merged(s, c).selectedProvider == s.selectedProvider
    ensures Merged(s, c).selectedModel == s.selectedModel
  {
  }

  /** After the merge a provider has a key exactly when the user typed one
      or the server holds one. */
  lemma MergedHasApiKey(s: ApiSettings, c: ServerConfig)
    ensures HasApiKey(Merged(s, c), Anthropic) <==> IsUserKey(s.anthropicApiKey) || c.hasAnthropicApiKey
    ensures HasApiKey(Merged(s, c), OpenAI) <==> IsUserKey(s.openaiApiKey) || c.hasOpenaiApiKey
  {
  }

  /** Read from the merged state itself: the store follows the server's
      defaults exactly when the request would send no key of its own and at
      least one key is a server placeholder. */
  lemma ServerDefaultsMeaning(s: ApiSettings, c: ServerConfig)
    ensures var m := Merged(s, c);
      m.useServerDefaults <==>
        (KeyForServer(m.anthropicApiKey) == "" && KeyForServer(m.openaiApiKey) == ""
         && KeyForServer(m.tavilyApiKey) == ""
         && (m.anthropicApiKey == FromServer || m.openaiApiKey == FromServer || m.tavilyApiKey == FromServer))
  {
    MergeKeys(s, c);
  }

  /** Merging the same answer twice changes nothing more. */
  lemma MergeIdempotent(s: ApiSettings, c: ServerConfig)
    ensures Merged(Merged(s, c), c) == Merged(s, c)
  {
    assert !IsUserKey(FromServer);
  }

  /** The chat request never carries the placeholder: it sends a key the
      user typed, and nothing for a key the server holds. */
  lemma RequestKeysAfterMerge(s: ApiSettings, c: ServerConfig)
    ensures KeyForServer(Merged(s, c).anthropicApiKey) == if IsUserKey(s.anthropicApiKey) then s.anthropicApiKey else ""
    ensures KeyForServer(Merged(s, c).openaiApiKey) == if IsUserKey(s.openaiApiKey) then s.openaiApiKey else ""
    ensures KeyForServer(Merged(s, c).tavilyApiKey) == if IsUserKey(s.tavilyApiKey) then s.tavilyApiKey else ""
  {
    MergeKeys(s, c);
  }

  // ---------------------------------------------------------------------------
  // The store
  // ---------------------------------------------------------------------------

  class SettingsStore {
    var anthropicApiKey: string
    var anthropicBaseUrl: string
    var tavilyApiKey: string
    var openaiApiKey: string
    var selectedProvider: Provider
    var selectedModel: string
    var useServerDefaults: bool

    function State(): ApiSettings
      reads this
    {
      ApiSettings(anthropicApiKey, anthropicBaseUrl, tavilyApiKey, openaiApiKey,
        selectedProvider, selectedModel, useServerDefaults)
    }

    constructor ()
      ensures State() == Defaults
    {
      anthropicApiKey := "";
      anthropicBaseUrl := "https://api.anthropic.com/v1";
      tavilyApiKey := "";
      openaiApiKey := "";
      selectedProvider := Anthropic;
      selectedModel := "anthropic/claude-sonnet-4-5-20250929";
      useServerDefaults := true;
    }

    method SetAnthropicApiKey(key: string)
      modifies this
      ensures State() == Typed(old(State()), AnthropicKeyField, key)
    {
      anthropicApiKey := key;
      useServerDefaults := false;
    }

    method SetAnthropicBaseUrl(url: string)
      modifies this
      ensures State() == Typed(old(State()), AnthropicBaseUrlField, url)
    {
      anthropicBaseUrl := url;
      useServerDefaults := false;
    }

    method SetTavilyApiKey(key: string)
      modifies this
      ensures State() == Typed(old(State()), TavilyKeyField, key)
    {
      tavilyApiKey := key;
      useServerDefaults := false;
    }

    method SetOpenaiApiKey(key: string)
      modifies this
      ensures State() == Typed(old(State()), OpenaiKeyField, key)
    {
      openaiApiKey := key;
      useServerDefaults := false;
    }

    method SetSelectedProvider(provider: Provider)
      modifies this
      ensures State() == ProviderSelected(old(State()), provider)
    {
      selectedProvider := provider;
      selectedModel := if provider == Anthropic then "anthropic/claude-sonnet-4-5-20250929" else "openai/gpt-4.1";
    }

    method SetSelectedModel(model: string)
      modifies this
      ensures State() == ModelSelected(old(State()), model)
    {
      selectedModel := model;
    }

    method ResetSettings()
      modifies this
      ensures State() == Defaults
    {
      anthropicApiKey := Defaults.anthropicApiKey;
      anthropicBaseUrl := Defaults.anthropicBaseUrl;
      tavilyApiKey := Defaults.tavilyApiKey;
      openaiApiKey := Defaults.openaiApiKey;
      selectedProvider := Defaults.selectedProvider;
      selectedModel := Defaults.selectedModel;
      useServerDefaults := Defaults.useServerDefaults;
    }

    /** `initializeFromServer`, given what the config request produced:
        `None` when the response is not OK, the request rejects or its body
        is not JSON, all of which leave the store as it was. */
    method InitializeFromServer(config: Option<ServerConfig>)
      modifies this
      ensures State() == if config.None? then old(State()) else Merged(old(State()), config.value)
    {
      if config.None? {
        return;
      }
      var c := config.value;
      var hasUserAnthropicKey := IsUserKey(anthropicApiKey);
      var hasUserOpenaiKey := IsUserKey(openaiApiKey);
      var hasUserTavilyKey := IsUserKey(tavilyApiKey);
      anthropicApiKey := if hasUserAnthropicKey then anthropicApiKey else if c.hasAnthropicApiKey then FromServer else "";
      anthropicBaseUrl := c.anthropicBaseUrl;
      tavilyApiKey := if hasUserTavilyKey then tavilyApiKey else if c.hasTavilyApiKey then FromServer else "";
      openaiApiKey := if hasUserOpenaiKey then openaiApiKey else if c.hasOpenaiApiKey then FromServer else "";
      useServerDefaults := !hasUserAnthropicKey && !hasUserOpenaiKey && !hasUserTavilyKey
        && (c.hasAnthropicApiKey || c.hasOpenaiApiKey || c.hasTavilyApiKey);
    }
  }
}
