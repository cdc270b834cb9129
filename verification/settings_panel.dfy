/** The settings panel's logic: refreshing the model list from the catalog
    and reconciling the selected model with it, the provider selector with
    its base-URL defaults, and the streaming toggle. */
module SettingsPanel {
  import opened Js
  import opened Wire
  import opened Chat
  import opened Store

  /** The store together with the panel's own `isLoadingModels` flag. */
  datatype Panel = Panel(store: State, isLoadingModels: bool)

  /** The patch that only sets the model. */
  function ModelPatch(model: string): SettingsPatch {
    NoKeys.(model := Some(model))
  }

  /** Records a fetched model list; when the list is non-empty and does not
      hold the selected model, its first entry becomes the selected model. */
  function Reconcile(s: State, models: seq<string>): (r: State)
    ensures r.availableModels == models
    ensures |models| > 0 && s.settings.model !in models ==> r.settings == s.settings.(model := models[0])
    ensures |models| == 0 || s.settings.model in models ==> r.settings == s.settings
    ensures r.(availableModels := s.availableModels, settings := s.settings) == s
  {
    var listed := SetAvailableModels(s, models);
    if |models| > 0 && s.settings.model !in models then UpdateSettings(listed, ModelPatch(models[0])) else listed
  }

  /** After reconciling with a non-empty list, the selected model is one of the listed ones. */
  lemma ReconcileSelectsListedModel(s: State, models: seq<string>)
    requires |models| > 0
    ensures Reconcile(s, models).settings.model in models
  {
  }

  /** Reconciling twice with the same list is reconciling once. */
  lemma ReconcileIdempotent(s: State, models: seq<string>)
    ensures Reconcile(Reconcile(s, models), models) == Reconcile(s, models)
  {
  }

  /** `fetchModels`. `relay` stands for the `fetch` of the catalog with the
      current provider and base URL, `parse` for `response.json()`. The
      status is not looked at: an error reply has no `models` and changes
      nothing, and a failure of the fetch or of the parse is swallowed.
      Either way the loading flag ends up cleared. */
  function FetchModels(s: State, relay: (string, string) -> Fetched, parse: string -> Parsed<Payload>): (r: Panel)
    ensures !r.isLoadingModels
    ensures var f := relay(s.settings.provider, s.settings.baseUrl);
      if f.Received? && parse(f.response.Body()).Parsed? && parse(f.response.Body()).value.models.Some?
      then r.store == Reconcile(s, parse(f.response.Body()).value.models.value)
      else r.store == s
  {
    var store :=
      match relay(s.settings.provider, s.settings.baseUrl)
      case Threw(_) => s
      case Received(resp) =>
        match parse(resp.Body())
        case Malformed(_) => s
        case Parsed(data) => if data.models.Some? then Reconcile(s, data.models.value) else s;
    Panel(store, false)
  }

  /** The base URL a provider starts with. */
  function DefaultBaseUrl(provider: string): string {
    if IsOllama(provider) then OllamaDefaultUrl else LmStudioDefaultUrl
  }

  /** The provider selector: the provider and its default base URL are set together. */
  function ChangeProvider(s: State, provider: string): (r: State)
    ensures r.settings.provider == provider
    ensures r.settings.baseUrl == (if provider == "ollama" then "http://localhost:11434" else "http://localhost:1234")
    ensures r.settings.(provider := s.settings.provider, baseUrl := s.settings.baseUrl) == s.settings
    ensures r.(settings := s.settings) == s
  {
    UpdateSettings(s, NoKeys.(provider := Some(provider), baseUrl := Some(DefaultBaseUrl(provider))))
  }

  /** The streaming toggle: it flips `streamResponse` and nothing else. */
  function ToggleStream(s: State): (r: State)
    ensures r.settings.streamResponse != s.settings.streamResponse
    ensures r.settings.(streamResponse := s.settings.streamResponse) == s.settings
    ensures r.(settings := s.settings) == s
  {
    UpdateSettings(s, NoKeys.(streamResponse := Some(!s.settings.streamResponse)))
  }

  /** Toggling twice restores the state. */
  lemma ToggleStreamTwice(s: State)
    ensures ToggleStream(ToggleStream(s)) == s
  {
  }
}
