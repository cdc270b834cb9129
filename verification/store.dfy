/** The client-side state container: the conversation, the loading and
    recording flags, the settings and the list of models, with the actions
    that replace them. Every action is a function from the old state to the
    new one. */
module Store {
  import opened Js
  import opened Text
  import opened Chat

  /** The id and timestamp `addMessage` attaches to a message. The
      application draws them from `Math.random` and `Date.now`; here the
      caller supplies them, and nothing depends on their values. */
  datatype Stamp = Stamp(id: string, timestamp: int)

  datatype Message = Message(role: Role, content: string, stamp: Stamp)

  /** A partial settings object: the keys present overwrite, the rest stay. */
  datatype SettingsPatch = SettingsPatch(
    provider: Option<string>,
    baseUrl: Option<string>,
    model: Option<string>,
    temperature: Option<real>,
    maxTokens: Option<int>,
    topP: Option<real>,
    topK: Option<int>,
    repeatPenalty: Option<real>,
    systemPrompt: Option<string>,
    streamResponse: Option<bool>)

  /** The patch with no keys. */
  const NoKeys := SettingsPatch(None, None, None, None, None, None, None, None, None, None)

  datatype State = State(
    messages: seq<Message>,
    isLoading: bool,
    isRecording: bool,
    settings: Settings,
    availableModels: seq<string>)

  const DefaultSystemPrompt :=
    "You are a helpful AI assistant running locally on the user's computer. You can help with tasks, answer questions, and search through information."

  const DefaultSettings := Settings(Ollama, OllamaDefaultUrl, "llama2", 0.7, 2048, 0.9, 40, 1.1, DefaultSystemPrompt, true)

  /** The state the application starts in. */
  function Initial(): (s: State)
    ensures s.messages == [] && !s.isLoading && !s.isRecording && s.availableModels == []
    ensures s.settings.provider == "ollama" && s.settings.baseUrl == "http://localhost:11434"
    ensures s.settings.model == "llama2" && s.settings.streamResponse
    ensures s.settings.maxTokens == 2048 && s.settings.topK == 40 && s.settings.systemPrompt != ""
  {
    State([], false, false, DefaultSettings, [])
  }

  predicate LastIsAssistant(messages: seq<Message>) {
    |messages| > 0 && messages[|messages| - 1].role == Assistant
  }

  /** `addMessage`: one message with the given role and content goes at the
      end; the earlier messages and every other field stay. */
  function AddMessage(s: State, role: Role, content: string, stamp: Stamp): (r: State)
    ensures |r.messages| == |s.messages| + 1
    ensures r.messages[..|s.messages|] == s.messages
    ensures r.messages[|s.messages|].role == role && r.messages[|s.messages|].content == content
    ensures r.(messages := s.messages) == s
  {
    s.(messages := s.messages + [Message(role, content, stamp)])
  }

  /** `clearMessages`. */
  function ClearMessages(s: State): (r: State)
    ensures r.messages == [] && r.(messages := s.messages) == s
  {
    s.(messages := [])
  }

  /** `setLoading`. */
  function SetLoading(s: State, loading: bool): (r: State)
    ensures r.isLoading == loading && r.(isLoading := s.isLoading) == s
  {
    s.(isLoading := loading)
  }

  /** `setRecording`. */
  function SetRecording(s: State, recording: bool): (r: State)
    ensures r.isRecording == recording && r.(isRecording := s.isRecording) == s
  {
    s.(isRecording := recording)
  }

  /** `setAvailableModels`. */
  function SetAvailableModels(s: State, models: seq<string>): (r: State)
    ensures r.availableModels == models && r.(availableModels := s.availableModels) == s
  {
    s.(availableModels := models)
  }

  /** `{ ...s, ...p }`: the keys present in `p` take its values, the others keep those of `s`. */
  function Merge(s: Settings, p: SettingsPatch): (r: Settings)
    ensures p.provider.Some? ==> r.provider == p.provider.value
    ensures p.provider.None? ==> r.provider == s.provider
    ensures p.baseUrl.Some? ==> r.baseUrl == p.baseUrl.value
    ensures p.baseUrl.None? ==> r.baseUrl == s.baseUrl
    ensures p.model.Some? ==> r.model == p.model.value
    ensures p.model.None? ==> r.model == s.model
    ensures p.temperature.Some? ==> r.temperature == p.temperature.value
    ensures p.temperature.None? ==> r.temperature == s.temperature
    ensures p.maxTokens.Some? ==> r.maxTokens == p.maxTokens.value
    ensures p.maxTokens.None? ==> r.maxTokens == s.maxTokens
    ensures p.topP.Some? ==> r.topP == p.topP.value
    ensures p.topP.None? ==> r.topP == s.topP
    ensures p.topK.Some? ==> r.topK == p.topK.value
    ensures p.topK.None? ==> r.topK == s.topK
    ensures p.repeatPenalty.Some? ==> r.repeatPenalty == p.repeatPenalty.value
    ensures p.repeatPenalty.None? ==> r.repeatPenalty == s.repeatPenalty
    ensures p.systemPrompt.Some? ==> r.systemPrompt == p.systemPrompt.value
    ensures p.systemPrompt.None? ==> r.systemPrompt == s.systemPrompt
    ensures p.streamResponse.Some? ==> r.streamResponse == p.streamResponse.value
    ensures p.streamResponse.None? ==> r.streamResponse == s.streamResponse
  {
    Settings(
      p.provider.GetOr(s.provider),
      p.baseUrl.GetOr(s.baseUrl),
      p.model.GetOr(s.model),
      p.temperature.GetOr(s.temperature),
      p.maxTokens.GetOr(s.maxTokens),
      p.topP.GetOr(s.topP),
      p.topK.GetOr(s.topK),
      p.repeatPenalty.GetOr(s.repeatPenalty),
      p.systemPrompt.GetOr(s.systemPrompt),
      p.streamResponse.GetOr(s.streamResponse))
  }

  /** `updateSettings`: only the settings change. */
  function UpdateSettings(s: State, p: SettingsPatch): (r: State)
    ensures r.settings == Merge(s.settings, p) && r.(settings := s.settings) == s
  {
    s.(settings := Merge(s.settings, p))
  }

  /** A patch with no keys changes nothing. */
  lemma MergeNoKeys(s: Settings)
    ensures Merge(s, NoKeys) == s
  {
  }

  /** Applying the same patch twice is applying it once. */
  lemma MergeIdempotent(s: Settings, p: SettingsPatch)
    ensures Merge(Merge(s, p), p) == Merge(s, p)
  {
  }

  /** `p` then `q`, as one patch: the keys of `q` win. */
  function Then(p: SettingsPatch, q: SettingsPatch): SettingsPatch {
    SettingsPatch(
      if q.provider.Some? then q.provider else p.provider,
      if q.baseUrl.Some? then q.baseUrl else p.baseUrl,
      if q.model.Some? then q.model else p.model,
      if q.temperature.Some? then q.temperature else p.temperature,
      if q.maxTokens.Some? then q.maxTokens else p.maxTokens,
      if q.topP.Some? then q.topP else p.topP,
      if q.topK.Some? then q.topK else p.topK,
      if q.repeatPenalty.Some? then q.repeatPenalty else p.repeatPenalty,
      if q.systemPrompt.Some? then q.systemPrompt else p.systemPrompt,
      if q.streamResponse.Some? then q.streamResponse else p.streamResponse)
  }

  /** Two updates in a row are one update with the combined patch. */
  lemma MergeThen(s: Settings, p: SettingsPatch, q: SettingsPatch)
    ensures Merge(Merge(s, p), q) == Merge(s, Then(p, q))
  {
  }

  /** `updateLastMessage`: the text is appended to the last message when it
      is the assistant's; otherwise the conversation is left as it is. The
      number of messages, the earlier messages and every other field stay. */
  function UpdateLastMessage(s: State, text: string): (r: State)
    ensures |r.messages| == |s.messages|
    ensures forall i :: 0 <= i < |s.messages| - 1 ==> r.messages[i] == s.messages[i]
    ensures LastIsAssistant(s.messages) ==>
      var last := s.messages[|s.messages| - 1];
      r.messages[|s.messages| - 1] == last.(content := last.content + text)
    ensures !LastIsAssistant(s.messages) ==> r.messages == s.messages
    ensures r.(messages := s.messages) == s
  {
    if LastIsAssistant(s.messages) then
      var n := |s.messages|;
      var last := s.messages[n - 1];
      s.(messages := s.messages[n - 1 := last.(content := last.content + text)])
    else
      s
  }

  /** `updateLastMessage` with each text in turn. */
  function UpdateLastMessages(s: State, texts: seq<string>): State
    decreases |texts|
  {
    if texts == [] then s else UpdateLastMessages(UpdateLastMessage(s, texts[0]), texts[1..])
  }

  lemma UpdateLastMessageTwice(s: State, a: string, b: string)
    ensures UpdateLastMessage(UpdateLastMessage(s, a), b) == UpdateLastMessage(s, a + b)
  {
    if LastIsAssistant(s.messages) {
      var last := s.messages[|s.messages| - 1];
      assert last.content + a + b == last.content + (a + b);
    }
  }

  /** Appending the texts one at a time is appending their concatenation once. */
  lemma {:induction false} UpdateLastMessagesIsOneUpdate(s: State, texts: seq<string>)
    ensures UpdateLastMessages(s, texts) == UpdateLastMessage(s, Concat(texts))
    decreases |texts|
  {
    if texts == [] {
      if LastIsAssistant(s.messages) {
        var last := s.messages[|s.messages| - 1];
        assert last.(content := last.content + "") == last;
        assert s.messages[|s.messages| - 1 := last] == s.messages;
      }
    } else {
      UpdateLastMessagesIsOneUpdate(UpdateLastMessage(s, texts[0]), texts[1..]);
      UpdateLastMessageTwice(s, texts[0], Concat(texts[1..]));
    }
  }
}
