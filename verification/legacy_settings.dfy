/** The older settings form (src/settings/App.tsx): one provider, one model
    and one API key, an explicit edited/focused pair for the key field, and
    a save that decides which key and which endpoint are written. */
module LegacySettings {
  import opened Wrappers
  import opened Models
  import opened SettingsStore
  import opened Frames
  import SecureInput

  /** The form's state. `models` is the list last fetched for `provider`. */
  datatype Form = Form(
    provider: Provider,
    model: string,
    apiKey: string,
    originalApiKey: string,
    apiKeyEdited: bool,
    apiKeyFocused: bool,
    ollamaEndpoint: string,
    models: seq<ModelInfo>,
    saved: bool)

  /** The form before anything has been fetched. */
  function Initial(): (f: Form)
    ensures f.provider == Anthropic && f.model == "" && f.apiKey == f.originalApiKey == ""
    ensures !f.apiKeyEdited && !f.apiKeyFocused && f.ollamaEndpoint == DefaultOllamaEndpoint
  {
    Form(Anthropic, "", "", "", false, false, DefaultOllamaEndpoint, [], false)
  }

  /** The mount-time load: the fetched settings fill the form and the key
      becomes the original key; a missing endpoint falls back to the local
      default. Then `models` receives the fetched list for that provider. */
  function ApplyLoaded(f: Form, s: ProviderSettings, list: seq<ModelInfo>): (r: Form)
    ensures r.provider == s.provider && r.model == s.model
    ensures r.apiKey == r.originalApiKey == s.apiKey
    ensures !r.apiKeyEdited && !r.apiKeyFocused && r.models == list && r.saved == f.saved
    ensures s.ollamaEndpoint.Some? ==> r.ollamaEndpoint == s.ollamaEndpoint.value
    ensures s.ollamaEndpoint.None? ==> r.ollamaEndpoint == DefaultOllamaEndpoint
  {
    Form(s.provider, s.model, s.apiKey, s.apiKey, false, false,
         if s.ollamaEndpoint.Some? then s.ollamaEndpoint.value else DefaultOllamaEndpoint,
         list, f.saved)
  }

  /** The effect that runs whenever `provider` changes: the list for the new
      provider replaces `models` and the model becomes its first entry, or
      the empty string when the list is empty (Ollama's free-text model). */
  function ProviderChanged(f: Form, list: seq<ModelInfo>): (r: Form)
    ensures r.models == list
    ensures |list| > 0 ==> r.model == list[0].id
    ensures |list| == 0 ==> r.model == ""
    ensures r == f.(models := list, model := r.model)
  {
    f.(models := list, model := if |list| > 0 then list[0].id else "")
  }

  /** The user picks a provider: the effect runs only if the value changed. */
  function SelectProvider(f: Form, p: Provider, list: seq<ModelInfo>): (r: Form)
    ensures p == f.provider ==> r == f
    ensures p != f.provider ==> r.provider == p && r.models == list
    ensures p != f.provider && |list| > 0 ==> r.model == list[0].id
    ensures p != f.provider && |list| == 0 ==> r.model == ""
  {
    if p == f.provider then f else ProviderChanged(f.(provider := p), list)
  }

  /** Loading as written: filling in the fetched provider changes the
      `provider` state, so when it differs from the form's the provider
      effect runs afterwards and overwrites the loaded model. The model list
      that the mount-time run of the same effect requested for Anthropic is
      taken to have arrived before the load completes; if it arrived later
      it would replace the loaded model too, with Anthropic's first model. */
  function LoadAsWritten(f: Form, s: ProviderSettings, list: seq<ModelInfo>): (r: Form)
    ensures s.provider == f.provider ==> r == ApplyLoaded(f, s, list)
    ensures s.provider != f.provider ==> r == ProviderChanged(ApplyLoaded(f, s, list), list)
  {
    var loaded := ApplyLoaded(f, s, list);
    if s.provider != f.provider then ProviderChanged(loaded, list) else loaded
  }

  /** Loading as intended: the first-model default belongs to a switch the
      user makes, so the loaded model is kept. */
  function Load(f: Form, s: ProviderSettings, list: seq<ModelInfo>): (r: Form)
    ensures r.provider == s.provider && r.model == s.model && r.originalApiKey == s.apiKey
  {
    ApplyLoaded(f, s, list)
  }

  /** Focus clears the field and forgets any typing. */
  function FocusKey(f: Form): (r: Form)
    ensures r.apiKeyFocused && !r.apiKeyEdited && r.apiKey == ""
    ensures r.originalApiKey == f.originalApiKey
  {
    f.(apiKeyFocused := true, apiKey := "", apiKeyEdited := false)
  }

  /** Blur without typing puts the original key back; typed text stays. */
  function BlurKey(f: Form): (r: Form)
    ensures !r.apiKeyFocused && r.apiKeyEdited == f.apiKeyEdited
    ensures !f.apiKeyEdited ==> r.apiKey == f.originalApiKey
    ensures f.apiKeyEdited ==> r.apiKey == f.apiKey
  {
    var unfocused := f.(apiKeyFocused := false);
    if !f.apiKeyEdited then unfocused.(apiKey := f.originalApiKey) else unfocused
  }

  function TypeKey(f: Form, typed: string): (r: Form)
    ensures r.apiKeyEdited && r.apiKey == typed && r.originalApiKey == f.originalApiKey
  {
    f.(apiKeyEdited := true, apiKey := typed)
  }

  /** What the key field shows: the raw text while focused or edited, and
      otherwise the masked original key. */
  function DisplayKey(f: Form): (r: string)
    ensures f.apiKeyFocused || f.apiKeyEdited ==> r == f.apiKey
    ensures !f.apiKeyFocused && !f.apiKeyEdited ==> r == SecureInput.MaskApiKey(f.originalApiKey)
  {
    if f.apiKeyFocused || f.apiKeyEdited then f.apiKey else SecureInput.MaskApiKey(f.originalApiKey)
  }

  /** `handleSave`: the record sent to the main process and the form after
      the save. The typed key is sent only if the user typed; the endpoint
      only for Ollama. `outcome` is how the awaited `saveSettings` settled:
      the form is updated only after it resolves, and a rejection (which
      the form does not catch) leaves every field as it was. */
  function HandleSave(f: Form, outcome: Result<(), Thrown>): (r: (ProviderSettings, Form))
    ensures r.0.provider == f.provider && r.0.model == f.model
    ensures r.0.apiKey == (if f.apiKeyEdited then f.apiKey else f.originalApiKey)
    ensures r.0.ollamaEndpoint.Some? <==> f.provider == Ollama
    ensures r.0.ollamaEndpoint.Some? ==> r.0.ollamaEndpoint.value == f.ollamaEndpoint
    ensures outcome.Ok? ==> r.1.originalApiKey == r.1.apiKey == r.0.apiKey
    ensures outcome.Ok? ==> !r.1.apiKeyEdited && !r.1.apiKeyFocused && r.1.saved
    ensures outcome.Ok? ==> r.1.provider == f.provider && r.1.model == f.model
    ensures outcome.Err? ==> r.1 == f
  {
    var key := if f.apiKeyEdited then f.apiKey else f.originalApiKey;
    var request := ProviderSettings(f.provider, f.model, key,
                                    if f.provider == Ollama then Some(f.ollamaEndpoint) else None);
    if outcome.Err? then (request, f)
    else (request, f.(originalApiKey := key, apiKey := key, apiKeyEdited := false,
                      apiKeyFocused := false, saved := true))
  }

  /** Focusing the key field and leaving it without typing saves the
      original key, not the cleared field. */
  lemma FocusBlurKeepsKey(f: Form)
    ensures HandleSave(BlurKey(FocusKey(f)), Ok(())).0.apiKey == f.originalApiKey
    ensures DisplayKey(BlurKey(FocusKey(f))) == SecureInput.MaskApiKey(f.originalApiKey)
  {
  }

  /** A focused field that was typed into saves the typed key, and after the
      save the field shows that key masked. */
  lemma TypedKeyIsSaved(f: Form, typed: string)
    ensures HandleSave(BlurKey(TypeKey(FocusKey(f), typed)), Ok(())).0.apiKey == typed
    ensures DisplayKey(HandleSave(BlurKey(TypeKey(FocusKey(f), typed)), Ok(())).1) == SecureInput.MaskApiKey(typed)
  {
  }

  /** A rejected save keeps the typing: the form still counts the key as
      edited, keeps the original key and shows the typed text, so retrying
      the save sends the typed key again. */
  lemma RejectedSaveKeepsTyping(f: Form, typed: string, err: Thrown)
    ensures var typedForm := BlurKey(TypeKey(FocusKey(f), typed));
      var after := HandleSave(typedForm, Err(err)).1;
      && after.apiKeyEdited && after.originalApiKey == f.originalApiKey && after.saved == f.saved
      && DisplayKey(after) == typed
      && HandleSave(after, Ok(())).0.apiKey == typed
  {
  }

  /** Loading saved settings and saving straight away writes them back,
      except that the endpoint is kept only for Ollama (where a missing one
      becomes the local default). */
  lemma LoadThenSave(f: Form, s: ProviderSettings, list: seq<ModelInfo>)
    ensures var request := HandleSave(Load(f, s, list), Ok(())).0;
      && request.provider == s.provider && request.model == s.model && request.apiKey == s.apiKey
      && (s.provider == Ollama ==>
            request.ollamaEndpoint == Some(if s.ollamaEndpoint.Some? then s.ollamaEndpoint.value else DefaultOllamaEndpoint))
      && (s.provider != Ollama ==> request.ollamaEndpoint.None?)
  {
  }

  /** As written, a saved Ollama model does not survive loading: the form
      starts on Anthropic, so the loaded provider triggers the provider
      effect, and Ollama's empty list clears the model, which the next save
      would write. */
  lemma LoadAsWrittenClearsOllamaModel()
    ensures var s := ProviderSettings(Ollama, "llama3", "", None);
      && LoadAsWritten(Initial(), s, []).model == ""
      && HandleSave(LoadAsWritten(Initial(), s, []), Ok(())).0.model == ""
      && Load(Initial(), s, []).model == "llama3"
  {
  }

  /** As written, every saved model of a provider other than Anthropic is
      replaced by that provider's first listed model. */
  lemma LoadAsWrittenResetsModel(s: ProviderSettings, list: seq<ModelInfo>)
    requires s.provider != Anthropic
    ensures LoadAsWritten(Initial(), s, list).model == (if |list| > 0 then list[0].id else "")
  {
  }
}
