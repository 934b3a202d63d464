/** The settings window (src/apps/settings/App.tsx over the record of
    src/services/settings/settings.ts): updates that touch one provider's
    options, and the save that waits for the settings to load. */
module SettingsApp {
  import opened Wrappers
  import opened Models
  import opened Frames
  import SecureInput

  /** Options of a provider that needs an API key. */
  datatype KeyedOptions = KeyedOptions(model: string, apiKey: string)

  datatype OllamaOptions = OllamaOptions(model: string, endpointURL: string)

  datatype Settings = Settings(
    version: real,
    provider: Provider,
    anthropic: KeyedOptions,
    openai: KeyedOptions,
    google: KeyedOptions,
    ollama: OllamaOptions)

  /** One change made through the form: the provider selector, or the
      options panel of one provider. */
  datatype Edit =
    | SelectProvider(provider: Provider)
    | EditOpenAI(openai: KeyedOptions)
    | EditAnthropic(anthropic: KeyedOptions)
    | EditGoogle(google: KeyedOptions)
    | EditOllama(ollama: OllamaOptions)

  /** The part of the record an edit writes. */
  datatype Field = ProviderField | OpenAIField | AnthropicField | GoogleField | OllamaField

  function FieldOf(e: Edit): Field {
    match e
    case SelectProvider(_) => ProviderField
    case EditOpenAI(_) => OpenAIField
    case EditAnthropic(_) => AnthropicField
    case EditGoogle(_) => GoogleField
    case EditOllama(_) => OllamaField
  }

  /** `s` and `t` hold the same value in field `f`. */
  ghost predicate Agree(f: Field, s: Settings, t: Settings) {
    match f
    case ProviderField => s.provider == t.provider
    case OpenAIField => s.openai == t.openai
    case AnthropicField => s.anthropic == t.anthropic
    case GoogleField => s.google == t.google
    case OllamaField => s.ollama == t.ollama
  }

  /** An update through the draft: nothing happens before the settings have
      loaded; otherwise only the edited field changes, to the value given. */
  function Apply(s: Option<Settings>, e: Edit): (r: Option<Settings>)
    ensures r.None? <==> s.None?
    ensures s.Some? ==> r.value.version == s.value.version
    ensures s.Some? ==> forall f: Field :: f != FieldOf(e) ==> Agree(f, s.value, r.value)
    ensures s.Some? && e.SelectProvider? ==> r.value.provider == e.provider
    ensures s.Some? && e.EditOpenAI? ==> r.value.openai == e.openai
    ensures s.Some? && e.EditAnthropic? ==> r.value.anthropic == e.anthropic
    ensures s.Some? && e.EditGoogle? ==> r.value.google == e.google
    ensures s.Some? && e.EditOllama? ==> r.value.ollama == e.ollama
  {
    match s
    case None => None
    case Some(x) =>
      Some(match e
        case SelectProvider(p) => x.(provider := p)
        case EditOpenAI(o) => x.(openai := KeyedOptions(o.model, o.apiKey))
        case EditAnthropic(o) => x.(anthropic := KeyedOptions(o.model, o.apiKey))
        case EditGoogle(o) => x.(google := KeyedOptions(o.model, o.apiKey))
        case EditOllama(o) => x.(ollama := OllamaOptions(o.model, o.endpointURL)))
  }

  /** Edits of different fields commute, and repeating an edit changes
      nothing more. */
  lemma EditsCommute(s: Option<Settings>, e1: Edit, e2: Edit)
    ensures FieldOf(e1) != FieldOf(e2) ==> Apply(Apply(s, e1), e2) == Apply(Apply(s, e2), e1)
    ensures Apply(Apply(s, e1), e1) == Apply(s, e1)
  {
  }

  /** Switching provider keeps every provider's options, so switching back
      shows what was entered before. */
  lemma SwitchingBackRestores(s: Settings, p: Provider)
    ensures Apply(Apply(Some(s), SelectProvider(p)), SelectProvider(s.provider)) == Some(s)
  {
  }

  /** The window: the loaded settings (if any) and the "saved" flash. */
  datatype Window = Window(settings: Option<Settings>, saved: bool)

  /** `handleSave`: returns what is written, and the window afterwards.
      `outcome` is how the awaited `saveSettings` settled: the flag is
      raised only once the write has resolved, and a rejected write leaves
      the window as it was. */
  function HandleSave(w: Window, outcome: Result<(), Thrown>): (r: (Option<Settings>, Window))
    ensures w.settings.None? ==> r.0.None? && r.1 == w
    ensures w.settings.Some? ==> r.0 == w.settings
    ensures w.settings.Some? && outcome.Ok? ==> r.1.saved && r.1.settings == w.settings
    ensures outcome.Err? ==> r.1 == w
  {
    if w.settings.None? then (None, w)
    else if outcome.Err? then (w.settings, w)
    else (w.settings, w.(saved := true))
  }

  /** The timer two seconds after a save. */
  function SavedTimerFires(w: Window): (r: Window)
    ensures !r.saved && r.settings == w.settings
  {
    w.(saved := false)
  }

  /** The API key of the provider a keyed panel edits, as its key field sees it. */
  function KeyOf(s: Settings, e: Edit): Option<string> {
    match e
    case EditOpenAI(_) => Some(s.openai.apiKey)
    case EditAnthropic(_) => Some(s.anthropic.apiKey)
    case EditGoogle(_) => Some(s.google.apiKey)
    case _ => None
  }

  /** Typing a key into a panel, outside the two seconds after a save,
      writes it to that provider only; the field shows it in clear until the
      save raises the flag, whose effect schedules a reset, after which the
      same key is shown masked. */
  lemma TypedKeyIsSavedAndMasked(w: Window, field: SecureInput.KeyInput, typed: string, e: Edit)
    requires w.settings.Some? && KeyOf(w.settings.value, e).Some?
    requires KeyOf(w.settings.value, e).value == field.value
    requires !w.saved && field.saved == w.saved
    requires typed != ""
    ensures var f := SecureInput.Change(field, typed);
      var w' := Window(Apply(w.settings, WithKey(e, typed)), w.saved);
      var (written, after) := HandleSave(w', Ok(()));
      && SecureInput.Display(f) == typed
      && written.Some? && KeyOf(written.value, e) == Some(typed)
      && after.saved
      && SecureInput.SavedRaised(f).pending == f.pending + 1
      && SecureInput.Display(SecureInput.ResetFires(SecureInput.SavedRaised(f))) == SecureInput.MaskApiKey(typed)
  {
  }

  /** When the write rejects, the flag stays down, so the field's effect
      schedules no reset: the typed key stays in clear and in the window's
      settings, and a second save writes it again. */
  lemma RejectedSaveKeepsTypedKey(w: Window, field: SecureInput.KeyInput, typed: string, e: Edit, err: Thrown)
    requires w.settings.Some? && KeyOf(w.settings.value, e).Some?
    requires !w.saved && field.saved == w.saved
    ensures var f := SecureInput.Change(field, typed);
      var w' := Window(Apply(w.settings, WithKey(e, typed)), w.saved);
      var (_, after) := HandleSave(w', Err(err));
      && after == w' && !after.saved
      && f.pending == field.pending
      && SecureInput.Display(f) == typed
      && HandleSave(after, Ok(())).0.Some? && KeyOf(HandleSave(after, Ok(())).0.value, e) == Some(typed)
  {
  }

  /** The edit a keyed panel sends when its key field reports `key`. */
  function WithKey(e: Edit, key: string): (r: Edit)
    ensures FieldOf(r) == FieldOf(e)
  {
    match e
    case EditOpenAI(o) => EditOpenAI(o.(apiKey := key))
    case EditAnthropic(o) => EditAnthropic(o.(apiKey := key))
    case EditGoogle(o) => EditGoogle(o.(apiKey := key))
    case _ => e
  }
}
