/** The provider settings file of the main process
    (src/services/settings/main.ts): version gate, defaults, API-key
    encryption fallbacks, load fallback and the saved record. */
module SettingsStore {
  import opened Wrappers
  import opened Json
  import opened Models

  const CurrentVersion: real := 1.0

  /** The flat settings the main process hands to its callers. */
  datatype ProviderSettings = ProviderSettings(provider: Provider, model: string, apiKey: string, ollamaEndpoint: Option<string>)

  /** The file record; `apiKey` holds the encrypted key. */
  datatype SettingsFile = SettingsFile(version: real, provider: Provider, model: string, apiKey: string, ollamaEndpoint: Option<string>)

  datatype SettingsError = InvalidFormat | UnsupportedVersion(version: real) | SchemaMismatch

  /** `PROVIDER_MODELS`: the main process's own catalogue. It lists Claude
      Opus 4.1 where the renderer catalogue (`Models`) lists Opus 4.5. */
  function ProviderModels(p: Provider): seq<ModelInfo> {
    match p
    case Anthropic => [
      ModelInfo("claude-sonnet-4-5", "Claude Sonnet 4.5"),
      ModelInfo("claude-opus-4-1", "Claude Opus 4.1"),
      ModelInfo("claude-haiku-4-5", "Claude Haiku 4.5")]
    case OpenAI => [
      ModelInfo("gpt-5.1", "GPT-5.1"),
      ModelInfo("gpt-5-mini", "GPT-5 mini"),
      ModelInfo("gpt-5-nano", "GPT-5 nano"),
      ModelInfo("gpt-5-pro", "GPT-5 pro"),
      ModelInfo("gpt-5", "GPT-5"),
      ModelInfo("gpt-4.1", "GPT-4.1")]
    case Google => [
      ModelInfo("gemini-3-pro", "Gemini 3 Pro"),
      ModelInfo("gemini-2.5-pro", "Gemini 2.5 Pro"),
      ModelInfo("gemini-2.5-flash", "Gemini 2.5 Flash")]
    case Ollama => []
  }

  /** The two catalogues agree everywhere except on the second Anthropic
      entry, and the Ollama list is empty in both. */
  lemma CataloguesDifferOnlyInOpus()
    ensures forall p :: p != Anthropic ==> ProviderModels(p) == ModelsFor(p)
    ensures |ProviderModels(Anthropic)| == |ModelsFor(Anthropic)| == 3
    ensures forall i :: 0 <= i < 3 && i != 1 ==> ProviderModels(Anthropic)[i] == ModelsFor(Anthropic)[i]
    ensures ProviderModels(Anthropic)[1].id == "claude-opus-4-1"
    ensures ModelsFor(Anthropic)[1].id == "claude-opus-4-5"
    ensures ProviderModels(Ollama) == []
  {
    forall p | p != Anthropic ensures ProviderModels(p) == ModelsFor(p) {
      match p
      case OpenAI =>
      case Google =>
      case Ollama =>
    }
  }

  /** The platform's secret store: whether encryption is available, and the
      encryption (rendered as base64) and decryption (which may fail). */
  datatype SafeStorage = SafeStorage(available: bool, encrypt: string -> string, decrypt: string -> Option<string>)

  /** `encryptAPIKey`: plaintext when encryption is unavailable. */
  function EncryptApiKey(st: SafeStorage, key: string): (r: string)
    ensures !st.available ==> r == key
    ensures st.available ==> r == st.encrypt(key)
  {
    if !st.available then key else st.encrypt(key)
  }

  /** `decryptAPIKey`: plaintext when encryption is unavailable, and the stored
      string unchanged when decryption fails. */
  function DecryptApiKey(st: SafeStorage, stored: string): (r: string)
    ensures !st.available ==> r == stored
    ensures st.available && st.decrypt(stored).None? ==> r == stored
    ensures st.available && st.decrypt(stored).Some? ==> r == st.decrypt(stored).value
  {
    if !st.available then stored
    else match st.decrypt(stored)
      case Some(k) => k
      case None => stored
  }

  /** A key survives encryption and decryption whenever the secret store
      itself round-trips it, and always when encryption is unavailable. */
  lemma ApiKeyRoundTrip(st: SafeStorage, key: string)
    requires st.available ==> st.decrypt(st.encrypt(key)) == Some(key)
    ensures DecryptApiKey(st, EncryptApiKey(st, key)) == key
  {
  }

  const DefaultOllamaEndpoint := "http://localhost:11434"

  /** `getDefaultSettings`. */
  function DefaultSettings(st: SafeStorage): (r: SettingsFile)
    ensures r.version == CurrentVersion && r.provider == Anthropic
    ensures r.model == ProviderModels(Anthropic)[0].id == "claude-sonnet-4-5"
    ensures r.apiKey == EncryptApiKey(st, "")
    ensures r.ollamaEndpoint == Some(DefaultOllamaEndpoint)
  {
    SettingsFile(CurrentVersion, Anthropic, ProviderModels(Anthropic)[0].id, EncryptApiKey(st, ""), Some(DefaultOllamaEndpoint))
  }

  /** `SettingsFileSchema.parse`: an object (not an array) with a numeric
      `version`, a known `provider`, string `model` and `apiKey`, and an
      optional string `ollamaEndpoint`; other keys are stripped. */
  function ParseSettingsFile(data: Json): (r: Option<SettingsFile>)
    ensures r.Some? ==> data.JObject? && "version" in data.fields && data.fields["version"] == JNumber(r.value.version)
    ensures r.Some? ==> "model" in data.fields && data.fields["model"] == JString(r.value.model)
    ensures r.Some? ==> "apiKey" in data.fields && data.fields["apiKey"] == JString(r.value.apiKey)
    ensures r.Some? ==> "provider" in data.fields && data.fields["provider"] == JString(ProviderName(r.value.provider))
  {
    if !data.JObject? then None
    else
      var v := NumberField(data, "version");
      var p := StringField(data, "provider");
      var m := StringField(data, "model");
      var k := StringField(data, "apiKey");
      if v.None? || p.None? || m.None? || k.None? || ParseProvider(p.value).None? then None
      else if "ollamaEndpoint" !in data.fields then
        Some(SettingsFile(v.value, ParseProvider(p.value).value, m.value, k.value, None))
      else if data.fields["ollamaEndpoint"].JString? then
        Some(SettingsFile(v.value, ParseProvider(p.value).value, m.value, k.value, Some(data.fields["ollamaEndpoint"].s)))
      else None
  }

  /** `migrateSettings`: rejects non-objects and versions above the current
      one; a missing version reads as 0 and passes the version gate, but the
      schema then demands a numeric `version`. */
  function MigrateSettings(data: Json): (r: Result<SettingsFile, SettingsError>)
    ensures !IsObjectLike(data) <==> r == Err(InvalidFormat)
    ensures IsObjectLike(data) && VersionOf(data) > CurrentVersion <==> r == Err(UnsupportedVersion(VersionOf(data)))
    ensures r.Ok? ==> r.value.version <= CurrentVersion && Some(r.value) == ParseSettingsFile(data)
    ensures r.Ok? ==> data.JObject? && "version" in data.fields
  {
    if !IsObjectLike(data) then Err(InvalidFormat)
    else if VersionOf(data) > CurrentVersion then Err(UnsupportedVersion(VersionOf(data)))
    else match ParseSettingsFile(data)
      case Some(f) => Ok(f)
      case None => Err(SchemaMismatch)
  }

  /** The JSON object `saveSettings` writes for a file record. */
  function EncodeSettingsFile(f: SettingsFile): Json {
    var base := map["version" := JNumber(f.version), "provider" := JString(ProviderName(f.provider)),
                    "model" := JString(f.model), "apiKey" := JString(f.apiKey)];
    match f.ollamaEndpoint
    case None => JObject(base)
    case Some(e) => JObject(base["ollamaEndpoint" := JString(e)])
  }

  /** Every record at or below the current version is read back unchanged. */
  lemma SettingsFileRoundTrip(f: SettingsFile)
    requires f.version <= CurrentVersion
    ensures MigrateSettings(EncodeSettingsFile(f)) == Ok(f)
  {
    ProviderNameRoundTrip(f.provider);
  }

  /** The outcome of `loadSettings` that resolves: the settings returned and,
      when the defaults were substituted, the file record written back. */
  datatype Loaded = Loaded(settings: ProviderSettings, rewritten: Option<SettingsFile>)

  /** `loadSettings`. `file` is the parsed file content, `None` when reading or
      `JSON.parse` failed; `writeOk` says whether rewriting the default file
      succeeds (when it does not, the call rejects). */
  function LoadSettings(file: Option<Json>, st: SafeStorage, writeOk: bool): (r: Option<Loaded>)
    ensures file.Some? && MigrateSettings(file.value).Ok? ==>
              (var f := MigrateSettings(file.value).value;
               r == Some(Loaded(ProviderSettings(f.provider, f.model, DecryptApiKey(st, f.apiKey), f.ollamaEndpoint), None)))
    ensures !(file.Some? && MigrateSettings(file.value).Ok?) ==> (r.Some? <==> writeOk)
    ensures !(file.Some? && MigrateSettings(file.value).Ok?) && r.Some? ==>
              && r.value.rewritten == Some(DefaultSettings(st))
              && r.value.settings.provider == Anthropic
              && r.value.settings.model == "claude-sonnet-4-5"
              && r.value.settings.ollamaEndpoint == Some(DefaultOllamaEndpoint)
              && r.value.settings.apiKey == DecryptApiKey(st, EncryptApiKey(st, ""))
  {
    var migrated := if file.Some? then MigrateSettings(file.value) else Err(InvalidFormat);
    match migrated
    case Ok(f) => Some(Loaded(ProviderSettings(f.provider, f.model, DecryptApiKey(st, f.apiKey), f.ollamaEndpoint), None))
    case Err(_) =>
      var d := DefaultSettings(st);
      if !writeOk then None
      else Some(Loaded(ProviderSettings(d.provider, d.model, DecryptApiKey(st, d.apiKey), d.ollamaEndpoint), Some(d)))
  }

  /** `saveSettings`: the record written for the given settings. */
  function SaveSettings(s: ProviderSettings, st: SafeStorage): (r: SettingsFile)
    ensures r.version == CurrentVersion
    ensures r.provider == s.provider && r.model == s.model && r.ollamaEndpoint == s.ollamaEndpoint
    ensures r.apiKey == EncryptApiKey(st, s.apiKey)
  {
    SettingsFile(CurrentVersion, s.provider, s.model, EncryptApiKey(st, s.apiKey), s.ollamaEndpoint)
  }

  /** Saving then loading returns the saved settings, provided the secret
      store round-trips the key. */
  lemma SaveThenLoad(s: ProviderSettings, st: SafeStorage, writeOk: bool)
    requires st.available ==> st.decrypt(st.encrypt(s.apiKey)) == Some(s.apiKey)
    ensures LoadSettings(Some(EncodeSettingsFile(SaveSettings(s, st))), st, writeOk) == Some(Loaded(s, None))
  {
    SettingsFileRoundTrip(SaveSettings(s, st));
    ApiKeyRoundTrip(st, s.apiKey);
  }
}
