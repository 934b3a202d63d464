/** The system prompts file of the main process
    (src/services/prompts/main.ts): version gate, defaults and the load
    fallback. */
module PromptsStore {
  import opened Wrappers
  import opened Json

  const CurrentVersion: real := 1.0

  /** A system prompt; `menuLabel` is the file's `label` (a reserved word here). */
  datatype SystemPrompt = SystemPrompt(menuLabel: string, prompt: string)

  datatype PromptsFile = PromptsFile(version: real, prompts: seq<SystemPrompt>)

  datatype PromptsError = InvalidFormat | UnsupportedVersion(version: real) | SchemaMismatch

  /** `getDefaultPrompts`. */
  function DefaultPrompts(): (r: PromptsFile)
    ensures r.version == CurrentVersion && |r.prompts| == 3
    ensures r.prompts[0].menuLabel == "Code Review"
    ensures r.prompts[1].menuLabel == "Debug Help"
    ensures r.prompts[2].menuLabel == "Explain Code"
  {
    PromptsFile(CurrentVersion, [
      SystemPrompt("Code Review", "Review this code for bugs, performance issues, and best practices."),
      SystemPrompt("Debug Help", "Help me debug this issue. What could be causing this problem?"),
      SystemPrompt("Explain Code", "Explain what this code does in simple terms.")])
  }

  /** `SystemPromptSchema`: an object with string `label` and `prompt`. */
  function ParsePrompt(j: Json): (r: Option<SystemPrompt>)
    ensures r.Some? ==> j.JObject? && "label" in j.fields && "prompt" in j.fields && j.fields["label"] == JString(r.value.menuLabel) && j.fields["prompt"] == JString(r.value.prompt)
  {
    if !j.JObject? then None
    else
      var l := StringField(j, "label");
      var p := StringField(j, "prompt");
      if l.None? || p.None? then None else Some(SystemPrompt(l.value, p.value))
  }

  /** Every element parsed, in order, or nothing. */
  function ParsePrompts(items: seq<Json>): (r: Option<seq<SystemPrompt>>)
    ensures r.Some? ==> |r.value| == |items|
    ensures r.Some? ==> forall i :: 0 <= i < |items| ==> ParsePrompt(items[i]) == Some(r.value[i])
    ensures r.None? ==> exists i :: 0 <= i < |items| && ParsePrompt(items[i]).None?
    decreases |items|
  {
    if items == [] then Some([])
    else
      match ParsePrompt(items[0])
      case None => None
      case Some(p) =>
        match ParsePrompts(items[1..])
        case None =>
          ghost var i :| 0 <= i < |items[1..]| && ParsePrompt(items[1..][i]).None?;
          assert ParsePrompt(items[i + 1]).None?;
          None
        case Some(ps) => Some([p] + ps)
  }

  /** `PromptsFileSchema.parse`. */
  function ParsePromptsFile(data: Json): (r: Option<PromptsFile>)
    ensures r.Some? ==> data.JObject? && "version" in data.fields && data.fields["version"] == JNumber(r.value.version)
  {
    if !data.JObject? then None
    else
      var v := NumberField(data, "version");
      if v.None? || "prompts" !in data.fields || !data.fields["prompts"].JArray? then None
      else match ParsePrompts(data.fields["prompts"].items)
        case Some(ps) => Some(PromptsFile(v.value, ps))
        case None => None
  }

  /** `migratePrompts`: rejects non-objects and versions above the current
      one; the prompts come back in file order. */
  function MigratePrompts(data: Json): (r: Result<PromptsFile, PromptsError>)
    ensures r == Err(InvalidFormat) <==> !IsObjectLike(data)
    ensures r.Err? && r.error.UnsupportedVersion? <==> IsObjectLike(data) && VersionOf(data) > CurrentVersion
    ensures r.Ok? ==> r.value.version <= CurrentVersion
    ensures r.Ok? ==> data.JObject? && "prompts" in data.fields && data.fields["prompts"].JArray?
                      && |r.value.prompts| == |data.fields["prompts"].items|
                      && forall i :: 0 <= i < |r.value.prompts| ==> ParsePrompt(data.fields["prompts"].items[i]) == Some(r.value.prompts[i])
  {
    if !IsObjectLike(data) then Err(InvalidFormat)
    else if VersionOf(data) > CurrentVersion then Err(UnsupportedVersion(VersionOf(data)))
    else match ParsePromptsFile(data)
      case Some(f) => Ok(f)
      case None => Err(SchemaMismatch)
  }

  function EncodePrompt(p: SystemPrompt): Json {
    JObject(map["label" := JString(p.menuLabel), "prompt" := JString(p.prompt)])
  }

  function EncodePromptsFile(f: PromptsFile): Json {
    JObject(map["version" := JNumber(f.version),
                "prompts" := JArray(seq(|f.prompts|, i requires 0 <= i < |f.prompts| => EncodePrompt(f.prompts[i])))])
  }

  /** A file at or below the current version reads back unchanged; in
      particular the default file does. */
  lemma PromptsFileRoundTrip(f: PromptsFile)
    requires f.version <= CurrentVersion
    ensures MigratePrompts(EncodePromptsFile(f)) == Ok(f)
  {
    var items := EncodePromptsFile(f).fields["prompts"].items;
    assert forall i :: 0 <= i < |items| ==> ParsePrompt(items[i]) == Some(f.prompts[i]);
    var parsed := ParsePrompts(items);
    assert parsed.Some?;
    assert parsed.value == f.prompts;
  }

  /** What `loadPrompts` resolves to: the prompts and, when the defaults
      were substituted, the file written back. */
  datatype LoadedPrompts = LoadedPrompts(prompts: seq<SystemPrompt>, rewritten: Option<PromptsFile>)

  /** `loadPrompts`. `file` is the parsed content, `None` when reading or
      parsing failed; `writeOk` says whether writing the defaults succeeds
      (when it does not, the call rejects). */
  function LoadPrompts(file: Option<Json>, writeOk: bool): (r: Option<LoadedPrompts>)
    ensures file.Some? && MigratePrompts(file.value).Ok? ==>
              r == Some(LoadedPrompts(MigratePrompts(file.value).value.prompts, None))
    ensures !(file.Some? && MigratePrompts(file.value).Ok?) ==>
              (r.Some? <==> writeOk) &&
              (r.Some? ==> r.value == LoadedPrompts(DefaultPrompts().prompts, Some(DefaultPrompts())))
  {
    var migrated := if file.Some? then MigratePrompts(file.value) else Err(InvalidFormat);
    match migrated
    case Ok(f) => Some(LoadedPrompts(f.prompts, None))
    case Err(_) => if writeOk then Some(LoadedPrompts(DefaultPrompts().prompts, Some(DefaultPrompts()))) else None
  }

  /** Once the defaults are written, the next load reads them back. */
  lemma DefaultsReload(writeOk: bool)
    ensures LoadPrompts(Some(EncodePromptsFile(DefaultPrompts())), writeOk) == Some(LoadedPrompts(DefaultPrompts().prompts, None))
  {
    PromptsFileRoundTrip(DefaultPrompts());
  }
}
