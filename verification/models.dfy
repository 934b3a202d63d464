/** The provider kinds and the model catalogue (src/services/settings/models.ts). */
module Models {
  import opened Wrappers

  /** The four provider kinds; the closed union `Provider`. */
  datatype Provider = OpenAI | Anthropic | Google | Ollama

  /** `Providers`, in declaration order. */
  const Providers: seq<Provider> := [OpenAI, Anthropic, Google, Ollama]

  /** The string a provider is stored and selected as. */
  function ProviderName(p: Provider): string {
    match p
    case OpenAI => "openai"
    case Anthropic => "anthropic"
    case Google => "google"
    case Ollama => "ollama"
  }

  /** Reads a provider from its stored string; the inverse of `ProviderName`. */
  function ParseProvider(s: string): (r: Option<Provider>)
    ensures r.Some? ==> ProviderName(r.value) == s
  {
    if s == "openai" then Some(OpenAI)
    else if s == "anthropic" then Some(Anthropic)
    else if s == "google" then Some(Google)
    else if s == "ollama" then Some(Ollama)
    else None
  }

  lemma ProviderNameRoundTrip(p: Provider)
    ensures ParseProvider(ProviderName(p)) == Some(p)
  {
  }

  /** `Providers` lists every kind exactly once. */
  lemma ProvidersComplete()
    ensures forall p: Provider :: p in Providers
    ensures forall i, j :: 0 <= i < j < |Providers| ==> Providers[i] != Providers[j]
    ensures |Providers| == 4
  {
    forall p: Provider ensures p in Providers {
      match p
      case OpenAI => assert Providers[0] == p;
      case Anthropic => assert Providers[1] == p;
      case Google => assert Providers[2] == p;
      case Ollama => assert Providers[3] == p;
    }
  }

  datatype ModelInfo = ModelInfo(id: string, displayName: string)

  const AnthropicModelIds: seq<string> := ["claude-sonnet-4-5", "claude-opus-4-5", "claude-haiku-4-5"]
  const OpenAIModelIds: seq<string> := ["gpt-5.1", "gpt-5-mini", "gpt-5-nano", "gpt-5-pro", "gpt-5", "gpt-4.1"]
  const GoogleModelIds: seq<string> := ["gemini-3-pro", "gemini-2.5-pro", "gemini-2.5-flash"]

  /** `modelDisplayNames`. */
  const ModelDisplayNames: map<string, string> := map[
    "claude-sonnet-4-5" := "Claude Sonnet 4.5",
    "claude-opus-4-5" := "Claude Opus 4.5",
    "claude-haiku-4-5" := "Claude Haiku 4.5",
    "gpt-5.1" := "GPT-5.1",
    "gpt-5-mini" := "GPT-5 mini",
    "gpt-5-nano" := "GPT-5 nano",
    "gpt-5-pro" := "GPT-5 pro",
    "gpt-5" := "GPT-5",
    "gpt-4.1" := "GPT-4.1",
    "gemini-3-pro" := "Gemini 3 Pro",
    "gemini-2.5-pro" := "Gemini 2.5 Pro",
    "gemini-2.5-flash" := "Gemini 2.5 Flash"
  ]

  /** Every model id of the three keyed providers has a display name. */
  lemma DisplayNamesTotal()
    ensures forall id :: id in AnthropicModelIds ==> id in ModelDisplayNames
    ensures forall id :: id in OpenAIModelIds ==> id in ModelDisplayNames
    ensures forall id :: id in GoogleModelIds ==> id in ModelDisplayNames
  {
  }

  /** `buildModels`: one entry per id, same order, named from the table. */
  function BuildModels(ids: seq<string>): (r: seq<ModelInfo>)
    requires forall id :: id in ids ==> id in ModelDisplayNames
    ensures |r| == |ids|
    ensures forall i :: 0 <= i < |ids| ==> r[i].id == ids[i] && r[i].displayName == ModelDisplayNames[ids[i]]
  {
    seq(|ids|, i requires 0 <= i < |ids| => ModelInfo(ids[i], ModelDisplayNames[ids[i]]))
  }

  /** `Models[p]`. */
  function ModelsFor(p: Provider): (r: seq<ModelInfo>)
    ensures p == Ollama <==> |r| == 0
    ensures p == Anthropic ==> |r| == |AnthropicModelIds| && forall i :: 0 <= i < |r| ==> r[i].id == AnthropicModelIds[i]
    ensures p == OpenAI ==> |r| == |OpenAIModelIds| && forall i :: 0 <= i < |r| ==> r[i].id == OpenAIModelIds[i]
    ensures p == Google ==> |r| == |GoogleModelIds| && forall i :: 0 <= i < |r| ==> r[i].id == GoogleModelIds[i]
  {
    DisplayNamesTotal();
    match p
    case Anthropic => BuildModels(AnthropicModelIds)
    case OpenAI => BuildModels(OpenAIModelIds)
    case Google => BuildModels(GoogleModelIds)
    case Ollama => []
  }
}
