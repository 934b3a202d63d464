/** The main-process AI service (src/services/ai/main.ts): provider dispatch,
    one-shot text generation, and the abort-aware streaming generator. */
module AiMain {
  import opened Wrappers
  import opened Strings
  import opened Frames
  import opened Models
  import opened SettingsStore

  /** The client factory chosen for a provider, with what it was built from. */
  datatype ClientFactory =
    | OpenAIFactory(apiKey: string)
    | AnthropicFactory(apiKey: string)
    | GoogleFactory(apiKey: string)
    | OllamaFactory(baseUrl: string)

  /** A language-model handle: a factory applied to a model id. */
  datatype LanguageModel = LanguageModel(factory: ClientFactory, modelId: string)

  function FactoryProvider(f: ClientFactory): Provider {
    match f
    case OpenAIFactory(_) => OpenAI
    case AnthropicFactory(_) => Anthropic
    case GoogleFactory(_) => Google
    case OllamaFactory(_) => Ollama
  }

  const DefaultOllamaApi := "http://localhost:11434/api"

  /** The Ollama base URL: the configured endpoint with `/api` appended when
      it is present and non-empty, the local default otherwise. */
  function OllamaBaseUrl(endpoint: Option<string>): (r: string)
    ensures endpoint.Some? && endpoint.value != "" ==> r == endpoint.value + "/api"
    ensures endpoint.None? || endpoint.value == "" ==> r == DefaultOllamaApi
    ensures EndsWith(r, "/api")
  {
    if endpoint.Some? && endpoint.value != "" then endpoint.value + "/api" else DefaultOllamaApi
  }

  /** The fallback URL is the default settings' endpoint with `/api` appended. */
  lemma OllamaDefaultsAgree()
    ensures OllamaBaseUrl(Some(DefaultOllamaEndpoint)) == DefaultOllamaApi
    ensures OllamaBaseUrl(None) == OllamaBaseUrl(Some(""))
  {
  }

  /** `getModel`: each provider kind selects exactly its own factory, fed the
      stored key (or, for Ollama, the base URL), applied to the stored model. */
  function GetModel(s: ProviderSettings): (m: LanguageModel)
    ensures FactoryProvider(m.factory) == s.provider
    ensures m.modelId == s.model
    ensures m.factory.OllamaFactory? ==> m.factory.baseUrl == OllamaBaseUrl(s.ollamaEndpoint)
    ensures !m.factory.OllamaFactory? ==> m.factory.apiKey == s.apiKey
  {
    match s.provider
    case OpenAI => LanguageModel(OpenAIFactory(s.apiKey), s.model)
    case Anthropic => LanguageModel(AnthropicFactory(s.apiKey), s.model)
    case Google => LanguageModel(GoogleFactory(s.apiKey), s.model)
    case Ollama => LanguageModel(OllamaFactory(OllamaBaseUrl(s.ollamaEndpoint)), s.model)
  }

  /** The dispatch is exhaustive and one-to-one on provider kinds. */
  lemma GetModelSeparatesProviders(a: ProviderSettings, b: ProviderSettings)
    requires a.provider != b.provider
    ensures GetModel(a).factory != GetModel(b).factory
  {
  }

  /** A generation call's result and the error lines it logged. */
  datatype Generated = Generated(result: Result<string, Thrown>, errorLog: seq<string>)

  /** `generateTextFromPrompt`. `model` is the outcome of resolving the model
      (outside the `try`), `generate` the outcome of the library call. */
  function GenerateTextFromPrompt(model: Result<LanguageModel, Thrown>,
                                  generate: LanguageModel -> Result<string, Thrown>): (r: Generated)
    ensures model.Err? ==> r == Generated(Err(model.error), [])
    ensures model.Ok? && generate(model.value).Ok? ==>
              r.errorLog == [] && r.result == Ok(Trim(generate(model.value).value))
    ensures model.Ok? && generate(model.value).Err? ==>
              && r.result == Err(generate(model.value).error)
              && r.errorLog == ["Error generating text: " + ThrownMessage(generate(model.value).error)]
    ensures r.result.Ok? && |r.result.value| > 0 ==>
              !IsWhitespace(r.result.value[0]) && !IsWhitespace(r.result.value[|r.result.value| - 1])
  {
    match model
    case Err(e) => Generated(Err(e), [])
    case Ok(m) =>
      match generate(m)
      case Ok(text) => Generated(Ok(Trim(text)), [])
      case Err(e) => Generated(Err(e), ["Error generating text: " + ThrownMessage(e)])
  }

  /** How the upstream UI message stream ends after its chunks. */
  datatype Ending = Exhausted | Throws(error: Thrown)

  /** The upstream stream the model library produces for one request
      (request normalisation and the provider call are not modelled): its
      chunks, then its ending. A failure before the first chunk is a stream
      with no chunks that throws. */
  datatype Upstream = Upstream(chunks: seq<Chunk>, ending: Ending)

  /** When the abort signal is raised, relative to the upstream pulls:
      never, or while the pull of item `k` is pending (`k = 0` is an abort
      raised before the first item arrives). */
  datatype AbortTiming = Never | BeforePull(k: nat)

  /** Whether the abort signal is set by the time pull `i` completes. */
  predicate AbortedBy(t: AbortTiming, i: int) {
    t.BeforePull? && t.k <= i
  }

  /** One step of the generator loop. */
  datatype Step = Yield(chunk: Chunk) | Return | Raise(error: Thrown)

  /** Pull upstream item `i`, then check the abort flag: an item arriving
      while aborted ends the generator instead of being yielded. */
  function PullStep(up: Upstream, i: nat, aborted: bool): (s: Step)
    requires i <= |up.chunks|
    ensures s.Yield? <==> i < |up.chunks| && !aborted
    ensures s.Yield? ==> s.chunk == up.chunks[i]
    ensures s.Raise? <==> i == |up.chunks| && up.ending.Throws?
    ensures s.Raise? ==> s.error == up.ending.error
  {
    if i < |up.chunks| then (if aborted then Return else Yield(up.chunks[i]))
    else match up.ending
      case Exhausted => Return
      case Throws(e) => Raise(e)
  }

  /** Everything one run of the generator yields, and how it ends. */
  datatype GenRun = GenRun(yielded: seq<Chunk>, ending: Ending)

  /** `streamChat`: forwards upstream chunks unchanged and in order while the
      abort signal is clear; once it is set, yields nothing more and returns. */
  method StreamChat(up: Upstream, timing: AbortTiming) returns (run: GenRun)
    ensures |run.yielded| <= |up.chunks| && run.yielded == up.chunks[..|run.yielded|]
    ensures timing.Never? ==> run.yielded == up.chunks
    ensures timing.BeforePull? ==> |run.yielded| == if timing.k < |up.chunks| then timing.k else |up.chunks|
    ensures timing.BeforePull? && timing.k < |up.chunks| ==> run.ending == Exhausted
    ensures !(timing.BeforePull? && timing.k < |up.chunks|) ==> run.ending == up.ending
  {
    var i := 0;
    var yielded: seq<Chunk> := [];
    var ending := Exhausted;
    var running := true;
    while running
      invariant 0 <= i <= |up.chunks|
      invariant yielded == up.chunks[..i]
      invariant !AbortedBy(timing, i - 1)
      invariant running ==> ending == Exhausted
      invariant !running ==> (AbortedBy(timing, i) && i < |up.chunks| && ending == Exhausted)
                              || (i == |up.chunks| && ending == up.ending)
      decreases |up.chunks| - i, running
    {
      match PullStep(up, i, AbortedBy(timing, i))
      case Yield(c) =>
        yielded := yielded + [c];
        i := i + 1;
      case Return =>
        running := false;
      case Raise(e) =>
        ending := Throws(e);
        running := false;
    }
    run := GenRun(yielded, ending);
  }
}
