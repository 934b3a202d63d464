/** The earlier prompt window (src/prompt/App.tsx): its message predicates,
    the seeded system message and its submit rule. Its stream transport is
    the one of `PromptTransport`, save for the abort listener, modelled with
    the earlier bridge in `LegacyPreload`. */
module LegacyPrompt {
  import opened Wrappers
  import opened Strings
  import opened Frames
  import opened ChatMessage
  import PromptApp

  /** The earlier completion test: an assistant message with non-blank text,
      not the last one while a request is under way. */
  predicate IsMessageComplete(m: UiMessage, lastMessage: bool, status: Status) {
    && m.role == Assistant
    && !IsBlank(TextOf(m.parts))
    && (!lastMessage || (status != Submitted && status != Streaming))
  }

  /** It is the later test restricted to assistant messages, and a complete
      message never shows the (unchanged) activity indicator. */
  lemma CompleteIsAssistantCompletion(m: UiMessage, lastMessage: bool, status: Status)
    ensures IsMessageComplete(m, lastMessage, status) <==> m.role == Assistant && MessageComplete(m, lastMessage, status)
    ensures IsMessageComplete(m, lastMessage, status) ==> !ShowActivityIndicator(m, lastMessage, status)
    ensures m.role == User ==> !IsMessageComplete(m, lastMessage, status)
  {
    CompletionCases(m, lastMessage, status);
  }

  /** The copy symbol is requested exactly for complete messages. */
  function CopyIconRequest(m: UiMessage, lastMessage: bool, status: Status): (r: Option<string>)
    ensures r.Some? <==> IsMessageComplete(m, lastMessage, status)
    ensures r.Some? ==> r.value == "square.on.square"
  {
    if IsMessageComplete(m, lastMessage, status) then Some("square.on.square") else None
  }

  /** The messages the chat starts with once the prompt is known: the system
      message with id "system" when the prompt text is not blank, none
      otherwise (the chat keeps what it had). */
  function InitialMessages(systemPrompt: string): (r: Option<seq<UiMessage>>)
    ensures r.Some? <==> !IsBlank(systemPrompt)
    ensures r.Some? ==> |r.value| == 1 && r.value[0].id == "system" && r.value[0].role == System
    ensures r.Some? ==> PromptApp.GetSystemPrompt(r.value) == systemPrompt
  {
    if IsBlank(systemPrompt) then None
    else Some([UiMessage("system", System, [TextPart(systemPrompt)])])
  }

  /** What an earlier submit asks for. */
  datatype LegacyEffect =
    | StopStream
    | SendMessage(text: string)
    | GenerateTitle(systemPrompt: string, userMessage: string)
    | LogError(message: string)

  /** Submitting the form: stop while streaming; otherwise send the trimmed
      input first, then, for the first shown message with a non-blank system
      prompt, start title generation, whose failure is logged. */
  function LegacySubmit(messages: seq<UiMessage>, status: Status, input: string, systemPrompt: string,
                        titleOutcome: Result<string, Thrown>): (r: seq<LegacyEffect>)
    ensures status == Streaming ==> r == [StopStream]
    ensures status != Streaming && IsBlank(input) ==> r == []
    ensures status != Streaming && !IsBlank(input) ==> |r| >= 1 && r[0] == SendMessage(Trim(input))
    ensures (exists i :: 0 <= i < |r| && r[i].GenerateTitle?) <==>
              status != Streaming && !IsBlank(input) && |PromptApp.VisibleMessages(messages)| == 0 && !IsBlank(systemPrompt)
    ensures forall i :: 0 <= i < |r| && r[i].GenerateTitle? ==> i == 1 && r[i] == GenerateTitle(systemPrompt, Trim(input))
    // a failed title request is logged after the send, and only then
    ensures (exists i :: 0 <= i < |r| && r[i].LogError?) <==>
              status != Streaming && !IsBlank(input) && |PromptApp.VisibleMessages(messages)| == 0 && !IsBlank(systemPrompt)
              && titleOutcome.Err?
    ensures forall i :: 0 <= i < |r| && r[i].LogError? ==>
              i == 2 && r[i] == LogError(PromptApp.TitleFailureLine(titleOutcome.error))
  {
    if status == Streaming then [StopStream]
    else if IsBlank(input) then []
    else SendText(|PromptApp.VisibleMessages(messages)| == 0 && !IsBlank(systemPrompt), Trim(input), systemPrompt, titleOutcome)
  }

  /** The non-blank submit: the message goes first, and title generation
      follows it exactly when `titled` (the first shown message under a
      non-blank system prompt). */
  function SendText(titled: bool, text: string, systemPrompt: string,
                    titleOutcome: Result<string, Thrown>): (r: seq<LegacyEffect>)
    ensures |r| >= 1 && r[0] == SendMessage(text)
    ensures (exists i :: 0 <= i < |r| && r[i].GenerateTitle?) <==> titled
    ensures forall i :: 0 <= i < |r| && r[i].GenerateTitle? ==> i == 1 && r[i] == GenerateTitle(systemPrompt, text)
    ensures (exists i :: 0 <= i < |r| && r[i].LogError?) <==> titled && titleOutcome.Err?
    ensures forall i :: 0 <= i < |r| && r[i].LogError? ==>
              i == 2 && titleOutcome.Err? && r[i] == LogError(PromptApp.TitleFailureLine(titleOutcome.error))
  {
    if titled then
      var title := GenerateTitle(systemPrompt, text);
      match titleOutcome
      case Ok(_) =>
        var r := [SendMessage(text), title];
        assert r[1].GenerateTitle?;
        r
      case Err(e) =>
        var r := [SendMessage(text), title, LogError(PromptApp.TitleFailureLine(e))];
        assert r[1].GenerateTitle?;
        assert r[2].LogError?;
        r
    else [SendMessage(text)]
  }
}
