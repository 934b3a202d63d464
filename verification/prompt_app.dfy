/** The prompt window's conversation logic (src/apps/prompt/App.tsx): the
    system prompt, the visible messages, the edit state and what a submit
    does. The chat library's `sendMessage`, `regenerate`, `stop` and
    `setMessages` are effects it requests, not modelled further. */
module PromptApp {
  import opened Wrappers
  import opened Strings
  import opened Frames
  import opened ChatMessage

  /** The text of the first system message, or "" without one. */
  function GetSystemPrompt(ms: seq<UiMessage>): (r: string)
    ensures (forall i :: 0 <= i < |ms| ==> ms[i].role != System) ==> r == ""
    decreases |ms|
  {
    if ms == [] then ""
    else if ms[0].role == System then TextOf(ms[0].parts)
    else GetSystemPrompt(ms[1..])
  }

  /** The prompt is taken from the first system message, whatever follows. */
  lemma {:induction false} SystemPromptIsFirst(ms: seq<UiMessage>, i: nat)
    requires i < |ms| && ms[i].role == System
    requires forall j :: 0 <= j < i ==> ms[j].role != System
    ensures GetSystemPrompt(ms) == TextOf(ms[i].parts)
    decreases i
  {
    if i > 0 {
      SystemPromptIsFirst(ms[1..], i - 1);
    }
  }

  /** The messages shown: every non-system message, in order. */
  function VisibleMessages(ms: seq<UiMessage>): (r: seq<UiMessage>)
    ensures forall i :: 0 <= i < |r| ==> r[i].role != System
    ensures |r| <= |ms|
    decreases |ms|
  {
    if ms == [] then []
    else if ms[0].role == System then VisibleMessages(ms[1..])
    else [ms[0]] + VisibleMessages(ms[1..])
  }

  /** Exactly the non-system messages are shown. */
  lemma {:induction false} VisibleMembership(ms: seq<UiMessage>)
    ensures forall m :: m in VisibleMessages(ms) <==> m in ms && m.role != System
    decreases |ms|
  {
    if ms != [] {
      VisibleMembership(ms[1..]);
      assert forall m :: m in ms <==> m == ms[0] || m in ms[1..];
    }
  }

  lemma {:induction false} VisibleAppend(a: seq<UiMessage>, b: seq<UiMessage>)
    ensures VisibleMessages(a + b) == VisibleMessages(a) + VisibleMessages(b)
    decreases |a|
  {
    if a == [] {
      assert a + b == b;
    } else {
      assert (a + b)[1..] == a[1..] + b;
      VisibleAppend(a[1..], b);
    }
  }

  /** A list with no system message is shown unchanged. */
  lemma {:induction false} VisibleWithoutSystem(ms: seq<UiMessage>)
    requires forall i :: 0 <= i < |ms| ==> ms[i].role != System
    ensures VisibleMessages(ms) == ms
    decreases |ms|
  {
    if ms != [] {
      VisibleWithoutSystem(ms[1..]);
    }
  }

  /** The index of the first message with the given id, or -1. */
  function IndexOfId(ms: seq<UiMessage>, id: string): (r: int)
    ensures -1 <= r < |ms|
    ensures r >= 0 ==> ms[r].id == id
    ensures forall j :: 0 <= j < |ms| && (r == -1 || j < r) ==> ms[j].id != id
    decreases |ms|
  {
    if ms == [] then -1
    else if ms[0].id == id then 0
    else var k := IndexOfId(ms[1..], id); if k == -1 then -1 else k + 1
  }

  /** `editingMessageIndex`: -1 when no edit is active or the edited message
      is not shown, its visible index otherwise. */
  function EditingMessageIndex(editingId: Option<string>, visible: seq<UiMessage>): (r: int)
    ensures r == -1 <==> editingId.None? || forall j :: 0 <= j < |visible| ==> visible[j].id != editingId.value
    ensures r != -1 ==> && 0 <= r < |visible| && visible[r].id == editingId.value
                        && forall j :: 0 <= j < r ==> visible[j].id != editingId.value
  {
    if editingId.None? then -1 else IndexOfId(visible, editingId.value)
  }

  /** A shown message is dimmed when an edit is active and it comes after the
      edited message. */
  predicate IsEphemeral(editingId: Option<string>, visible: seq<UiMessage>, index: nat) {
    editingId.Some? && index > EditingMessageIndex(editingId, visible)
  }

  /** No edit, nothing dimmed; an edit whose message is not shown dims
      every message. */
  lemma EphemeralWithoutEditedMessage(editingId: Option<string>, visible: seq<UiMessage>, index: nat)
    ensures editingId.None? ==> !IsEphemeral(editingId, visible, index)
    ensures editingId.Some? && (forall j :: 0 <= j < |visible| ==> visible[j].id != editingId.value) ==>
              IsEphemeral(editingId, visible, index)
  {
  }

  /** With the edited message shown at visible index `j`, a message is dimmed
      exactly when it comes after `j`. */
  lemma EphemeralAfterEdited(id: string, visible: seq<UiMessage>, index: nat, j: nat)
    requires j < |visible| && visible[j].id == id
    requires forall i :: 0 <= i < j ==> visible[i].id != id
    ensures IsEphemeral(Some(id), visible, index) <==> index > j
  {
  }

  /** The empty assistant placeholder is shown while a request is submitted
      and the last shown message is the user's. */
  predicate ShowsPlaceholder(status: Status, visible: seq<UiMessage>) {
    status == Submitted && |visible| > 0 && visible[|visible| - 1].role == User
  }

  /** The empty assistant message shown as the placeholder. */
  const Placeholder := UiMessage("placeholder", Assistant, [TextPart("")])

  /** Whenever the placeholder is shown it pulses, and it is never complete. */
  lemma PlaceholderPulses(status: Status, visible: seq<UiMessage>)
    requires ShowsPlaceholder(status, visible)
    ensures ShowActivityIndicator(Placeholder, true, status)
    ensures !MessageComplete(Placeholder, true, status)
  {
  }

  /** The list the window renders: the shown messages, then the placeholder
      exactly when it is shown. The earlier window renders alike. */
  function RenderedMessages(status: Status, visible: seq<UiMessage>): (r: seq<UiMessage>)
    ensures |visible| <= |r| <= |visible| + 1 && r[..|visible|] == visible
    ensures |r| > |visible| <==> ShowsPlaceholder(status, visible)
    ensures |r| > |visible| ==> r[|visible|] == Placeholder
  {
    if ShowsPlaceholder(status, visible) then visible + [Placeholder] else visible
  }

  /** While a request is submitted, the last message rendered after a
      conversation without system messages is an assistant message showing
      the activity indicator: the reply when one is shown, else the
      placeholder. */
  lemma SubmittedLastMessagePulses(visible: seq<UiMessage>)
    requires |visible| > 0
    requires forall i :: 0 <= i < |visible| ==> visible[i].role != System
    ensures var r := RenderedMessages(Submitted, visible);
      && r[|r| - 1].role == Assistant
      && ShowActivityIndicator(r[|r| - 1], true, Submitted)
  {
    var r := RenderedMessages(Submitted, visible);
    if |r| == |visible| {
      assert r == visible;
      assert visible[|visible| - 1].role != User;
    }
  }

  /** The message list with the first message carrying `id` given a single
      text part holding `text`. */
  function ReplaceMessageText(ms: seq<UiMessage>, id: string, text: string): (r: seq<UiMessage>)
    ensures |r| == |ms|
    ensures forall i :: 0 <= i < |ms| ==> r[i].id == ms[i].id && r[i].role == ms[i].role
    ensures var k := IndexOfId(ms, id);
            forall i :: 0 <= i < |ms| ==> r[i] == (if i == k then UiMessage(id, ms[i].role, [TextPart(text)]) else ms[i])
  {
    var k := IndexOfId(ms, id);
    seq(|ms|, i requires 0 <= i < |ms| => if i == k then ms[i].(parts := [TextPart(text)]) else ms[i])
  }

  /** The id of the first assistant message, if any. */
  function FirstAssistant(ms: seq<UiMessage>): (r: Option<string>)
    ensures r.None? <==> forall i :: 0 <= i < |ms| ==> ms[i].role != Assistant
    ensures r.Some? ==> exists i :: 0 <= i < |ms| && ms[i].role == Assistant && ms[i].id == r.value
    decreases |ms|
  {
    if ms == [] then None
    else if ms[0].role == Assistant then Some(ms[0].id)
    else FirstAssistant(ms[1..])
  }

  lemma {:induction false} FirstAssistantAt(ms: seq<UiMessage>, i: nat)
    requires i < |ms| && ms[i].role == Assistant
    requires forall j :: 0 <= j < i ==> ms[j].role != Assistant
    ensures FirstAssistant(ms) == Some(ms[i].id)
    decreases i
  {
    if i > 0 {
      FirstAssistantAt(ms[1..], i - 1);
    }
  }

  /** The message `regenerate` is anchored at, as written: the first
      assistant message of the FULL list sliced at the VISIBLE index plus one. */
  function RegenerateAnchorAsWritten(ms: seq<UiMessage>, visibleIndex: nat): (r: Option<string>)
    ensures r.None? <==> forall j :: visibleIndex < j < |ms| ==> ms[j].role != Assistant
    ensures r.Some? ==> exists j :: visibleIndex < j < |ms| && ms[j].role == Assistant && ms[j].id == r.value
  {
    var start := if visibleIndex + 1 <= |ms| then visibleIndex + 1 else |ms|;
    var tail := ms[start..];
    assert forall i :: 0 <= i < |tail| ==> tail[i] == ms[start + i];
    assert forall j :: visibleIndex < j < |ms| ==> ms[j] == tail[j - start];
    FirstAssistant(tail)
  }

  /** Lists that agree on every id and role have the same first assistant. */
  lemma {:induction false} FirstAssistantSameShape(a: seq<UiMessage>, b: seq<UiMessage>)
    requires |a| == |b|
    requires forall i :: 0 <= i < |a| ==> a[i].id == b[i].id && a[i].role == b[i].role
    ensures FirstAssistant(a) == FirstAssistant(b)
    decreases |a|
  {
    if a != [] {
      FirstAssistantSameShape(a[1..], b[1..]);
    }
  }

  /** Rewriting a message's text does not move the anchor the code finds. */
  lemma AnchorAsWrittenIgnoresText(ms: seq<UiMessage>, id: string, text: string, visibleIndex: nat)
    ensures RegenerateAnchorAsWritten(ReplaceMessageText(ms, id, text), visibleIndex) == RegenerateAnchorAsWritten(ms, visibleIndex)
  {
    var r := ReplaceMessageText(ms, id, text);
    var start := if visibleIndex + 1 <= |ms| then visibleIndex + 1 else |ms|;
    FirstAssistantSameShape(r[start..], ms[start..]);
  }

  /** `v[j]` is the first assistant message after index `k`. */
  ghost predicate FirstAssistantAfter(v: seq<UiMessage>, k: nat, j: nat) {
    k < j < |v| && v[j].role == Assistant && forall i :: k < i < j ==> v[i].role != Assistant
  }

  /** The message `regenerate` is meant to be anchored at: the first assistant
      message after the edited one. System messages are never assistants, so
      the shown list `visible` decides it. */
  function RegenerateAnchor(visible: seq<UiMessage>, visibleIndex: nat): (r: Option<string>)
    requires visibleIndex < |visible|
    ensures r.None? <==> forall j :: visibleIndex < j < |visible| ==> visible[j].role != Assistant
    ensures forall j: nat :: FirstAssistantAfter(visible, visibleIndex, j) ==> r == Some(visible[j].id)
  {
    var tail := visible[visibleIndex + 1..];
    forall j: nat | FirstAssistantAfter(visible, visibleIndex, j)
      ensures FirstAssistant(tail) == Some(visible[j].id)
    {
      FirstAssistantAt(tail, j - visibleIndex - 1);
    }
    FirstAssistant(tail)
  }

  /** With no system message, the slice at the visible index is the right one. */
  lemma AnchorAgreesWithoutSystem(ms: seq<UiMessage>, visibleIndex: nat)
    requires forall i :: 0 <= i < |ms| ==> ms[i].role != System
    requires visibleIndex < |ms|
    ensures VisibleMessages(ms) == ms
    ensures RegenerateAnchorAsWritten(ms, visibleIndex) == RegenerateAnchor(VisibleMessages(ms), visibleIndex)
  {
    VisibleWithoutSystem(ms);
  }

  /** With exactly one system message, in front, the slice starts one early,
      at the edited message itself; that one is a user message, so the
      anchor still comes out right. */
  lemma AnchorAgreesWithLeadingSystem(sys: UiMessage, rest: seq<UiMessage>, visibleIndex: nat)
    requires sys.role == System
    requires forall i :: 0 <= i < |rest| ==> rest[i].role != System
    requires visibleIndex < |rest| && rest[visibleIndex].role == User
    ensures VisibleMessages([sys] + rest) == rest
    ensures RegenerateAnchorAsWritten([sys] + rest, visibleIndex) == RegenerateAnchor(VisibleMessages([sys] + rest), visibleIndex)
  {
    VisibleWithoutSystem(rest);
    assert ([sys] + rest)[1..] == rest;
    var ms := [sys] + rest;
    assert ms[visibleIndex + 1..] == rest[visibleIndex..];
    assert rest[visibleIndex..][1..] == rest[visibleIndex + 1..];
  }

  /** Two system messages in front, then two turns. Editing the second user
      message (visible index 2) regenerates the FIRST assistant reply as
      written, instead of the second. */
  lemma AnchorAsWrittenMissesWithTwoSystemMessages()
    ensures var ms := [UiMessage("s1", System, []), UiMessage("s2", System, []),
                       UiMessage("u1", User, []), UiMessage("a1", Assistant, []),
                       UiMessage("u2", User, []), UiMessage("a2", Assistant, [])];
            && VisibleMessages(ms)[2].id == "u2"
            && RegenerateAnchorAsWritten(ms, 2) == Some("a1")
            && RegenerateAnchor(VisibleMessages(ms), 2) == Some("a2")
  {
    var ms := [UiMessage("s1", System, []), UiMessage("s2", System, []),
               UiMessage("u1", User, []), UiMessage("a1", Assistant, []),
               UiMessage("u2", User, []), UiMessage("a2", Assistant, [])];
    var v := [ms[2], ms[3], ms[4], ms[5]];
    assert VisibleMessages(ms[5..]) == [ms[5]];
    assert VisibleMessages(ms[4..]) == [ms[4], ms[5]];
    assert VisibleMessages(ms[3..]) == [ms[3], ms[4], ms[5]];
    assert VisibleMessages(ms[2..]) == v;
    assert VisibleMessages(ms[1..]) == v;
    assert VisibleMessages(ms) == v;
    FirstAssistantAt(ms[3..], 0);
    FirstAssistantAt(v[3..], 0);
  }

  /** What a submit asks of the chat library and the rest of the window. */
  datatype Effect =
    | StopStream
    | SetMessages(messages: seq<UiMessage>)
    | Regenerate(messageId: string)
    | GenerateTitle(prompt: string)
    | LogError(message: string)
    | SendMessage(text: string)

  /** The window's state as far as a submit reads or writes it. */
  datatype PromptState = PromptState(
    messages: seq<UiMessage>,
    status: Status,
    input: string,
    editingId: Option<string>,
    streamingError: Option<string>,
    title: string)

  datatype SubmitResult = SubmitResult(state: PromptState, effects: seq<Effect>)

  /** The prompt the title is generated from. */
  const TitleRequestHead: string := "Generate a concise 3-8 word title for this conversation.\nSystem context: "
  const TitleRequestMiddle: string := "\nFirst user message: "
  const TitleRequestTail: string := "\n\nRespond with ONLY the title, nothing else."

  function TitlePrompt(systemPrompt: string, userText: string): string {
    TitleRequestHead + systemPrompt + TitleRequestMiddle + userText + TitleRequestTail
  }

  /** Whether some effect sends a message / asks for a title. */
  predicate Sends(effects: seq<Effect>) {
    exists e :: e in effects && e.SendMessage?
  }

  predicate AsksTitle(effects: seq<Effect>) {
    exists e :: e in effects && e.GenerateTitle?
  }

  /** Submitting an edit with the trimmed input `text`: the edited message,
      when shown, gets `text` as its only text part and the reply after it
      is regenerated; the edit ends either way. */
  function SubmitEdit(s: PromptState, id: string, text: string): (r: SubmitResult)
    ensures r.state.input == "" && r.state.editingId.None? && r.state.streamingError.None?
    ensures r.state.title == s.title && r.state.status == s.status
    ensures !Sends(r.effects) && !AsksTitle(r.effects)
    ensures var v := VisibleMessages(s.messages);
            var k := IndexOfId(v, id);
            k == -1 ==> r.effects == [] && r.state.messages == s.messages
    ensures var v := VisibleMessages(s.messages);
            var k := IndexOfId(v, id);
            k != -1 ==>
              && r.state.messages == ReplaceMessageText(s.messages, id, text)
              && |r.effects| >= 1 && r.effects[0] == SetMessages(r.state.messages)
              && r.effects[1..] == (if RegenerateAnchor(v, k).Some? then [Regenerate(RegenerateAnchor(v, k).value)] else [])
  {
    var visible := VisibleMessages(s.messages);
    var k := IndexOfId(visible, id);
    var cleared := s.(input := "", streamingError := None, editingId := None);
    if k == -1 then SubmitResult(cleared, [])
    else
      var updated := ReplaceMessageText(s.messages, id, text);
      // replacing a text keeps every role, so the anchor is the same before and after
      var regen: seq<Effect> := if RegenerateAnchor(visible, k).Some? then [Regenerate(RegenerateAnchor(visible, k).value)] else [];
      var effects := [SetMessages(updated)] + regen;
      assert forall e :: e in effects ==> e.SetMessages? || e.Regenerate?;
      SubmitResult(cleared.(messages := updated), effects)
  }

  /** Submitting an edit as written: as `SubmitEdit`, except that
      `regenerate` is anchored by slicing the full updated list at the edited
      message's shown index. */
  function SubmitEditAsWritten(s: PromptState, id: string, text: string): (r: SubmitResult)
    ensures r.state == SubmitEdit(s, id, text).state
    ensures IndexOfId(VisibleMessages(s.messages), id) == -1 ==> r.effects == []
    ensures var k := IndexOfId(VisibleMessages(s.messages), id);
            var anchor := RegenerateAnchorAsWritten(s.messages, if k < 0 then 0 else k);
            k != -1 ==> r.effects == [SetMessages(r.state.messages)] + (if anchor.Some? then [Regenerate(anchor.value)] else [])
  {
    var visible := VisibleMessages(s.messages);
    var k := IndexOfId(visible, id);
    var cleared := s.(input := "", streamingError := None, editingId := None);
    if k == -1 then SubmitResult(cleared, [])
    else
      var updated := ReplaceMessageText(s.messages, id, text);
      var anchor := RegenerateAnchorAsWritten(updated, k);
      AnchorAsWrittenIgnoresText(s.messages, id, text, k);
      SubmitResult(cleared.(messages := updated), [SetMessages(updated)] + (if anchor.Some? then [Regenerate(anchor.value)] else []))
  }

  /** With at most one system message, in front, and a user message being
      edited (the only kind with an edit control), the submit as written
      regenerates the same reply as intended. */
  lemma SubmitEditAsWrittenAgrees(s: PromptState, id: string, text: string)
    requires forall i :: 0 < i < |s.messages| ==> s.messages[i].role != System
    requires var v := VisibleMessages(s.messages);
             var k := IndexOfId(v, id);
             k != -1 ==> v[k].role == User
    ensures SubmitEditAsWritten(s, id, text) == SubmitEdit(s, id, text)
  {
    var v := VisibleMessages(s.messages);
    var k := IndexOfId(v, id);
    if k != -1 {
      AnchorsAgree(s.messages, k);
      var a := SubmitEditAsWritten(s, id, text);
      var b := SubmitEdit(s, id, text);
      assert b.effects == [b.effects[0]] + b.effects[1..];
      assert a.effects == b.effects;
    }
  }

  /** The two anchors coincide under the same conditions. */
  lemma AnchorsAgree(ms: seq<UiMessage>, k: nat)
    requires forall i :: 0 < i < |ms| ==> ms[i].role != System
    requires k < |VisibleMessages(ms)| && VisibleMessages(ms)[k].role == User
    ensures RegenerateAnchorAsWritten(ms, k) == RegenerateAnchor(VisibleMessages(ms), k)
  {
    if ms[0].role == System {
      AnchorsAgreeLeading(ms, k);
    } else {
      AnchorAgreesWithoutSystem(ms, k);
    }
  }

  lemma AnchorsAgreeLeading(ms: seq<UiMessage>, k: nat)
    requires ms != [] && ms[0].role == System
    requires forall i :: 0 < i < |ms| ==> ms[i].role != System
    requires k < |VisibleMessages(ms)| && VisibleMessages(ms)[k].role == User
    ensures RegenerateAnchorAsWritten(ms, k) == RegenerateAnchor(VisibleMessages(ms), k)
  {
    var rest := ms[1..];
    assert forall i :: 0 <= i < |rest| ==> rest[i] == ms[i + 1];
    VisibleWithoutSystem(rest);
    assert VisibleMessages(ms) == rest;
    assert [ms[0]] + rest == ms;
    AnchorAgreesWithLeadingSystem(ms[0], rest, k);
  }

  /** The error line logged when title generation fails: a fixed prefix and
      the thrown value's message. */
  function TitleFailureLine(e: Thrown): string {
    "Failed to generate title: " + ThrownMessage(e)
  }

  /** Submitting a new message with the trimmed input `text`: the title is
      generated first when this is the first shown message and the system
      prompt is not blank (a failure is logged), then `text` is sent. */
  function SubmitNew(s: PromptState, text: string, systemPrompt: string, titleOutcome: Result<string, Thrown>): (r: SubmitResult)
    ensures r.state.input == "" && r.state.editingId == s.editingId && r.state.streamingError.None?
    ensures r.state.messages == s.messages && r.state.status == s.status
    ensures |r.effects| > 0 && r.effects[|r.effects| - 1] == SendMessage(text)
    ensures AsksTitle(r.effects) <==> |VisibleMessages(s.messages)| == 0 && !IsBlank(systemPrompt)
    ensures AsksTitle(r.effects) ==> r.effects[0] == GenerateTitle(TitlePrompt(systemPrompt, text))
    ensures r.state.title != s.title ==> AsksTitle(r.effects) && titleOutcome == Ok(r.state.title)
    // a failed title request is logged, and the send still follows
    ensures !AsksTitle(r.effects) ==> r.effects == [SendMessage(text)] && r.state.title == s.title
    ensures AsksTitle(r.effects) && titleOutcome.Ok? ==>
              r.effects == [GenerateTitle(TitlePrompt(systemPrompt, text)), SendMessage(text)]
              && r.state.title == titleOutcome.value
    ensures AsksTitle(r.effects) && titleOutcome.Err? ==>
              r.effects == [GenerateTitle(TitlePrompt(systemPrompt, text)), LogError(TitleFailureLine(titleOutcome.error)), SendMessage(text)]
              && r.state.title == s.title
  {
    var cleared := s.(input := "", streamingError := None);
    if |VisibleMessages(s.messages)| == 0 && !IsBlank(systemPrompt) then
      var ask := GenerateTitle(TitlePrompt(systemPrompt, text));
      match titleOutcome
      case Ok(title) =>
        var effects := [ask, SendMessage(text)];
        assert effects[0] in effects;
        SubmitResult(cleared.(title := title), effects)
      case Err(e) =>
        var effects := [ask, LogError(TitleFailureLine(e)), SendMessage(text)];
        assert effects[0] in effects;
        SubmitResult(cleared, effects)
    else
      SubmitResult(cleared, [SendMessage(text)])
  }

  /** Submitting the form. `titleOutcome` is what title generation yields if
      it is asked for. */
  function HandleSubmit(s: PromptState, systemPrompt: string, titleOutcome: Result<string, Thrown>): (r: SubmitResult)
    // streaming: only stop; blank input: nothing
    ensures s.status == Streaming ==> r == SubmitResult(s, [StopStream])
    ensures s.status != Streaming && IsBlank(s.input) ==> r == SubmitResult(s, [])
    // any other submit clears the input, the edit and the error
    ensures s.status != Streaming && !IsBlank(s.input) ==>
              r.state.input == "" && r.state.editingId.None? && r.state.streamingError.None?
    // a new message is sent exactly when no edit is active, and a title is
    // asked for only with it
    ensures Sends(r.effects) <==> s.status != Streaming && !IsBlank(s.input) && s.editingId.None?
    ensures AsksTitle(r.effects) ==> Sends(r.effects) && |VisibleMessages(s.messages)| == 0 && !IsBlank(systemPrompt)
  {
    if s.status == Streaming then SubmitResult(s, [StopStream])
    else if IsBlank(s.input) then SubmitResult(s, [])
    else if s.editingId.Some? then SubmitEdit(s, s.editingId.value, Trim(s.input))
    else SubmitNew(s, Trim(s.input), systemPrompt, titleOutcome)
  }

  /** `handleEdit`: an edit starts on the message with the payload's id and
      the input takes the payload's text. Scrolling and focusing are left
      out. */
  function HandleEdit(s: PromptState, payload: (string, string)): (r: PromptState)
    ensures r.editingId == Some(payload.0) && r.input == payload.1
    ensures r.(editingId := s.editingId, input := s.input) == s
  {
    s.(editingId := Some(payload.0), input := payload.1)
  }

  /** `handleCancelEdit`: the edit ends and the input is emptied. */
  function HandleCancelEdit(s: PromptState): (r: PromptState)
    ensures r.editingId.None? && r.input == ""
    ensures r.(editingId := s.editingId, input := s.input) == s
  {
    s.(editingId := None, input := "")
  }

  /** Starting an edit and cancelling it leaves no edit and an empty input,
      and nothing else changed. */
  lemma EditThenCancel(s: PromptState, payload: (string, string))
    ensures HandleCancelEdit(HandleEdit(s, payload)) == s.(editingId := None, input := "")
  {
  }

  /** Opening the edit control of a shown message and submitting the text it
      hands over unchanged writes that text back, trimmed, as the message's
      only part, and leaves every other message as it was; a blank text
      submits nothing. */
  lemma EditThenSubmitKeepsText(s: PromptState, i: nat, systemPrompt: string, titleOutcome: Result<string, Thrown>)
    requires i < |s.messages| && s.messages[i].role != System
    requires forall j :: 0 <= j < i ==> s.messages[j].id != s.messages[i].id
    requires s.status != Streaming
    ensures var m := s.messages[i];
            var r := HandleSubmit(HandleEdit(s, EditPayload(m)), systemPrompt, titleOutcome);
            && (IsBlank(TextOf(m.parts)) ==> r.effects == [] && r.state.messages == s.messages)
            && (!IsBlank(TextOf(m.parts)) ==>
                  && |r.state.messages| == |s.messages|
                  && r.state.messages[i].id == m.id && r.state.messages[i].role == m.role
                  && TextOf(r.state.messages[i].parts) == Trim(TextOf(m.parts))
                  && forall j :: 0 <= j < |s.messages| && j != i ==> r.state.messages[j] == s.messages[j])
  {
    var m := s.messages[i];
    var e := HandleEdit(s, EditPayload(m));
    assert e.messages == s.messages && e.status == s.status;
    assert e.editingId == Some(m.id) && e.input == TextOf(m.parts);
    if !IsBlank(TextOf(m.parts)) {
      var text := Trim(TextOf(m.parts));
      assert HandleSubmit(e, systemPrompt, titleOutcome) == SubmitEdit(e, m.id, text);
      SubmitEditWritesBack(e, i, text);
      TextOfSingle(TextPart(text));
    }
  }

  /** Submitting an edit of a shown message, the first with its id, gives
      that message the text as its only part and leaves the rest alone. */
  lemma SubmitEditWritesBack(e: PromptState, i: nat, text: string)
    requires i < |e.messages| && e.messages[i].role != System
    requires forall j :: 0 <= j < i ==> e.messages[j].id != e.messages[i].id
    ensures var r := SubmitEdit(e, e.messages[i].id, text).state.messages;
            && |r| == |e.messages|
            && r[i] == UiMessage(e.messages[i].id, e.messages[i].role, [TextPart(text)])
            && forall j :: 0 <= j < |r| && j != i ==> r[j] == e.messages[j]
  {
    ShownMessageFound(e.messages, i);
  }

  /** A shown message that is the first with its id is found both among the
      shown messages and, at its own index, in the full list. */
  lemma ShownMessageFound(ms: seq<UiMessage>, i: nat)
    requires i < |ms| && ms[i].role != System
    requires forall j :: 0 <= j < i ==> ms[j].id != ms[i].id
    ensures IndexOfId(VisibleMessages(ms), ms[i].id) != -1
    ensures IndexOfId(ms, ms[i].id) == i
  {
    var v := VisibleMessages(ms);
    VisibleMembership(ms);
    assert ms[i] in v;
  }

  /** The window while submits may wait for their title: `pending` holds, in
      the order of pressing, the texts of new messages whose submit is
      suspended at the title request. */
  datatype Window = Window(state: PromptState, pending: seq<string>)

  /** What one press or one settled title request does to the window. */
  datatype Step = Step(window: Window, effects: seq<Effect>)

  /** A submit that waits for a title: a new, non-blank message on an empty
      conversation with a non-blank system prompt, while not streaming. */
  predicate AwaitsTitle(s: PromptState, systemPrompt: string) {
    && s.status != Streaming && !IsBlank(s.input) && s.editingId.None?
    && |VisibleMessages(s.messages)| == 0 && !IsBlank(systemPrompt)
  }

  /** A submit that does not wait never reads a title outcome. */
  lemma TitleOutcomeUnread(s: PromptState, systemPrompt: string, a: Result<string, Thrown>, b: Result<string, Thrown>)
    requires !AwaitsTitle(s, systemPrompt)
    ensures HandleSubmit(s, systemPrompt, a) == HandleSubmit(s, systemPrompt, b)
  {
  }

  /** The title, or the logged failure, then the send. */
  function Settle(s: PromptState, text: string, outcome: Result<string, Thrown>): (r: SubmitResult)
    ensures r.state.(title := s.title) == s
    ensures r.state.title != s.title ==> outcome == Ok(r.state.title)
    ensures |r.effects| > 0 && r.effects[|r.effects| - 1] == SendMessage(text) && !Sends(r.effects[..|r.effects| - 1])
    ensures outcome.Ok? ==> r.effects == [SendMessage(text)] && r.state.title == outcome.value
    ensures outcome.Err? ==> r.effects == [LogError(TitleFailureLine(outcome.error)), SendMessage(text)]
  {
    match outcome
    case Ok(title) => SubmitResult(s.(title := title), [SendMessage(text)])
    case Err(e) =>
      var effects := [LogError(TitleFailureLine(e)), SendMessage(text)];
      assert effects[..1] == [effects[0]];
      SubmitResult(s, effects)
  }

  /** Pressing Enter or Send, as written. A submit that waits for a title
      runs up to the request and suspends with nothing cleared: the input
      still holds the text and the status is unchanged, so the form stays
      enabled. Every other submit runs to completion. */
  function PressAsWritten(w: Window, systemPrompt: string): (r: Step)
    ensures AwaitsTitle(w.state, systemPrompt) ==>
              && r.window.state == w.state && r.window.pending == w.pending + [Trim(w.state.input)]
              && r.effects == [GenerateTitle(TitlePrompt(systemPrompt, Trim(w.state.input)))]
    ensures !AwaitsTitle(w.state, systemPrompt) ==> r == RunToEnd(w, systemPrompt)
  {
    if AwaitsTitle(w.state, systemPrompt) then
      var text := Trim(w.state.input);
      Step(Window(w.state, w.pending + [text]), [GenerateTitle(TitlePrompt(systemPrompt, text))])
    else RunToEnd(w, systemPrompt)
  }

  /** A press that does not wait: `HandleSubmit` runs to completion, the
      waiting submits untouched. No title is asked for, so the outcome
      passed is never read. */
  function RunToEnd(w: Window, systemPrompt: string): (r: Step)
    ensures r.window.pending == w.pending
    ensures SubmitResult(r.window.state, r.effects) == HandleSubmit(w.state, systemPrompt, Ok(w.state.title))
  {
    var done := HandleSubmit(w.state, systemPrompt, Ok(w.state.title));
    Step(Window(done.state, w.pending), done.effects)
  }

  /** The title request of the `i`-th waiting submit settles, as written:
      the title is set or the failure logged, the text is sent, and the
      input and the error are cleared, whatever the input holds by then. */
  function ResumeAsWritten(w: Window, i: nat, outcome: Result<string, Thrown>): (r: Step)
    requires i < |w.pending|
    ensures r.window.pending == w.pending[..i] + w.pending[i + 1..]
    ensures r.window.state.input == "" && r.window.state.streamingError.None?
    ensures |r.effects| > 0 && r.effects[|r.effects| - 1] == SendMessage(w.pending[i])
  {
    var done := Settle(w.state.(input := "", streamingError := None), w.pending[i], outcome);
    Step(Window(done.state, w.pending[..i] + w.pending[i + 1..]), done.effects)
  }

  /** Pressing Enter or Send as intended: a submit that waits for a title
      takes the input when it starts, so a second press while the title is
      pending finds it empty. */
  function Press(w: Window, systemPrompt: string): (r: Step)
    ensures AwaitsTitle(w.state, systemPrompt) ==>
              && r.window.state == w.state.(input := "", streamingError := None)
              && r.window.pending == w.pending + [Trim(w.state.input)]
              && r.effects == [GenerateTitle(TitlePrompt(systemPrompt, Trim(w.state.input)))]
    ensures !AwaitsTitle(w.state, systemPrompt) ==> r == RunToEnd(w, systemPrompt)
  {
    if AwaitsTitle(w.state, systemPrompt) then
      var text := Trim(w.state.input);
      Step(Window(w.state.(input := "", streamingError := None), w.pending + [text]),
           [GenerateTitle(TitlePrompt(systemPrompt, text))])
    else RunToEnd(w, systemPrompt)
  }

  /** The title request of the `i`-th waiting submit settles, as intended:
      the title is set or the failure logged and the text is sent; whatever
      was typed in the meantime stays in the input. */
  function Resume(w: Window, i: nat, outcome: Result<string, Thrown>): (r: Step)
    requires i < |w.pending|
    ensures r.window.pending == w.pending[..i] + w.pending[i + 1..]
    ensures r.window.state.input == w.state.input
    ensures |r.effects| > 0 && r.effects[|r.effects| - 1] == SendMessage(w.pending[i])
  {
    var done := Settle(w.state, w.pending[i], outcome);
    Step(Window(done.state, w.pending[..i] + w.pending[i + 1..]), done.effects)
  }

  /** One press whose title then settles does what the single-step
      `SubmitNew` does, as written. */
  lemma PressThenResumeAsWritten(s: PromptState, systemPrompt: string, outcome: Result<string, Thrown>)
    requires AwaitsTitle(s, systemPrompt)
    ensures var whole := SubmitNew(s, Trim(s.input), systemPrompt, outcome);
            var p := PressAsWritten(Window(s, []), systemPrompt);
            var r := ResumeAsWritten(p.window, 0, outcome);
            r.window == Window(whole.state, []) && p.effects + r.effects == whole.effects
  {
    var text := Trim(s.input);
    var p := PressAsWritten(Window(s, []), systemPrompt);
    assert p.window == Window(s, [text]);
    var settled := Settle(s.(input := "", streamingError := None), text, outcome);
    assert ResumeAsWritten(p.window, 0, outcome) == Step(Window(settled.state, []), settled.effects);
    SettleCompletesSubmitNew(s, text, systemPrompt, outcome, s.(input := "", streamingError := None));
  }

  /** The same for the corrected press and resume. */
  lemma PressThenResume(s: PromptState, systemPrompt: string, outcome: Result<string, Thrown>)
    requires AwaitsTitle(s, systemPrompt)
    ensures var whole := SubmitNew(s, Trim(s.input), systemPrompt, outcome);
            var p := Press(Window(s, []), systemPrompt);
            var r := Resume(p.window, 0, outcome);
            r.window == Window(whole.state, []) && p.effects + r.effects == whole.effects
  {
    var text := Trim(s.input);
    var cleared := s.(input := "", streamingError := None);
    var p := Press(Window(s, []), systemPrompt);
    assert p.window == Window(cleared, [text]);
    var settled := Settle(cleared, text, outcome);
    assert Resume(p.window, 0, outcome) == Step(Window(settled.state, []), settled.effects);
    SettleCompletesSubmitNew(s, text, systemPrompt, outcome, cleared);
  }

  /** Asking for the title and then settling it on the cleared state is the
      single-step submit of a new message that needs a title. */
  lemma SettleCompletesSubmitNew(s: PromptState, text: string, systemPrompt: string, outcome: Result<string, Thrown>, cleared: PromptState)
    requires |VisibleMessages(s.messages)| == 0 && !IsBlank(systemPrompt)
    requires cleared == s.(input := "", streamingError := None)
    ensures var whole := SubmitNew(s, text, systemPrompt, outcome);
            var settled := Settle(cleared, text, outcome);
            settled.state == whole.state && [GenerateTitle(TitlePrompt(systemPrompt, text))] + settled.effects == whole.effects
  {
  }

  /** As written, pressing twice before the title arrives asks for two
      titles and sends the same text twice. */
  lemma DoublePressAsWrittenSendsTwice(s: PromptState, systemPrompt: string, first: Result<string, Thrown>, second: Result<string, Thrown>)
    requires AwaitsTitle(s, systemPrompt)
    ensures var text := Trim(s.input);
            var p1 := PressAsWritten(Window(s, []), systemPrompt);
            var p2 := PressAsWritten(p1.window, systemPrompt);
            var r1 := ResumeAsWritten(p2.window, 0, first);
            var r2 := ResumeAsWritten(r1.window, 0, second);
            && p1.effects == p2.effects == [GenerateTitle(TitlePrompt(systemPrompt, text))]
            && p2.window.pending == [text, text]
            && r1.effects[|r1.effects| - 1] == SendMessage(text)
            && r2.effects[|r2.effects| - 1] == SendMessage(text)
            && r2.window.pending == []
  {
  }

  /** As intended, a second press while the title is pending does nothing,
      and the text is sent exactly once. */
  lemma DoublePressSendsOnce(s: PromptState, systemPrompt: string, outcome: Result<string, Thrown>)
    requires AwaitsTitle(s, systemPrompt)
    ensures var text := Trim(s.input);
            var p1 := Press(Window(s, []), systemPrompt);
            var p2 := Press(p1.window, systemPrompt);
            var r := Resume(p2.window, 0, outcome);
            && p1.effects == [GenerateTitle(TitlePrompt(systemPrompt, text))]
            && p2.effects == [] && p2.window.pending == [text]
            && r.window.pending == []
            && r.effects[|r.effects| - 1] == SendMessage(text) && !Sends(r.effects[..|r.effects| - 1])
  {
  }
}
