/** Chat messages as the prompt window shows them
    (src/apps/prompt/Message.tsx): the displayed text, the activity
    indicator, completion, and the copy and edit controls. */
module ChatMessage {
  import opened Wrappers
  import opened Strings

  datatype Role = System | User | Assistant

  /** A message part: only text parts are displayed; the other kinds
      (reasoning, tool calls, files, ...) are carried by name. */
  datatype Part = TextPart(text: string) | OtherPart(kind: string)

  datatype UiMessage = UiMessage(id: string, role: Role, parts: seq<Part>)

  /** The chat library's request status. */
  datatype Status = Submitted | Streaming | Ready | Failed

  /** The displayed text: the text parts' texts joined in order. */
  function TextOf(parts: seq<Part>): (r: string)
    ensures (forall i :: 0 <= i < |parts| ==> parts[i].OtherPart?) ==> r == ""
    decreases |parts|
  {
    if parts == [] then ""
    else (if parts[0].TextPart? then parts[0].text else "") + TextOf(parts[1..])
  }

  /** Appending parts appends their text; a non-text part adds nothing. */
  lemma {:induction false} TextOfAppend(a: seq<Part>, b: seq<Part>)
    ensures TextOf(a + b) == TextOf(a) + TextOf(b)
    decreases |a|
  {
    if a == [] {
      assert a + b == b;
    } else {
      assert (a + b)[1..] == a[1..] + b;
      TextOfAppend(a[1..], b);
    }
  }

  lemma TextOfSingle(p: Part)
    ensures TextOf([p]) == (if p.TextPart? then p.text else "")
  {
  }

  /** Some text part has empty text. */
  predicate HasEmptyText(parts: seq<Part>) {
    exists i :: 0 <= i < |parts| && parts[i].TextPart? && parts[i].text == ""
  }

  /** Whether the pulsing indicator replaces the message body. */
  predicate ShowActivityIndicator(m: UiMessage, lastMessage: bool, status: Status) {
    && m.role == Assistant
    && lastMessage
    && (status == Submitted || (status == Streaming && HasEmptyText(m.parts)))
  }

  /** Whether the message is finished: non-blank text, and not the last
      message while a request is under way. */
  predicate MessageComplete(m: UiMessage, lastMessage: bool, status: Status) {
    && !IsBlank(TextOf(m.parts))
    && (!lastMessage || (status != Submitted && status != Streaming))
  }

  /** The indicator shows exactly for the last assistant message while a
      request is submitted, or streaming with an empty text part. */
  lemma IndicatorCases(m: UiMessage, lastMessage: bool, status: Status)
    ensures m.role != Assistant || !lastMessage ==> !ShowActivityIndicator(m, lastMessage, status)
    ensures status == Ready || status == Failed ==> !ShowActivityIndicator(m, lastMessage, status)
    ensures m.role == Assistant && lastMessage && status == Submitted ==> ShowActivityIndicator(m, lastMessage, status)
    ensures m.role == Assistant && lastMessage && status == Streaming ==>
              (ShowActivityIndicator(m, lastMessage, status) <==> HasEmptyText(m.parts))
  {
  }

  /** Blank text is never complete; a message that is not the last is
      complete exactly when its text is not blank; and a complete message
      never shows the indicator. */
  lemma CompletionCases(m: UiMessage, lastMessage: bool, status: Status)
    ensures IsBlank(TextOf(m.parts)) ==> !MessageComplete(m, lastMessage, status)
    ensures !lastMessage ==> (MessageComplete(m, lastMessage, status) <==> !IsBlank(TextOf(m.parts)))
    ensures MessageComplete(m, lastMessage, status) ==> !ShowActivityIndicator(m, lastMessage, status)
  {
  }

  /** The symbol the message asks for once complete: the copy symbol for an
      assistant message, the edit symbol for a user message, none otherwise. */
  function IconRequest(m: UiMessage, lastMessage: bool, status: Status): (r: Option<string>)
    ensures r.Some? <==> MessageComplete(m, lastMessage, status) && m.role != System
    ensures r == Some("square.on.square") <==> MessageComplete(m, lastMessage, status) && m.role == Assistant
    ensures r == Some("square.and.pencil") <==> MessageComplete(m, lastMessage, status) && m.role == User
  {
    if !MessageComplete(m, lastMessage, status) then None
    else match m.role
      case Assistant => Some("square.on.square")
      case User => Some("square.and.pencil")
      case System => None
  }

  /** The icon the message holds: what its symbol request resolved to, and
      nothing while no request stands. */
  function Icon(m: UiMessage, lastMessage: bool, status: Status, resolved: Option<string>): Option<string> {
    if IconRequest(m, lastMessage, status).Some? then resolved else None
  }

  predicate ShowCopyControl(m: UiMessage, lastMessage: bool, status: Status, resolved: Option<string>) {
    !ShowActivityIndicator(m, lastMessage, status) && m.role == Assistant
    && Icon(m, lastMessage, status, resolved).Some?
  }

  predicate ShowEditControl(m: UiMessage, lastMessage: bool, status: Status, editing: bool, resolved: Option<string>) {
    !ShowActivityIndicator(m, lastMessage, status) && m.role == User && !editing
    && Icon(m, lastMessage, status, resolved).Some?
  }

  /** The copy control appears only on complete assistant messages, the edit
      control only on complete user messages not being edited; both appear
      as soon as the symbol has loaded. */
  lemma ControlVisibility(m: UiMessage, lastMessage: bool, status: Status, editing: bool, resolved: Option<string>)
    ensures ShowCopyControl(m, lastMessage, status, resolved) <==>
              m.role == Assistant && MessageComplete(m, lastMessage, status) && resolved.Some?
    ensures ShowEditControl(m, lastMessage, status, editing, resolved) <==>
              m.role == User && !editing && MessageComplete(m, lastMessage, status) && resolved.Some?
    ensures !(ShowCopyControl(m, lastMessage, status, resolved) && ShowEditControl(m, lastMessage, status, editing, resolved))
  {
    CompletionCases(m, lastMessage, status);
  }

  /** What the edit control hands to `onEdit`: the message's id and its
      displayed text. */
  function EditPayload(m: UiMessage): (r: (string, string))
    ensures r.0 == m.id
    ensures r.1 == TextOf(m.parts)
  {
    (m.id, TextOf(m.parts))
  }
}
