/** The API-key field of the settings window (src/apps/settings/SecureInput.tsx):
    the mask, and the edited/previousValue state machine that clears the
    field on focus, restores it on blur, and masks it again when a reset
    scheduled by the parent's "saved" flag fires. */
module SecureInput {

  const Stars: string := "***"

  /** `maskApiKey`: keys of at most 8 characters are hidden entirely; longer
      keys show their first and last four characters around three stars. */
  function MaskApiKey(key: string): (r: string)
    ensures |key| <= 8 ==> r == Stars
    ensures |key| > 8 ==> |r| == 11
    ensures |key| > 8 ==> r[..4] == key[..4] && r[4..7] == Stars && r[7..] == key[|key| - 4..]
  {
    if |key| <= 8 then Stars else key[..4] + Stars + key[|key| - 4..]
  }

  /** The mask reveals nothing but the length class and the two ends: keys
      that agree on those mask alike, and keys that mask alike agree on them. */
  lemma MaskDependsOnlyOnEnds(a: string, b: string)
    ensures (|a| <= 8 && |b| <= 8) ==> MaskApiKey(a) == MaskApiKey(b)
    ensures (|a| > 8 && |b| > 8) ==>
      (MaskApiKey(a) == MaskApiKey(b) <==> a[..4] == b[..4] && a[|a| - 4..] == b[|b| - 4..])
  {
    if |a| > 8 && |b| > 8 && MaskApiKey(a) == MaskApiKey(b) {
      assert MaskApiKey(a)[..4] == MaskApiKey(b)[..4];
      assert MaskApiKey(a)[7..] == MaskApiKey(b)[7..];
    }
  }

  /** The component's state together with what its parent passes in:
      `value` is the parent's key and `saved` the parent's "saved" flag;
      `edited` is whether the user typed since the last reset,
      `previousValue` the key remembered on focus, and `pending` the number
      of zero-delay resets scheduled by the effect and not yet fired. */
  datatype KeyInput = KeyInput(value: string, edited: bool, previousValue: string, saved: bool, pending: nat)

  /** The effect with dependencies `[saved, value]` after a render that took
      the field from `before` to `after`: it re-runs when either dependency
      changed, and while the parent reports a save it schedules a reset. */
  function Effect(before: KeyInput, after: KeyInput): (r: KeyInput)
    ensures r.(pending := after.pending) == after
    ensures r.pending > after.pending <==>
      after.saved && (after.value != before.value || after.saved != before.saved)
    ensures r.pending <= after.pending + 1
  {
    if after.saved && (after.value != before.value || after.saved != before.saved)
    then after.(pending := after.pending + 1)
    else after
  }

  /** A freshly mounted field remembers the value it was given; the effect
      runs on mount, so a field mounted while the parent shows "saved" has a
      reset scheduled. */
  function Mount(value: string, saved: bool): (s: KeyInput)
    ensures s.value == s.previousValue == value && !s.edited && s.saved == saved
    ensures s.pending == (if saved then 1 else 0)
  {
    KeyInput(value, false, value, saved, if saved then 1 else 0)
  }

  /** Focus on an unedited field remembers the key and clears the field;
      an edited field keeps what was typed. Clearing a non-empty key while
      the parent shows "saved" schedules a reset. */
  function Focus(s: KeyInput): (r: KeyInput)
    ensures !s.edited ==> r.previousValue == s.value && r.value == "" && !r.edited
    ensures s.edited ==> r == s
    ensures r.saved == s.saved
    ensures r.pending == s.pending + (if !s.edited && s.saved && s.value != "" then 1 else 0)
  {
    if !s.edited then Effect(s, s.(previousValue := s.value, value := "")) else s
  }

  /** Blur on an unedited field puts the remembered key back. */
  function Blur(s: KeyInput): (r: KeyInput)
    ensures r.edited == s.edited && r.previousValue == s.previousValue && r.saved == s.saved
    ensures !s.edited ==> r.value == s.previousValue
    ensures s.edited ==> r.value == s.value
    ensures r.pending == s.pending + (if !s.edited && s.saved && s.previousValue != s.value then 1 else 0)
  {
    if !s.edited then Effect(s, s.(value := s.previousValue)) else s
  }

  /** Typing marks the field edited and hands the typed text to the parent.
      While the parent shows "saved", a keystroke that changes the key
      re-runs the effect, which schedules a reset of that very edit. */
  function Change(s: KeyInput, typed: string): (r: KeyInput)
    ensures r.edited && r.value == typed && r.previousValue == s.previousValue && r.saved == s.saved
    ensures r.pending == s.pending + (if s.saved && typed != s.value then 1 else 0)
  {
    Effect(s, s.(edited := true, value := typed))
  }

  /** The parent raises its "saved" flag after a save. Raising it changes a
      dependency of the effect, which schedules a reset; raising a flag that
      is already up is no change and schedules nothing. */
  function SavedRaised(s: KeyInput): (r: KeyInput)
    ensures r.saved && r.value == s.value && r.edited == s.edited && r.previousValue == s.previousValue
    ensures r.pending == s.pending + (if s.saved then 0 else 1)
  {
    Effect(s, s.(saved := true))
  }

  /** The parent's two-second timer lowers the flag; the effect re-runs but
      schedules nothing. */
  function SavedLowered(s: KeyInput): (r: KeyInput)
    ensures !r.saved && r == s.(saved := false)
  {
    Effect(s, s.(saved := false))
  }

  /** A scheduled zero-delay reset fires: the field is no longer edited.
      The component only ever fires resets it has scheduled; a reset event
      with none pending is not one it produces, and letting it clear the
      flag too merely widens the histories the lemmas below cover. */
  function ResetFires(s: KeyInput): (r: KeyInput)
    ensures !r.edited && r.value == s.value && r.previousValue == s.previousValue && r.saved == s.saved
    ensures r.pending == if s.pending > 0 then s.pending - 1 else 0
  {
    s.(edited := false, pending := if s.pending > 0 then s.pending - 1 else 0)
  }

  /** What the input element shows. */
  function Display(s: KeyInput): (r: string)
    ensures s.edited || s.value == "" ==> r == s.value
    ensures !s.edited && s.value != "" ==> r == MaskApiKey(s.value)
  {
    if s.edited || s.value == "" then s.value else MaskApiKey(s.value)
  }

  /** Focusing and leaving an unedited field without typing gives back the
      key and its masked rendering. */
  lemma FocusThenBlurRestores(s: KeyInput)
    requires !s.edited
    ensures Blur(Focus(s)).value == s.value
    ensures Display(Blur(Focus(s))) == Display(s)
    ensures Display(Focus(s)) == ""
  {
  }

  /** Once something is typed, leaving the field keeps the typed text and
      shows it in clear. */
  lemma TypedValueSurvivesBlur(s: KeyInput, typed: string)
    ensures Blur(Change(s, typed)).value == typed
    ensures Blur(Change(s, typed)).edited
    ensures Display(Blur(Change(s, typed))) == typed
  {
  }

  /** A save made while the flag is down schedules a reset, and once it has
      fired an unchanged non-empty key is shown masked again. */
  lemma SavedMasksAgain(s: KeyInput)
    requires !s.saved && s.value != ""
    ensures SavedRaised(s).pending > s.pending
    ensures Display(ResetFires(SavedRaised(s))) == MaskApiKey(s.value)
  {
  }

  /** A keystroke inside the two seconds after a save is shown in clear only
      until the reset it scheduled fires; then the typed key is shown
      masked, so the next keystroke edits the mask rather than the key. */
  lemma KeystrokeWhileSavedIsMasked(s: KeyInput, typed: string, c: char)
    requires s.saved && typed != s.value && typed != ""
    ensures Change(s, typed).pending == s.pending + 1
    ensures Display(Change(s, typed)) == typed
    ensures Display(ResetFires(Change(s, typed))) == MaskApiKey(typed)
    ensures Change(ResetFires(Change(s, typed)), MaskApiKey(typed) + [c]).value == MaskApiKey(typed) + [c]
  {
  }

  /** Outside a saved window typing schedules nothing. */
  lemma KeystrokeWhileNotSavedStays(s: KeyInput, typed: string)
    requires !s.saved
    ensures Change(s, typed).pending == s.pending
    ensures Display(Change(s, typed)) == typed
  {
  }

  datatype Event =
    | FocusEvent
    | BlurEvent
    | ChangeEvent(typed: string)
    | SavedRaisedEvent
    | SavedLoweredEvent
    | ResetEvent

  function Step(s: KeyInput, e: Event): KeyInput {
    match e
    case FocusEvent => Focus(s)
    case BlurEvent => Blur(s)
    case ChangeEvent(typed) => Change(s, typed)
    case SavedRaisedEvent => SavedRaised(s)
    case SavedLoweredEvent => SavedLowered(s)
    case ResetEvent => ResetFires(s)
  }

  function Run(s: KeyInput, events: seq<Event>): KeyInput
    decreases |events|
  {
    if events == [] then s else Step(Run(s, events[..|events| - 1]), events[|events| - 1])
  }

  /** Whether some keystroke came after the last reset in `events`. */
  predicate TypedSinceReset(events: seq<Event>)
    decreases |events|
  {
    if events == [] then false
    else match events[|events| - 1]
      case ChangeEvent(_) => true
      case ResetEvent => false
      case _ => TypedSinceReset(events[..|events| - 1])
  }

  /** Over any event history from mount, the field counts as edited exactly
      when the user typed after the last reset fired, so it is shown in
      clear exactly then (or when empty). Resets come from saves and from
      key changes made while the parent shows "saved". */
  lemma {:induction false} EditedIffTypedSinceReset(value: string, saved: bool, events: seq<Event>)
    ensures Run(Mount(value, saved), events).edited <==> TypedSinceReset(events)
    ensures !TypedSinceReset(events) && Run(Mount(value, saved), events).value != "" ==>
      Display(Run(Mount(value, saved), events)) == MaskApiKey(Run(Mount(value, saved), events).value)
    decreases |events|
  {
    if events != [] {
      EditedIffTypedSinceReset(value, saved, events[..|events| - 1]);
    }
  }

  /** A field mounted while the flag is down, whose parent never reports a
      save, never has a reset scheduled: its flag stays down and every
      keystroke is kept. */
  lemma {:induction false} NoSaveNoReset(value: string, events: seq<Event>)
    requires forall i :: 0 <= i < |events| ==> !events[i].SavedRaisedEvent?
    ensures !Run(Mount(value, false), events).saved
    ensures Run(Mount(value, false), events).pending == 0
    decreases |events|
  {
    if events != [] {
      NoSaveNoReset(value, events[..|events| - 1]);
    }
  }
}
