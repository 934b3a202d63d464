/** The UI end of a streaming session (src/services/ai/renderer.ts,
    `AI.streamChat`): it turns received frames into the caller's callbacks and
    hands back a cancel function that sends the abort control message. */
module AiRenderer {
  import opened Wrappers
  import opened Frames

  /** A call the bridge makes into its caller. */
  datatype Callback = ChunkCallback(chunk: Chunk) | DoneCallback | ErrorCallback(message: string)
  {
    predicate IsTerminal() { DoneCallback? || ErrorCallback? }
  }

  /** The bridge's state: its port, the cancel function's `isCleanedUp` flag,
      the callbacks made so far and the control messages that left the port. */
  datatype Bridge = Bridge(portOpen: bool, cleanedUp: bool, calls: seq<Callback>, control: seq<ControlMessage>)

  const Started := Bridge(true, false, [], [])

  /** Which callback a received frame triggers: the `error` key wins over
      `done`, which wins over `chunk`; a frame with none of them triggers none. */
  function Classify(raw: RawFrame): (r: Option<Callback>)
    ensures r.Some? && r.value.ChunkCallback? ==> raw.error.None? && !raw.done
    ensures r.None? <==> raw.error.None? && !raw.done && raw.chunk.None?
  {
    if raw.error.Some? then Some(ErrorCallback(raw.error.value))
    else if raw.done then Some(DoneCallback)
    else if raw.chunk.Some? then Some(ChunkCallback(raw.chunk.value))
    else None
  }

  /** The callback a well-formed data frame stands for. */
  function CallbackFor(f: DataFrame): Callback {
    match f
    case ChunkFrame(c) => ChunkCallback(c)
    case DoneFrame => DoneCallback
    case ErrorFrame(e) => ErrorCallback(e)
  }

  /** A serialised data frame is classified as the frame it came from. */
  lemma ClassifyInvertsToRaw(f: DataFrame)
    ensures Classify(ToRaw(f)) == Some(CallbackFor(f))
    ensures CallbackFor(f).IsTerminal() <==> f.IsTerminal()
  {
  }

  /** The message `error instanceof Error ? error.message : 'Unknown error'`
      reported when a callback throws. */
  function FaultMessage(t: Thrown): (r: string)
    ensures t.ErrorObject? ==> r == t.message
    ensures t.NonError? ==> r == "Unknown error"
  {
    match t
    case ErrorObject(_, m) => m
    case NonError(_) => "Unknown error"
  }

  /** The port's `onmessage` handler for one frame. `fault` is what the
      callback it invokes throws, if anything: the handler then reports the
      fault through `onError` and closes the port; that report is taken not
      to throw in turn. A closed port delivers nothing. The `isCleanedUp`
      flag is not consulted. */
  function Dispatch(b: Bridge, raw: RawFrame, fault: Option<Thrown>): (r: Bridge)
    ensures r.cleanedUp == b.cleanedUp && r.control == b.control
    ensures !b.portOpen || Classify(raw).None? ==> r == b
    ensures b.portOpen && Classify(raw).Some? ==>
              |r.calls| > |b.calls| && r.calls[..|b.calls| + 1] == b.calls + [Classify(raw).value]
    ensures b.portOpen && Classify(raw).Some? && fault.Some? ==>
              r.calls == b.calls + [Classify(raw).value, ErrorCallback(FaultMessage(fault.value))] && !r.portOpen
    ensures b.portOpen && Classify(raw).Some? && fault.None? ==>
              |r.calls| == |b.calls| + 1 && (r.portOpen <==> !Classify(raw).value.IsTerminal())
  {
    if !b.portOpen then b
    else match Classify(raw)
      case None => b
      case Some(cb) =>
        match fault
        case None =>
          b.(calls := b.calls + [cb], portOpen := !cb.IsTerminal())
        case Some(e) =>
          b.(calls := b.calls + [cb, ErrorCallback(FaultMessage(e))], portOpen := false)
  }

  /** The cleanup function returned by `streamChat`: the first call posts
      `{abort: true}` (which a closed port drops) and closes the port; later
      calls do nothing. */
  function Cancel(b: Bridge): (r: Bridge)
    ensures r.cleanedUp && r.calls == b.calls
    ensures b.cleanedUp ==> r == b
    ensures !b.cleanedUp ==> !r.portOpen
    ensures !b.cleanedUp && b.portOpen ==> r.control == b.control + [AbortMessage]
    ensures !b.portOpen ==> r.control == b.control
  {
    if b.cleanedUp then b
    else Bridge(false, true, b.calls, if b.portOpen then b.control + [AbortMessage] else b.control)
  }

  lemma CancelIdempotent(b: Bridge)
    ensures Cancel(Cancel(b)) == Cancel(b)
  {
  }

  /** Once cancelled, the bridge makes no further callbacks. */
  lemma NoCallbacksAfterCancel(b: Bridge, raw: RawFrame, fault: Option<Thrown>)
    requires Sane(b)
    ensures Dispatch(Cancel(b), raw, fault) == Cancel(b)
  {
  }

  /** What can happen to a bridge: a frame arrives, or the caller cancels. */
  datatype Event = Deliver(raw: RawFrame, fault: Option<Thrown>) | CancelCall

  function Apply(b: Bridge, e: Event): Bridge {
    match e
    case Deliver(raw, fault) => Dispatch(b, raw, fault)
    case CancelCall => Cancel(b)
  }

  function Run(b: Bridge, evs: seq<Event>): Bridge
    decreases |evs|
  {
    if evs == [] then b else Run(Apply(b, evs[0]), evs[1..])
  }

  /** What holds of a bridge in every reachable state: at most one control
      message, and that one an abort sent by the cleanup function; no callback
      on an open port after a terminal one, and terminal callbacks only among
      the last two. */
  ghost predicate Sane(b: Bridge) {
    && (b.cleanedUp ==> !b.portOpen)
    && |b.control| <= 1
    && (|b.control| == 1 ==> b.control[0] == AbortMessage && b.cleanedUp)
    && (forall i :: 0 <= i < |b.calls| && b.calls[i].IsTerminal() ==> !b.portOpen && |b.calls| - 2 <= i)
  }

  lemma StartedSane()
    ensures Sane(Started)
  {
  }

  lemma ApplyKeepsSane(b: Bridge, e: Event)
    requires Sane(b)
    ensures Sane(Apply(b, e))
  {
  }

  /** Whatever frames arrive and however often the caller cancels, the bridge
      sends at most one control message, an abort, and makes no callback after
      the port has closed. */
  lemma {:induction false} RunKeepsSane(b: Bridge, evs: seq<Event>)
    requires Sane(b)
    ensures Sane(Run(b, evs))
    ensures |Run(b, evs).control| <= 1
    decreases |evs|
  {
    if evs != [] {
      ApplyKeepsSane(b, evs[0]);
      RunKeepsSane(Apply(b, evs[0]), evs[1..]);
    }
  }
}
