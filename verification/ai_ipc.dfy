/** The main-process end of a streaming session (src/services/ai/ipc.ts,
    the `ai:stream-chat` handler): it drains the generator onto the session's
    message port and listens on the same port for the abort control message. */
module AiIpc {
  import opened Wrappers
  import opened Frames
  import opened AiMain

  /** The handler's state: whether its port is open, the abort flag, and the
      frames that actually left through the port, in order. */
  datatype Backend = Backend(portOpen: bool, aborted: bool, sent: seq<DataFrame>)

  const Opened := Backend(true, false, [])

  /** The port's message listener: a control message with an `abort` key raises
      the abort flag and closes the port; any other message is ignored. */
  function OnControl(b: Backend, m: ControlMessage): (r: Backend)
    ensures m.hasAbort ==> r.aborted && !r.portOpen
    ensures r.sent == b.sent
    ensures !m.hasAbort ==> r == b
  {
    if m.hasAbort then Backend(false, true, b.sent) else b
  }

  /** `port.postMessage`: a message posted on a closed port goes nowhere. */
  function Post(b: Backend, f: DataFrame): (r: Backend)
    ensures b.portOpen ==> r.sent == b.sent + [f]
    ensures !b.portOpen ==> r.sent == b.sent
    ensures r.portOpen == b.portOpen && r.aborted == b.aborted
  {
    if b.portOpen then b.(sent := b.sent + [f]) else b
  }

  function Close(b: Backend): (r: Backend)
    ensures !r.portOpen && r.aborted == b.aborted && r.sent == b.sent
  {
    b.(portOpen := false)
  }

  /** The frames one session sends, by cases on the abort timing and the
      upstream's ending. */
  function HandlerFrames(up: Upstream, timing: AbortTiming): (r: seq<DataFrame>)
    // chunk frames carry the upstream chunks, in order, each at most once
    ensures forall i :: 0 <= i < |r| && r[i].ChunkFrame? ==> i < |up.chunks| && r[i].chunk == up.chunks[i]
    // only the last frame can be terminal, so there is at most one
    ensures forall i :: 0 <= i < |r| - 1 ==> r[i].ChunkFrame?
    // done: only when never aborted and the upstream ended normally, after every chunk
    ensures DoneFrame in r <==> !AbortedBy(timing, |up.chunks|) && up.ending.Exhausted?
    ensures DoneFrame in r ==> r == ChunkFrames(up.chunks) + [DoneFrame]
    // error: one frame with the failure's message, unless it is an AbortError
    ensures (exists i :: 0 <= i < |r| && r[i].ErrorFrame?) <==>
              !AbortedBy(timing, |up.chunks|) && up.ending.Throws? && !IsAbortError(up.ending.error)
    ensures |r| > 0 && r[|r| - 1].ErrorFrame? ==> r[|r| - 1].error == ThrownMessage(up.ending.error)
    // after an abort nothing but the chunks pulled before it
    ensures AbortedBy(timing, |up.chunks|) ==> r == ChunkFrames(up.chunks[..timing.k])
  {
    if AbortedBy(timing, |up.chunks|) then ChunkFrames(up.chunks[..timing.k])
    else match up.ending
      case Exhausted => ChunkFrames(up.chunks) + [DoneFrame]
      case Throws(e) =>
        if IsAbortError(e) then ChunkFrames(up.chunks)
        else
          var r := ChunkFrames(up.chunks) + [ErrorFrame(ThrownMessage(e))];
          assert r[|r| - 1].ErrorFrame?;
          r
  }

  /** The `ai:stream-chat` handler run to completion. The abort listener is
      interleaved at the only points where it can run: while a pull is pending.
      The handler's own abort check after each yielded chunk (ipc.ts:44-47) sees
      the same flag the generator has just checked, so it never fires and is
      folded into `PullStep`. */
  method RunHandler(up: Upstream, timing: AbortTiming) returns (b: Backend)
    ensures b.sent == HandlerFrames(up, timing)
    ensures b.aborted <==> AbortedBy(timing, |up.chunks|)
    ensures b.portOpen <==> !b.aborted && up.ending.Throws? && IsAbortError(up.ending.error)
  {
    b := Opened;
    var i := 0;
    var running := true;
    var threw: Option<Thrown> := None;
    while running
      invariant 0 <= i <= |up.chunks|
      invariant b.sent == ChunkFrames(up.chunks[..i])
      invariant !AbortedBy(timing, i - 1)
      invariant b.portOpen == !b.aborted
      invariant running ==> !b.aborted && threw.None?
      invariant !running ==> b.aborted == AbortedBy(timing, i)
      invariant !running && i < |up.chunks| ==> b.aborted && threw.None?
      invariant !running && i == |up.chunks| ==> threw == (if up.ending.Throws? then Some(up.ending.error) else None)
      decreases |up.chunks| - i, running
    {
      if timing == BeforePull(i) {
        b := OnControl(b, AbortMessage);
      }
      match PullStep(up, i, b.aborted)
      case Yield(c) =>
        b := Post(b, ChunkFrame(c));
        i := i + 1;
      case Return =>
        running := false;
      case Raise(e) =>
        threw := Some(e);
        running := false;
    }
    assert up.chunks[..i] == (if b.aborted then up.chunks[..timing.k] else up.chunks);
    match threw
    case None =>
      if !b.aborted {
        b := Post(b, DoneFrame);
        b := Close(b);
      }
    case Some(e) =>
      if !IsAbortError(e) {
        b := Post(b, ErrorFrame(ThrownMessage(e)));
        b := Close(b);
      }
  }

  /** An abort raised before the first item arrives yields a session that
      sends nothing at all. */
  lemma PreAbortSendsNothing(up: Upstream)
    ensures HandlerFrames(up, BeforePull(0)) == []
  {
  }

  /** Done and error never both appear, and a session that was not aborted
      and did not fail with an AbortError always ends with exactly one of them. */
  lemma OneTerminalUnlessAborted(up: Upstream, timing: AbortTiming)
    ensures var r := HandlerFrames(up, timing);
            !(DoneFrame in r && exists i :: 0 <= i < |r| && r[i].ErrorFrame?)
    ensures var r := HandlerFrames(up, timing);
            !AbortedBy(timing, |up.chunks|) && !(up.ending.Throws? && IsAbortError(up.ending.error)) ==>
              |r| == |up.chunks| + 1 && r[|r| - 1].IsTerminal()
  {
  }
}
