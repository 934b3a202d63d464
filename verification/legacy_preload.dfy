/** The earlier bridge of the prompt window (src/prompt/preload.ts,
    `promptAPI.streamChat`): chunks arrive in batches, the bridge counts the
    chunks it has forwarded, and it hands back no cancel function. */
module LegacyPreload {
  import opened Wrappers
  import opened Frames
  import opened AiRenderer
  import opened PromptTransport

  /** A received frame: `error`, `done` and a `chunks` batch are tested with
      `in`, in that order. */
  datatype BatchFrame = BatchFrame(error: Option<string>, done: bool, chunks: Option<seq<Chunk>>)

  /** The bridge: its port, `enqueuedCount`, and the callbacks made so far. */
  datatype BatchBridge = BatchBridge(portOpen: bool, enqueuedCount: nat, calls: seq<Callback>)

  const BatchStarted := BatchBridge(true, 0, [])

  /** A callback that throws: the `at`-th callback made for the frame, and
      what it throws. */
  datatype Fault = Fault(at: nat, thrown: Thrown)

  /** How many chunk callbacks a run of callbacks holds. */
  function ChunkCount(calls: seq<Callback>): nat
    decreases |calls|
  {
    if calls == [] then 0
    else ChunkCount(calls[..|calls| - 1]) + (if calls[|calls| - 1].ChunkCallback? then 1 else 0)
  }

  lemma ChunkCountStep(calls: seq<Callback>, cb: Callback)
    ensures ChunkCount(calls + [cb]) == ChunkCount(calls) + (if cb.ChunkCallback? then 1 else 0)
  {
    assert (calls + [cb])[..|calls + [cb]| - 1] == calls;
  }

  /** The report of a fault in the one callback an error or done frame makes. */
  function FirstCallFault(fault: Option<Fault>): seq<Callback> {
    if fault.Some? && fault.value.at == 0 then [ErrorCallback(FaultMessage(fault.value.thrown))] else []
  }

  /** The `chunks` branch on an open port: each chunk is counted and then
      forwarded, in array order, until a callback throws; a throw is reported
      through `onError` and closes the port. */
  method ForwardBatch(b: BatchBridge, cs: seq<Chunk>, fault: Option<Fault>) returns (r: BatchBridge)
    requires b.portOpen
    ensures fault.None? || fault.value.at >= |cs| ==>
              r == BatchBridge(true, b.enqueuedCount + |cs|, b.calls + ChunkCallbacks(cs))
    ensures fault.Some? && fault.value.at < |cs| ==>
              var n := fault.value.at + 1;
              r == BatchBridge(false, b.enqueuedCount + n,
                               b.calls + ChunkCallbacks(cs[..n]) + [ErrorCallback(FaultMessage(fault.value.thrown))])
    ensures r.enqueuedCount - b.enqueuedCount == ChunkCount(r.calls) - ChunkCount(b.calls)
  {
    var caught, i;
    r, caught, i := EnqueueUntilFault(b, cs, fault);
    if caught.Some? {
      ChunkCountStep(r.calls, ErrorCallback(FaultMessage(caught.value)));
      r := BatchBridge(false, r.enqueuedCount, r.calls + [ErrorCallback(FaultMessage(caught.value))]);
    } else {
      assert cs[..i] == cs;
    }
  }

  /** The batch loop: chunks are enqueued one by one until the callback of
      the `i`-th throws, which stops the loop right after it. */
  method EnqueueUntilFault(b: BatchBridge, cs: seq<Chunk>, fault: Option<Fault>)
    returns (r: BatchBridge, caught: Option<Thrown>, i: nat)
    requires b.portOpen
    ensures i <= |cs| && r.portOpen && r.enqueuedCount == b.enqueuedCount + i
    ensures r.calls == b.calls + ChunkCallbacks(cs[..i])
    ensures ChunkCount(r.calls) == ChunkCount(b.calls) + i
    ensures caught.None? ==> i == |cs| && (fault.None? || fault.value.at >= i)
    ensures caught.Some? ==> fault.Some? && fault.value.at + 1 == i && caught.value == fault.value.thrown
  {
    r := b;
    caught := None;
    i := 0;
    while i < |cs| && caught.None?
      invariant i <= |cs|
      invariant r.portOpen && r.enqueuedCount == b.enqueuedCount + i
      invariant r.calls == b.calls + ChunkCallbacks(cs[..i])
      invariant ChunkCount(r.calls) == ChunkCount(b.calls) + i
      invariant caught.None? ==> fault.None? || fault.value.at >= i
      invariant caught.Some? ==> fault.Some? && fault.value.at + 1 == i && caught.value == fault.value.thrown
    {
      ChunkCountStep(r.calls, ChunkCallback(cs[i]));
      ChunkCallbacksPrefix(cs, i, b.calls);
      r := BatchBridge(true, r.enqueuedCount + 1, r.calls + [ChunkCallback(cs[i])]);
      if fault.Some? && fault.value.at == i {
        caught := Some(fault.value.thrown);
      }
      i := i + 1;
    }
  }

  /** One more chunk's callback extends the callbacks of the prefix before it. */
  lemma ChunkCallbacksPrefix(cs: seq<Chunk>, i: nat, before: seq<Callback>)
    requires i < |cs|
    ensures before + ChunkCallbacks(cs[..i + 1]) == before + ChunkCallbacks(cs[..i]) + [ChunkCallback(cs[i])]
  {
    assert ChunkCallbacks(cs[..i + 1]) == ChunkCallbacks(cs[..i]) + [ChunkCallback(cs[i])];
  }

  /** The error and done branches: the callback, a report if it throws,
      then close. */
  function Finish(b: BatchBridge, cb: Callback, fault: Option<Fault>): (r: BatchBridge)
    ensures !r.portOpen && r.enqueuedCount == b.enqueuedCount
    ensures r.calls == b.calls + [cb] + FirstCallFault(fault)
  {
    BatchBridge(false, b.enqueuedCount, b.calls + [cb] + FirstCallFault(fault))
  }

  /** The port's `onmessage` handler for one frame: error first, then done,
      then a batch; a closed port delivers nothing. */
  method DispatchBatch(b: BatchBridge, raw: BatchFrame, fault: Option<Fault>) returns (r: BatchBridge)
    ensures !b.portOpen ==> r == b
    ensures b.portOpen && raw.error.Some? ==> r == Finish(b, ErrorCallback(raw.error.value), fault)
    ensures b.portOpen && raw.error.None? && raw.done ==> r == Finish(b, DoneCallback, fault)
    ensures b.portOpen && raw.error.None? && !raw.done && raw.chunks.Some? && (fault.None? || fault.value.at >= |raw.chunks.value|) ==>
              r == BatchBridge(true, b.enqueuedCount + |raw.chunks.value|, b.calls + ChunkCallbacks(raw.chunks.value))
    ensures b.portOpen && raw.error.None? && !raw.done && raw.chunks.None? ==> r == b
    // the count is the number of chunks forwarded
    ensures r.enqueuedCount - b.enqueuedCount == ChunkCount(r.calls) - ChunkCount(b.calls)
  {
    if !b.portOpen {
      r := b;
    } else if raw.error.Some? {
      r := Finish(b, ErrorCallback(raw.error.value), fault);
      FinishKeepsCount(b, ErrorCallback(raw.error.value), fault);
    } else if raw.done {
      r := Finish(b, DoneCallback, fault);
      FinishKeepsCount(b, DoneCallback, fault);
    } else if raw.chunks.Some? {
      r := ForwardBatch(b, raw.chunks.value, fault);
    } else {
      r := b;
    }
  }

  lemma FinishKeepsCount(b: BatchBridge, cb: Callback, fault: Option<Fault>)
    requires !cb.ChunkCallback?
    ensures ChunkCount(Finish(b, cb, fault).calls) == ChunkCount(b.calls)
  {
    ChunkCountStep(b.calls, cb);
    if FirstCallFault(fault) != [] {
      ChunkCountStep(b.calls + [cb], FirstCallFault(fault)[0]);
    } else {
      assert b.calls + [cb] + FirstCallFault(fault) == b.calls + [cb];
    }
  }

  /** As written, the bridge returns nothing, though its caller treats the
      result as a cancel function: on abort the call throws a TypeError before
      the stream is closed, and the bridge goes on delivering. */
  function LegacyOnAbortAsWritten(a: Adapter, bridge: BatchBridge): (r: (Adapter, BatchBridge, Option<Thrown>))
    ensures a.listening ==> r == (a, bridge, Some(ErrorObject("TypeError", "abortStream is not a function")))
    ensures !a.listening ==> r == (a, bridge, None)
  {
    if a.listening then (a, bridge, Some(ErrorObject("TypeError", "abortStream is not a function")))
    else (a, bridge, None)
  }

  /** The evidently intended bridge hands back a cancel function that closes
      its port, as the later bridge does; the abort listener then closes the
      stream. */
  function LegacyCancel(bridge: BatchBridge): (r: BatchBridge)
    ensures !r.portOpen && r.calls == bridge.calls && r.enqueuedCount == bridge.enqueuedCount
  {
    bridge.(portOpen := false)
  }

  function LegacyOnAbort(a: Adapter, bridge: BatchBridge): (r: (Adapter, BatchBridge))
    ensures r.0 == OnAbort(a)
    ensures a.listening ==> r.1 == LegacyCancel(bridge)
    ensures !a.listening ==> r.1 == bridge
  {
    if a.listening then (OnAbort(a), LegacyCancel(bridge)) else (a, bridge)
  }

  /** An abort during a session: as written the stream stays open and a
      later batch is still forwarded; with a cancel function the stream is
      closed and later batches reach nobody. */
  lemma AbortAsWrittenLeavesStreamOpen(a: Adapter, bridge: BatchBridge, late: seq<Chunk>)
    requires a.listening && !Readable(a.ops).closed && bridge.portOpen
    ensures var (a1, b1, thrown) := LegacyOnAbortAsWritten(a, bridge);
            && thrown.Some?
            && !Readable(a1.ops).closed
            && b1.portOpen
    ensures var (a2, b2) := LegacyOnAbort(a, bridge);
            && Readable(a2.ops).closed
            && !b2.portOpen
  {
    var (a2, b2) := LegacyOnAbort(a, bridge);
    assert a2.ops == a.ops + [CallCancel, CloseStream];
    assert a2.ops[..|a2.ops| - 1] == a.ops + [CallCancel];
    assert (a.ops + [CallCancel])[..|a.ops|] == a.ops;
  }
}
