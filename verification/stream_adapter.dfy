/** The chat transport of the prompt window (src/apps/prompt/App.tsx,
    `sendMessages`): it opens a readable stream of chunks for the chat library
    and feeds it from the bridge's callbacks. */
module PromptTransport {
  import opened Wrappers
  import opened Frames
  import opened AiRenderer

  /** What the transport does to the stream's controller, or to the bridge's
      cancel function. */
  datatype Op = Enqueue(chunk: Chunk) | CloseStream | CallCancel

  /** The transport's state: whether its abort listener is registered, what it
      has done so far, and the `streamingError` it has set. */
  datatype Adapter = Adapter(listening: bool, ops: seq<Op>, streamingError: Option<string>)

  /** `start(controller)`. The abort signal is absent (`None`) or present with
      its `aborted` flag. An already-aborted signal closes the stream at once
      and opens no bridge; otherwise the bridge is opened, and the abort
      listener is registered only when there is a signal to listen to. */
  function Start(signal: Option<bool>): (r: Adapter)
    ensures signal == Some(true) ==> r.ops == [CloseStream] && !r.listening
    ensures signal != Some(true) ==> r.ops == []
    ensures r.listening <==> signal == Some(false)
    ensures r.streamingError.None?
  {
    if signal == Some(true) then Adapter(false, [CloseStream], None)
    else Adapter(signal == Some(false), [], None)
  }

  /** Whether `start` calls `AI.streamChat`. */
  predicate OpensBridge(signal: Option<bool>) {
    signal != Some(true)
  }

  /** The three callbacks handed to the bridge. */
  function OnCallback(a: Adapter, cb: Callback): (r: Adapter)
    ensures r.listening == a.listening
    ensures cb.ChunkCallback? ==> r.ops == a.ops + [Enqueue(cb.chunk)] && r.streamingError == a.streamingError
    ensures cb.DoneCallback? ==> r.ops == a.ops + [CloseStream] && r.streamingError == a.streamingError
    ensures cb.ErrorCallback? ==>
              r.ops == a.ops + [Enqueue(ErrorChunk(cb.message)), CloseStream] && r.streamingError == Some(cb.message)
  {
    match cb
    case ChunkCallback(c) => a.(ops := a.ops + [Enqueue(c)])
    case DoneCallback => a.(ops := a.ops + [CloseStream])
    case ErrorCallback(e) => a.(ops := a.ops + [Enqueue(ErrorChunk(e)), CloseStream], streamingError := Some(e))
  }

  /** The abort listener: cancel the bridge, then close the stream. Without a
      registered listener an abort does nothing. */
  function OnAbort(a: Adapter): (r: Adapter)
    ensures a.listening ==> r.ops == a.ops + [CallCancel, CloseStream]
    ensures !a.listening ==> r == a
    ensures r.listening == a.listening && r.streamingError == a.streamingError
  {
    if a.listening then a.(ops := a.ops + [CallCancel, CloseStream]) else a
  }

  /** The transport's reaction to a run of callbacks, in order. */
  function FeedAll(a: Adapter, cbs: seq<Callback>): Adapter
    decreases |cbs|
  {
    if cbs == [] then a else FeedAll(OnCallback(a, cbs[0]), cbs[1..])
  }

  /** What the stream's reader sees: the chunks enqueued before the stream was
      first closed, and whether it has been closed. */
  datatype StreamView = StreamView(chunks: seq<Chunk>, closed: bool)

  function Readable(ops: seq<Op>): (r: StreamView)
    ensures r.closed <==> CloseStream in ops
    ensures |r.chunks| <= |ops|
    decreases |ops|
  {
    if ops == [] then StreamView([], false)
    else
      var before := Readable(ops[..|ops| - 1]);
      assert ops == ops[..|ops| - 1] + [ops[|ops| - 1]];
      if before.closed then before
      else match ops[|ops| - 1]
        case Enqueue(c) => StreamView(before.chunks + [c], false)
        case CloseStream => StreamView(before.chunks, true)
        case CallCancel => before
  }

  /** Nothing done to a closed stream reaches its reader. */
  lemma {:induction false} ReadableClosedStable(ops: seq<Op>, more: seq<Op>)
    requires Readable(ops).closed
    ensures Readable(ops + more) == Readable(ops)
    decreases |more|
  {
    if more != [] {
      var init := more[..|more| - 1];
      assert (ops + more)[..|ops + more| - 1] == ops + init;
      ReadableClosedStable(ops, init);
      assert Readable(ops + init).closed;
    } else {
      assert ops + more == ops;
    }
  }

  /** The enqueue operations for a run of chunks. */
  function Enqueues(cs: seq<Chunk>): (r: seq<Op>)
    ensures |r| == |cs|
    ensures forall i :: 0 <= i < |cs| ==> r[i] == Enqueue(cs[i])
  {
    seq(|cs|, i requires 0 <= i < |cs| => Enqueue(cs[i]))
  }

  /** Enqueueing onto an open stream appends to what its reader sees. */
  lemma {:induction false} ReadableEnqueues(ops: seq<Op>, cs: seq<Chunk>)
    requires !Readable(ops).closed
    ensures Readable(ops + Enqueues(cs)) == StreamView(Readable(ops).chunks + cs, false)
    decreases |cs|
  {
    if cs != [] {
      var init := cs[..|cs| - 1];
      ReadableEnqueues(ops, init);
      assert Enqueues(cs) == Enqueues(init) + [Enqueue(cs[|cs| - 1])];
      assert (ops + Enqueues(cs))[..|ops + Enqueues(cs)| - 1] == ops + Enqueues(init);
      assert init + [cs[|cs| - 1]] == cs;
    } else {
      assert ops + Enqueues(cs) == ops;
    }
  }

  /** Closing the stream after a run of enqueues, with or without a cancel
      call in between, leaves the reader exactly those chunks, closed. */
  lemma ReadableEnqueuedThenClosed(cs: seq<Chunk>)
    ensures Readable(Enqueues(cs) + [CloseStream]) == StreamView(cs, true)
    ensures Readable(Enqueues(cs) + [CallCancel, CloseStream]) == StreamView(cs, true)
  {
    assert Readable(Enqueues(cs)) == StreamView(cs, false) by {
      ReadableEnqueues([], cs);
      assert [] + Enqueues(cs) == Enqueues(cs);
    }
    var closed := Enqueues(cs) + [CloseStream];
    assert closed[..|closed| - 1] == Enqueues(cs);
    var cancelled := Enqueues(cs) + [CallCancel];
    assert cancelled[..|cancelled| - 1] == Enqueues(cs);
    var both := Enqueues(cs) + [CallCancel, CloseStream];
    assert both[..|both| - 1] == cancelled;
  }

  /** The chunk callbacks for a run of chunks. */
  function ChunkCallbacks(cs: seq<Chunk>): (r: seq<Callback>)
    ensures |r| == |cs|
    ensures forall i :: 0 <= i < |cs| ==> r[i] == ChunkCallback(cs[i])
  {
    seq(|cs|, i requires 0 <= i < |cs| => ChunkCallback(cs[i]))
  }

  /** Chunk callbacks become enqueues, one for one, and leave the error alone. */
  lemma {:induction false} FeedChunks(a: Adapter, cs: seq<Chunk>)
    ensures FeedAll(a, ChunkCallbacks(cs)) == a.(ops := a.ops + Enqueues(cs))
    decreases |cs|
  {
    if cs != [] {
      assert ChunkCallbacks(cs)[1..] == ChunkCallbacks(cs[1..]);
      FeedChunks(OnCallback(a, ChunkCallback(cs[0])), cs[1..]);
      assert a.ops + [Enqueue(cs[0])] + Enqueues(cs[1..]) == a.ops + Enqueues(cs);
    }
  }

  lemma {:induction false} FeedAllAppend(a: Adapter, xs: seq<Callback>, ys: seq<Callback>)
    ensures FeedAll(a, xs + ys) == FeedAll(FeedAll(a, xs), ys)
    decreases |xs|
  {
    if xs != [] {
      assert (xs + ys)[1..] == xs[1..] + ys;
      FeedAllAppend(OnCallback(a, xs[0]), xs[1..], ys);
    } else {
      assert xs + ys == ys;
    }
  }
}
