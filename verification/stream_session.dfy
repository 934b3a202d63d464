/** One streaming session end to end: the frames the main-process handler
    sends, received by the bridge and fed into the prompt window's stream. */
module StreamSession {
  import opened Wrappers
  import opened Frames
  import opened AiMain
  import opened AiIpc
  import opened AiRenderer
  import opened PromptTransport

  /** Frames arriving at the bridge in order, no callback throwing. */
  function DeliverAll(b: Bridge, fs: seq<DataFrame>): Bridge
    decreases |fs|
  {
    if fs == [] then b else DeliverAll(Dispatch(b, ToRaw(fs[0]), None), fs[1..])
  }

  /** A closed port delivers nothing. */
  lemma {:induction false} DeliverClosed(b: Bridge, fs: seq<DataFrame>)
    requires !b.portOpen
    ensures DeliverAll(b, fs) == b
    decreases |fs|
  {
    if fs != [] {
      DeliverClosed(Dispatch(b, ToRaw(fs[0]), None), fs[1..]);
    }
  }

  lemma {:induction false} DeliverAppend(b: Bridge, xs: seq<DataFrame>, ys: seq<DataFrame>)
    ensures DeliverAll(b, xs + ys) == DeliverAll(DeliverAll(b, xs), ys)
    decreases |xs|
  {
    if xs != [] {
      assert (xs + ys)[1..] == xs[1..] + ys;
      DeliverAppend(Dispatch(b, ToRaw(xs[0]), None), xs[1..], ys);
    } else {
      assert xs + ys == ys;
    }
  }

  /** Chunk frames on an open port become chunk callbacks, one for one, and
      leave the port open. */
  lemma {:induction false} DeliverChunks(b: Bridge, cs: seq<Chunk>)
    requires b.portOpen
    ensures DeliverAll(b, ChunkFrames(cs)) == b.(calls := b.calls + ChunkCallbacks(cs))
    decreases |cs|
  {
    if cs != [] {
      assert ChunkFrames(cs)[1..] == ChunkFrames(cs[1..]);
      ClassifyInvertsToRaw(ChunkFrame(cs[0]));
      DeliverChunks(Dispatch(b, ToRaw(ChunkFrame(cs[0])), None), cs[1..]);
      assert b.calls + [ChunkCallback(cs[0])] + ChunkCallbacks(cs[1..]) == b.calls + ChunkCallbacks(cs);
    } else {
      assert b.calls + ChunkCallbacks(cs) == b.calls;
    }
  }

  /** A session whose signal was present and not yet aborted: the bridge and
      the transport after the callbacks the given frames cause. */
  function Receive(fs: seq<DataFrame>): (Bridge, Adapter) {
    var b := DeliverAll(Started, fs);
    (b, FeedAll(Start(Some(false)), b.calls))
  }

  /** The bridge after a run of chunk frames and one more frame `t`. */
  lemma DeliverChunksThen(cs: seq<Chunk>, t: DataFrame)
    ensures DeliverAll(Started, ChunkFrames(cs) + [t])
         == Dispatch(Started.(calls := ChunkCallbacks(cs)), ToRaw(t), None)
  {
    DeliverAppend(Started, ChunkFrames(cs), [t]);
    assert DeliverAll(Started, ChunkFrames(cs)) == Started.(calls := ChunkCallbacks(cs)) by {
      DeliverChunks(Started, cs);
      assert Started.calls + ChunkCallbacks(cs) == ChunkCallbacks(cs);
    }
    var bc := Started.(calls := ChunkCallbacks(cs));
    assert DeliverAll(bc, [t]) == DeliverAll(Dispatch(bc, ToRaw(t), None), []);
  }

  /** The transport after the chunk callbacks for `cs` and one more callback. */
  lemma FeedChunksThen(cs: seq<Chunk>, cb: Callback)
    ensures FeedAll(Start(Some(false)), ChunkCallbacks(cs) + [cb])
         == OnCallback(Start(Some(false)).(ops := Enqueues(cs)), cb)
  {
    FeedAllAppend(Start(Some(false)), ChunkCallbacks(cs), [cb]);
    assert FeedAll(Start(Some(false)), ChunkCallbacks(cs)) == Start(Some(false)).(ops := Enqueues(cs)) by {
      FeedChunks(Start(Some(false)), cs);
      assert [] + Enqueues(cs) == Enqueues(cs);
    }
    var a1 := Start(Some(false)).(ops := Enqueues(cs));
    assert FeedAll(a1, [cb]) == FeedAll(OnCallback(a1, cb), []);
  }

  /** A session whose upstream runs out: every chunk reaches the reader in
      order, the stream closes, no error is shown and no abort is sent. */
  lemma CompletedSession(up: Upstream)
    requires up.ending.Exhausted?
    ensures var (b, a) := Receive(HandlerFrames(up, Never));
            && b.calls == ChunkCallbacks(up.chunks) + [DoneCallback]
            && !b.portOpen && b.control == []
            && Readable(a.ops) == StreamView(up.chunks, true)
            && a.streamingError.None?
  {
    var fs := HandlerFrames(up, Never);
    assert fs == ChunkFrames(up.chunks) + [DoneFrame];
    DeliverChunksThen(up.chunks, DoneFrame);
    ClassifyInvertsToRaw(DoneFrame);
    FeedChunksThen(up.chunks, DoneCallback);
    ReadableEnqueuedThenClosed(up.chunks);
  }

  /** A session whose upstream fails with anything but an AbortError: the
      reader gets every chunk and then an error chunk carrying the failure's
      message, the stream closes, and the message is shown. */
  lemma FailedSession(up: Upstream)
    requires up.ending.Throws? && !IsAbortError(up.ending.error)
    ensures var (b, a) := Receive(HandlerFrames(up, Never));
            var msg := ThrownMessage(up.ending.error);
            && b.calls == ChunkCallbacks(up.chunks) + [ErrorCallback(msg)]
            && !b.portOpen && b.control == []
            && Readable(a.ops) == StreamView(up.chunks + [ErrorChunk(msg)], true)
            && a.streamingError == Some(msg)
  {
    var msg := ThrownMessage(up.ending.error);
    var fs := HandlerFrames(up, Never);
    assert fs == ChunkFrames(up.chunks) + [ErrorFrame(msg)];
    DeliverChunksThen(up.chunks, ErrorFrame(msg));
    ClassifyInvertsToRaw(ErrorFrame(msg));
    FeedChunksThen(up.chunks, ErrorCallback(msg));
    assert Enqueues(up.chunks) + [Enqueue(ErrorChunk(msg)), CloseStream]
        == Enqueues(up.chunks + [ErrorChunk(msg)]) + [CloseStream];
    ReadableEnqueuedThenClosed(up.chunks + [ErrorChunk(msg)]);
  }

  /** A session whose upstream fails with an AbortError nobody asked for: the
      handler swallows it and sends no terminal frame, so the bridge's port
      and the reader's stream both stay open. */
  lemma UnrequestedAbortErrorLeavesStreamOpen(up: Upstream)
    requires up.ending.Throws? && IsAbortError(up.ending.error)
    ensures var (b, a) := Receive(HandlerFrames(up, Never));
            && b.calls == ChunkCallbacks(up.chunks)
            && b.portOpen
            && Readable(a.ops) == StreamView(up.chunks, false)
  {
    DeliverChunks(Started, up.chunks);
    FeedChunks(Start(Some(false)), up.chunks);
    ReadableEnqueues([], up.chunks);
    assert [] + Enqueues(up.chunks) == Enqueues(up.chunks);
  }

  /** The user stops after the chunk frames for `cs` have arrived; whatever
      arrives afterwards is dropped by the closed port. */
  lemma StopAfter(cs: seq<Chunk>, late: seq<DataFrame>)
    ensures var b0 := DeliverAll(Started, ChunkFrames(cs));
            var a0 := FeedAll(Start(Some(false)), b0.calls);
            var b := DeliverAll(Cancel(b0), late);
            var a := OnAbort(a0);
            && b.calls == ChunkCallbacks(cs)
            && b.control == [AbortMessage]
            && Readable(a.ops) == StreamView(cs, true)
            && a.streamingError.None?
  {
    var b0 := DeliverAll(Started, ChunkFrames(cs));
    assert b0 == Started.(calls := Started.calls + ChunkCallbacks(cs)) by {
      DeliverChunks(Started, cs);
    }
    assert DeliverAll(Cancel(b0), late) == Cancel(b0) by {
      DeliverClosed(Cancel(b0), late);
    }
    StoppedReader(cs);
  }

  /** The reader's side of a stop after the chunks `cs`: it holds exactly
      those chunks, closed, with no error. */
  lemma StoppedReader(cs: seq<Chunk>)
    ensures var a := OnAbort(FeedAll(Start(Some(false)), ChunkCallbacks(cs)));
            Readable(a.ops) == StreamView(cs, true) && a.streamingError.None?
  {
    assert FeedAll(Start(Some(false)), ChunkCallbacks(cs)) == Start(Some(false)).(ops := Enqueues(cs)) by {
      FeedChunks(Start(Some(false)), cs);
      assert [] + Enqueues(cs) == Enqueues(cs);
    }
    ReadableEnqueuedThenClosed(cs);
  }

  /** A session the user stops after `seen` chunks have arrived, the handler
      handling the abort while pull `k` is pending. Chunks in flight are
      dropped by the closed port: the reader keeps exactly the chunks seen
      before the stop, the stream closes, one abort goes out and no error is
      shown. */
  lemma AbortedSession(up: Upstream, k: nat, seen: nat)
    requires seen <= k <= |up.chunks|
    ensures var fs := HandlerFrames(up, BeforePull(k));
            var b0 := DeliverAll(Started, fs[..seen]);
            var a := OnAbort(FeedAll(Start(Some(false)), b0.calls));
            && DeliverAll(Cancel(b0), fs[seen..]).calls == ChunkCallbacks(up.chunks[..seen])
            && DeliverAll(Cancel(b0), fs[seen..]).control == [AbortMessage]
            && Readable(a.ops) == StreamView(up.chunks[..seen], true)
  {
    var fs := HandlerFrames(up, BeforePull(k));
    assert fs[..seen] == ChunkFrames(up.chunks[..seen]);
    StopAfter(up.chunks[..seen], fs[seen..]);
  }

  /** A request whose signal is already aborted: the stream is closed empty
      and the bridge is never opened. */
  lemma PreAbortedRequest()
    ensures !OpensBridge(Some(true))
    ensures Readable(Start(Some(true)).ops) == StreamView([], true)
  {
    assert Start(Some(true)).ops[..0] == [];
  }
}
