/** The messages of one streaming chat session, as carried over its
    dedicated message port (src/services/ai/stream.ts). */
module Frames {
  import opened Wrappers

  /** A UI message chunk produced by the model library. Only the variants the
      application inspects are named; every other chunk type is carried as is. */
  datatype Chunk =
    | StartChunk(messageId: string)
    | TextDelta(id: string, delta: string)
    | FinishChunk
    | ErrorChunk(errorText: string)
    | OtherChunk(kind: string)

  /** Backend-to-UI data frame: `{chunk}`, `{done: true}` or `{error}`. */
  datatype DataFrame = ChunkFrame(chunk: Chunk) | DoneFrame | ErrorFrame(error: string)
  {
    predicate IsTerminal() { DoneFrame? || ErrorFrame? }
  }

  /** UI-to-backend control message. `{abort: true}` is `Control(true)`; the
      receiver only tests whether the `abort` key is present. */
  datatype ControlMessage = Control(hasAbort: bool)

  const AbortMessage := Control(true)

  /** A received frame as the receiving code sees it: an object whose keys are
      tested with `in`, so several keys may be present at once. */
  datatype RawFrame = RawFrame(error: Option<string>, done: bool, chunk: Option<Chunk>)

  /** The object a data frame is serialised to: exactly its own key. */
  function ToRaw(f: DataFrame): (r: RawFrame)
    ensures r.error.Some? <==> f.ErrorFrame?
    ensures r.done <==> f.DoneFrame?
    ensures r.chunk.Some? <==> f.ChunkFrame?
    ensures f.ErrorFrame? ==> r.error.value == f.error
    ensures f.ChunkFrame? ==> r.chunk.value == f.chunk
  {
    match f
    case ChunkFrame(c) => RawFrame(None, false, Some(c))
    case DoneFrame => RawFrame(None, true, None)
    case ErrorFrame(e) => RawFrame(Some(e), false, None)
  }

  /** A thrown JavaScript value: an `Error` (with its `name` and `message`)
      or any other value (with its `String(...)` rendering). */
  datatype Thrown = ErrorObject(name: string, message: string) | NonError(text: string)

  /** `error instanceof Error ? error.message : String(error)`. */
  function ThrownMessage(t: Thrown): string {
    match t
    case ErrorObject(_, m) => m
    case NonError(text) => text
  }

  /** An `Error` whose name is `AbortError`. */
  predicate IsAbortError(t: Thrown) {
    t.ErrorObject? && t.name == "AbortError"
  }

  /** The frames `{chunk}` for each chunk of `cs`, in order. */
  function ChunkFrames(cs: seq<Chunk>): (r: seq<DataFrame>)
    ensures |r| == |cs|
    ensures forall i :: 0 <= i < |cs| ==> r[i] == ChunkFrame(cs[i])
  {
    seq(|cs|, i requires 0 <= i < |cs| => ChunkFrame(cs[i]))
  }
}
