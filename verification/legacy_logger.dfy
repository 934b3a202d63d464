/** The older main-process logger (src/logger/main.ts): no level filter,
    lines tagged with level and context only, the same buffer and the same
    rotation at `init`. */
module LegacyLogger {
  import opened Wrappers
  import opened FileSystem
  import opened LogSink
  import Logger

  /** `formatLogLine`: the local timestamp, then level and context in
      brackets, then the message and a newline. */
  function FormatLogLine(at: Instant, level: string, context: string, message: string): (r: string)
    ensures |r| > 0 && r[|r| - 1] == '\n'
  {
    FormatLine(Stamp(at), [level, context], message)
  }

  /** Read back, a line gives its timestamp, level, context and message, as
      long as the clock's ISO text has no `[` and neither tag has a `]`. */
  lemma LogLineRoundTrip(at: Instant, level: string, context: string, message: string)
    requires '[' !in at.iso && ']' !in level && ']' !in context
    ensures ParseLine(FormatLogLine(at, level, context, message), 2) == Some((Stamp(at), [level, context], message))
  {
    FormatThenParseTwo(Stamp(at), level, context, message);
  }

  datatype Call =
    | Log(at: Instant, level: string, context: string, message: string)
    | InitCall(stat: Result<int, FsError>, rename: Option<FsError>)

  /** `error`, `info` and `debug`: their own level, always from `Main`. */
  function Wrapper(level: Logger.Level, at: Instant, message: string): Call {
    Log(at, Logger.LevelName(level), "Main", message)
  }

  function Error(at: Instant, message: string): Call {
    Wrapper(Logger.Error, at, message)
  }

  function Info(at: Instant, message: string): Call {
    Wrapper(Logger.Info, at, message)
  }

  function Debug(at: Instant, message: string): Call {
    Wrapper(Logger.Debug, at, message)
  }

  /** Each wrapper's line reads back with its own level and the `Main`
      context. */
  lemma WrappersTagMain(level: Logger.Level, at: Instant, message: string)
    requires '[' !in at.iso
    ensures ParseLine(Lower(Wrapper(level, at, message)).text, 2) == Some((Stamp(at), [Logger.LevelName(level), "Main"], message))
  {
    LogLineRoundTrip(at, Logger.LevelName(level), "Main", message);
  }

  /** What a call hands to the sink: every message becomes a line. */
  function Lower(c: Call): (r: Event)
    ensures c.Log? <==> r.Line?
    ensures c.Log? ==> r.text == FormatLogLine(c.at, c.level, c.context, c.message)
  {
    match c
    case Log(at, level, context, message) => Line(FormatLogLine(at, level, context, message))
    case InitCall(stat, rename) => Start(stat, rename)
  }

  /** `writeLog` and `init` on the sink. */
  function Apply(s: Sink, development: bool, c: Call): Sink {
    Step(s, development, Lower(c))
  }

  /** Whatever its level, a message grows the accepted lines by its own
      line: while the stream is closed it is buffered and nothing is
      written. */
  lemma NoLevelFilter(s: Sink, development: bool, at: Instant, level: string, context: string, message: string)
    requires Flushed(s)
    ensures var r := Apply(s, development, Log(at, level, context, message));
      && Lines(r) == Lines(s) + [FormatLogLine(at, level, context, message)]
      && (!s.open ==> r.written == s.written && r.buffer == s.buffer + [FormatLogLine(at, level, context, message)])
  {
    StepKeeps(s, development, Lower(Log(at, level, context, message)));
  }

  function Run(development: bool, calls: seq<Call>): Sink
    decreases |calls|
  {
    if calls == [] then Fresh()
    else Apply(Run(development, calls[..|calls| - 1]), development, calls[|calls| - 1])
  }

  /** The lines of every message, in call order. */
  function Logged(calls: seq<Call>): seq<string>
    decreases |calls|
  {
    if calls == [] then []
    else
      Logged(calls[..|calls| - 1]) + LoggedBy(calls[|calls| - 1])
  }

  /** The line one call contributes: its own, when it is a message. */
  function LoggedBy(c: Call): seq<string> {
    if c.Log? then [FormatLogLine(c.at, c.level, c.context, c.message)] else []
  }

  /** Some call in `calls` is an `init` that opens the stream. */
  predicate Opened(development: bool, calls: seq<Call>)
    decreases |calls|
  {
    if calls == [] then false
    else
      var c := calls[|calls| - 1];
      Opened(development, calls[..|calls| - 1]) || Starts(development, Lower(c))
  }

  /** Every message's line ends up buffered or written, in order and once:
      all buffered until a successful `init`, all written from then on. */
  lemma {:induction false} RunKeepsEveryLine(development: bool, calls: seq<Call>)
    ensures var s := Run(development, calls);
      && Flushed(s) && Lines(s) == Logged(calls)
      && (s.open <==> Opened(development, calls))
      && (s.open ==> s.written == Logged(calls) && s.buffer == [])
      && (!s.open ==> s.written == [] && s.buffer == Logged(calls))
    decreases |calls|
  {
    if calls != [] {
      var prefix := calls[..|calls| - 1];
      RunKeepsEveryLine(development, prefix);
      assert Run(development, calls) == Apply(Run(development, prefix), development, calls[|calls| - 1]);
      ApplyKeeps(Run(development, prefix), development, calls[|calls| - 1], Logged(prefix), Opened(development, prefix));
    }
  }

  /** One call keeps the accounting of `RunKeepsEveryLine`: a message's
      line joins the others, and an opening `init` moves them all to the
      file. */
  lemma ApplyKeeps(s: Sink, development: bool, c: Call, lines: seq<string>, wasOpen: bool)
    requires Flushed(s) && Lines(s) == lines && (s.open <==> wasOpen)
    requires s.open ==> s.written == lines && s.buffer == []
    requires !s.open ==> s.written == [] && s.buffer == lines
    ensures var r := Apply(s, development, c);
      && Flushed(r) && Lines(r) == lines + LoggedBy(c)
      && (r.open <==> wasOpen || Starts(development, Lower(c)))
      && (r.open ==> r.written == lines + LoggedBy(c) && r.buffer == [])
      && (!r.open ==> r.written == [] && r.buffer == lines + LoggedBy(c))
  {
    StepKeeps(s, development, Lower(c));
  }
}
