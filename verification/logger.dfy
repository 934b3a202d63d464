/** The main-process logger (src/services/logger/main.ts): levels filtered
    against a minimum that depends on the build, lines tagged with level,
    world and module, buffered until `init` opens the stream. */
module Logger {
  import opened Wrappers
  import opened FileSystem
  import opened LogSink

  datatype Level = Error | Info | Debug

  function LevelName(l: Level): (r: string)
    ensures ']' !in r
  {
    match l
    case Error => "ERROR"
    case Info => "INFO"
    case Debug => "DEBUG"
  }

  /** Lower is more severe. */
  function Priority(l: Level): nat {
    match l
    case Error => 0
    case Info => 1
    case Debug => 2
  }

  /** `DEBUG` in development builds, `INFO` otherwise. */
  function MinLevel(development: bool): Level {
    if development then Debug else Info
  }

  /** A level is kept unless its priority exceeds the minimum's. */
  predicate Passes(l: Level, development: bool) {
    Priority(l) <= Priority(MinLevel(development))
  }

  /** Only debug messages outside development are dropped; errors always
      pass. */
  lemma PassesIff(l: Level, development: bool)
    ensures Passes(l, development) <==> development || l != Debug
    ensures Passes(Error, development) && Passes(Info, development)
  {
  }

  datatype World = Main | Renderer | ContextBridge

  function WorldName(w: World): string {
    match w
    case Main => "Main"
    case Renderer => "Renderer"
    case ContextBridge => "ContextBridge"
  }

  /** `whatWorld`: no `window` means the main process; a window without
      Node's `Buffer` is the renderer; both is the preload's context bridge. */
  function WhatWorld(hasWindow: bool, hasBuffer: bool): (r: World)
    ensures r == Main <==> !hasWindow
    ensures r == Renderer <==> hasWindow && !hasBuffer
    ensures r == ContextBridge <==> hasWindow && hasBuffer
  {
    if !hasWindow then Main else if !hasBuffer then Renderer else ContextBridge
  }

  /** `formatLogLine`: the local timestamp, then level, world and module
      in brackets, then the message and a newline. */
  function FormatLogLine(at: Instant, level: Level, world: string, moduleName: string, message: string): (r: string)
    ensures |r| > 0 && r[|r| - 1] == '\n'
  {
    FormatLine(Stamp(at), [LevelName(level), world, moduleName], message)
  }

  /** A log line keeps all four parts: read back, it gives the timestamp,
      the level, the world, the module and the message, as long as the
      clock's ISO text has no `[` and the world and module have no `]`. */
  lemma LogLineRoundTrip(at: Instant, level: Level, world: string, moduleName: string, message: string)
    requires '[' !in at.iso && ']' !in world && ']' !in moduleName
    ensures ParseLine(FormatLogLine(at, level, world, moduleName, message), 3)
      == Some((Stamp(at), [LevelName(level), world, moduleName], message))
  {
    FormatThenParseThree(Stamp(at), LevelName(level), world, moduleName, message);
  }

  /** A call into the logger: a message from some world and module, or
      `init` with the outcome of its file-system calls. */
  datatype Call =
    | Log(at: Instant, level: Level, world: string, moduleName: string, message: string)
    | InitCall(stat: Result<int, FsError>, rename: Option<FsError>)

  /** What a call hands to the sink: nothing for a filtered message. */
  function Lower(development: bool, c: Call): (r: Option<Event>)
    ensures r.None? <==> c.Log? && !Passes(c.level, development)
    ensures r.Some? && c.Log? ==> r.value == Line(FormatLogLine(c.at, c.level, c.world, c.moduleName, c.message))
    ensures c.InitCall? ==> r == Some(Start(c.stat, c.rename))
  {
    match c
    case Log(at, level, world, moduleName, message) =>
      if Passes(level, development) then Some(Line(FormatLogLine(at, level, world, moduleName, message))) else None
    case InitCall(stat, rename) => Some(Start(stat, rename))
  }

  /** `writeLog` and `init` on the sink. */
  function Apply(s: Sink, development: bool, c: Call): (r: Sink)
    ensures c.Log? && !Passes(c.level, development) ==> r == s
    ensures c.Log? && Passes(c.level, development) && !s.open ==>
      r.buffer == s.buffer + [FormatLogLine(c.at, c.level, c.world, c.moduleName, c.message)] && r.written == s.written
    ensures c.Log? && Passes(c.level, development) && s.open ==>
      r.written == s.written + [FormatLogLine(c.at, c.level, c.world, c.moduleName, c.message)] && r.buffer == s.buffer
  {
    match Lower(development, c)
    case None => s
    case Some(e) => Step(s, development, e)
  }

  /** The sink after a run of calls from process start. */
  function Run(development: bool, calls: seq<Call>): Sink
    decreases |calls|
  {
    if calls == [] then Fresh()
    else Apply(Run(development, calls[..|calls| - 1]), development, calls[|calls| - 1])
  }

  /** The lines of the messages that pass the filter, in call order. */
  function Accepted(development: bool, calls: seq<Call>): seq<string>
    decreases |calls|
  {
    if calls == [] then []
    else
      Accepted(development, calls[..|calls| - 1]) + AcceptedBy(development, calls[|calls| - 1])
  }

  /** The line one call contributes: its own, when it is a message that
      passes the filter. */
  function AcceptedBy(development: bool, c: Call): seq<string> {
    if c.Log? && Passes(c.level, development)
    then [FormatLogLine(c.at, c.level, c.world, c.moduleName, c.message)] else []
  }

  /** Whether one call is an `init` that opens the stream. */
  predicate OpensBy(development: bool, c: Call) {
    c.InitCall? && Starts(development, Start(c.stat, c.rename))
  }

  /** Some call in `calls` is an `init` that opens the stream. */
  predicate Opened(development: bool, calls: seq<Call>)
    decreases |calls|
  {
    if calls == [] then false
    else
      Opened(development, calls[..|calls| - 1]) || OpensBy(development, calls[|calls| - 1])
  }

  /** Every accepted line ends up buffered or written, in order and exactly
      once: before a successful `init` all of them wait in the buffer and
      nothing is written; from then on all of them are written and the
      buffer stays empty. */
  lemma {:induction false} RunKeepsAcceptedLines(development: bool, calls: seq<Call>)
    ensures var s := Run(development, calls);
      && Flushed(s) && Lines(s) == Accepted(development, calls)
      && (s.open <==> Opened(development, calls))
      && (s.open ==> s.written == Accepted(development, calls) && s.buffer == [])
      && (!s.open ==> s.written == [] && s.buffer == Accepted(development, calls))
    decreases |calls|
  {
    if calls != [] {
      var prefix := calls[..|calls| - 1];
      var c := calls[|calls| - 1];
      RunKeepsAcceptedLines(development, prefix);
      assert Run(development, calls) == Apply(Run(development, prefix), development, c);
      ApplyKeeps(Run(development, prefix), development, c, Accepted(development, prefix), Opened(development, prefix));
    }
  }

  /** One call keeps the accounting of `RunKeepsAcceptedLines`: its line,
      if any, joins the others, and an opening `init` moves them all to
      the file. */
  lemma ApplyKeeps(s: Sink, development: bool, c: Call, lines: seq<string>, wasOpen: bool)
    requires Flushed(s) && Lines(s) == lines && (s.open <==> wasOpen)
    requires s.open ==> s.written == lines && s.buffer == []
    requires !s.open ==> s.written == [] && s.buffer == lines
    ensures var r := Apply(s, development, c);
      && Flushed(r) && Lines(r) == lines + AcceptedBy(development, c)
      && (r.open <==> wasOpen || OpensBy(development, c))
      && (r.open ==> r.written == lines + AcceptedBy(development, c) && r.buffer == [])
      && (!r.open ==> r.written == [] && r.buffer == lines + AcceptedBy(development, c))
  {
    if Lower(development, c).Some? {
      StepKeeps(s, development, Lower(development, c).value);
    }
  }

  /** Outside development no debug message reaches the log, whatever else
      happens. */
  lemma ProductionDropsDebug(calls: seq<Call>, at: Instant, world: string, moduleName: string, message: string)
    ensures Run(false, calls + [Log(at, Debug, world, moduleName, message)]) == Run(false, calls)
    ensures Accepted(false, calls + [Log(at, Debug, world, moduleName, message)]) == Accepted(false, calls)
  {
    var c := Log(at, Debug, world, moduleName, message);
    var all := calls + [c];
    assert all[..|all| - 1] == calls && all[|all| - 1] == c;
    assert !Passes(Debug, false);
    assert Run(false, all) == Apply(Run(false, calls), false, c);
  }
}
