/** What the two loggers share (src/services/logger/main.ts and
    src/logger/main.ts): the line layout, the buffer that holds lines until
    `init` opens the stream, and the size-based rotation `init` performs. */
module LogSink {
  import opened Wrappers
  import opened FileSystem
  import LocalTime

  /** Where lines go: before the stream opens they wait in `buffer`; after,
      they are appended to `written`. */
  datatype Sink = Sink(open: bool, written: seq<string>, buffer: seq<string>)

  function Fresh(): (s: Sink)
    ensures !s.open && s.written == [] && s.buffer == []
  {
    Sink(false, [], [])
  }

  /** Every line the sink has accepted, in order. */
  function Lines(s: Sink): seq<string> {
    s.written + s.buffer
  }

  /** Once open, nothing waits in the buffer. */
  predicate Flushed(s: Sink) {
    s.open ==> s.buffer == []
  }

  /** One accepted line: buffered while the stream is closed, written once
      it is open. While nothing waits in the buffer, either way it joins the accepted
      lines at the end. */
  function Emit(s: Sink, line: string): (r: Sink)
    ensures Flushed(s) ==> Lines(r) == Lines(s) + [line]
    ensures r.open == s.open
    ensures !s.open ==> r.written == s.written && r.buffer == s.buffer + [line]
    ensures s.open ==> r.buffer == s.buffer && r.written == s.written + [line]
    ensures Flushed(s) ==> Flushed(r)
  {
    if !s.open then s.(buffer := s.buffer + [line]) else s.(written := s.written + [line])
  }

  /** The stream opens: the buffered lines are written in order, then the
      buffer is emptied. */
  function Open(s: Sink): (r: Sink)
    ensures r.open && r.buffer == [] && Flushed(r)
    ensures r.written == s.written + s.buffer
    ensures Lines(r) == Lines(s)
  {
    Sink(true, s.written + s.buffer, [])
  }

  /** 10 MiB. */
  const MaxLogSize: int := 10 * 1024 * 1024

  /** A log file is rotated only when strictly larger than 10 MiB. */
  predicate ShouldRotate(size: int) {
    size > MaxLogSize
  }

  /** `rotateLogIfNeeded` at startup: `stat` is the file's size or the stat
      error, `rename` the error of renaming it to `<path>.1` (if any).
      Whether the file was renamed; a missing file is fine, any other error
      is raised. */
  function Rotate(stat: Result<int, FsError>, rename: Option<FsError>): (r: Result<bool, FsError>)
    ensures r == Ok(true) <==> stat.Ok? && ShouldRotate(stat.value) && rename.None?
    ensures r.Err? <==>
      (stat.Err? && !IsNotFound(stat.error)) ||
      (stat.Ok? && ShouldRotate(stat.value) && rename.Some? && !IsNotFound(rename.value))
    ensures stat.Ok? && !ShouldRotate(stat.value) ==> r == Ok(false)
  {
    match stat
    case Err(e) => if IsNotFound(e) then Ok(false) else Err(e)
    case Ok(size) =>
      if !ShouldRotate(size) then Ok(false)
      else match rename
        case None => Ok(true)
        case Some(e) => if IsNotFound(e) then Ok(false) else Err(e)
  }

  /** `init`: in development the stream is standard output; otherwise the
      file is rotated first, and a rotation error rejects `init` before the
      stream opens, leaving every line in the buffer. */
  function Init(s: Sink, development: bool, stat: Result<int, FsError>, rename: Option<FsError>): (r: (Sink, Option<FsError>))
    ensures Lines(r.0) == Lines(s)
    ensures r.1.None? ==> r.0 == Open(s)
    ensures r.1.Some? ==> r.0 == s && !development && Rotate(stat, rename) == Err(r.1.value)
    ensures development ==> r.1.None?
  {
    if development then (Open(s), None)
    else match Rotate(stat, rename)
      case Err(e) => (s, Some(e))
      case Ok(_) => (Open(s), None)
  }

  /** The first occurrence of `c` in `s`. */
  function Find(s: string, c: char): (r: Option<nat>)
    ensures r.Some? ==> r.value < |s| && s[r.value] == c && c !in s[..r.value]
    ensures r.None? ==> c !in s
    decreases |s|
  {
    if |s| == 0 then None
    else if s[0] == c then Some(0)
    else match Find(s[1..], c)
      case None => None
      case Some(i) =>
        assert s[..i + 1] == [s[0]] + s[1..][..i];
        Some(i + 1)
  }

  /** `c` is first found right after a prefix that lacks it. */
  lemma FindAfter(x: string, y: string, c: char)
    requires c !in x && |y| > 0 && y[0] == c
    ensures Find(x + y, c) == Some(|x|)
  {
    var s := x + y;
    assert s[|x|] == c;
    assert s[..|x|] == x;
  }

  /** `[t1][t2]…`: each tag in square brackets. */
  function Brackets(tags: seq<string>): string
    decreases |tags|
  {
    if tags == [] then "" else "[" + tags[0] + "]" + Brackets(tags[1..])
  }

  /** A log line: the timestamp, a space, the bracketed tags, a space, the
      message and a newline. */
  function FormatLine(stamp: string, tags: seq<string>, message: string): (r: string)
    ensures |r| > |stamp| + 1 && r[|r| - 1] == '\n'
    ensures r[..|stamp|] == stamp && r[|stamp|] == ' '
  {
    Body(stamp, tags, message) + "\n"
  }

  /** A log line without its newline. */
  function Body(stamp: string, tags: seq<string>, message: string): string {
    stamp + " " + (Brackets(tags) + " " + message)
  }

  /** Reads one `[tag]` off the front of `s`: the tag and what follows. */
  function ParseTag(s: string): Option<(string, string)> {
    if |s| == 0 || s[0] != '[' then None
    else match Find(s[1..], ']')
      case None => None
      case Some(i) => Some((s[1..][..i], s[1..][i + 1..]))
  }

  lemma ParseTagRoundTrip(tag: string, rest: string)
    requires ']' !in tag
    ensures ParseTag("[" + tag + "]" + rest) == Some((tag, rest))
  {
    var s := "[" + tag + "]" + rest;
    assert s[1..] == tag + ("]" + rest);
    FindAfter(tag, "]" + rest, ']');
    assert s[1..][..|tag|] == tag;
    assert s[1..][|tag| + 1..] == rest;
  }

  /** Reads `count` bracketed tags off the front of `s`. */
  function ParseTags(s: string, count: nat): Option<(seq<string>, string)>
    decreases count
  {
    if count == 0 then Some(([], s))
    else match ParseTag(s)
      case None => None
      case Some((tag, after)) =>
        match ParseTags(after, count - 1)
        case None => None
        case Some((tags, rest)) => Some(([tag] + tags, rest))
  }

  /** Tags free of `]` are read back exactly. */
  lemma {:induction false} ParseTagsRoundTrip(tags: seq<string>, rest: string)
    requires forall k :: 0 <= k < |tags| ==> ']' !in tags[k]
    ensures ParseTags(Brackets(tags) + rest, |tags|) == Some((tags, rest))
    decreases |tags|
  {
    if tags == [] {
      assert Brackets(tags) + rest == rest;
    } else {
      var ts := tags[1..];
      assert forall k :: 0 <= k < |ts| ==> ']' !in ts[k] by {
        forall k | 0 <= k < |ts|
          ensures ']' !in ts[k]
        {
          assert ts[k] == tags[k + 1];
        }
      }
      ParseTagsRoundTrip(ts, rest);
      ParseTagsCons(tags, rest);
    }
  }

  /** The round trip for the tags after the first extends to all of them. */
  lemma ParseTagsCons(tags: seq<string>, rest: string)
    requires tags != [] && ']' !in tags[0]
    requires ParseTags(Brackets(tags[1..]) + rest, |tags| - 1) == Some((tags[1..], rest))
    ensures ParseTags(Brackets(tags) + rest, |tags|) == Some((tags, rest))
  {
    var tail := Brackets(tags[1..]) + rest;
    BracketsThen(tags, rest);
    ParseTagRoundTrip(tags[0], tail);
    assert [tags[0]] + tags[1..] == tags;
    ParseTagsStep(Brackets(tags) + rest, |tags|, tags[0], tail, tags[1..], rest, tags);
  }

  /** The first bracketed tag, then the others and what follows them. */
  lemma BracketsThen(tags: seq<string>, rest: string)
    requires tags != []
    ensures Brackets(tags) + rest == "[" + tags[0] + "]" + (Brackets(tags[1..]) + rest)
  {
  }

  /** One tag read off the front, then the rest of the tags. */
  lemma ParseTagsStep(s: string, count: nat, tag: string, after: string, tags: seq<string>, rest: string, all: seq<string>)
    requires count > 0 && ParseTag(s) == Some((tag, after))
    requires ParseTags(after, count - 1) == Some((tags, rest)) && all == [tag] + tags
    ensures ParseTags(s, count) == Some((all, rest))
  {
  }

  /** Reads a line back into its timestamp, `count` tags and message. */
  function ParseLine(line: string, count: nat): Option<(string, seq<string>, string)> {
    if |line| == 0 || line[|line| - 1] != '\n' then None
    else ParseBody(line[..|line| - 1], count)
  }

  /** A line without its newline: the timestamp ends with the space before
      the first `[`. */
  function ParseBody(body: string, count: nat): Option<(string, seq<string>, string)> {
    match Find(body, '[')
    case None => None
    case Some(i) =>
      if i == 0 || body[i - 1] != ' ' then None
      else match ParseTags(body[i..], count)
        case None => None
        case Some((tags, rest)) =>
          if |rest| == 0 || rest[0] != ' ' then None
          else Some((body[..i - 1], tags, rest[1..]))
  }

  /** `ParseBody` once its three steps are known to succeed. */
  lemma ParseBodyAt(body: string, count: nat, i: nat, stamp: string, tags: seq<string>, rest: string, message: string)
    requires Find(body, '[') == Some(i) && i > 0 && body[i - 1] == ' ' && body[..i - 1] == stamp
    requires ParseTags(body[i..], count) == Some((tags, rest)) && |rest| > 0 && rest[0] == ' '
    requires rest[1..] == message
    ensures ParseBody(body, count) == Some((stamp, tags, message))
  {
  }

  lemma ParseBodyRoundTrip(stamp: string, tags: seq<string>, message: string)
    requires '[' !in stamp && tags != []
    requires forall k :: 0 <= k < |tags| ==> ']' !in tags[k]
    ensures ParseBody(Body(stamp, tags, message), |tags|) == Some((stamp, tags, message))
  {
    var lead := stamp + " ";
    var rest := " " + message;
    var tail := Brackets(tags) + rest;
    var body := lead + tail;
    assert Body(stamp, tags, message) == body;
    assert Find(body, '[') == Some(|lead|) by {
      assert Brackets(tags)[0] == '[';
      assert '[' !in lead;
      FindAfter(lead, tail, '[');
    }
    assert body[|lead| - 1] == ' ';
    assert body[..|lead| - 1] == stamp;
    assert body[|lead|..] == tail;
    assert ParseTags(tail, |tags|) == Some((tags, rest)) by {
      ParseTagsRoundTrip(tags, rest);
    }
    assert rest[1..] == message;
    ParseBodyAt(body, |tags|, |lead|, stamp, tags, rest, message);
  }

  /** A line keeps everything it was made from: with a timestamp free of
      `[` and tags free of `]`, reading it back gives the timestamp, the
      tags and the message, whatever the message holds. */
  lemma FormatThenParse(stamp: string, tags: seq<string>, message: string)
    requires '[' !in stamp && tags != []
    requires forall k :: 0 <= k < |tags| ==> ']' !in tags[k]
    ensures ParseLine(FormatLine(stamp, tags, message), |tags|) == Some((stamp, tags, message))
  {
    ParseLineOfBody(Body(stamp, tags, message), |tags|);
    ParseBodyRoundTrip(stamp, tags, message);
  }

  /** The newline is dropped before the body is read. */
  lemma ParseLineOfBody(body: string, count: nat)
    ensures ParseLine(body + "\n", count) == ParseBody(body, count)
  {
    var line := body + "\n";
    assert line[..|line| - 1] == body;
  }

  /** The round trip for a line with tags `a`, `b` and `c`. */
  lemma FormatThenParseThree(stamp: string, a: string, b: string, c: string, message: string)
    requires '[' !in stamp && ']' !in a && ']' !in b && ']' !in c
    ensures ParseLine(FormatLine(stamp, [a, b, c], message), 3) == Some((stamp, [a, b, c], message))
  {
    var tags := [a, b, c];
    forall k | 0 <= k < |tags| ensures ']' !in tags[k] {
      if k == 0 { assert tags[k] == a; } else if k == 1 { assert tags[k] == b; } else { assert tags[k] == c; }
    }
    FormatThenParse(stamp, tags, message);
  }

  /** The round trip for a line with tags `a` and `b`. */
  lemma FormatThenParseTwo(stamp: string, a: string, b: string, message: string)
    requires '[' !in stamp && ']' !in a && ']' !in b
    ensures ParseLine(FormatLine(stamp, [a, b], message), 2) == Some((stamp, [a, b], message))
  {
    var tags := [a, b];
    forall k | 0 <= k < |tags| ensures ']' !in tags[k] {
      if k == 0 { assert tags[k] == a; } else { assert tags[k] == b; }
    }
    FormatThenParse(stamp, tags, message);
  }

  /** A reading of `new Date()`: `iso` is `toISOString()` of the clock
      shifted to local time, `offset` is `getTimezoneOffset()` in minutes. */
  datatype Instant = Instant(iso: string, offset: int)

  /** The timestamp a line starts with. */
  function Stamp(at: Instant): (r: string)
    ensures '[' !in at.iso ==> '[' !in r
    ensures r == LocalTime.LocalIsoString(at.iso, at.offset)
  {
    LocalTime.LocalIsoString(at.iso, at.offset)
  }

  /** What reaches the sink: a formatted line, or a call of `init` with the
      outcome of its `stat` and `rename`. */
  datatype Event = Line(text: string) | Start(stat: Result<int, FsError>, rename: Option<FsError>)

  /** An `init` that opens the stream. */
  predicate Starts(development: bool, e: Event) {
    e.Start? && (development || Rotate(e.stat, e.rename).Ok?)
  }

  function Step(s: Sink, development: bool, e: Event): Sink {
    match e
    case Line(text) => Emit(s, text)
    case Start(stat, rename) => Init(s, development, stat, rename).0
  }

  /** One event keeps the sink's invariant: lines are only ever added at the
      end, nothing waits in the buffer once the stream is open, the stream
      opens exactly at a successful `init` and nothing is written before. */
  lemma StepKeeps(s: Sink, development: bool, e: Event)
    requires Flushed(s)
    ensures var r := Step(s, development, e);
      && Flushed(r)
      && Lines(r) == Lines(s) + (if e.Line? then [e.text] else [])
      && (r.open <==> s.open || Starts(development, e))
      && (!r.open ==> r.written == s.written)
  {
  }
}
