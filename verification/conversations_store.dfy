/** The conversation files of the main process
    (src/services/conversations/main.ts): the version gate, the saved record,
    the file path and the newest-first listing. */
module ConversationsStore {
  import opened Wrappers
  import opened Strings
  import opened Json
  import opened FileSystem
  import opened Sorting

  const CurrentVersion: real := 1.0

  datatype WindowBounds = WindowBounds(x: real, y: real, width: real, height: real)

  /** A conversation. Its messages are kept as the JSON objects the chat
      library validates; that validation is an oracle `MessagesCheck`. */
  datatype Conversation = Conversation(
    id: string,
    createdAt: real,
    updatedAt: real,
    title: string,
    messages: seq<Json>,
    windowBounds: Option<WindowBounds>)

  datatype ConversationFile = ConversationFile(version: real, conversation: Conversation)

  /** `validateUIMessages`: whether the library accepts a message list. */
  type MessagesCheck = seq<Json> -> bool

  datatype ConversationError = InvalidFormat | MissingVersion | UnsupportedVersion(version: real) | SchemaMismatch

  /** `z.array(z.looseObject({}))` then the library check: an array of
      objects (arrays excluded) that the library accepts. */
  function ParseMessages(j: Json, check: MessagesCheck): (r: Option<seq<Json>>)
    ensures r.Some? <==> j.JArray? && (forall i :: 0 <= i < |j.items| ==> j.items[i].JObject?) && check(j.items)
    ensures r.Some? ==> r.value == j.items
  {
    if j.JArray? && (forall i :: 0 <= i < |j.items| ==> j.items[i].JObject?) && check(j.items) then Some(j.items) else None
  }

  function ParseBounds(j: Json): (r: Option<WindowBounds>)
  {
    if !j.JObject? then None
    else
      var x := NumberField(j, "x");
      var y := NumberField(j, "y");
      var w := NumberField(j, "width");
      var h := NumberField(j, "height");
      if x.None? || y.None? || w.None? || h.None? then None
      else Some(WindowBounds(x.value, y.value, w.value, h.value))
  }

  /** `ConversationSchema`: the required fields with their types; an optional
      `windowBounds`; other keys are stripped. */
  function ParseConversation(j: Json, check: MessagesCheck): (r: Option<Conversation>)
    ensures r.Some? ==> j.JObject? && "id" in j.fields && j.fields["id"] == JString(r.value.id)
    ensures r.Some? ==> check(r.value.messages)
  {
    if !j.JObject? then None
    else
      var id := StringField(j, "id");
      var created := NumberField(j, "createdAt");
      var updated := NumberField(j, "updatedAt");
      var title := StringField(j, "title");
      var msgs := if "messages" in j.fields then ParseMessages(j.fields["messages"], check) else None;
      if id.None? || created.None? || updated.None? || title.None? || msgs.None? then None
      else if "windowBounds" !in j.fields then
        Some(Conversation(id.value, created.value, updated.value, title.value, msgs.value, None))
      else match ParseBounds(j.fields["windowBounds"])
        case Some(b) => Some(Conversation(id.value, created.value, updated.value, title.value, msgs.value, Some(b)))
        case None => None
  }

  /** `ConversationFileSchema`: `version` must be the literal 1. */
  function ParseConversationFile(data: Json, check: MessagesCheck): (r: Option<ConversationFile>)
    ensures r.Some? ==> r.value.version == CurrentVersion
  {
    if !data.JObject? || "version" !in data.fields || data.fields["version"] != JNumber(CurrentVersion) || "conversation" !in data.fields then None
    else match ParseConversation(data.fields["conversation"], check)
      case Some(c) => Some(ConversationFile(CurrentVersion, c))
      case None => None
  }

  /** `migrateConversation`; `MigrationOutcome` states which error each
      kind of stored value gets. */
  function MigrateConversation(data: Json, check: MessagesCheck): Result<ConversationFile, ConversationError> {
    if !IsObjectLike(data) then Err(InvalidFormat)
    else
      var v := VersionOf(data);
      if v == 0.0 then Err(MissingVersion)
      else if v > CurrentVersion then Err(UnsupportedVersion(v))
      else match ParseConversationFile(data, check)
        case Some(f) => Ok(f)
        case None => Err(SchemaMismatch)
  }

  /** A value that is not an object is an invalid format, one without a
      usable version is missing its version, one from a later version is
      unsupported (carrying that version), and an accepted file is at the
      current version. */
  lemma MigrationOutcome(data: Json, check: MessagesCheck)
    ensures var r := MigrateConversation(data, check);
      && (r == Err(InvalidFormat) <==> !IsObjectLike(data))
      && (r == Err(MissingVersion) <==> IsObjectLike(data) && VersionOf(data) == 0.0)
      && (r.Err? && r.error.UnsupportedVersion? <==> IsObjectLike(data) && VersionOf(data) > CurrentVersion)
      && (r.Err? && r.error.UnsupportedVersion? ==> r.error.version == VersionOf(data))
      && (r.Ok? ==> r.value.version == CurrentVersion && data.JObject? && data.fields["version"] == JNumber(CurrentVersion))
  {
  }

  /** `saveConversation`: the record written, stamped with the time of the
      save. */
  function SaveConversation(c: Conversation, now: real): (r: ConversationFile)
    ensures r.version == CurrentVersion
    ensures r.conversation.updatedAt == now
    ensures r.conversation.(updatedAt := c.updatedAt) == c
  {
    ConversationFile(CurrentVersion, c.(updatedAt := now))
  }

  function EncodeBounds(b: WindowBounds): Json {
    JObject(map["x" := JNumber(b.x), "y" := JNumber(b.y), "width" := JNumber(b.width), "height" := JNumber(b.height)])
  }

  function EncodeConversation(c: Conversation): Json {
    var base := map["id" := JString(c.id), "createdAt" := JNumber(c.createdAt), "updatedAt" := JNumber(c.updatedAt),
                    "title" := JString(c.title), "messages" := JArray(c.messages)];
    match c.windowBounds
    case None => JObject(base)
    case Some(b) => JObject(base["windowBounds" := EncodeBounds(b)])
  }

  function EncodeConversationFile(f: ConversationFile): Json {
    JObject(map["version" := JNumber(f.version), "conversation" := EncodeConversation(f.conversation)])
  }

  /** A saved conversation reads back as saved, when its messages are objects
      the library accepts. */
  lemma SaveThenMigrate(c: Conversation, now: real, check: MessagesCheck)
    requires forall i :: 0 <= i < |c.messages| ==> c.messages[i].JObject?
    requires check(c.messages)
    ensures MigrateConversation(EncodeConversationFile(SaveConversation(c, now)), check) == Ok(SaveConversation(c, now))
  {
    var f := SaveConversation(c, now);
    var j := EncodeConversation(f.conversation);
    assert ParseMessages(j.fields["messages"], check) == Some(c.messages);
    if f.conversation.windowBounds.Some? {
      assert ParseBounds(j.fields["windowBounds"]) == f.conversation.windowBounds;
    }
    assert ParseConversation(j, check) == Some(f.conversation);
  }

  /** `getConversationFilePath`: `<id>.json` inside the directory. */
  function FilePath(directory: string, id: string): (r: string)
    ensures EndsWith(r, ".json")
    ensures r == directory + "/" + id + ".json"
  {
    var r := directory + "/" + id + ".json";
    assert r[|r| - 5..] == ".json";
    r
  }

  datatype ConversationMetadata = ConversationMetadata(id: string, createdAt: real, updatedAt: real, title: string)

  function MetadataOf(c: Conversation): ConversationMetadata {
    ConversationMetadata(c.id, c.createdAt, c.updatedAt, c.title)
  }

  /** The directory entries named `*.json`, in their order. */
  function JsonFiles(names: seq<string>): (r: seq<string>)
    ensures forall i :: 0 <= i < |r| ==> EndsWith(r[i], ".json")
    ensures forall n :: n in names && EndsWith(n, ".json") ==> n in r
    ensures forall n :: n in r ==> n in names
    decreases |names|
  {
    if names == [] then []
    else if EndsWith(names[0], ".json") then [names[0]] + JsonFiles(names[1..])
    else JsonFiles(names[1..])
  }

  /** `Array.prototype.slice(start, end)` for non-negative bounds: both are
      clamped to the length. */
  function Slice<T>(xs: seq<T>, start: nat, end: nat): (r: seq<T>)
    ensures |r| <= |xs| && (start <= end ==> |r| <= end - start)
    ensures start < |xs| && start <= end ==> r == xs[start..if end <= |xs| then end else |xs|]
    ensures start >= |xs| || end <= start ==> r == []
  {
    var s := if start <= |xs| then start else |xs|;
    var e := if end <= |xs| then end else |xs|;
    if e <= s then [] else xs[s..e]
  }

  /** The metadata of the files that read, parse and migrate, in order; the
      others are skipped. `read` is the file content per name, `None` when
      reading or `JSON.parse` fails. */
  function CollectValid(files: seq<string>, read: string -> Option<Json>, check: MessagesCheck): (r: seq<ConversationMetadata>)
    ensures |r| <= |files|
    decreases |files|
  {
    if files == [] then []
    else
      var rest := CollectValid(files[1..], read, check);
      match read(files[0])
      case None => rest
      case Some(j) =>
        match MigrateConversation(j, check)
        case Ok(f) => [MetadataOf(f.conversation)] + rest
        case Err(_) => rest
  }

  /** Whether a file reads, parses and migrates. */
  predicate Valid(file: string, read: string -> Option<Json>, check: MessagesCheck) {
    read(file).Some? && MigrateConversation(read(file).value, check).Ok?
  }

  /** The files kept are exactly the valid ones: a skipped file is not
      replaced by a later one, and with every file valid nothing is lost. */
  lemma {:induction false} CollectValidAll(files: seq<string>, read: string -> Option<Json>, check: MessagesCheck)
    requires forall i :: 0 <= i < |files| ==> Valid(files[i], read, check)
    ensures |CollectValid(files, read, check)| == |files|
    ensures forall i :: 0 <= i < |files| && Valid(files[i], read, check) ==>
              CollectValid(files, read, check)[i] == MetadataOf(MigrateConversation(read(files[i]).value, check).value.conversation)
    decreases |files|
  {
    if files != [] {
      CollectValidAll(files[1..], read, check);
    }
  }

  lemma {:induction false} CollectValidSkips(files: seq<string>, read: string -> Option<Json>, check: MessagesCheck, k: nat)
    requires k < |files| && !Valid(files[k], read, check)
    ensures |CollectValid(files, read, check)| < |files|
    decreases k
  {
    if k > 0 {
      CollectValidSkips(files[1..], read, check, k - 1);
    }
  }

  /** `listConversations(limit, offset)`. `directory` is what `readdir`
      yields. */
  function ListConversations(directory: Result<seq<string>, FsError>, read: string -> Option<Json>, check: MessagesCheck,
                             limit: nat, offset: nat): (r: Result<seq<ConversationMetadata>, FsError>)
    ensures directory.Err? && IsNotFound(directory.error) ==> r == Ok([])
    ensures directory.Err? && !IsNotFound(directory.error) ==> r == Err(directory.error)
    ensures directory.Ok? ==> r.Ok? && |r.value| <= limit
    ensures directory.Ok? ==> r.value == CollectValid(Window(directory.value, limit, offset), read, check)
  {
    match directory
    case Err(e) => if IsNotFound(e) then Ok([]) else Err(e)
    case Ok(names) => Ok(CollectValid(Window(names, limit, offset), read, check))
  }

  /** A slice holds only elements of its list. */
  lemma SliceMembers<T>(xs: seq<T>, start: nat, end: nat)
    ensures forall x :: x in Slice(xs, start, end) ==> x in xs
  {
    var r := Slice(xs, start, end);
    forall x | x in r ensures x in xs {
      var i :| 0 <= i < |r| && r[i] == x;
      assert start + i < |xs| && xs[start + i] == x;
    }
  }

  /** A slice of a descending list is descending. */
  lemma SliceDescending(xs: seq<string>, start: nat, end: nat)
    requires Descending(xs)
    ensures Descending(Slice(xs, start, end))
  {
  }

  /** The files one page is drawn from: the `*.json` names, newest (largest)
      first, from `offset` up to `offset + limit`. */
  function Window(names: seq<string>, limit: nat, offset: nat): (r: seq<string>)
    ensures |r| <= limit
    ensures forall n :: n in r ==> EndsWith(n, ".json") && n in names
  {
    WindowMembers(names, limit, offset);
    Slice(SortDescending(JsonFiles(names)), offset, offset + limit)
  }

  lemma WindowMembers(names: seq<string>, limit: nat, offset: nat)
    ensures forall n :: n in Slice(SortDescending(JsonFiles(names)), offset, offset + limit) ==>
      EndsWith(n, ".json") && n in names
  {
    var files := JsonFiles(names);
    var sorted := SortDescending(files);
    forall n | n in sorted ensures n in files {
      assert n in multiset(sorted);
    }
    SliceMembers(sorted, offset, offset + limit);
  }

  /** A page lists its files newest first. */
  lemma WindowDescending(names: seq<string>, limit: nat, offset: nat)
    ensures Descending(Window(names, limit, offset))
  {
    SliceDescending(SortDescending(JsonFiles(names)), offset, offset + limit);
  }

  /** Consecutive pages are consecutive runs of the one sorted list. */
  lemma WindowsTile(names: seq<string>, limit: nat, offset: nat)
    ensures var all := SortDescending(JsonFiles(names));
            offset + 2 * limit <= |all| ==>
              Window(names, limit, offset) + Window(names, limit, offset + limit) == Window(names, 2 * limit, offset)
  {
    SlicesTile(SortDescending(JsonFiles(names)), limit, offset);
  }

  lemma SlicesTile<T>(all: seq<T>, limit: nat, offset: nat)
    ensures offset + 2 * limit <= |all| ==>
      Slice(all, offset, offset + limit) + Slice(all, offset + limit, offset + 2 * limit) == Slice(all, offset, offset + 2 * limit)
  {
    if offset + 2 * limit <= |all| && limit > 0 {
      assert all[offset..offset + limit] + all[offset + limit..offset + 2 * limit] == all[offset..offset + 2 * limit];
    }
  }
}
