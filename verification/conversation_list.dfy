/** The conversations window (src/apps/conversations/App.tsx): relative
    dates and page-by-page loading over `listConversations`. */
module ConversationList {
  import opened Wrappers
  import opened Strings
  import opened FileSystem
  import opened Sorting
  import opened ConversationsStore

  const MsPerMinute: int := 60000
  const MsPerHour: int := 3600000
  const MsPerDay: int := 86400000

  /** "`n` `unit`s ago", without the plural "s" when `n` is 1. */
  function Ago(n: nat, unit: string): string {
    NatToString(n) + " " + unit + (if n == 1 then "" else "s") + " ago"
  }

  lemma MulNonneg(x: int, y: int)
    requires x >= 0 && y >= 0
    ensures x * y >= 0
  {
  }

  /** Euclidean quotients are unique. */
  lemma DivUnique(a: int, d: int, q: int, r: int)
    requires d > 0 && 0 <= r < d && a == d * q + r
    ensures a / d == q
  {
    var q0, r0 := a / d, a % d;
    var k := q - q0;
    assert d * q == d * q0 + d * k;
    assert d * k == r0 - r;
    if k >= 1 {
      MulNonneg(d, k - 1);
      assert false;
    } else if k <= -1 {
      MulNonneg(d, -k - 1);
      assert false;
    }
  }

  /** Flooring twice is flooring once by the product (the divisors are
      positive, so Dafny's division floors like `Math.floor(x / d)`). */
  lemma NestedFloor(a: int, b: int, c: int)
    requires b > 0 && c > 0
    ensures (a / b) / c == a / (b * c)
  {
    var q, r := a / b, a % b;
    var q2, r2 := q / c, q % c;
    assert a == b * q + r;
    assert q == c * q2 + r2;
    assert a == (b * c) * q2 + (b * r2 + r) by {
      assert b * q == b * (c * q2) + b * r2;
    }
    assert 0 <= b * r2 + r < b * c by {
      MulNonneg(b, r2);
      MulNonneg(b, c - 1 - r2);
      assert b * (c - 1 - r2) == b * c - b - b * r2;
    }
    DivUnique(a, b * c, q2, b * r2 + r);
  }

  /** `formatDate`: the time since `timestamp`, both in milliseconds, in
      the largest whole unit that is at least one; anything under a minute,
      including a timestamp in the future, is "Just now". */
  function FormatDate(now: int, timestamp: int): (r: string)
    ensures now - timestamp < MsPerMinute ==> r == "Just now"
    ensures MsPerMinute <= now - timestamp < MsPerHour ==> r == Ago((now - timestamp) / MsPerMinute, "minute")
    ensures MsPerHour <= now - timestamp < MsPerDay ==> r == Ago((now - timestamp) / MsPerHour, "hour")
    ensures MsPerDay <= now - timestamp ==> r == Ago((now - timestamp) / MsPerDay, "day")
  {
    var diff := now - timestamp;
    var seconds := diff / 1000;
    var minutes := seconds / 60;
    var hours := minutes / 60;
    var days := hours / 24;
    DateUnits(diff);
    if days > 0 then Ago(days, "day")
    else if hours > 0 then Ago(hours, "hour")
    else if minutes > 0 then Ago(minutes, "minute")
    else "Just now"
  }

  /** The nested floors of `formatDate` count whole minutes, hours and
      days, and each is positive exactly when that much time has passed. */
  lemma DateUnits(diff: int)
    ensures diff / 1000 / 60 == diff / MsPerMinute && (diff / MsPerMinute > 0 <==> diff >= MsPerMinute)
    ensures diff / 1000 / 60 / 60 == diff / MsPerHour && (diff / MsPerHour > 0 <==> diff >= MsPerHour)
    ensures diff / 1000 / 60 / 60 / 24 == diff / MsPerDay && (diff / MsPerDay > 0 <==> diff >= MsPerDay)
  {
    NestedFloor(diff, 1000, 60);
    NestedFloor(diff, 60000, 60);
    NestedFloor(diff, 3600000, 24);
  }

  /** The unit carries a plural "s" exactly when the count is not one. */
  lemma PluralIffNotOne(n: nat, unit: string)
    requires unit != [] && unit[|unit| - 1] != 's'
    ensures var a := Ago(n, unit); |a| >= 5 && (a[|a| - 5] == 's' <==> n != 1)
  {
    var a := Ago(n, unit);
    if n == 1 {
      assert a == NatToString(n) + " " + unit + " ago";
    } else {
      assert a == NatToString(n) + " " + unit + "s" + " ago";
    }
  }

  /** Every unit the window uses gets the plural rule. */
  lemma UnitsTakePlural(n: nat)
    ensures var d := Ago(n, "day"); d[|d| - 5] == 's' <==> n != 1
    ensures var h := Ago(n, "hour"); h[|h| - 5] == 's' <==> n != 1
    ensures var m := Ago(n, "minute"); m[|m| - 5] == 's' <==> n != 1
  {
    PluralIffNotOne(n, "day");
    PluralIffNotOne(n, "hour");
    PluralIffNotOne(n, "minute");
  }

  /** What reaches `formatDate`: a `Date` object with its time value, or a
      plain number, as the stored `updatedAt` is. */
  datatype DateArg = DateObject(time: int) | PlainNumber(value: real)

  /** `formatDate` as written: it reads the time through `getTime()`, which
      a plain number does not have, so the call throws a TypeError. */
  function FormatDateAsWritten(now: int, arg: DateArg): (r: Result<string, string>)
    ensures arg.DateObject? ==> r == Ok(FormatDate(now, arg.time))
    ensures arg.PlainNumber? ==> r.Err?
  {
    match arg
    case DateObject(t) => Ok(FormatDate(now, t))
    case PlainNumber(_) => Err("date.getTime is not a function")
  }

  /** Every listed conversation's `updatedAt` is a number, so rendering its
      date throws. */
  lemma ListedDateThrows(now: int, c: ConversationMetadata)
    ensures FormatDateAsWritten(now, PlainNumber(c.updatedAt)).Err?
  {
  }

  /** The largest time value a `Date` holds, in milliseconds. */
  const MaxTime: real := 8640000000000000.0

  /** `new Date(ms).getTime()`: the value truncated toward zero, or no time
      value at all (`NaN`) beyond the range a `Date` holds. */
  function DateValue(ms: real): (r: Option<int>)
    ensures r.None? <==> ms < -MaxTime || ms > MaxTime
    ensures r.Some? && ms >= 0.0 ==> 0 <= r.value && (r.value as real) <= ms < (r.value as real) + 1.0
    ensures r.Some? && ms < 0.0 ==> r.value <= 0 && (r.value as real) - 1.0 < ms <= (r.value as real)
    ensures r.Some? && ms == (ms.Floor as real) ==> r.value == ms.Floor
  {
    if ms < -MaxTime || ms > MaxTime then None
    else if ms >= 0.0 then Some(ms.Floor)
    else Some(-((-ms).Floor))
  }

  /** The date line as intended, with `updatedAt` made a `Date` first: a
      stored time in whole milliseconds is shown as `formatDate` words it,
      and a time no `Date` can hold compares as `NaN` and reads "Just now". */
  function FormatUpdatedAt(now: int, c: ConversationMetadata): (r: string)
    ensures c.updatedAt == (c.updatedAt.Floor as real) && -MaxTime <= c.updatedAt <= MaxTime ==>
              Ok(r) == FormatDateAsWritten(now, DateObject(c.updatedAt.Floor))
    ensures (c.updatedAt < -MaxTime || c.updatedAt > MaxTime) ==> r == "Just now"
  {
    match DateValue(c.updatedAt)
    case None => "Just now"
    case Some(t) => FormatDate(now, t)
  }

  const PageSize: nat := 20

  type Page = Result<seq<ConversationMetadata>, FsError>

  /** The window's state. */
  datatype ListView = ListView(
    conversations: seq<ConversationMetadata>,
    loading: bool,
    hasMore: bool,
    offset: nat,
    loadingMore: bool)

  function Mounted(): (v: ListView)
    ensures v.loading && v.conversations == [] && v.offset == 0 && !v.hasMore
  {
    ListView([], true, false, 0, false)
  }

  /** The first page arrives (or its request fails, which leaves the list
      empty). A full page means there may be more. */
  function InitialLoaded(v: ListView, page: Page): (r: ListView)
    ensures !r.loading && r.loadingMore == v.loadingMore
    ensures page.Ok? ==> r.conversations == page.value && r.offset == |page.value|
    ensures page.Ok? ==> (r.hasMore <==> |page.value| == PageSize)
    ensures page.Err? ==> r == v.(loading := false)
  {
    match page
    case Ok(p) => v.(conversations := p, hasMore := |p| == PageSize, offset := |p|, loading := false)
    case Err(_) => v.(loading := false)
  }

  /** "Show more": the next page is appended after the loaded ones and the
      offset advances by its length. */
  function MoreLoaded(v: ListView, page: Page): (r: ListView)
    ensures !r.loadingMore && r.loading == v.loading
    ensures page.Ok? ==> r.conversations == v.conversations + page.value
    ensures page.Ok? ==> (r.hasMore <==> |page.value| == PageSize)
    ensures v.offset == |v.conversations| ==> r.offset == |r.conversations|
    ensures page.Err? ==> r == v.(loadingMore := false)
  {
    match page
    case Ok(p) =>
      v.(conversations := v.conversations + p, hasMore := |p| == PageSize,
         offset := v.offset + |p|, loadingMore := false)
    case Err(_) => v.(loadingMore := false)
  }

  /** The window after the first page and `k` clicks on "Show more" (the
      button is only there while `hasMore` holds). `fetch(offset)` is what
      `listConversations(20, offset)` answers. */
  function Browse(fetch: nat -> Page, k: nat): (v: ListView)
    ensures v.offset == |v.conversations|
    decreases k
  {
    if k == 0 then InitialLoaded(Mounted(), fetch(0))
    else
      var v := Browse(fetch, k - 1);
      if v.hasMore then MoreLoaded(v, fetch(v.offset)) else v
  }

  /** The pages the conversations store serves for a directory listing, as
      a bridge that forwards `listConversations` to the store's
      `conversations:list` handler would hand them to the window. */
  function Listing(names: seq<string>, read: string -> Option<Json.Json>, check: MessagesCheck): nat -> Page {
    (offset: nat) => ListConversations(Ok(names), read, check, PageSize, offset)
  }

  /** What one file contributes to a listing. */
  function Keep(file: string, read: string -> Option<Json.Json>, check: MessagesCheck): seq<ConversationMetadata> {
    match read(file)
    case None => []
    case Some(j) =>
      match MigrateConversation(j, check)
      case Ok(f) => [MetadataOf(f.conversation)]
      case Err(_) => []
  }

  lemma CollectValidUnfold(files: seq<string>, read: string -> Option<Json.Json>, check: MessagesCheck)
    requires files != []
    ensures CollectValid(files, read, check) == Keep(files[0], read, check) + CollectValid(files[1..], read, check)
  {
  }

  /** What each file contributes, whatever decides it. The paging
      argument below holds for any such rule that keeps at most one entry
      per file; the store's rule is `KeepValid`. */
  type Keeper = string -> seq<ConversationMetadata>

  function KeepValid(read: string -> Option<Json.Json>, check: MessagesCheck): Keeper {
    file => Keep(file, read, check)
  }

  /** The entries of `files` in order, each file giving what `keep` keeps. */
  function Collect(files: seq<string>, keep: Keeper): seq<ConversationMetadata>
    decreases |files|
  {
    if files == [] then [] else keep(files[0]) + Collect(files[1..], keep)
  }

  /** The store's reading is collection under `KeepValid`. */
  lemma {:induction false} CollectValidIsCollect(files: seq<string>, read: string -> Option<Json.Json>, check: MessagesCheck)
    ensures CollectValid(files, read, check) == Collect(files, KeepValid(read, check))
    decreases |files|
  {
    if files != [] {
      CollectValidIsCollect(files[1..], read, check);
      CollectValidUnfold(files, read, check);
    }
  }

  ghost predicate AtMostOne(keep: Keeper) {
    forall file :: |keep(file)| <= 1
  }

  /** The store keeps a file's entry or nothing. */
  lemma KeepValidAtMostOne(read: string -> Option<Json.Json>, check: MessagesCheck)
    ensures AtMostOne(KeepValid(read, check))
  {
    forall file
      ensures |KeepValid(read, check)(file)| <= 1
    {
    }
  }

  /** Collecting over a concatenation collects over each part. */
  lemma {:induction false} CollectAppend(a: seq<string>, b: seq<string>, keep: Keeper)
    ensures Collect(a + b, keep) == Collect(a, keep) + Collect(b, keep)
    decreases |a|
  {
    if a == [] {
      assert a + b == b;
    } else {
      assert (a + b)[0] == a[0] && (a + b)[1..] == a[1..] + b;
      CollectAppend(a[1..], b, keep);
    }
  }

  /** With at most one entry per file, there are no more entries than files. */
  lemma {:induction false} CollectShort(files: seq<string>, keep: Keeper)
    requires AtMostOne(keep)
    ensures |Collect(files, keep)| <= |files|
    decreases |files|
  {
    if files != [] {
      CollectShort(files[1..], keep);
      assert |keep(files[0])| <= 1;
    }
  }

  /** A page is the clamped slice of the sorted listing. */
  lemma WindowIsSlice(names: seq<string>, limit: nat, offset: nat)
    ensures Window(names, limit, offset) == Slice(SortDescending(JsonFiles(names)), offset, offset + limit)
  {
  }

  function Min(x: int, y: int): int {
    if x <= y then x else y
  }

  /** Every file of `files` reads and migrates. */
  ghost predicate AllValid(files: seq<string>, read: string -> Option<Json.Json>, check: MessagesCheck) {
    forall i :: 0 <= i < |files| ==> Valid(files[i], read, check)
  }

  /** Reading `files` skips none of them. */
  ghost predicate NoneSkipped(files: seq<string>, keep: Keeper) {
    |Collect(files, keep)| == |files|
  }

  /** A run that skips nothing skips nothing in either of its parts. */
  lemma NoneSkippedSplit(a: seq<string>, b: seq<string>, keep: Keeper)
    requires AtMostOne(keep) && NoneSkipped(a + b, keep)
    ensures NoneSkipped(a, keep) && NoneSkipped(b, keep)
  {
    CollectAppend(a, b, keep);
    CollectShort(a, keep);
    CollectShort(b, keep);
  }

  /** With nothing skipped, the page read at `start` continues the
      listing: it holds the next (up to) twenty files. */
  lemma PageContinues(all: seq<string>, keep: Keeper, start: nat)
    requires start <= |all| && AtMostOne(keep) && NoneSkipped(all, keep)
    ensures var page := Collect(Slice(all, start, start + PageSize), keep);
      && |page| == Min(start + PageSize, |all|) - start
      && Collect(all[..start], keep) + page == Collect(all[..Min(start + PageSize, |all|)], keep)
  {
    var end := Min(start + PageSize, |all|);
    var w := Slice(all, start, start + PageSize);
    assert w == all[start..end];
    assert all == all[..end] + all[end..];
    NoneSkippedSplit(all[..end], all[end..], keep);
    assert all[..end] == all[..start] + w;
    NoneSkippedSplit(all[..start], w, keep);
    CollectAppend(all[..start], w, keep);
  }

  /** How many files the first page and `k` more pages can hold:
      `20 * (k + 1)`. */
  function Shown(k: nat): nat {
    if k == 0 then PageSize else Shown(k - 1) + PageSize
  }

  /** The window after `k` clicks shows the newest `20 * (k + 1)` files of
      `all` (or all of them), and offers more exactly while a page was full. */
  ghost predicate ShowsPrefix(v: ListView, all: seq<string>, keep: Keeper, k: nat) {
    && v.offset == Min(Shown(k), |all|)
    && v.conversations == Collect(all[..v.offset], keep)
    && (v.hasMore <==> Shown(k) <= |all|)
  }

  /** Marks an offset a proof asks `fetch` about, so that the serving
      property below is applied only there. */
  ghost function Asked(offset: nat): nat {
    offset
  }

  /** `fetch` serves the clamped slices of `all`, keeping what `keep` keeps. */
  ghost predicate ServesSlices(fetch: nat -> Page, all: seq<string>, keep: Keeper) {
    forall offset: nat {:trigger Asked(offset)} :: fetch(offset) == Ok(Collect(Slice(all, offset, offset + PageSize), keep))
  }

  /** A full page read at the current offset extends the shown prefix by
      the next twenty files (or the rest). */
  lemma LoadedPageShowsPrefix(prev: ListView, all: seq<string>, keep: Keeper, k: nat)
    requires AtMostOne(keep) && NoneSkipped(all, keep)
    requires k > 0 && ShowsPrefix(prev, all, keep, k - 1) && prev.hasMore
    requires prev.offset == |prev.conversations|
    ensures ShowsPrefix(MoreLoaded(prev, Ok(Collect(Slice(all, prev.offset, prev.offset + PageSize), keep))), all, keep, k)
  {
    var start := prev.offset;
    var page := Collect(Slice(all, start, start + PageSize), keep);
    var end := Min(start + PageSize, |all|);
    PageContinues(all, keep, start);
    ExtendShown(prev, page, Collect(all[..end], keep), |all|, k);
  }

  /** The bookkeeping of one more page: a page of `Min(offset + 20, size)
      - offset` entries moves the offset there and keeps "Show more"
      exactly while the page was full. */
  lemma ExtendShown(prev: ListView, page: seq<ConversationMetadata>, combined: seq<ConversationMetadata>, size: nat, k: nat)
    requires k > 0 && prev.offset == Shown(k - 1) <= size
    requires |page| == Min(prev.offset + PageSize, size) - prev.offset
    requires prev.conversations + page == combined
    ensures var v := MoreLoaded(prev, Ok(page));
      && v.offset == Min(prev.offset + PageSize, size) == Min(Shown(k), size)
      && v.conversations == combined
      && (v.hasMore <==> Shown(k) <= size)
  {
  }

  lemma NextPageShowsPrefix(fetch: nat -> Page, all: seq<string>, keep: Keeper, k: nat)
    requires AtMostOne(keep) && NoneSkipped(all, keep)
    requires k > 0 && ShowsPrefix(Browse(fetch, k - 1), all, keep, k - 1)
    requires var start := Browse(fetch, k - 1).offset;
      fetch(start) == Ok(Collect(Slice(all, start, start + PageSize), keep))
    ensures ShowsPrefix(Browse(fetch, k), all, keep, k)
  {
    var prev := Browse(fetch, k - 1);
    if prev.hasMore {
      var page := Collect(Slice(all, prev.offset, prev.offset + PageSize), keep);
      assert Browse(fetch, k) == MoreLoaded(prev, Ok(page));
      LoadedPageShowsPrefix(prev, all, keep, k);
    } else {
      assert Browse(fetch, k) == prev;
    }
  }

  /** The first page shows the newest twenty files (or all of them). */
  lemma FirstPageShowsPrefix(fetch: nat -> Page, all: seq<string>, keep: Keeper)
    requires AtMostOne(keep) && NoneSkipped(all, keep)
    requires fetch(0) == Ok(Collect(Slice(all, 0, PageSize), keep))
    ensures ShowsPrefix(Browse(fetch, 0), all, keep, 0)
  {
    var page := Collect(Slice(all, 0, PageSize), keep);
    assert |page| == Min(PageSize, |all|) && page == Collect(all[..Min(PageSize, |all|)], keep) by {
      PageContinues(all, keep, 0);
      assert all[..0] == [];
    }
  }

  /** Paging over a store that skips nothing is complete and faithful:
      after `k` clicks the window shows the newest `20 * (k + 1)` files (or
      all of them) in listing order, and "Show more" disappears only once
      every file is shown. */
  lemma {:induction false} BrowsingShowsEveryValidFile(fetch: nat -> Page, all: seq<string>, keep: Keeper, k: nat)
    requires AtMostOne(keep) && ServesSlices(fetch, all, keep) && NoneSkipped(all, keep)
    ensures ShowsPrefix(Browse(fetch, k), all, keep, k)
    ensures !Browse(fetch, k).hasMore ==> Browse(fetch, k).offset == |all|
    decreases k
  {
    if k == 0 {
      assert Asked(0) == 0;
      FirstPageShowsPrefix(fetch, all, keep);
    } else {
      BrowsingShowsEveryValidFile(fetch, all, keep, k - 1);
      ServedNextPage(fetch, all, keep, k);
    }
    ShownPrefixEnds(Browse(fetch, k), all, keep, k);
  }

  /** A store that serves slices serves the page after a shown prefix. */
  lemma ServedNextPage(fetch: nat -> Page, all: seq<string>, keep: Keeper, k: nat)
    requires AtMostOne(keep) && ServesSlices(fetch, all, keep) && NoneSkipped(all, keep)
    requires k > 0 && ShowsPrefix(Browse(fetch, k - 1), all, keep, k - 1)
    ensures ShowsPrefix(Browse(fetch, k), all, keep, k)
  {
    assert Asked(Browse(fetch, k - 1).offset) == Browse(fetch, k - 1).offset;
    NextPageShowsPrefix(fetch, all, keep, k);
  }

  /** Once "Show more" is gone, the shown prefix is the whole list. */
  lemma ShownPrefixEnds(v: ListView, all: seq<string>, keep: Keeper, k: nat)
    requires ShowsPrefix(v, all, keep, k)
    ensures !v.hasMore ==> v.offset == |all|
  {
  }

  /** The conversations store serves the slices of its sorted listing. */
  lemma ListingServesSlices(names: seq<string>, read: string -> Option<Json.Json>, check: MessagesCheck)
    ensures ServesSlices(Listing(names, read, check), SortDescending(JsonFiles(names)), KeepValid(read, check))
  {
    var all := SortDescending(JsonFiles(names));
    forall offset: nat
      ensures Listing(names, read, check)(offset) == Ok(Collect(Slice(all, offset, offset + PageSize), KeepValid(read, check)))
    {
      WindowIsSlice(names, PageSize, offset);
      CollectValidIsCollect(Slice(all, offset, offset + PageSize), read, check);
    }
  }

  /** Over a bridge that reaches the conversations store: when every
      `*.json` file is valid, clicking "Show more" until it disappears lists
      every file, newest first. */
  lemma BrowsingListsEveryConversation(names: seq<string>, read: string -> Option<Json.Json>, check: MessagesCheck, k: nat)
    requires AllValid(SortDescending(JsonFiles(names)), read, check)
    ensures var all := SortDescending(JsonFiles(names));
      var v := Browse(Listing(names, read, check), k);
      && v.offset <= |all|
      && v.conversations == CollectValid(all[..v.offset], read, check)
      && (!v.hasMore ==> v.conversations == CollectValid(all, read, check))
  {
    var all := SortDescending(JsonFiles(names));
    var fetch := Listing(names, read, check);
    var keep := KeepValid(read, check);
    assert NoneSkipped(all, keep) by {
      CollectValidAll(all, read, check);
      CollectValidIsCollect(all, read, check);
    }
    ListingServesSlices(names, read, check);
    KeepValidAtMostOne(read, check);
    BrowsingShowsAll(fetch, all, keep, k);
    var v := Browse(fetch, k);
    CollectValidIsCollect(all[..v.offset], read, check);
    CollectValidIsCollect(all, read, check);
  }

  /** Paging that shows prefixes ends with the whole list. */
  lemma BrowsingShowsAll(fetch: nat -> Page, all: seq<string>, keep: Keeper, k: nat)
    requires AtMostOne(keep) && ServesSlices(fetch, all, keep) && NoneSkipped(all, keep)
    ensures var v := Browse(fetch, k);
      && v.offset <= |all|
      && v.conversations == Collect(all[..v.offset], keep)
      && (!v.hasMore ==> v.conversations == Collect(all, keep))
  {
    BrowsingShowsEveryValidFile(fetch, all, keep, k);
    assert all[..|all|] == all;
  }

  /** A single unreadable or invalid file among the newest twenty ends
      paging early: the first page comes back short, so "Show more" never
      appears even though older files remain. */
  lemma InvalidFileEndsPaging(names: seq<string>, read: string -> Option<Json.Json>, check: MessagesCheck, bad: nat)
    requires var all := SortDescending(JsonFiles(names));
      PageSize < |all| && bad < PageSize && !Valid(all[bad], read, check)
    ensures var v := Browse(Listing(names, read, check), 0);
      !v.hasMore && v.offset < PageSize < |SortDescending(JsonFiles(names))|
  {
    var all := SortDescending(JsonFiles(names));
    var w := Window(names, PageSize, 0);
    assert w == all[0..PageSize];
    assert w[bad] == all[bad];
    CollectValidSkips(w, read, check, bad);
  }

  /** A first load that rejects leaves the window empty for good: no
      conversation is shown, the loading notice is gone and "Show more"
      never appears, however often the window is looked at again. The
      window's bridge has no `listConversations`, so every load it makes
      rejects this way. */
  lemma {:induction false} RejectedFirstLoadShowsNothing(fetch: nat -> Page, k: nat)
    requires fetch(0).Err?
    ensures Browse(fetch, k) == ListView([], false, false, 0, false)
    decreases k
  {
    if k > 0 {
      RejectedFirstLoadShowsNothing(fetch, k - 1);
    }
  }
}
