/** Folder listings and the keyset order the two page queries share. */
module Listing {
  import opened Common

  /** A live row of the listed folder: `name` is its rank in the database collation. */
  datatype Row = Row(name: int, id: int, view: nat)

  datatype Kind = Folder | File

  datatype Item = Item(kind: Kind, row: Row)

  /** The place a cursor names. */
  datatype Place = Place(kind: Kind, name: int, id: int)

  predicate Less(n: int, i: int, m: int, j: int) {
    n < m || (n == m && i < j)
  }

  /** `r` comes after the key (name, id) in the chosen direction. */
  predicate Beyond(desc: bool, r: Row, name: int, id: int) {
    if desc then Less(r.name, r.id, name, id) else Less(name, id, r.name, r.id)
  }

  predicate Ordered(rows: seq<Row>, desc: bool) {
    forall i, j :: 0 <= i < j < |rows| ==> Beyond(desc, rows[j], rows[i].name, rows[i].id)
  }

  function Reverse(rows: seq<Row>): seq<Row> {
    seq(|rows|, i requires 0 <= i < |rows| => rows[|rows| - 1 - i])
  }

  /** ORDER BY over a table kept in index order. */
  function Sorted(rows: seq<Row>, desc: bool): seq<Row> {
    if desc then Reverse(rows) else rows
  }

  lemma SortedIsOrdered(rows: seq<Row>, desc: bool)
    requires Ordered(rows, false)
    ensures Ordered(Sorted(rows, desc), desc)
  {
  }

  /** WHERE (name, id) lies beyond the cursor. */
  function Where(rows: seq<Row>, desc: bool, name: int, id: int): seq<Row> {
    if rows == [] then []
    else (if Beyond(desc, rows[0], name, id) then [rows[0]] else []) + Where(rows[1..], desc, name, id)
  }

  function Take<T>(s: seq<T>, n: nat): seq<T> {
    if |s| <= n then s else s[..n]
  }

  function Tag(kind: Kind, rows: seq<Row>): seq<Item> {
    seq(|rows|, i requires 0 <= i < |rows| => Item(kind, rows[i]))
  }

  /** Directories ahead of files, each in the chosen order. */
  function Items(folders: seq<Row>, files: seq<Row>, desc: bool): seq<Item> {
    Tag(Folder, Sorted(folders, desc)) + Tag(File, Sorted(files, desc))
  }

  predicate After(desc: bool, item: Item, p: Place) {
    || (p.kind.Folder? && item.kind.File?)
    || (p.kind == item.kind && Beyond(desc, item.row, p.name, p.id))
  }

  function PlaceOf(item: Item): Place {
    Place(item.kind, item.row.name, item.row.id)
  }

  /** The items of a listing that follow a place, or all of it. */
  function Rest(items: seq<Item>, desc: bool, from: Option<Place>): seq<Item> {
    if items == [] || from.None? then items
    else (if After(desc, items[0], from.value) then [items[0]] else []) + Rest(items[1..], desc, from)
  }

  lemma {:induction false} RestAppends(a: seq<Item>, b: seq<Item>, desc: bool, from: Option<Place>)
    ensures Rest(a + b, desc, from) == Rest(a, desc, from) + Rest(b, desc, from)
  {
    if a == [] {
      assert a + b == b;
    } else if from.Some? {
      RestAppends(a[1..], b, desc, from);
      assert (a + b)[1..] == a[1..] + b;
    }
  }

  lemma TagStep(kind: Kind, rows: seq<Row>)
    requires rows != []
    ensures Tag(kind, rows) == [Item(kind, rows[0])] + Tag(kind, rows[1..])
    ensures Tag(kind, rows)[1..] == Tag(kind, rows[1..])
  {
  }

  lemma TagAppends(kind: Kind, a: seq<Row>, b: seq<Row>)
    ensures Tag(kind, a + b) == Tag(kind, a) + Tag(kind, b)
  {
  }

  function Kept(kind: Kind, rows: seq<Row>, desc: bool, p: Place): seq<Row> {
    if kind == p.kind then Where(rows, desc, p.name, p.id) else if p.kind.Folder? then rows else []
  }

  /** Filtering tagged rows is tagging filtered rows, kind by kind. */
  lemma {:induction false} RestOfTagged(kind: Kind, rows: seq<Row>, desc: bool, p: Place)
    ensures Rest(Tag(kind, rows), desc, Some(p)) == Tag(kind, Kept(kind, rows, desc, p))
  {
    if rows != [] {
      var own := if After(desc, Item(kind, rows[0]), p) then [rows[0]] else [];
      RestOfTagged(kind, rows[1..], desc, p);
      TagStep(kind, rows);
      KeptStep(kind, rows, desc, p);
      TagAppends(kind, own, Kept(kind, rows[1..], desc, p));
      hide Kept, After, Where;
      assert Tag(kind, own) == if After(desc, Item(kind, rows[0]), p) then [Item(kind, rows[0])] else [];
    }
  }

  lemma KeptStep(kind: Kind, rows: seq<Row>, desc: bool, p: Place)
    requires rows != []
    ensures Kept(kind, rows, desc, p) == (if After(desc, Item(kind, rows[0]), p) then [rows[0]]
                    else []) + Kept(kind, rows[1..], desc, p)
  {
  }

  predicate InOrder(items: seq<Item>, desc: bool) {
    forall i, j :: 0 <= i < j < |items| ==> After(desc, items[j], PlaceOf(items[i]))
  }

  lemma ItemsInOrder(folders: seq<Row>, files: seq<Row>, desc: bool)
    requires Ordered(folders, false) && Ordered(files, false)
    ensures InOrder(Items(folders, files, desc), desc)
  {
    SortedIsOrdered(folders, desc);
    SortedIsOrdered(files, desc);
  }

  /** `a` is listed before `b`, in plain numbers. */
  predicate Precedes(a: Item, b: Item, desc: bool) {
    && (a.kind.File? ==> b.kind.File?)
    && (a.kind == b.kind ==>
          if desc then b.row.name < a.row.name || (b.row.name == a.row.name && b.row.id < a.row.id)
          else a.row.name < b.row.name || (a.row.name == b.row.name && a.row.id < b.row.id))
  }

  lemma ItemsPrecede(folders: seq<Row>, files: seq<Row>, desc: bool, i: nat, j: nat)
    requires Ordered(folders, false) && Ordered(files, false) && i < j < |Items(folders, files, desc)|
    ensures Precedes(Items(folders, files, desc)[i], Items(folders, files, desc)[j], desc)
  {
    ItemsInOrder(folders, files, desc);
    hide Items;
    assert After(desc, Items(folders, files, desc)[j], PlaceOf(Items(folders, files, desc)[i]));
  }

  lemma {:induction false} NothingSkipped(items: seq<Item>, desc: bool, p: Place)
    requires forall i :: 0 <= i < |items| ==> After(desc, items[i], p)
    ensures Rest(items, desc, Some(p)) == items
  {
    if items != [] {
      NothingSkipped(items[1..], desc, p);
    }
  }

  lemma {:induction false} AllSkipped(items: seq<Item>, desc: bool, p: Place)
    requires forall i :: 0 <= i < |items| ==> !After(desc, items[i], p)
    ensures Rest(items, desc, Some(p)) == []
  {
    if items != [] {
      AllSkipped(items[1..], desc, p);
    }
  }

  /** A cursor at the k-th item resumes exactly at item k: nothing skipped, nothing repeated. */
  lemma RestResumes(items: seq<Item>, desc: bool, k: nat)
    requires InOrder(items, desc) && 0 < k <= |items|
    ensures Rest(items, desc, Some(PlaceOf(items[k - 1]))) == items[k..]
  {
    var p := PlaceOf(items[k - 1]);
    assert items == items[..k] + items[k..];
    RestAppends(items[..k], items[k..], desc, Some(p));
    forall i | 0 <= i < k
      ensures !After(desc, items[..k][i], p)
    {
      if i < k - 1 {
        assert After(desc, items[k - 1], PlaceOf(items[i]));
      }
    }
    AllSkipped(items[..k], desc, p);
    NothingSkipped(items[k..], desc, p);
  }
}

/** drive.Service.childrenPage: pages fenced by the owner's committed epochs. */
module Pagination {
  import opened Common
  import opened Listing

  datatype Epoch = Epoch(content: int, acl: int)

  /** What one committed database state shows of the listed folder. */
  datatype Snapshot = Snapshot(exists_: bool, folders: seq<Row>, files: seq<Row>, epoch: Epoch)

  datatype Cursor = Cursor(scope: nat, epoch: Epoch, place: Place, sort: string)

  /** A cursor as received: absent, undecodable, or decoded. */
  datatype RawCursor = Absent | Garbage | Decoded(cursor: Cursor)

  datatype Page = Page(folders: seq<Row>, files: seq<Row>, more: bool, next: Option<Cursor>)

  datatype Error = InvalidInput | NotFound | InvalidCursor | CursorStale

  datatype Result = Ok(page: Page) | Err(error: Error)

  /** One committed transaction of any writer: a change of the listing moves the content epoch. */
  predicate Commits(before: Snapshot, after: Snapshot) {
    && before.epoch.content <= after.epoch.content
    && before.epoch.acl <= after.epoch.acl
    && (SameListing(before, after) || before.epoch.content < after.epoch.content)
  }

  predicate SameListing(a: Snapshot, b: Snapshot) {
    a.folders == b.folders && a.files == b.files
  }

  predicate History(h: seq<Snapshot>) {
    && (forall i :: 0 <= i < |h| ==> Ordered(h[i].folders, false) && Ordered(h[i].files, false))
    && (forall i :: 0 < i < |h| ==> Commits(h[i - 1], h[i]))
  }

  /** Two reads that see one content epoch bracket an unchanged listing. */
  lemma {:induction false} EpochFences(h: seq<Snapshot>, i: nat, j: nat)
    requires History(h) && i <= j < |h|
    ensures h[i].epoch.content <= h[j].epoch.content && h[i].epoch.acl <= h[j].epoch.acl
    ensures h[i].epoch.content == h[j].epoch.content ==> SameListing(h[i], h[j])
    decreases j
  {
    if i < j {
      EpochFences(h, i, j - 1);
      assert Commits(h[j - 1], h[j]);
    }
  }

  function CursorAt(item: Item, scope: nat, epoch: Epoch, sort: string): Cursor {
    Cursor(scope, epoch, PlaceOf(item), sort)
  }

  function PageItems(p: Page): seq<Item> {
    Tag(Folder, p.folders) + Tag(File, p.files)
  }

  /** What a page must be, read off one snapshot: the next `limit` items of the whole listing. */
  predicate IsPage(p: Page, s: Snapshot, from: Option<Place>, limit: nat, scope: nat, sort: string) {
    var rest := Rest(Items(s.folders, s.files, sort == "name_desc"), sort == "name_desc", from);
    && PageItems(p) == Take(rest, limit)
    && (p.more <==> |rest| > limit)
    && p.next == (if |rest| > limit && limit > 0 then Some(CursorAt(rest[limit - 1], scope, s.epoch, sort)) else None)
  }

  function From(raw: RawCursor): Option<Place> {
    if raw.Decoded? then Some(raw.cursor.place) else None
  }

  // ---- the two queries and their concatenation ----

  function FolderQuery(s: Snapshot, desc: bool, from: Option<Place>): seq<Row> {
    var rows := Sorted(s.folders, desc);
    if from.None? then rows else if from.value.kind.File? then [] else Where(rows, desc, from.value.name, from.value.id)
  }

  function FileQuery(s: Snapshot, desc: bool, from: Option<Place>): seq<Row> {
    var rows := Sorted(s.files, desc);
    if from.Some? && from.value.kind.File? then Where(rows, desc, from.value.name, from.value.id) else rows
  }

  lemma QueriesSplitRest(s: Snapshot, desc: bool, from: Option<Place>)
    ensures Rest(Items(s.folders, s.files, desc), desc, from) ==
            Tag(Folder, FolderQuery(s, desc, from)) + Tag(File, FileQuery(s, desc, from))
  {
    if from.Some? {
      RestAppends(Tag(Folder, Sorted(s.folders, desc)), Tag(File, Sorted(s.files, desc)), desc, from);
      RestOfTagged(Folder, Sorted(s.folders, desc), desc, from.value);
      RestOfTagged(File, Sorted(s.files, desc), desc, from.value);
    }
  }

  /** One row too many from each query is enough to fill the page and to know whether more follow. */
  lemma Window(a: seq<Item>, b: seq<Item>, limit: nat)
    ensures Take(Take(a, limit + 1) + Take(b, limit + 1), limit) == Take(a + b, limit)
    ensures |Take(a, limit + 1) + Take(b, limit + 1)| > limit <==> |a + b| > limit
  {
  }

  lemma TakeTagged(kind: Kind, rows: seq<Row>, n: nat)
    ensures Take(Tag(kind, rows), n) == Tag(kind, Take(rows, n))
  {
  }

  /** Reads the two tables at two moments and appends the results row by row. */
  method LoadChildrenPage(atFolders: Snapshot, atFiles: Snapshot, from: Option<Place>, limit: nat, desc: bool)
    returns (items: seq<Item>)
    ensures items == Tag(Folder, Take(FolderQuery(atFolders, desc, from), limit + 1))
                   + Tag(File, Take(FileQuery(atFiles, desc, from), limit + 1))
  {
    var folders := Take(FolderQuery(atFolders, desc, from), limit + 1);
    var files := Take(FileQuery(atFiles, desc, from), limit + 1);
    items := [];
    for i := 0 to |folders|
      invariant items == Tag(Folder, folders[..i])
    {
      items := items + [Item(Folder, folders[i])];
    }
    assert folders[..|folders|] == folders;
    for i := 0 to |files|
      invariant items == Tag(Folder, folders) + Tag(File, files[..i])
    {
      items := items + [Item(File, files[i])];
    }
    assert files[..|files|] == files;
  }

  predicate Grouped(items: seq<Item>) {
    forall i, j :: 0 <= i < j < |items| && items[i].kind.File? ==> items[j].kind.File?
  }

  /** Splits a page's items into its two columns. */
  method Split(items: seq<Item>) returns (folders: seq<Row>, files: seq<Row>)
    requires Grouped(items)
    ensures Tag(Folder, folders) + Tag(File, files) == items
  {
    folders, files := [], [];
    for i := 0 to |items|
      invariant Tag(Folder, folders) + Tag(File, files) == items[..i]
      invariant files != [] ==> i > 0 && items[i - 1].kind.File?
    {
      if items[i].kind.Folder? {
        folders := folders + [items[i].row];
      } else {
        files := files + [items[i].row];
      }
      assert items[..i + 1] == items[..i] + [items[i]];
    }
    assert items[..|items|] == items;
  }

  lemma PrefixGrouped(folders: seq<Row>, files: seq<Row>, n: nat)
    ensures Grouped(Take(Tag(Folder, folders) + Tag(File, files), n))
  {
  }

  /** The moments, as positions in the history, at which one request reads the database. */
  datatype Reads = Reads(folder: nat, epoch: nat, folders: nat, files: nat, recheck: nat, served: nat)

  predicate InTime(r: Reads, h: seq<Snapshot>) {
    r.folder <= r.epoch <= r.folders <= r.files <= r.recheck <= r.served < |h|
  }

  /** What two separate reads found is the start of one state's remainder, if no epoch moved. */
  lemma FencedReads(h: seq<Snapshot>, at: Reads, from: Option<Place>, limit: nat, desc: bool, items: seq<Item>)
    requires History(h) && InTime(at, h) && h[at.epoch].epoch == h[at.recheck].epoch
    requires items == Tag(Folder, Take(FolderQuery(h[at.folders], desc, from), limit + 1))
                    + Tag(File, Take(FileQuery(h[at.files], desc, from), limit + 1))
    ensures var rest := Rest(Items(h[at.epoch].folders, h[at.epoch].files, desc), desc, from);
            Take(items, limit) == Take(rest, limit) && (|items| > limit <==> |rest| > limit)
    ensures Grouped(Take(items, limit))
  {
    EpochFences(h, at.epoch, at.folders);
    EpochFences(h, at.folders, at.files);
    EpochFences(h, at.files, at.recheck);
    var a, b := FolderQuery(h[at.epoch], desc, from), FileQuery(h[at.epoch], desc, from);
    assert a == FolderQuery(h[at.folders], desc, from) && b == FileQuery(h[at.files], desc, from);
    QueriesSplitRest(h[at.epoch], desc, from);
    hide FolderQuery, FileQuery, Rest, History, Tag, Items;
    TakeTagged(Folder, a, limit + 1);
    TakeTagged(File, b, limit + 1);
    Window(Tag(Folder, a), Tag(File, b), limit);
    PrefixGrouped(a, b, limit);
  }

  /** The closure inside childrenPage, with its second look at the epoch. */
  method Load(h: seq<Snapshot>, at: Reads, from: Option<Place>, limit: nat, scope: nat, sort: string)
    returns (r: Result)
    requires History(h) && InTime(at, h) && limit > 0
    ensures r.Err? <==> h[at.epoch].epoch != h[at.recheck].epoch
    ensures r.Err? ==> r == Err(CursorStale)
    ensures r.Ok? ==> IsPage(r.page, h[at.epoch], from, limit, scope, sort)
  {
    hide History, FolderQuery, FileQuery, Rest, Items, Tag, Grouped;
    var items := LoadChildrenPage(h[at.folders], h[at.files], from, limit, sort == "name_desc");
    if h[at.recheck].epoch != h[at.epoch].epoch {
      return Err(CursorStale);
    }
    FencedReads(h, at, from, limit, sort == "name_desc", items);
    var more := |items| > limit;
    var next := None;
    if more {
      items := items[..limit];
      next := Some(CursorAt(items[limit - 1], scope, h[at.epoch].epoch, sort));
    }
    var folders, files := Split(items);
    r := Ok(Page(folders, files, more, next));
  }

  datatype CacheKey = CacheKey(epoch: Epoch, limit: nat, sort: string)

  /** Every cached first page is the page of any committed state at its epoch. */
  predicate CacheSound(cache: map<CacheKey, Page>, h: seq<Snapshot>, scope: nat) {
    forall k, i :: k in cache && 0 <= i < |h| && h[i].epoch == k.epoch ==>
      IsPage(cache[k], h[i], None, k.limit, scope, k.sort)
  }

  lemma SamePage(p: Page, h: seq<Snapshot>, i: nat, j: nat, from: Option<Place>, limit: nat, scope: nat, sort: string)
    requires History(h) && i < |h| && j < |h| && h[i].epoch == h[j].epoch
    requires IsPage(p, h[i], from, limit, scope, sort)
    ensures IsPage(p, h[j], from, limit, scope, sort)
  {
    if i <= j {
      EpochFences(h, i, j);
    } else {
      EpochFences(h, j, i);
    }
  }

  predicate ValidSort(sort: string) {
    sort == "" || sort == "name_asc" || sort == "name_desc"
  }

  function SortOf(sort: string): string {
    if sort == "" then "name_asc" else sort
  }

  function LimitOf(limit: int): int {
    if limit == 0 then 50 else limit
  }

  predicate Rejects(raw: RawCursor, scope: nat, sort: string) {
    raw.Garbage? || (raw.Decoded? && (raw.cursor.scope != scope || raw.cursor.sort != SortOf(sort)))
  }

  /** The service's view of one folder, with the cache in front of its first page. */
  class Reader {
    const scope: nat
    var cache: map<CacheKey, Page>

    constructor (scope: nat)
      ensures this.scope == scope && cache == map[]
    {
      this.scope := scope;
      cache := map[];
    }

    /** `usable` says whether the cache answers; `kept` whether a loaded page is stored. */
    method ChildrenPageOnce(h: seq<Snapshot>, at: Reads, raw: RawCursor, limit: int, sort: string, usable: bool,
            kept: bool)
      returns (r: Result)
      requires History(h) && InTime(at, h) && CacheSound(cache, h, scope)
      modifies this`cache
      ensures CacheSound(cache, h, scope)
      ensures r == Err(InvalidInput) <==> !(1 <= LimitOf(limit) <= 100 && ValidSort(sort))
      ensures r == Err(InvalidInput) <==>
                limit < 0 || limit > 100 || (sort != "" && sort != "name_asc" && sort != "name_desc")
      ensures r == Err(NotFound) <==> 1 <= LimitOf(limit) <= 100 && ValidSort(sort) && !h[at.folder].exists_
      ensures r == Err(InvalidCursor) <==>
                1 <= LimitOf(limit) <= 100 && ValidSort(sort) && h[at.folder].exists_ && Rejects(raw, scope, sort)
      ensures r == Err(InvalidCursor) ==>
                || raw.Garbage?
                || (raw.Decoded? && (raw.cursor.scope != scope
                                     || raw.cursor.sort != if sort == "" then "name_asc" else sort))
      ensures r.Ok? ==>
                !raw.Garbage?
                && (raw.Decoded? ==>
                      raw.cursor.scope == scope && raw.cursor.sort == if sort == "" then "name_asc" else sort)
      ensures r.Ok? ==>
                && IsPage(r.page, h[at.epoch], From(raw), LimitOf(limit), scope, SortOf(sort))
                && (raw.Decoded? ==> raw.cursor.epoch == h[at.epoch].epoch)
      ensures r == Err(CursorStale) ==>
                || (raw.Decoded? && raw.cursor.epoch != h[at.epoch].epoch)
                || h[at.epoch].epoch != h[at.served].epoch
      ensures raw.Decoded? && raw.cursor.epoch != h[at.epoch].epoch ==> !r.Ok?
    {
      if LimitOf(limit) < 1 || LimitOf(limit) > 100 || !ValidSort(sort) {
        return Err(InvalidInput);
      }
      if !h[at.folder].exists_ {
        return Err(NotFound);
      }
      var epoch := h[at.epoch].epoch;
      EpochFences(h, at.epoch, at.recheck);
      EpochFences(h, at.recheck, at.served);
      if Rejects(raw, scope, sort) {
        return Err(InvalidCursor);
      }
      if raw.Decoded? && raw.cursor.epoch != epoch {
        return Err(CursorStale);
      }
      var key := CacheKey(epoch, LimitOf(limit), SortOf(sort));
      if raw.Absent? && usable && key in cache {
        return if h[at.served].epoch != epoch then Err(CursorStale) else Ok(cache[key]);
      }
      r := Load(h, at, From(raw), LimitOf(limit), scope, SortOf(sort));
      if r.Ok? && raw.Absent? && usable {
        if kept {
          Remember(h, at.epoch, key, r.page);
        }
        if h[at.served].epoch != epoch {
          return Err(CursorStale);
        }
      }
    }

    method Remember(h: seq<Snapshot>, i: nat, key: CacheKey, page: Page)
      requires History(h) && i < |h| && h[i].epoch == key.epoch && CacheSound(cache, h, scope)
      requires IsPage(page, h[i], None, key.limit, scope, key.sort)
      modifies this`cache
      ensures cache == old(cache)[key := page] && CacheSound(cache, h, scope)
    {
      cache := cache[key := page];
      forall j | 0 <= j < |h| && h[j].epoch == key.epoch
        ensures IsPage(page, h[j], None, key.limit, scope, key.sort)
      {
        SamePage(page, h, i, j, None, key.limit, scope, key.sort);
      }
    }

    /** A stale first page is read again inside one database snapshot, so it never fails stale. */
    method ChildrenPage(h: seq<Snapshot>, at: Reads, raw: RawCursor, limit: int, sort: string, usable: bool,
            kept: bool, again: nat)
      returns (r: Result, i: nat)
      requires History(h) && InTime(at, h) && at.served <= again < |h| && CacheSound(cache, h, scope)
      modifies this`cache
      ensures CacheSound(cache, h, scope)
      ensures i < |h|
                && (r.Ok? ==>
                     1 <= LimitOf(limit) <= 100 && ValidSort(sort)
                       && Served(h, i, raw, LimitOf(limit), scope, SortOf(sort), r.page))
      ensures raw.Absent? ==> r != Err(CursorStale)
    {
      r := ChildrenPageOnce(h, at, raw, limit, sort, usable, kept);
      i := at.epoch;
      if raw.Absent? && r == Err(CursorStale) {
        i := again;
        r := ChildrenPageOnce(h, Reads(again, again, again, again, again, again), raw, limit, sort, false, false);
      }
    }
  }

  /** The page answers the request from the committed state `h[i]`, whose epoch the cursor carries. */
  predicate Served(h: seq<Snapshot>, i: nat, raw: RawCursor, limit: nat, scope: nat, sort: string, p: Page) {
    && i < |h| && limit > 0 && !Rejects(raw, scope, sort)
    && (raw.Decoded? ==> raw.cursor.epoch == h[i].epoch)
    && IsPage(p, h[i], From(raw), limit, scope, sort)
  }

  // ---- a client's walk ----

  datatype Step = Step(at: nat, limit: nat, page: Page)

  /** What the client asks next: the first page, or the cursor its last page carried. */
  function Ask(walk: seq<Step>): RawCursor {
    if walk == [] then Absent
    else
      var next := walk[|walk| - 1].page.next;
      if next.Some? then Decoded(next.value) else Garbage
  }

  /** Each page was served for the cursor of the one before; page sizes may differ. */
  predicate Walk(h: seq<Snapshot>, walk: seq<Step>, scope: nat, sort: string) {
    walk == [] ||
    var before, last := walk[..|walk| - 1], walk[|walk| - 1];
    Walk(h, before, scope, sort) && Served(h, last.at, Ask(before), last.limit, scope, sort, last.page)
  }

  function Collected(walk: seq<Step>): seq<Item> {
    if walk == [] then [] else Collected(walk[..|walk| - 1]) + PageItems(walk[|walk| - 1].page)
  }

  function All(s: Snapshot, sort: string): seq<Item> {
    Items(s.folders, s.files, sort == "name_desc")
  }

  /** `got` is a prefix of the listing, and the page's cursor sits at its end unless it is all. */
  predicate Reached(all: seq<Item>, got: seq<Item>, p: Page, scope: nat, epoch: Epoch, sort: string) {
    && |got| <= |all| && got == all[..|got|]
    && (p.more <==> |got| < |all|)
    && (p.more ==> |got| > 0 && p.next == Some(CursorAt(all[|got| - 1], scope, epoch, sort)))
    && (!p.more ==> p.next.None?)
  }

  function EndOf(items: seq<Item>, n: nat): Option<Place>
    requires n <= |items|
  {
    if n == 0 then None else Some(PlaceOf(items[n - 1]))
  }

  lemma RestIsTail(s: Snapshot, n: nat, sort: string)
    requires Ordered(s.folders, false) && Ordered(s.files, false) && n <= |All(s, sort)|
    ensures Rest(All(s, sort), sort == "name_desc", EndOf(All(s, sort), n)) == All(s, sort)[n..]
  {
    if n > 0 {
      ItemsInOrder(s.folders, s.files, sort == "name_desc");
      RestResumes(All(s, sort), sort == "name_desc", n);
    }
  }

  lemma TakesOn(all: seq<Item>, n: nat, limit: nat)
    requires n <= |all| && limit > 0
    ensures var got := all[..n] + Take(all[n..], limit);
            && |got| <= |all| && got == all[..|got|]
            && (|all[n..]| > limit <==> |got| < |all|)
            && (|all[n..]| > limit ==> |got| > 0 && all[n..][limit - 1] == all[|got| - 1])
  {
  }

  /** One page after the first n items extends that prefix. */
  lemma PageExtends(p: Page, s: Snapshot, n: nat, limit: nat, scope: nat, sort: string)
    requires Ordered(s.folders, false) && Ordered(s.files, false) && limit > 0
    requires n <= |All(s, sort)| && IsPage(p, s, EndOf(All(s, sort), n), limit, scope, sort)
    ensures Reached(All(s, sort), All(s, sort)[..n] + PageItems(p), p, scope, s.epoch, sort)
    ensures p.more ==> |PageItems(p)| == limit
  {
    RestIsTail(s, n, sort);
    TakesOn(All(s, sort), n, limit);
    hide Rest, Items, PageItems, InOrder, Ordered;
  }

  lemma FirstPage(s: Snapshot, p: Page, limit: nat, scope: nat, sort: string)
    requires Ordered(s.folders, false) && Ordered(s.files, false) && limit > 0
    requires IsPage(p, s, None, limit, scope, sort)
    ensures Reached(All(s, sort), [] + PageItems(p), p, scope, s.epoch, sort)
    ensures p.more ==> |PageItems(p)| == limit
  {
    PageExtends(p, s, 0, limit, scope, sort);
    assert All(s, sort)[..0] == [];
  }

  /** A page served for the cursor of a page that reached n items goes on from there. */
  lemma NextPage(h: seq<Snapshot>, start: nat, got: seq<Item>, prev: Page, step: Step, scope: nat, sort: string)
    requires History(h) && start < |h| && prev.next.Some?
    requires Reached(All(h[start], sort), got, prev, scope, h[start].epoch, sort)
    requires Served(h, step.at, Decoded(prev.next.value), step.limit, scope, sort, step.page)
    ensures Reached(All(h[start], sort), got + PageItems(step.page), step.page, scope, h[start].epoch, sort)
    ensures h[step.at].epoch == h[start].epoch
    ensures step.page.more ==> |PageItems(step.page)| == step.limit
  {
    hide IsPage, PageItems, All;
    SamePage(step.page, h, step.at, start, Some(prev.next.value.place), step.limit, scope, sort);
    PageExtends(step.page, h[start], |got|, step.limit, scope, sort);
  }

  /** The pages so far are a prefix of one snapshot's listing and the cursor sits at its end. */
  lemma {:induction false} WalkPrefix(h: seq<Snapshot>, walk: seq<Step>, scope: nat, sort: string)
    requires History(h) && Walk(h, walk, scope, sort) && walk != []
    ensures walk[0].at < |h|
    ensures Reached(All(h[walk[0].at], sort), Collected(walk), walk[|walk| - 1].page, scope, h[walk[0].at].epoch, sort)
    ensures walk[|walk| - 1].at < |h| && h[walk[|walk| - 1].at].epoch == h[walk[0].at].epoch
    ensures walk[|walk| - 1].page.more ==> |PageItems(walk[|walk| - 1].page)| == walk[|walk| - 1].limit
  {
    var before, last := walk[..|walk| - 1], walk[|walk| - 1];
    if before == [] {
      FirstPage(h[last.at], last.page, last.limit, scope, sort);
    } else {
      WalkPrefix(h, before, scope, sort);
      hide IsPage, PageItems, All, Reached, History;
      NextPage(h, walk[0].at, Collected(before), before[|before| - 1].page, last, scope, sort);
    }
  }

  /** A walk that ends without a stale cursor returns the whole listing of one committed state. */
  lemma WalkIsSnapshot(h: seq<Snapshot>, walk: seq<Step>, scope: nat, sort: string)
    requires History(h) && Walk(h, walk, scope, sort) && walk != [] && !walk[|walk| - 1].page.more
    ensures walk[0].at < |h| && Collected(walk) == All(h[walk[0].at], sort)
  {
    WalkPrefix(h, walk, scope, sort);
  }

  /** What a complete walk looks like to its reader, in plain numbers: directories before files, and
      within each kind by name and then by id, both upwards for "name_asc" and the empty sort, both
      downwards for "name_desc". */
  lemma WalkIsInOrder(h: seq<Snapshot>, walk: seq<Step>, scope: nat, sort: string, i: nat, j: nat)
    requires History(h) && Walk(h, walk, scope, sort) && walk != [] && !walk[|walk| - 1].page.more
    requires i < j < |Collected(walk)|
    ensures Precedes(Collected(walk)[i], Collected(walk)[j], sort == "name_desc")
  {
    hide Walk, Collected, History, Items, Precedes;
    WalkIsSnapshot(h, walk, scope, sort);
    OrderedState(h, walk[0].at);
    ItemsPrecede(h[walk[0].at].folders, h[walk[0].at].files, sort == "name_desc", i, j);
  }

  lemma OrderedState(h: seq<Snapshot>, i: nat)
    requires History(h) && i < |h|
    ensures Ordered(h[i].folders, false) && Ordered(h[i].files, false)
  {
  }

  /** And it holds exactly the folder's rows of that one committed state, each once. */
  lemma WalkIsComplete(h: seq<Snapshot>, walk: seq<Step>, scope: nat, sort: string, r: Row)
    requires History(h) && Walk(h, walk, scope, sort) && walk != [] && !walk[|walk| - 1].page.more
    ensures walk[0].at < |h|
    ensures Item(Folder, r) in Collected(walk) <==> r in h[walk[0].at].folders
    ensures Item(File, r) in Collected(walk) <==> r in h[walk[0].at].files
    ensures |Collected(walk)| == |h[walk[0].at].folders| + |h[walk[0].at].files|
  {
    WalkIsSnapshot(h, walk, scope, sort);
    var s, desc := h[walk[0].at], sort == "name_desc";
    Keeps(Folder, s.folders, desc, r);
    Keeps(File, s.files, desc, r);
  }

  lemma Keeps(kind: Kind, rows: seq<Row>, desc: bool, r: Row)
    ensures var tagged := Tag(kind, Sorted(rows, desc));
            && |tagged| == |rows| && (forall x :: x in tagged ==> x.kind == kind)
            && (Item(kind, r) in tagged <==> r in rows)
  {
    var tagged := Tag(kind, Sorted(rows, desc));
    if r in rows {
      var k :| 0 <= k < |rows| && rows[k] == r;
      assert tagged[if desc then |rows| - 1 - k else k] == Item(kind, r);
    }
  }

  /** What a client gets that says nothing: fifty rows a page, by name upwards. */
  lemma Defaults(p: Page, s: Snapshot, from: Option<Place>, limit: int, sort: string, scope: nat)
    requires LimitOf(limit) >= 0
    ensures IsPage(p, s, from, LimitOf(0), scope, SortOf("")) <==> IsPage(p, s, from, 50, scope, "name_asc")
    ensures limit != 0 && sort != "" ==> LimitOf(limit) == limit && SortOf(sort) == sort
  {
  }

  /** In such a walk every page comes from that state's epoch, and all but the last are full. */
  lemma {:induction false} WalkStaysAtEpoch(h: seq<Snapshot>, walk: seq<Step>, scope: nat, sort: string, k: nat)
    requires History(h) && Walk(h, walk, scope, sort) && k < |walk|
    ensures walk[0].at < |h| && walk[k].at < |h| && h[walk[k].at].epoch == h[walk[0].at].epoch
    ensures k < |walk| - 1 ==> walk[k].page.more && |PageItems(walk[k].page)| == walk[k].limit
    decreases |walk|
  {
    hide IsPage, PageItems, History, All;
    var last := |walk| - 1;
    if k < last {
      WalkStaysAtEpoch(h, walk[..last], scope, sort, k);
      if k == last - 1 {
        WalkPrefix(h, walk[..last], scope, sort);
      }
    } else {
      WalkPrefix(h, walk, scope, sort);
    }
  }
}
