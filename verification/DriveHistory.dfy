/** The drive's writers keep the promise the page cursors rely on. */
module DriveHistory {
  import opened Common
  import opened FolderTree
  import opened DriveTree
  import opened Listing
  import opened Pagination

  /** The owner's committed tables. */
  datatype Tables = Tables(folders: Tree, files: Files, contentEpoch: int)

  /** The collation rank of a normalised name. */
  type Rank = string -> int

  /** Consecutive committed tables: nothing changed, or the content epoch moved by one. */
  predicate Follows(before: Tables, after: Tables) {
    after == before || after.contentEpoch == before.contentEpoch + 1
  }

  predicate FolderRow(t: Tree, f: Id, rank: Rank, r: Row) {
    && r.id >= 0 && r.id in t && t[r.id].live && t[r.id].parent == Some(f)
    && r.name == rank(t[r.id].name) && r.view as int == t[r.id].version
  }

  /** File rows are joined with their contents, of which only the ready ones match. */
  predicate FileRow(files: Files, ready: set<nat>, f: Id, rank: Rank, r: Row) {
    && r.id >= 0 && r.id in files && files[r.id].live && files[r.id].folder == f && files[r.id].content in ready
    && r.name == rank(files[r.id].name) && r.view as int == files[r.id].version
  }

  /** A live entry's content is ready: Accounting.dfy, Ledger.LiveIsReady. */
  predicate AllReady(files: Files, ready: set<nat>) {
    forall id :: id in files && files[id].live ==> files[id].content in ready
  }

  /** A snapshot lists exactly the live children of the folder, in index order. */
  ghost predicate Lists(s: Snapshot, t: Tables, ready: set<nat>, f: Id, rank: Rank) {
    && Ordered(s.folders, false) && Ordered(s.files, false)
    && (forall r :: r in s.folders <==> FolderRow(t.folders, f, rank, r))
    && (forall r :: r in s.files <==> FileRow(t.files, ready, f, rank, r))
    && s.epoch.content == t.contentEpoch && s.exists_ == Live(t.folders, f)
  }

  /** A folder shows each of its live subfolders and of its live files whose content is ready, by its
      current name and version, and nothing else. */
  lemma ShowsExactly(s: Snapshot, t: Tables, ready: set<nat>, f: Id, rank: Rank, id: Id)
    requires Lists(s, t, ready, f, rank)
    ensures (exists r :: r in s.folders && r.id == id) <==>
              id in t.folders && t.folders[id].live && t.folders[id].parent == Some(f) && t.folders[id].version >= 0
    ensures (exists r :: r in s.files && r.id == id) <==>
              && id in t.files && t.files[id].live && t.files[id].folder == f && t.files[id].content in ready
              && t.files[id].version >= 0
    ensures forall r :: r in s.folders && r.id == id ==>
              id in t.folders && r.name == rank(t.folders[id].name) && r.view as int == t.folders[id].version
    ensures forall r :: r in s.files && r.id == id ==>
              id in t.files && r.name == rank(t.files[id].name) && r.view as int == t.files[id].version
  {
    if id in t.folders && t.folders[id].live && t.folders[id].parent == Some(f) && t.folders[id].version >= 0 {
      var r := Row(rank(t.folders[id].name), id, t.folders[id].version);
      assert FolderRow(t.folders, f, rank, r);
      assert r in s.folders && r.id == id;
    }
    if id in t.files && t.files[id].live && t.files[id].folder == f && t.files[id].content in ready
       && t.files[id].version >= 0 {
      var r := Row(rank(t.files[id].name), id, t.files[id].version);
      assert FileRow(t.files, ready, f, rank, r);
      assert r in s.files && r.id == id;
    }
  }

  /** A set of rows has one sorted enumeration. */
  lemma {:induction false} SortedOnce(a: seq<Row>, b: seq<Row>)
    requires Ordered(a, false) && Ordered(b, false) && forall r :: r in a <==> r in b
    ensures a == b
    decreases |a|
  {
    assert (a != [] ==> a[0] in a) && (b != [] ==> b[0] in b);
    if a != [] {
      FirstIsLeast(a, b);
      forall r
        ensures r in a[1..] <==> r in b[1..]
      {
        TailWithoutFirst(a, r);
        TailWithoutFirst(b, r);
      }
      SortedOnce(a[1..], b[1..]);
      assert a == [a[0]] + a[1..] && b == [b[0]] + b[1..];
    }
  }

  /** And it has one: rows with distinct ids can be listed. */
  lemma {:induction false} SortedExists(rows: set<Row>) returns (s: seq<Row>)
    requires forall r, q :: r in rows && q in rows && r.id == q.id ==> r == q
    ensures Ordered(s, false) && |s| == |rows| && forall r :: r in s <==> r in rows
    decreases |rows|
  {
    s := [];
    if rows != {} {
      var last := Last(rows);
      var init := SortedExists(rows - {last});
      forall i | 0 <= i < |init|
        ensures Beyond(false, last, init[i].name, init[i].id)
      {
        assert init[i] in init;
      }
      s := init + [last];
    }
  }

  lemma {:induction false} Last(rows: set<Row>) returns (m: Row)
    requires rows != {} && forall r, q :: r in rows && q in rows && r.id == q.id ==> r == q
    ensures m in rows && forall r :: r in rows && r != m ==> Beyond(false, m, r.name, r.id)
    decreases |rows|
  {
    m :| m in rows;
    var others := rows - {m};
    assert forall r :: r in rows ==> r == m || r in others;
    if others != {} {
      var rest := Last(others);
      m := if Beyond(false, rest, m.name, m.id) then rest else m;
    }
  }

  /** Every committed state shows something in every folder. */
  lemma EveryFolderShows(t: Tables, ready: set<nat>, f: Id, rank: Rank, acl: int) returns (s: Snapshot)
    ensures Lists(s, t, ready, f, rank) && s.epoch.acl == acl
  {
    var folderRows := set id, v: nat | id in t.folders && v in {AsNat(t.folders[id].version)}
                                       && FolderRow(t.folders, f, rank, Row(rank(t.folders[id].name), id, v))
                                     :: Row(rank(t.folders[id].name), id, v);
    var fileRows := set id, v: nat | id in t.files && v in {AsNat(t.files[id].version)}
                                     && FileRow(t.files, ready, f, rank, Row(rank(t.files[id].name), id, v))
                                   :: Row(rank(t.files[id].name), id, v);
    forall r: Row | FolderRow(t.folders, f, rank, r)
      ensures r in folderRows
    {
      assert r == Row(rank(t.folders[r.id].name), r.id, AsNat(t.folders[r.id].version));
    }
    forall r: Row | FileRow(t.files, ready, f, rank, r)
      ensures r in fileRows
    {
      assert r == Row(rank(t.files[r.id].name), r.id, AsNat(t.files[r.id].version));
    }
    var folders := SortedExists(folderRows);
    var files := SortedExists(fileRows);
    s := Snapshot(Live(t.folders, f), folders, files, Epoch(t.contentEpoch, acl));
  }

  function AsNat(i: int): nat {
    if i < 0 then 0 else i
  }

  lemma FirstIsLeast(a: seq<Row>, b: seq<Row>)
    requires a != [] && b != [] && Ordered(a, false) && Ordered(b, false) && forall r :: r in a <==> r in b
    ensures a[0] == b[0]
  {
    assert a[0] in b && b[0] in a;
    var i :| 0 <= i < |b| && b[i] == a[0];
    var j :| 0 <= j < |a| && a[j] == b[0];
  }

  lemma TailWithoutFirst(a: seq<Row>, r: Row)
    requires a != [] && Ordered(a, false)
    ensures r in a[1..] <==> r in a && r != a[0]
  {
    if r in a[1..] {
      var i :| 0 <= i < |a[1..]| && a[1..][i] == r;
      assert a[i + 1] == r;
    }
    if r in a && r != a[0] {
      var i :| 0 <= i < |a| && a[i] == r;
      assert a[1..][i - 1] == r;
    }
  }

  /** Content that becomes ready or is collected elsewhere does not show: live entries keep theirs. */
  lemma SameTablesSameListing(s: Snapshot, u: Snapshot, t: Tables, a: set<nat>, b: set<nat>, f: Id, rank: Rank)
    requires AllReady(t.files, a) && AllReady(t.files, b)
    requires Lists(s, t, a, f, rank) && Lists(u, t, b, f, rank)
    ensures SameListing(s, u)
  {
    SortedOnce(s.folders, u.folders);
    forall r
      ensures r in s.files <==> r in u.files
    {
      assert FileRow(t.files, a, f, rank, r) <==> FileRow(t.files, b, f, rank, r);
    }
    SortedOnce(s.files, u.files);
  }

  /** What one folder shows at each of the committed states, with the object table beside it. */
  ghost predicate Shows(h: seq<Snapshot>, tables: seq<Tables>, ready: seq<set<nat>>, f: Id, rank: Rank) {
    && |h| == |tables| == |ready|
    && (forall i :: 0 <= i < |h| ==> AllReady(tables[i].files, ready[i]) && Lists(h[i], tables[i], ready[i], f, rank))
    && (forall i :: 0 < i < |h| ==> h[i - 1].epoch.acl <= h[i].epoch.acl)
  }

  predicate Consecutive(tables: seq<Tables>) {
    forall i :: 0 < i < |tables| ==> Follows(tables[i - 1], tables[i])
  }

  lemma ConsecutiveIsHistory(h: seq<Snapshot>, tables: seq<Tables>, ready: seq<set<nat>>, f: Id, rank: Rank)
    requires Shows(h, tables, ready, f, rank) && Consecutive(tables)
    ensures History(h)
  {
    forall i | 0 < i < |h|
      ensures Commits(h[i - 1], h[i])
    {
      assert Follows(tables[i - 1], tables[i]);
      if tables[i] == tables[i - 1] {
        SameTablesSameListing(h[i - 1], h[i], tables[i], ready[i - 1], ready[i], f, rank);
      }
    }
  }

  /** A call on the drive; creations carry the identifier their row is given. */
  datatype Call =
    | Create(id: Id, parent: Id, name: string)
    | Rename(id: Id, version: int, name: string)
    | Move(id: Id, target: Id, version: int)
    | Delete(id: Id, version: int)
    | CreateFile(id: Id, folder: Id, content: nat, name: string)
    | RenameFile(id: Id, version: int, name: string)
    | MoveFile(id: Id, target: Id, version: int)
    | DeleteFile(id: Id, version: int)

  function TablesOf(d: Drive): Tables
    reads d
  {
    Tables(d.folders, d.files, d.contentEpoch)
  }

  /** One call; a creation under an identifier in use cannot happen and does nothing. */
  method Do(d: Drive, c: Call) returns (e: Option<DriveTree.Error>)
    requires d.Valid()
    modifies d
    ensures d.Valid() && Follows(old(TablesOf(d)), TablesOf(d)) && (e.Some? ==> TablesOf(d) == old(TablesOf(d)))
  {
    e := None;
    match c
    case Create(id, parent, name) => if id !in d.folders { e := d.Create(id, parent, name); }
    case Rename(id, version, name) => e := d.Rename(id, version, name);
    case Move(id, target, version) => e := d.Move(id, target, version);
    case Delete(id, version) => e := d.Delete(id, version);
    case CreateFile(id, folder, content, name) => if id !in d.files { e := d.CreateFile(id, folder, content, name); }
    case RenameFile(id, version, name) => e := d.RenameFile(id, version, name);
    case MoveFile(id, target, version) => e := d.MoveFile(id, target, version);
    case DeleteFile(id, version) => e := d.DeleteFile(id, version);
  }

  /** Any drive calls, refused or committed: whatever any folder shows meanwhile is a history in the
      cursors' sense, as long as access epochs do not run backwards. */
  method DriveCallsMakeHistory(d: Drive, calls: seq<Call>) returns (tables: seq<Tables>)
    requires d.Valid()
    modifies d
    ensures d.Valid() && |tables| == |calls| + 1
    ensures tables[0] == old(TablesOf(d)) && tables[|calls|] == TablesOf(d) && Consecutive(tables)
    ensures forall h, ready, f, rank :: Shows(h, tables, ready, f, rank) ==> History(h)
  {
    tables := [TablesOf(d)];
    for k := 0 to |calls|
      invariant d.Valid() && |tables| == k + 1
      invariant tables[0] == old(TablesOf(d)) && tables[k] == TablesOf(d) && Consecutive(tables)
    {
      var e := Do(d, calls[k]);
      tables := tables + [TablesOf(d)];
    }
    forall h, ready, f, rank | Shows(h, tables, ready, f, rank)
      ensures History(h)
    {
      ConsecutiveIsHistory(h, tables, ready, f, rank);
    }
  }
}
