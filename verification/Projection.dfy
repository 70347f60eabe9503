/** What every search backend must agree on: which of two writes for one id may replace the other. */
module ProjectionFence {
  import opened Common

  /** A full projection document; `body` is everything that is not a watermark. */
  datatype Doc<B> = Doc(version: int, epoch: int, acl: int, tombstone: bool, body: B)

  /** The conflict predicate of PostgresIndex.upsertFile. */
  predicate Accepts<B>(row: Doc<B>, d: Doc<B>) {
    && row.version <= d.version && row.epoch <= d.epoch && row.acl <= d.acl
    && (!row.tombstone || d.tombstone || row.version < d.version)
  }

  function Upsert<B>(row: Option<Doc<B>>, d: Doc<B>): Option<Doc<B>> {
    if row.None? || Accepts(row.value, d) then Some(d) else row
  }

  function Project<B>(row: Option<Doc<B>>, ds: seq<Doc<B>>): Option<Doc<B>> {
    if ds == [] then row else Upsert(Project(row, ds[..|ds| - 1]), ds[|ds| - 1])
  }

  /** `x` is at least as far as `d` on every watermark, a tombstone winning a version tie. */
  predicate Leads<B>(x: Doc<B>, d: Doc<B>) {
    && d.version <= x.version && d.epoch <= x.epoch && d.acl <= x.acl
    && (d.version == x.version && d.tombstone ==> x.tombstone)
  }

  lemma {:induction false} OnlyAdvances<B>(row: Doc<B>, ds: seq<Doc<B>>)
    ensures Project(Some(row), ds).Some? && Leads(Project(Some(row), ds).value, row)
  {
    if ds != [] {
      OnlyAdvances(row, ds[..|ds| - 1]);
    }
  }

  lemma {:induction false} ProjectAppends<B>(row: Option<Doc<B>>, a: seq<Doc<B>>, b: seq<Doc<B>>)
    ensures Project(row, a + b) == Project(Project(row, a), b)
  {
    if b == [] {
      assert a + b == a;
    } else {
      assert (a + b)[..|a + b| - 1] == a + b[..|b| - 1];
      ProjectAppends(row, a, b[..|b| - 1]);
    }
  }

  lemma {:induction false} ProjectIsMember<B>(ds: seq<Doc<B>>)
    requires ds != []
    ensures Project(None, ds).Some? && Project(None, ds).value in ds
  {
    if |ds| > 1 {
      ProjectIsMember(ds[..|ds| - 1]);
    }
  }

  /** `ds` delivers exactly the documents of `all`, in some order, each at least once. */
  predicate Delivers<B(==)>(ds: seq<Doc<B>>, all: set<Doc<B>>) {
    (forall d :: d in ds ==> d in all) && (forall d :: d in all ==> d in ds)
  }

  /** `x` is ahead of every document on every watermark, a tombstone winning a version tie, and no
      other document carries the same marks. */
  predicate Settles<B(==)>(all: set<Doc<B>>, x: Doc<B>) {
    && x in all
    && (forall d :: d in all ==> Leads(x, d))
    && (forall d ::
         d in all && d.version == x.version && d.epoch == x.epoch && d.acl == x.acl && d.tombstone == x.tombstone ==>
           d == x)
  }

  lemma {:induction false} StaysSettled<B>(all: set<Doc<B>>, x: Doc<B>, ds: seq<Doc<B>>)
    requires Settles(all, x) && forall d :: d in ds ==> d in all
    ensures Project(Some(x), ds) == Some(x)
  {
    if ds != [] {
      StaysSettled(all, x, ds[..|ds| - 1]);
      assert Leads(x, ds[|ds| - 1]);
    }
  }

  /** A document that leads all earlier ones is stored when it arrives. */
  lemma LeaderArrives<B>(before: seq<Doc<B>>, x: Doc<B>)
    requires forall d :: d in before ==> Leads(x, d)
    ensures Project(None, before + [x]) == Some(x)
  {
    assert (before + [x])[..|before|] == before;
    if before != [] {
      ProjectIsMember(before);
    }
  }

  /** Whatever follows a leader in a delivery can only end in something that leads it. */
  lemma SplitAtLeader<B>(all: set<Doc<B>>, x: Doc<B>, ds: seq<Doc<B>>) returns (after: seq<Doc<B>>)
    requires x in all && (forall d :: d in all ==> Leads(x, d)) && Delivers(ds, all)
    ensures Project(None, ds) == Project(Some(x), after)
    ensures forall d :: d in after ==> d in all
  {
    var i :| 0 <= i < |ds| && ds[i] == x;
    after := ds[i + 1..];
    assert ds == (ds[..i] + [x]) + after;
    LeaderArrives(ds[..i], x);
    ProjectAppends(None, ds[..i] + [x], after);
  }

  lemma SettledConverges<B>(all: set<Doc<B>>, x: Doc<B>, ds: seq<Doc<B>>)
    requires Settles(all, x) && Delivers(ds, all)
    ensures Project(None, ds) == Some(x)
  {
    var after := SplitAtLeader(all, x, ds);
    StaysSettled(all, x, after);
  }

  ghost function Enumerate<B>(all: set<Doc<B>>): (ds: seq<Doc<B>>)
    ensures Delivers(ds, all)
    decreases |all|
  {
    if all == {} then [] else
      var d :| d in all;
      [d] + Enumerate(all - {d})
  }

  /** Delivered first, a document is never behind the outcome. */
  lemma FirstIsBehind<B>(all: set<Doc<B>>, d: Doc<B>)
    requires d in all
    ensures var ds := [d] + Enumerate(all);
            Delivers(ds, all) && Project(None, ds).Some? && Leads(Project(None, ds).value, d)
  {
    var rest := Enumerate(all);
    ProjectAppends(None, [d], rest);
    assert Project(None, [d]) == Some(d) by {
      assert [d][..0] == [];
    }
    OnlyAdvances(d, rest);
  }

  lemma LastMayReplace<B>(all: set<Doc<B>>, x: Doc<B>, d: Doc<B>)
    requires d in all && Project(None, Enumerate(all)) == Some(x) && Accepts(x, d)
    ensures var ds := Enumerate(all) + [d];
            Delivers(ds, all) && Project(None, ds) == Some(d)
  {
    var ds := Enumerate(all);
    assert (ds + [d])[..|ds|] == ds;
  }

  /** Exactly the sets that hold such a document converge: every order, with any repetition, ends
      in it. */
  lemma ConvergesExactly<B(!new)>(all: set<Doc<B>>, x: Doc<B>)
    ensures x in all ==> ((forall ds :: Delivers(ds, all) ==> Project(None, ds) == Some(x)) <==> Settles(all, x))
  {
    if x in all {
      if Settles(all, x) {
        forall ds | Delivers(ds, all)
          ensures Project(None, ds) == Some(x)
        {
          SettledConverges(all, x, ds);
        }
      } else if forall ds :: Delivers(ds, all) ==> Project(None, ds) == Some(x) {
        forall d | d in all
          ensures Leads(x, d)
          ensures Accepts(x, d) ==> d == x
        {
          FirstIsBehind(all, d);
          if Accepts(x, d) {
            LastMayReplace(all, x, d);
          }
        }
      }
    }
  }

  // ---- content chunks ----

  /** The conflict predicate of PostgresIndex.upsertContent. */
  predicate AcceptsContent<B>(row: Doc<B>, d: Doc<B>) {
    row.epoch <= d.epoch && (!row.tombstone || d.tombstone || row.epoch < d.epoch)
  }

  /** A content chunk has one watermark, its index epoch. */
  predicate IsContent<B>(d: Doc<B>) {
    d.version == d.epoch && d.acl == 1
  }

  lemma ContentIsOneWatermark<B>(row: Doc<B>, d: Doc<B>)
    requires IsContent(row) && IsContent(d)
    ensures AcceptsContent(row, d) <==> Accepts(row, d)
  {
  }

  lemma {:induction false} LeadingChunk<B>(all: set<Doc<B>>) returns (x: Doc<B>)
    requires all != {} && forall d :: d in all ==> IsContent(d)
    ensures x in all && forall d :: d in all ==> Leads(x, d)
    decreases |all|
  {
    var first :| first in all;
    var rest := all - {first};
    x := first;
    if rest != {} {
      var y := LeadingChunk(rest);
      x := if Leads(y, first) then y else first;
      forall d | d in all
        ensures Leads(x, d)
      {
        if d in rest {
          assert Leads(y, d);
        }
      }
    }
  }

  /** Deliveries of one chunk always end at the same epoch and liveness, in one of the documents. */
  lemma ContentConverges<B>(all: set<Doc<B>>, a: seq<Doc<B>>, b: seq<Doc<B>>)
    requires all != {} && (forall d :: d in all ==> IsContent(d)) && Delivers(a, all) && Delivers(b, all)
    ensures Project(None, a).Some? && Project(None, b).Some?
    ensures var x, y := Project(None, a).value, Project(None, b).value;
            && x in all && y in all && x.epoch == y.epoch && x.tombstone == y.tombstone
            && (forall d :: d in all ==> Leads(x, d))
  {
    var lead := LeadingChunk(all);
    EndsLeading(all, lead, a);
    EndsLeading(all, lead, b);
  }

  lemma EndsLeading<B>(all: set<Doc<B>>, lead: Doc<B>, ds: seq<Doc<B>>)
    requires lead in all && (forall d :: d in all ==> IsContent(d) && Leads(lead, d)) && Delivers(ds, all)
    ensures Project(None, ds).Some?
    ensures var x := Project(None, ds).value;
            && x in all && x.epoch == lead.epoch && x.tombstone == lead.tombstone
            && (forall d :: d in all ==> Leads(x, d))
  {
    var after := SplitAtLeader(all, lead, ds);
    OnlyAdvances(lead, after);
    ProjectIsMember(ds);
    var x := Project(None, ds).value;
    assert Leads(x, lead) && Leads(lead, x);
    forall d | d in all
      ensures Leads(x, d)
    {
      assert Leads(lead, d);
    }
  }
}

/** search.PostgresIndex: rows changed under the conflict predicates. */
module PostgresProjection {
  import opened Common
  import opened ProjectionFence

  type Key = nat

  datatype Content = Content(subject: nat, text: nat, embedding: Option<nat>)

  class Index {
    var files: map<Key, Doc<nat>>
    var chunks: map<Key, Doc<Content>>

    constructor ()
      ensures files == map[] && chunks == map[]
    {
      files, chunks := map[], map[];
    }

    function FileRow(k: Key): Option<Doc<nat>>
      reads this`files
    {
      if k in files then Some(files[k]) else None
    }

    function ChunkRow(k: Key): Option<Doc<Content>>
      reads this`chunks
    {
      if k in chunks then Some(chunks[k]) else None
    }

    method UpsertFile(k: Key, value: Doc<nat>) returns (ok: bool)
      modifies this`files
      ensures ok <==> value.epoch > 0
      ensures !ok ==> files == old(files)
      ensures ok ==>
                && FileRow(k) == Upsert(old(FileRow(k)), value.(acl := if value.acl <= 0 then 1 else value.acl))
                && (var row := value.(acl := if value.acl <= 0 then 1 else value.acl);
                    k in files && files[k] ==
                      if k in old(files)
                         && (row.version < old(files)[k].version || row.epoch < old(files)[k].epoch
                             || row.acl < old(files)[k].acl
                             || (old(files)[k].tombstone && !row.tombstone && row.version <= old(files)[k].version))
                      then old(files)[k] else row)
                && files.Keys == old(files).Keys + {k}
                && forall j :: j in old(files) && j != k ==> files[j] == old(files)[j]
    {
      if value.epoch <= 0 {
        return false;
      }
      var row := value;
      if row.acl <= 0 {
        row := row.(acl := 1);
      }
      if k !in files {
        files := files[k := row];
      } else if files[k].version <= row.version && files[k].epoch <= row.epoch && files[k].acl <= row.acl
                && (!files[k].tombstone || row.tombstone || files[k].version < row.version) {
        files := files[k := row];
      }
      ok := true;
    }

    method UpsertContent(k: Key, value: Doc<Content>) returns (ok: bool)
      requires IsContent(value)
      requires k in chunks ==> IsContent(chunks[k])
      modifies this`chunks
      ensures ok <==> value.epoch > 0
      ensures !ok ==> chunks == old(chunks)
      ensures ok ==>
                && ChunkRow(k) == Upsert(old(ChunkRow(k)), value)
                && k in chunks
                && chunks[k] ==
                   (if k in old(chunks)
                       && (value.epoch < old(chunks)[k].epoch
                           || (old(chunks)[k].tombstone && !value.tombstone && value.epoch <= old(chunks)[k].epoch))
                    then old(chunks)[k] else value)
                && chunks.Keys == old(chunks).Keys + {k}
                && forall j :: j in old(chunks) && j != k ==> chunks[j] == old(chunks)[j]
    {
      if value.epoch <= 0 {
        return false;
      }
      if k !in chunks {
        chunks := chunks[k := value];
      } else {
        ContentIsOneWatermark(chunks[k], value);
        if AcceptsContent(chunks[k], value) {
          chunks := chunks[k := value];
        }
      }
      ok := true;
    }

    /** An UPDATE: no row, no tombstone. */
    method TombstoneFile(k: Key, version: int)
      modifies this`files
      ensures FileRow(k) == TombstonedRow(old(FileRow(k)), version)
      ensures k in files ==>
                files[k] == if old(files)[k].version <= version
                            then old(files)[k].(tombstone := true, version := version) else old(files)[k]
      ensures files.Keys == old(files).Keys
      ensures forall j :: j in files && j != k ==> files[j] == old(files)[j]
    {
      if k in files && files[k].version <= version {
        files := files[k := files[k].(tombstone := true, version := version)];
      }
    }

    /** An UPDATE over the object's chunk rows. */
    method TombstoneObjectContent(subject: nat, epoch: int)
      modifies this`chunks
      ensures chunks.Keys == old(chunks).Keys
      ensures forall k :: k in chunks ==> ChunkRow(k) == TombstonedChunk(old(ChunkRow(k)), subject, epoch)
      ensures forall k :: k in chunks ==>
                if old(chunks)[k].body.subject == subject && old(chunks)[k].epoch <= epoch
                then chunks[k].tombstone && chunks[k].epoch == epoch && chunks[k].body == old(chunks)[k].body
                else chunks[k] == old(chunks)[k]
    {
      chunks := map k | k in chunks :: if chunks[k].body.subject == subject && chunks[k].epoch <= epoch
                                       then Removed(chunks[k], epoch) else chunks[k];
    }
  }

  function TombstonedRow(row: Option<Doc<nat>>, version: int): Option<Doc<nat>> {
    if row.Some? && row.value.version <= version then Some(row.value.(tombstone := true, version := version)) else row
  }

  datatype Write = File(doc: Doc<nat>) | Deleted(version: int)

  function Apply(row: Option<Doc<nat>>, w: Write): Option<Doc<nat>> {
    match w
    case File(d) => Upsert(row, d)
    case Deleted(v) => TombstonedRow(row, v)
  }

  function ApplyAll(row: Option<Doc<nat>>, ws: seq<Write>): Option<Doc<nat>> {
    if ws == [] then row else Apply(ApplyAll(row, ws[..|ws| - 1]), ws[|ws| - 1])
  }

  predicate Visible(row: Option<Doc<nat>>) {
    row.Some? && !row.value.tombstone
  }

  /** Every live document among the writes is at or below the version. */
  predicate NoneNewer(ws: seq<Write>, version: int) {
    forall w :: w in ws && w.File? && !w.doc.tombstone ==> w.doc.version <= version
  }

  lemma {:induction false} DeletedStays(row: Option<Doc<nat>>, ws: seq<Write>, version: int)
    requires row.Some? && row.value.tombstone && row.value.version >= version && NoneNewer(ws, version)
    ensures ApplyAll(row, ws).Some? && ApplyAll(row, ws).value.tombstone && ApplyAll(row, ws).value.version >= version
  {
    if ws != [] {
      DeletedStays(row, ws[..|ws| - 1], version);
      assert ws[|ws| - 1] in ws;
    }
  }

  /** A file deletion holds against every later write of an older or equal version if and only if
      the row existed when it was applied; before the first upsert it is lost. */
  lemma DeletionHoldsExactly(row: Option<Doc<nat>>, version: int)
    requires row.Some? ==> row.value.version <= version
    ensures (forall ws :: NoneNewer(ws, version) ==> !Visible(ApplyAll(Apply(row, Deleted(version)), ws))) <==>
              row.Some?
  {
    var after := Apply(row, Deleted(version));
    if row.Some? {
      forall ws | NoneNewer(ws, version)
        ensures !Visible(ApplyAll(after, ws))
      {
        DeletedStays(after, ws, version);
      }
    } else {
      var late := [File(Doc(version, 1, 1, false, 0))];
      assert late[..0] == [];
      assert Visible(ApplyAll(after, late)) && NoneNewer(late, version);
    }
  }

  // ---- the same for content chunks ----

  /** A content row's one watermark stands in all three marks. */
  function Removed(d: Doc<Content>, epoch: int): Doc<Content> {
    d.(tombstone := true, version := epoch, epoch := epoch)
  }

  function TombstonedChunk(row: Option<Doc<Content>>, subject: nat, epoch: int): Option<Doc<Content>> {
    if row.Some? && row.value.body.subject == subject && row.value.epoch <= epoch
    then Some(Removed(row.value, epoch)) else row
  }

  datatype ChunkWrite = Chunk(doc: Doc<Content>) | ObjectDeleted(subject: nat, epoch: int)

  function ApplyChunk(row: Option<Doc<Content>>, w: ChunkWrite): Option<Doc<Content>> {
    match w
    case Chunk(d) => Upsert(row, d)
    case ObjectDeleted(o, e) => TombstonedChunk(row, o, e)
  }

  function ApplyChunks(row: Option<Doc<Content>>, ws: seq<ChunkWrite>): Option<Doc<Content>> {
    if ws == [] then row else ApplyChunk(ApplyChunks(row, ws[..|ws| - 1]), ws[|ws| - 1])
  }

  /** Upserts the index accepts, the live ones at or below the epoch. */
  predicate NoneLater(ws: seq<ChunkWrite>, epoch: int) {
    forall w :: w in ws && w.Chunk? ==>
      IsContent(w.doc) && w.doc.epoch > 0 && (!w.doc.tombstone ==> w.doc.epoch <= epoch)
  }

  lemma {:induction false} RemovedStays(row: Option<Doc<Content>>, ws: seq<ChunkWrite>, epoch: int)
    requires row.Some? && IsContent(row.value) && row.value.tombstone && row.value.epoch >= epoch
    requires NoneLater(ws, epoch)
    ensures var now := ApplyChunks(row, ws);
            now.Some? && IsContent(now.value) && now.value.tombstone && now.value.epoch >= epoch
  {
    if ws != [] {
      RemovedStays(row, ws[..|ws| - 1], epoch);
      assert ws[|ws| - 1] in ws;
    }
  }

  predicate Shown(row: Option<Doc<Content>>) {
    row.Some? && !row.value.tombstone
  }

  /** The deletion of an object's content holds for a chunk against every later write of an older
      or equal epoch if and only if the chunk's row existed (or no accepted epoch is that old). */
  lemma ContentDeletionHoldsExactly(row: Option<Doc<Content>>, subject: nat, epoch: int)
    requires row.Some? ==> IsContent(row.value) && row.value.body.subject == subject && row.value.epoch <= epoch
    ensures (forall ws :: NoneLater(ws, epoch) ==>
               !Shown(ApplyChunks(ApplyChunk(row, ObjectDeleted(subject, epoch)), ws)))
            <==> row.Some? || epoch <= 0
  {
    var after := ApplyChunk(row, ObjectDeleted(subject, epoch));
    if row.Some? {
      forall ws | NoneLater(ws, epoch)
        ensures !Shown(ApplyChunks(after, ws))
      {
        RemovedStays(after, ws, epoch);
      }
    } else if epoch > 0 {
      var d: Doc<Content> := LateChunk(subject, epoch);
      var late := [Chunk(d)];
      assert late[..0] == [];
      assert Shown(ApplyChunks(after, late)) && NoneLater(late, epoch);
    } else {
      forall ws | NoneLater(ws, epoch)
        ensures !Shown(ApplyChunks(after, ws))
      {
        NeverShown(ws, epoch);
      }
    }
  }

  function LateChunk(subject: nat, epoch: int): (d: Doc<Content>)
    ensures IsContent(d) && d.epoch == epoch && !d.tombstone && d.body.subject == subject
  {
    Doc(epoch, epoch, 1, false, Content(subject, 0, None))
  }

  lemma {:induction false} NeverShown(ws: seq<ChunkWrite>, epoch: int)
    requires NoneLater(ws, epoch) && epoch <= 0
    ensures var now := ApplyChunks(None, ws); now.Some? ==> IsContent(now.value) && now.value.tombstone
  {
    if ws != [] {
      NeverShown(ws[..|ws| - 1], epoch);
      assert ws[|ws| - 1] in ws;
    }
  }
}

/** search.ElasticsearchIndex: scripted updates over documents whose fields may be missing. */
module ElasticProjection {
  import opened Common
  import opened ProjectionFence

  datatype Field = FileVersion | IndexEpoch | AclVersion | Tombstone | Body | Embedding

  /** A document source; the tombstone is 1 for true. */
  type Source = map<Field, int>

  predicate Behind(src: Source, d: Source, f: Field) {
    f in d && f in src && src[f] > d[f]
  }

  predicate IsTombstone(src: Source) {
    Tombstone in src && src[Tombstone] == 1
  }

  /** The field a tombstone is compared on; a missing source value makes the comparison fail. */
  predicate TombstoneHolds(src: Source, d: Source) {
    var f := if FileVersion in d then FileVersion else IndexEpoch;
    IsTombstone(src) && !IsTombstone(d) && f in src && f in d && src[f] >= d[f]
  }

  /** esProjectionScript; putAll keeps the fields the new document does not mention. */
  function Script(src: Source, d: Source): Source {
    if Behind(src, d, FileVersion) || Behind(src, d, IndexEpoch) || Behind(src, d, AclVersion) then src
    else if TombstoneHolds(src, d) then src
    else src + d
  }

  function Flag(b: bool): int {
    if b then 1 else 0
  }

  /** esFileDocument. */
  function FileSource(d: Doc<int>): Source {
    map[FileVersion := d.version, IndexEpoch := d.epoch, AclVersion := d.acl, Tombstone := Flag(d.tombstone),
      Body := d.body]
  }

  function RowSource(row: Option<Doc<int>>): Source {
    if row.None? then map[] else FileSource(row.value)
  }

  /** On full file documents the script is the relational upsert. */
  lemma ScriptIsUpsert(row: Option<Doc<int>>, d: Doc<int>)
    ensures Script(RowSource(row), FileSource(d)) == RowSource(Upsert(row, d))
  {
    if row.Some? {
      assert FileSource(row.value) + FileSource(d) == FileSource(d);
    }
  }

  function ScriptAll(src: Source, ds: seq<Source>): Source {
    if ds == [] then src else Script(ScriptAll(src, ds[..|ds| - 1]), ds[|ds| - 1])
  }

  function FileSources(ds: seq<Doc<int>>): seq<Source> {
    seq(|ds|, i requires 0 <= i < |ds| => FileSource(ds[i]))
  }

  /** So both backends hold the same file document after any sequence of upserts. */
  lemma {:induction false} BackendsAgreeOnFiles(row: Option<Doc<int>>, ds: seq<Doc<int>>)
    ensures ScriptAll(RowSource(row), FileSources(ds)) == RowSource(Project(row, ds))
  {
    if ds != [] {
      var before := ds[..|ds| - 1];
      BackendsAgreeOnFiles(row, before);
      assert FileSources(ds)[..|ds| - 1] == FileSources(before);
      ScriptIsUpsert(Project(row, before), ds[|ds| - 1]);
    }
  }

  /** The partial document of ElasticsearchIndex.TombstoneFile. */
  function DeletionSource(version: int): Source {
    map[FileVersion := version, Tombstone := 1]
  }

  predicate Deleted(src: Source, version: int) {
    IsTombstone(src) && FileVersion in src && src[FileVersion] >= version
  }

  /** Unlike the relational row, a deletion that arrives first leaves a marker: whatever came
      before, only a live document of a strictly newer version shows the file again. */
  lemma {:induction false} DeletionAlwaysHolds(src: Source, version: int, ds: seq<Source>)
    requires FileVersion in src ==> src[FileVersion] <= version
    requires forall d :: d in ds ==> FileVersion in d && Tombstone in d && (IsTombstone(d) || d[FileVersion] <= version)
    ensures Deleted(ScriptAll(Script(src, DeletionSource(version)), ds), version)
  {
    if ds != [] {
      DeletionAlwaysHolds(src, version, ds[..|ds| - 1]);
      assert ds[|ds| - 1] in ds;
    }
  }

  // ---- content chunks carry an optional field ----

  datatype Chunk = Chunk(text: int, embedding: Option<int>)

  /** esContentDocument: the embedding is present only when there is a vector. */
  function ChunkSource(d: Doc<Chunk>): Source {
    var base := map[IndexEpoch := d.epoch, Tombstone := Flag(d.tombstone), Body := d.body.text];
    if d.body.embedding.Some? then base[Embedding := d.body.embedding.value] else base
  }

  function ChunkSources(ds: seq<Doc<Chunk>>): seq<Source> {
    seq(|ds|, i requires 0 <= i < |ds| => ChunkSource(ds[i]))
  }

  /** The source is the row's, or the row's plus an embedding the row does not have. */
  predicate Shows(src: Source, row: Option<Doc<Chunk>>) {
    if row.None? then src == map[]
    else
      var own := ChunkSource(row.value);
      src == own || (Embedding !in own && Embedding in src && src == own[Embedding := src[Embedding]])
  }

  lemma Merged(src: Source, row: Option<Doc<Chunk>>, d: Doc<Chunk>)
    requires Shows(src, row)
    ensures Shows(src + ChunkSource(d), Some(d))
    ensures Embedding in src + ChunkSource(d) <==> Embedding in src || d.body.embedding.Some?
  {
    var next := ChunkSource(d);
    assert src + next == if Embedding in src && Embedding !in next then next[Embedding := src[Embedding]] else next;
  }

  lemma ScriptDecides(src: Source, row: Option<Doc<Chunk>>, d: Doc<Chunk>)
    requires Shows(src, row) && IsContent(d) && (row.Some? ==> IsContent(row.value))
    ensures Script(src, ChunkSource(d)) == if row.None? || Accepts(row.value, d) then src + ChunkSource(d) else src
  {
  }

  lemma ScriptShows(src: Source, row: Option<Doc<Chunk>>, d: Doc<Chunk>)
    requires Shows(src, row) && IsContent(d) && (row.Some? ==> IsContent(row.value))
    ensures Shows(Script(src, ChunkSource(d)), Upsert(row, d))
    ensures Embedding in src ==> Embedding in Script(src, ChunkSource(d))
    ensures Embedding !in src && d.body.embedding.None? ==> Embedding !in Script(src, ChunkSource(d))
    ensures row.None? && d.body.embedding.Some? ==> Embedding in Script(src, ChunkSource(d))
  {
    hide Shows, Script, ChunkSource, Accepts, IsContent;
    ScriptDecides(src, row, d);
    Merged(src, row, d);
  }

  predicate Contents(ds: seq<Doc<Chunk>>) {
    forall d :: d in ds ==> IsContent(d)
  }

  lemma {:induction false} ScriptFollowsRow(ds: seq<Doc<Chunk>>)
    requires Contents(ds)
    ensures Shows(ScriptAll(map[], ChunkSources(ds)), Project(None, ds))
    ensures Project(None, ds).Some? ==> IsContent(Project(None, ds).value)
    ensures (forall d :: d in ds ==> d.body.embedding.None?) ==> Embedding !in ScriptAll(map[], ChunkSources(ds))
    ensures ds != [] && ds[0].body.embedding.Some? ==> Embedding in ScriptAll(map[], ChunkSources(ds))
  {
    if ds != [] {
      var before, d := ds[..|ds| - 1], ds[|ds| - 1];
      ScriptFollowsRow(before);
      assert ChunkSources(ds)[..|ds| - 1] == ChunkSources(before);
      assert d in ds;
      ScriptShows(ScriptAll(map[], ChunkSources(before)), Project(None, before), d);
    }
  }

  predicate EmbeddingsSettle(all: set<Doc<Chunk>>, x: Doc<Chunk>) {
    x.body.embedding.Some? || forall d :: d in all ==> d.body.embedding.None?
  }

  lemma EmbeddingConverges(all: set<Doc<Chunk>>, x: Doc<Chunk>, ds: seq<Doc<Chunk>>)
    requires (forall d :: d in all ==> IsContent(d)) && Settles(all, x) && EmbeddingsSettle(all, x) && Delivers(ds, all)
    ensures ScriptAll(map[], ChunkSources(ds)) == ChunkSource(x) && Project(None, ds) == Some(x)
  {
    SettledConverges(all, x, ds);
    ScriptFollowsRow(ds);
    hide ScriptAll, ChunkSources, Project, ChunkSource, Settles;
    SameWithoutEmbedding(ScriptAll(map[], ChunkSources(ds)), x);
  }

  lemma EmbeddingOutlives(all: set<Doc<Chunk>>, x: Doc<Chunk>) returns (ds: seq<Doc<Chunk>>)
    requires x in all && (forall d :: d in all ==> IsContent(d)) && !EmbeddingsSettle(all, x)
    ensures Delivers(ds, all) && ScriptAll(map[], ChunkSources(ds)) != ChunkSource(x)
  {
    hide Project, ScriptAll, ChunkSources;
    var d :| d in all && d.body.embedding.Some?;
    ds := [d] + Enumerate(all);
    assert Delivers(ds, all);
    ScriptFollowsRow(ds);
    assert Embedding !in ChunkSource(x);
  }

  /** The two backends' content documents are the same in every delivery order exactly when the
      winning document settles and either has an embedding or no document does: an embedding,
      once written, outlives a newer document without one. */
  lemma ContentAgreesExactly(all: set<Doc<Chunk>>, x: Doc<Chunk>)
    requires x in all && forall d :: d in all ==> IsContent(d)
    ensures (forall ds :: Delivers(ds, all) ==>
              ScriptAll(map[], ChunkSources(ds)) == ChunkSource(x) && Project(None, ds) == Some(x))
            <==> Settles(all, x) && EmbeddingsSettle(all, x)
  {
    hide ScriptAll, ChunkSources, ChunkSource, Project, Settles, EmbeddingsSettle, Delivers;
    ConvergesExactly(all, x);
    if !EmbeddingsSettle(all, x) {
      var ds := EmbeddingOutlives(all, x);
    } else if Settles(all, x) {
      forall ds | Delivers(ds, all)
        ensures ScriptAll(map[], ChunkSources(ds)) == ChunkSource(x) && Project(None, ds) == Some(x)
      {
        EmbeddingConverges(all, x, ds);
      }
    }
  }

  lemma SameWithoutEmbedding(src: Source, x: Doc<Chunk>)
    requires Shows(src, Some(x)) && (x.body.embedding.None? ==> Embedding !in src)
    ensures src == ChunkSource(x)
  {
  }

  // ---- hiding deleted candidates ----

  datatype Candidate = Candidate(chunk: nat, subject: nat, epoch: int)

  predicate Survives(c: Candidate, deleted: map<nat, int>) {
    c.subject in deleted ==> c.epoch > deleted[c.subject]
  }

  function Surviving(cs: seq<Candidate>, deleted: map<nat, int>): seq<Candidate> {
    if cs == [] then []
    else Surviving(cs[..|cs| - 1], deleted) + (if Survives(cs[|cs| - 1], deleted) then [cs[|cs| - 1]] else [])
  }

  /** Exactly the candidates stay that no deletion of their object covers, each in its place. */
  lemma {:induction false} SurvivingExactly(cs: seq<Candidate>, more: seq<Candidate>, c: Candidate,
          deleted: map<nat, int>)
    ensures Surviving([c], deleted) ==
            if c.subject in deleted && c.epoch <= deleted[c.subject] then [] else [c]
    ensures Surviving(cs + more, deleted) == Surviving(cs, deleted) + Surviving(more, deleted)
    decreases |more|
  {
    assert [c][..0] == [];
    if more == [] {
      assert cs + more == cs;
    } else {
      var init := more[..|more| - 1];
      SurvivingExactly(cs, init, c, deleted);
      assert (cs + more)[..|cs + more| - 1] == cs + init;
    }
  }

  /** The filter at the end of visibleCandidates writes its result over its input. */
  method KeepVisible(candidates: array<Candidate>, deleted: map<nat, int>) returns (n: nat)
    modifies candidates
    ensures n <= candidates.Length
    ensures candidates[..n] == Surviving(old(candidates[..]), deleted)
  {
    n := 0;
    ghost var was := candidates[..];
    for i := 0 to candidates.Length
      invariant n <= i
      invariant candidates[..n] == Surviving(was[..i], deleted)
      invariant forall k :: i <= k < candidates.Length ==> candidates[k] == was[k]
    {
      var c := candidates[i];
      assert was[..i + 1][..i] == was[..i];
      if c.subject !in deleted || c.epoch > deleted[c.subject] {
        candidates[n] := c;
        assert candidates[..n + 1] == candidates[..n] + [c];
        n := n + 1;
      }
    }
    assert was[..candidates.Length] == was;
  }
}

/** ElasticsearchIndex.TombstoneObjectContent beside the upserts: a marker document per object, and
    an update by query over the chunks the search happens to find. */
module ElasticDeletion {
  import opened Common
  import opened ProjectionFence
  import opened ElasticProjection

  datatype Store = Store(markers: map<nat, Source>, chunks: map<nat, Source>)

  /** Sweep is the update by query; it misses chunks not yet searchable and those in conflict. */
  datatype Event =
    | Put(chunk: nat, doc: Doc<Chunk>)
    | Mark(subject: nat, epoch: int)
    | Sweep(subject: nat, epoch: int, missed: set<nat>)

  function MarkerSource(epoch: int): Source {
    map[IndexEpoch := epoch, Tombstone := 1]
  }

  function At(docs: map<nat, Source>, k: nat): Source {
    if k in docs then docs[k] else map[]
  }

  function Swept(src: Source, epoch: int): Source {
    if IndexEpoch in src && src[IndexEpoch] <= epoch then src[Tombstone := 1][IndexEpoch := epoch] else src
  }

  /** `owner` is the object a chunk was cut from. */
  function Next(owner: nat -> nat, s: Store, e: Event): Store {
    match e
    case Put(k, d) => s.(chunks := s.chunks[k := Script(At(s.chunks, k), ChunkSource(d))])
    case Mark(o, epoch) => s.(markers := s.markers[o := Script(At(s.markers, o), MarkerSource(epoch))])
    case Sweep(o, epoch, missed) =>
      s.(chunks := map k | k in s.chunks ::
           if owner(k) == o && k !in missed then Swept(s.chunks[k], epoch) else s.chunks[k])
  }

  function Run(owner: nat -> nat, trace: seq<Event>): Store {
    if trace == [] then Store(map[], map[]) else Next(owner, Run(owner, trace[..|trace| - 1]), trace[|trace| - 1])
  }

  /** A sweep follows the marker of the same deletion, and content documents are put. */
  predicate Legal(trace: seq<Event>) {
    forall i :: 0 <= i < |trace| ==>
      && (trace[i].Put? ==> IsContent(trace[i].doc))
      && (trace[i].Sweep? ==> Mark(trace[i].subject, trace[i].epoch) in trace[..i])
  }

  /** What visibleCandidates reads for the objects of its candidates. */
  function Watermarks(s: Store): map<nat, int> {
    map o | o in s.markers && IndexEpoch in s.markers[o] :: s.markers[o][IndexEpoch]
  }

  /** A live chunk found by the search that the marker lookup lets through. */
  predicate Served(owner: nat -> nat, s: Store, k: nat) {
    && k in s.chunks && !IsTombstone(s.chunks[k]) && IndexEpoch in s.chunks[k]
    && Survives(Candidate(k, owner(k), s.chunks[k][IndexEpoch]), Watermarks(s))
  }

  /** A sweep marks the object's chunks at or below the deletion's epoch that it finds, and no others. */
  lemma SweepExactly(owner: nat -> nat, s: Store, o: nat, epoch: int, missed: set<nat>, k: nat)
    requires k in s.chunks && IndexEpoch in s.chunks[k]
    ensures var next := Next(owner, s, Sweep(o, epoch, missed));
            && next.markers == s.markers && k in next.chunks
            && if owner(k) == o && k !in missed && s.chunks[k][IndexEpoch] <= epoch
               then IsTombstone(next.chunks[k]) && IndexEpoch in next.chunks[k] && next.chunks[k][IndexEpoch] == epoch
               else next.chunks[k] == s.chunks[k]
  {
  }

  // ---- the marker is the newest deletion ----

  ghost predicate Marked(trace: seq<Event>, s: Store, o: nat) {
    && (o in s.markers <==> exists e :: Mark(o, e) in trace)
    && (o in s.markers ==>
          && IsTombstone(s.markers[o]) && IndexEpoch in s.markers[o] && FileVersion !in s.markers[o]
          && AclVersion !in s.markers[o] && Mark(o, s.markers[o][IndexEpoch]) in trace)
    && (forall e :: Mark(o, e) in trace ==> o in s.markers && e <= s.markers[o][IndexEpoch])
  }

  lemma {:induction false} MarkerIsNewest(owner: nat -> nat, trace: seq<Event>, o: nat)
    ensures Marked(trace, Run(owner, trace), o)
  {
    if trace != [] {
      var before, last := trace[..|trace| - 1], trace[|trace| - 1];
      MarkerIsNewest(owner, before, o);
      assert forall x :: x in trace <==> x in before || x == last;
    }
  }

  /** The lookup hides exactly the candidates some deletion of their object reaches. */
  lemma {:induction false} SurvivesExactly(owner: nat -> nat, trace: seq<Event>, c: Candidate)
    ensures Survives(c, Watermarks(Run(owner, trace))) <==>
              forall e :: Mark(c.subject, e) in trace ==> e < c.epoch
  {
    MarkerIsNewest(owner, trace, c.subject);
  }

  // ---- what a chunk document can be ----

  predicate Behind(d: Doc<Chunk>, src: Source) {
    IndexEpoch in src
      && (d.epoch < src[IndexEpoch] || (d.epoch == src[IndexEpoch] && (d.tombstone ==> IsTombstone(src))))
  }

  ghost predicate Explained(owner: nat -> nat, trace: seq<Event>, src: Source, k: nat) {
    && IndexEpoch in src && FileVersion !in src && AclVersion !in src
    && (forall d :: Put(k, d) in trace ==> Behind(d, src))
    && ((exists d :: Put(k, d) in trace && d.epoch == src[IndexEpoch] && d.tombstone == IsTombstone(src))
        || (IsTombstone(src) && Mark(owner(k), src[IndexEpoch]) in trace))
  }

  ghost predicate ChunkOk(owner: nat -> nat, trace: seq<Event>, s: Store, k: nat) {
    if k in s.chunks then Explained(owner, trace, s.chunks[k], k) else forall d :: Put(k, d) !in trace
  }

  lemma PutExplains(owner: nat -> nat, before: seq<Event>, s: Store, k: nat, d: Doc<Chunk>)
    requires ChunkOk(owner, before, s, k) && IsContent(d)
    ensures Explained(owner, before + [Put(k, d)], Script(At(s.chunks, k), ChunkSource(d)), k)
  {
    var trace, src := before + [Put(k, d)], At(s.chunks, k);
    assert forall x :: x in trace <==> x in before || x == Put(k, d);
    assert Put(k, d) in trace;
    if Script(src, ChunkSource(d)) == src && k in s.chunks {
      assert Behind(d, src);
    }
  }

  lemma SweepExplains(owner: nat -> nat, before: seq<Event>, src: Source, k: nat, e: Event)
    requires Explained(owner, before, src, k) && e.Sweep? && Mark(e.subject, e.epoch) in before && owner(k) == e.subject
    ensures Explained(owner, before + [e], Swept(src, e.epoch), k)
  {
    var trace := before + [e];
    assert forall x :: x in trace <==> x in before || x == e;
  }

  lemma StillExplained(owner: nat -> nat, before: seq<Event>, src: Source, k: nat, e: Event)
    requires Explained(owner, before, src, k) && !(e.Put? && e.chunk == k)
    ensures Explained(owner, before + [e], src, k)
  {
    var trace := before + [e];
    assert forall x :: x in trace <==> x in before || x == e;
  }

  lemma {:induction false} ChunkInvariant(owner: nat -> nat, trace: seq<Event>, k: nat)
    requires Legal(trace)
    ensures ChunkOk(owner, trace, Run(owner, trace), k)
  {
    if trace != [] {
      var before, last := trace[..|trace| - 1], trace[|trace| - 1];
      assert before + [last] == trace;
      assert Legal(before) by {
        assert forall i :: 0 <= i < |before| ==> before[i] == trace[i] && before[..i] == trace[..i];
      }
      ChunkInvariant(owner, before, k);
      hide Explained, Script, ChunkSource, Swept;
      var s := Run(owner, before);
      if last.Put? && last.chunk == k {
        PutExplains(owner, before, s, k, last.doc);
      } else if k in s.chunks {
        if last.Sweep? && owner(k) == last.subject && k !in last.missed {
          SweepExplains(owner, before, s.chunks[k], k, last);
        } else {
          StillExplained(owner, before, s.chunks[k], k, last);
        }
      } else {
        assert forall d :: Put(k, d) !in trace;
      }
    }
  }

  /** A live document of the chunk ahead of every other, and ahead of every deletion. */
  predicate Leading(owner: nat -> nat, trace: seq<Event>, k: nat, d: Doc<Chunk>) {
    && Put(k, d) in trace && !d.tombstone
    && (forall e :: e in trace && e.Put? && e.chunk == k ==>
          e.doc.epoch < d.epoch || (e.doc.epoch == d.epoch && !e.doc.tombstone))
    && (forall e :: e in trace && e.Mark? && e.subject == owner(k) ==> e.epoch < d.epoch)
  }

  /** Whatever the order of puts, deletions and sweeps, and whatever the sweeps missed: a chunk is
      served if and only if one of its live documents is ahead of all others and all deletions. */
  lemma ServedExactly(owner: nat -> nat, trace: seq<Event>, k: nat)
    requires Legal(trace)
    ensures Served(owner, Run(owner, trace), k) <==> exists d :: Leading(owner, trace, k, d)
  {
    ChunkInvariant(owner, trace, k);
    var s := Run(owner, trace);
    if Served(owner, s, k) {
      ServedLeads(owner, trace, k);
    }
    if d :| Leading(owner, trace, k, d) {
      LeaderIsServed(owner, trace, k, d);
    }
  }

  lemma ServedLeads(owner: nat -> nat, trace: seq<Event>, k: nat)
    requires ChunkOk(owner, trace, Run(owner, trace), k) && Served(owner, Run(owner, trace), k)
    ensures exists d :: Leading(owner, trace, k, d)
  {
    hide Run, Watermarks, Survives;
    var src := Run(owner, trace).chunks[k];
    SurvivesExactly(owner, trace, Candidate(k, owner(k), src[IndexEpoch]));
    var d :| Put(k, d) in trace && d.epoch == src[IndexEpoch] && d.tombstone == IsTombstone(src);
    forall e | e in trace && e.Put? && e.chunk == k
      ensures e.doc.epoch < d.epoch || (e.doc.epoch == d.epoch && !e.doc.tombstone)
    {
      assert Put(k, e.doc) in trace;
    }
    forall e | e in trace && e.Mark? && e.subject == owner(k)
      ensures e.epoch < d.epoch
    {
      assert Mark(owner(k), e.epoch) in trace;
    }
    assert Leading(owner, trace, k, d);
  }

  lemma LeaderIsServed(owner: nat -> nat, trace: seq<Event>, k: nat, d: Doc<Chunk>)
    requires ChunkOk(owner, trace, Run(owner, trace), k) && Leading(owner, trace, k, d)
    ensures Served(owner, Run(owner, trace), k)
  {
    hide Run, Watermarks, Survives;
    var src := Run(owner, trace).chunks[k];
    SurvivesExactly(owner, trace, Candidate(k, owner(k), src[IndexEpoch]));
    assert Behind(d, src);
  }
}
