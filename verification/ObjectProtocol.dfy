/** Uploads, copies, garbage collection and thumbnails working on the same objects, with every
    provider call separated from the transactions around it: a call once issued may take effect
    at any later time, any number of times, whether or not its worker still holds its lease. */
module ObjectProtocol {
  import opened Common
  import opened StorageOps
  import opened ObjectRows

  type UploadId = nat
  type ThumbId = nat

  datatype UploadStatus = Verifying | Completed | FailedUpload

  datatype Upload = Upload(hash: Hash, status: UploadStatus)

  /** A canonical.ensure operation; its target key is also its idempotency key. */
  datatype Copy = Copy(op: Operation, upload: UploadId)

  /** A thumbnail write with the variant.delete operation registered before it; `writer` is the
      token drawn at registration, `reclaimed` records that somebody else claimed it since. */
  datatype Thumb = Thumb(op: Operation, hash: Hash, source: Key, writer: Token, reclaimed: bool)

  datatype State = State(
    rows: Rows,
    deletes: Deletes,
    uploads: map<UploadId, Upload>,
    copies: map<Key, Copy>,
    thumbs: map<ThumbId, Thumb>,
    variants: map<Hash, ThumbId>,
    tokens: set<Token>,
    planned: set<(UploadId, Key)>,    // verifications waiting for their copy operation
    prepared: set<(UploadId, Key)>,   // verifications that hold a canonical key
    bytes: set<Key>,                  // objects the provider stores
    copying: set<Key>,                // copy calls ever issued
    copied: set<(Key, Token)>,        // copy calls that returned success to their worker
    removing: set<Key>,               // removal calls ever issued
    removed: set<Key>,                // removal calls that returned success
    thumbBytes: set<ThumbId>,
    putting: set<ThumbId>,
    put: set<ThumbId>,
    thumbRemoving: set<ThumbId>)

  const Empty := State(map[], map[], map[], map[], map[], map[], {}, {}, {}, {}, {}, {}, {}, {}, {}, {}, {}, {})

  datatype UploadEvent =
    | StartVerify(u: UploadId, h: Hash)
    | PlanCopy(u: UploadId, now: Time)
    | AwaitCopy(u: UploadId, k: Key)
    | Commit(u: UploadId, k: Key)
    | FailVerify(u: UploadId, targets: seq<Key>, now: Time)

  datatype CopyEvent =
    | ClaimCopy(now: Time, token: Token)
    | IssueCopy
    | CopyLands
    | CopyReturns(token: Token)
    | FinishCopy(token: Token)
    | SkipCopy(token: Token)
    | UpdateCopy(change: StorageOps.Event)

  datatype RowEvent =
    | AddRef
    | ReleaseRef
    | Collect(now: Time)

  datatype DeleteEvent =
    | ClaimDelete(now: Time, token: Token)
    | IssueRemoval
    | IssueThumbRemoval
    | FinalizeDelete(token: Token)
    | UpdateDelete(change: StorageOps.Event)

  datatype ThumbEvent =
    | RegisterThumb(h: Hash, k: Key, now: Time, token: Token)
    | IssuePut
    | PutLands
    | PutReturns
    | CommitThumb
    | ClaimThumb(now: Time, token: Token)
    | CleanThumb
    | ThumbRemovalLands
    | UpdateThumb(change: StorageOps.Event)

  datatype Event =
    | OnUpload(upload: UploadEvent)
    | OnCopy(k: Key, copy: CopyEvent)
    | OnRow(h: Hash, row: RowEvent)
    | OnDelete(d: (Hash, nat), del: DeleteEvent)
    | RemovalLands(k: Key)
    | RemovalReturns(k: Key)
    | OnThumb(w: ThumbId, thumb: ThumbEvent)

  const LEASE: Time := 300 * SECOND

  /** Lease upkeep, errors and stops; claims and successes are events of their own. */
  predicate Upkeep(e: StorageOps.Event) {
    e.Renew? || e.Fail? || e.Refund? || e.Stop? || e.Retire?
  }

  /** The transaction of ensureCanonical. */
  function AfterPlan(s: State, u: UploadId, now: Time): State {
    if u !in s.uploads || !s.uploads[u].status.Verifying? then s else
      var h := s.uploads[u].hash;
      if h in s.rows && s.rows[h].status.Ready? then s.(prepared := s.prepared + {(u, s.rows[h].key)})
      else if h in s.rows && s.rows[h].status.Deleting? then s
      else
        var k := if h in s.rows then RevivalKey(h, s.rows[h]) else Base(h);
        s.(planned := s.planned + {(u, k)},
           copies := if k in s.copies then s.copies else s.copies[k := Copy(Enqueued("canonical.ensure", now), u)])
  }

  function Referenced(rows: Rows, h: Hash): Rows
    requires h in rows
  {
    rows[h := rows[h].(refs := rows[h].refs + 1, version := rows[h].version + 1)]
  }

  /** The commit transaction of Verify: CreateOrGet, the new entry's reference, completion. */
  function AfterCommit(s: State, u: UploadId, k: Key): State {
    if (u, k) !in s.prepared || u !in s.uploads || !s.uploads[u].status.Verifying? then s
    else
      match Acquire(s.rows, k)
      case Created(rows) =>
        if k.hash !in rows then s
        else s.(rows := Referenced(rows, k.hash), uploads := s.uploads[u := s.uploads[u].(status := Completed)])
      case _ => s
  }

  /** `targets` lists, in any order, the copy operations recorded for the failing upload. */
  predicate TargetsOf(s: State, u: UploadId, targets: seq<Key>) {
    && (forall i :: 0 <= i < |targets| ==> targets[i] in s.copies && s.copies[targets[i]].upload == u)
    && (forall k :: k in s.copies && s.copies[k].upload == u ==> k in targets)
  }

  /** The transaction of fail, and of ReconcileCanonicalOrphans for an upload that failed before. */
  function AfterFail(s: State, u: UploadId, targets: seq<Key>, now: Time): State {
    if u !in s.uploads || s.uploads[u].status.Completed? || !TargetsOf(s, u, targets) then s
    else s.(rows := CleanupRows(s.rows, targets),
            deletes := CleanupDeletes(s.rows, s.deletes, targets, now),
            uploads := s.uploads[u := s.uploads[u].(status := FailedUpload)])
  }

  function WithCopy(s: State, k: Key, op: Operation): State
    requires k in s.copies
  {
    s.(copies := s.copies[k := s.copies[k].(op := op)])
  }

  function WithDelete(s: State, d: (Hash, nat), op: Operation): State
    requires d in s.deletes
  {
    s.(deletes := s.deletes[d := s.deletes[d].(op := op)])
  }

  function WithThumb(s: State, w: ThumbId, op: Operation): State
    requires w in s.thumbs
  {
    s.(thumbs := s.thumbs[w := s.thumbs[w].(op := op)])
  }

  /** The check of performObjectDelete that precedes its removals. What else it looks at first, the
      copies and thumbnails still running, only delays a removal. */
  predicate DeletingSource(s: State, d: (Hash, nat)) {
    && d in s.deletes && d.0 in s.rows
    && s.rows[d.0].refs == 0 && s.rows[d.0].status.Deleting? && s.rows[d.0].key == s.deletes[d].source
  }

  function RowRetired(s: State, h: Hash): State
    requires h in s.rows
  {
    s.(rows := s.rows[h := s.rows[h].(status := ObjectRows.Retired, version := s.rows[h].version + 1)],
       variants := s.variants - {h})
  }

  /** The closing transaction of performObjectDelete, and its early exits for moot operations. */
  function AfterFinalize(s: State, d: (Hash, nat), token: Token): State {
    if d !in s.deletes || !OwnedBy(s.deletes[d].op, token) || d.0 !in s.rows then s
    else if !DeletingSource(s, d) then WithDelete(s, d, Finished(s.deletes[d].op))
    else if s.deletes[d].source !in s.removed then s
    else RowRetired(WithDelete(s, d, Finished(s.deletes[d].op)), d.0)
  }

  function AfterRegister(s: State, w: ThumbId, h: Hash, k: Key, now: Time, token: Token): State {
    if w in s.thumbs || token in s.tokens || h !in s.rows || !s.rows[h].status.Ready? || s.rows[h].key != k then s
    else s.(thumbs := s.thumbs[w :=
              Thumb(Started(Enqueued("variant.delete", now), now, LEASE, token), h, k, token, false)],
            tokens := s.tokens + {token})
  }

  /** The commit transaction of writeVariant: one variant per object, and only its writer's. */
  function AfterThumbCommit(s: State, w: ThumbId): State {
    if w !in s.thumbs || w !in s.put || !OwnedBy(s.thumbs[w].op, s.thumbs[w].writer) then s
    else
      var t := s.thumbs[w];
      if t.hash !in s.rows || !s.rows[t.hash].status.Ready? || s.rows[t.hash].key != t.source
        || t.hash in s.variants then s
      else WithThumb(s, w, Finished(t.op)).(variants := s.variants[t.hash := w])
  }

  predicate IsAdopted(s: State, w: ThumbId)
    requires w in s.thumbs
  {
    s.thumbs[w].hash in s.variants && s.variants[s.thumbs[w].hash] == w
  }

  function AfterUpload(s: State, e: UploadEvent): State {
    match e
    case StartVerify(u, h) => if u in s.uploads then s else s.(uploads := s.uploads[u := Upload(h, Verifying)])
    case PlanCopy(u, now) => AfterPlan(s, u, now)
    case AwaitCopy(u, k) =>
      if (u, k) in s.planned && k in s.copies && s.copies[k].op.state.Succeeded?
      then s.(prepared := s.prepared + {(u, k)}) else s
    case Commit(u, k) => AfterCommit(s, u, k)
    case FailVerify(u, targets, now) => AfterFail(s, u, targets, now)
  }

  /** The worker of a copy operation; the upload's status is read before the copy call. */
  function AfterCopy(s: State, k: Key, e: CopyEvent): State {
    if k !in s.copies || s.copies[k].upload !in s.uploads then s
    else
      var op, abandoned := s.copies[k].op, s.uploads[s.copies[k].upload].status.FailedUpload?;
      match e
      case ClaimCopy(now, token) =>
        if token in s.tokens then s
        else WithCopy(s, k, StorageOps.Next(op, Claim(now, LEASE, token))).(tokens := s.tokens + {token})
      case IssueCopy => if op.attempt > 0 && !abandoned then s.(copying := s.copying + {k}) else s
      case CopyLands => if k in s.copying then s.(bytes := s.bytes + {k}) else s
      case CopyReturns(token) =>
        if k in s.copying then s.(bytes := s.bytes + {k}, copied := s.copied + {(k, token)}) else s
      case FinishCopy(token) => if (k, token) in s.copied && OwnedBy(op, token) then WithCopy(s, k, Finished(op)) else s
      case SkipCopy(token) => if abandoned && OwnedBy(op, token) then WithCopy(s, k, Finished(op)) else s
      case UpdateCopy(change) => if Upkeep(change) then WithCopy(s, k, StorageOps.Next(op, change)) else s
  }

  function AfterRow(s: State, h: Hash, e: RowEvent): State {
    if h !in s.rows then s
    else
      var row := s.rows[h];
      match e
      case AddRef => if row.status.Ready? then s.(rows := Referenced(s.rows, h)) else s
      case ReleaseRef =>
        if row.refs > 0 then s.(rows := s.rows[h := row.(refs := row.refs - 1, version := row.version + 1)]) else s
      case Collect(now) =>
        if Collectable(s.rows, h)
        then s.(rows := s.rows[h := Condemned(row)], deletes := Schedule(s.deletes, h, Condemned(row), now)) else s
  }

  function AfterDelete(s: State, d: (Hash, nat), e: DeleteEvent): State {
    if d !in s.deletes then s
    else
      var op := s.deletes[d].op;
      match e
      case ClaimDelete(now, token) =>
        if token in s.tokens then s
        else WithDelete(s, d, StorageOps.Next(op, Claim(now, LEASE, token))).(tokens := s.tokens + {token})
      case IssueRemoval => if DeletingSource(s, d) then s.(removing := s.removing + {s.deletes[d].source}) else s
      case IssueThumbRemoval =>
        if DeletingSource(s, d) && d.0 in s.variants then s.(thumbRemoving := s.thumbRemoving + {s.variants[d.0]})
          else s
      case FinalizeDelete(token) => AfterFinalize(s, d, token)
      case UpdateDelete(change) => if Upkeep(change) then WithDelete(s, d, StorageOps.Next(op, change)) else s
  }

  function AfterThumb(s: State, w: ThumbId, e: ThumbEvent): State {
    if e.RegisterThumb? then AfterRegister(s, w, e.h, e.k, e.now, e.token)
    else if w !in s.thumbs then s
    else
      var t := s.thumbs[w];
      match e
      case RegisterThumb(_, _, _, _) => s
      case IssuePut => s.(putting := s.putting + {w})
      case PutLands => if w in s.putting then s.(thumbBytes := s.thumbBytes + {w}) else s
      case PutReturns => if w in s.putting then s.(thumbBytes := s.thumbBytes + {w}, put := s.put + {w}) else s
      case CommitThumb => AfterThumbCommit(s, w)
      case ClaimThumb(now, token) =>
        if token in s.tokens || !Startable(t.op, now) then s
        else s.(thumbs := s.thumbs[w := t.(op := Started(t.op, now, LEASE, token), reclaimed := true)],
          tokens := s.tokens + {token})
      case CleanThumb => if t.reclaimed && !IsAdopted(s, w) then s.(thumbRemoving := s.thumbRemoving + {w}) else s
      case ThumbRemovalLands => if w in s.thumbRemoving then s.(thumbBytes := s.thumbBytes - {w}) else s
      case UpdateThumb(change) =>
        if Upkeep(change) || (change.Succeed? && change.token != t.writer)
        then WithThumb(s, w, StorageOps.Next(t.op, change)) else s
  }

  function Next(s: State, e: Event): State {
    match e
    case OnUpload(upload) => AfterUpload(s, upload)
    case OnCopy(k, copy) => AfterCopy(s, k, copy)
    case OnRow(h, row) => AfterRow(s, h, row)
    case OnDelete(d, del) => AfterDelete(s, d, del)
    case RemovalLands(k) => if k in s.removing then s.(bytes := s.bytes - {k}) else s
    case RemovalReturns(k) => if k in s.removing then s.(bytes := s.bytes - {k}, removed := s.removed + {k}) else s
    case OnThumb(w, thumb) => AfterThumb(s, w, thumb)
  }

  function Run(trace: seq<Event>): State {
    if trace == [] then Empty else Next(Run(trace[..|trace| - 1]), trace[|trace| - 1])
  }

  // ---- the invariant ----

  /** A key some upload may still want to use: it has its bytes, or no row can take it any more. */
  predicate Sound(rows: Rows, bytes: set<Key>, k: Key) {
    k in bytes || Unusable(rows, k)
  }

  predicate Stored(rows: Rows, bytes: set<Key>) {
    forall h :: h in rows && rows[h].status.Ready? ==> rows[h].key in bytes
  }

  predicate RemovalsOk(rows: Rows, deletes: Deletes, removing: set<Key>) {
    && (forall k :: k in removing ==> Unusable(rows, k))
    && (forall d :: d in deletes ==> deletes[d].source.hash == d.0)
  }

  predicate CopiesOk(rows: Rows, bytes: set<Key>, uploads: map<UploadId, Upload>, copies: map<Key, Copy>) {
    forall k :: k in copies ==>
      && TargetOk(rows, k)
      && copies[k].upload in uploads
      && (copies[k].op.state.Succeeded? || uploads[copies[k].upload].status.FailedUpload? ==> Sound(rows, bytes, k))
  }

  predicate CopiedOk(rows: Rows, bytes: set<Key>, copied: set<(Key, Token)>) {
    forall c :: c in copied ==> Sound(rows, bytes, c.0)
  }

  predicate PreparedOk(rows: Rows, bytes: set<Key>, prepared: set<(UploadId, Key)>) {
    forall p :: p in prepared ==> Sound(rows, bytes, p.1) && TargetOk(rows, p.1)
  }

  predicate WriterHolds(t: Thumb) {
    OwnedBy(t.op, t.writer)
  }

  predicate ThumbsOk(thumbs: map<ThumbId, Thumb>, tokens: set<Token>) {
    forall w :: w in thumbs ==> thumbs[w].writer in tokens && (thumbs[w].reclaimed ==> !WriterHolds(thumbs[w]))
  }

  predicate VariantsOk(rows: Rows, thumbs: map<ThumbId, Thumb>, variants: map<Hash, ThumbId>, put: set<ThumbId>) {
    forall h :: h in variants ==>
      && variants[h] in thumbs && thumbs[variants[h]].hash == h && thumbs[variants[h]].op.state.Succeeded?
      && variants[h] in put && h in rows && !rows[h].status.Retired?
  }

  predicate ThumbRemovalsOk(rows: Rows, thumbs: map<ThumbId, Thumb>, variants: map<Hash, ThumbId>,
          thumbRemoving: set<ThumbId>) {
    forall w :: w in thumbRemoving ==>
      && w in thumbs && !WriterHolds(thumbs[w])
      && (thumbs[w].hash in variants && variants[thumbs[w].hash] == w && thumbs[w].hash in rows ==>
            !rows[thumbs[w].hash].status.Ready?)
  }

  predicate PutOk(put: set<ThumbId>, thumbBytes: set<ThumbId>, thumbRemoving: set<ThumbId>) {
    forall w :: w in put ==> w in thumbBytes || w in thumbRemoving
  }

  predicate ObjectsOk(s: State) {
    && RowsOk(s.rows) && Stored(s.rows, s.bytes) && RemovalsOk(s.rows, s.deletes, s.removing)
    && CopiesOk(s.rows, s.bytes, s.uploads, s.copies)
    && CopiedOk(s.rows, s.bytes, s.copied) && PreparedOk(s.rows, s.bytes, s.prepared)
  }

  predicate ThumbnailsOk(s: State) {
    && ThumbsOk(s.thumbs, s.tokens) && VariantsOk(s.rows, s.thumbs, s.variants, s.put)
    && ThumbRemovalsOk(s.rows, s.thumbs, s.variants, s.thumbRemoving) && PutOk(s.put, s.thumbBytes, s.thumbRemoving)
  }

  // ---- the two safety properties ----

  /** Every ready object has its bytes, and every thumbnail of a ready object has its own. */
  predicate Safe(s: State) {
    && (forall h :: h in s.rows && s.rows[h].status.Ready? ==> s.rows[h].key in s.bytes)
    && (forall h :: h in s.variants && h in s.rows && s.rows[h].status.Ready? ==> s.variants[h] in s.thumbBytes)
  }

  lemma InvariantIsSafe(s: State)
    requires ObjectsOk(s) && ThumbnailsOk(s)
    ensures Safe(s)
  {
  }

  // ---- preservation: object keys ----

  lemma AdvanceTargets(rows: Rows, next: Rows)
    requires Advances(rows, next)
    ensures forall k: Key :: TargetOk(rows, k) ==> TargetOk(next, k)
  {
  }

  /** A change of rows alone keeps every fact about keys. */
  lemma RowsAdvance(s: State, next: State)
    requires ObjectsOk(s) && Advances(s.rows, next.rows)
    requires next.bytes == s.bytes && next.removing == s.removing && next.copies == s.copies
    requires next.copied == s.copied && next.prepared == s.prepared
    requires forall u :: u in s.uploads ==> u in next.uploads
    requires forall k :: k in s.copies && next.uploads[s.copies[k].upload] != s.uploads[s.copies[k].upload] ==>
      next.uploads[s.copies[k].upload].status.FailedUpload? ==> Sound(next.rows, s.bytes, k)
    ensures CopiesOk(next.rows, next.bytes, next.uploads, next.copies)
    ensures CopiedOk(next.rows, next.bytes, next.copied) && PreparedOk(next.rows, next.bytes, next.prepared)
    ensures forall k :: k in next.removing ==> Unusable(next.rows, k)
  {
    AdvanceTargets(s.rows, next.rows);
    forall k: Key | Unusable(s.rows, k)
      ensures Unusable(next.rows, k)
    {
      UnusableIsForever(s.rows, next.rows, k);
    }
  }

  /** One existing row moves on: its version grows, and it is ready only if it already was. */
  lemma RowMovesOn(s: State, h: Hash, row: Row)
    requires RowsOk(s.rows) && Stored(s.rows, s.bytes) && h in s.rows
    requires row.key == s.rows[h].key && row.version > s.rows[h].version
    requires if row.status.Ready? then s.rows[h].status.Ready? else row.refs == 0
    ensures var next := s.rows[h := row]; RowsOk(next) && Stored(next, s.bytes) && Advances(s.rows, next)
  {
  }

  lemma RowFacts(s: State, h: Hash)
    requires ObjectsOk(s) && h in s.rows
    ensures s.rows[h].key.hash == h && (!s.rows[h].status.Ready? ==> s.rows[h].refs == 0)
    ensures forall d :: d in s.deletes ==> s.deletes[d].source.hash == d.0
  {
  }

  lemma CopyOpKeepsObjects(s: State, k: Key, c: Copy)
    requires ObjectsOk(s) && c.upload in s.uploads && TargetOk(s.rows, k)
    requires c.op.state.Succeeded? || s.uploads[c.upload].status.FailedUpload? ==> Sound(s.rows, s.bytes, k)
    ensures ObjectsOk(s.(copies := s.copies[k := c]))
  {
    hide RowsOk, TargetOk, Sound, RemovalsOk, CopiedOk, PreparedOk, Stored;
  }

  lemma BytesGrow(s: State, k: Key)
    requires ObjectsOk(s)
    ensures ObjectsOk(s.(bytes := s.bytes + {k}))
  {
    hide RowsOk, TargetOk, RemovalsOk, Unusable;
  }

  lemma PlanKeepsObjects(s: State, u: UploadId, now: Time)
    requires ObjectsOk(s)
    ensures ObjectsOk(AfterPlan(s, u, now)) && AfterPlan(s, u, now).rows == s.rows
  {
    if u in s.uploads && s.uploads[u].status.Verifying? {
      var h := s.uploads[u].hash;
      if h in s.rows && s.rows[h].status.Ready? {
        hide CopiesOk, CopiedOk, RemovalsOk;
      } else if !(h in s.rows && s.rows[h].status.Deleting?) {
        var k := if h in s.rows then RevivalKey(h, s.rows[h]) else Base(h);
        hide CopiesOk, CopiedOk, PreparedOk, RemovalsOk, Stored, RowsOk;
        if k !in s.copies {
          CopyOpKeepsObjects(s, k, Copy(Enqueued("canonical.ensure", now), u));
        }
      }
    }
  }

  /** The heart of the argument: a row turns ready only under a key that cannot have been
      removed, because no removal is ever issued for the generation a deleted row waits for. */
  lemma AcquiredRowIsStored(rows: Rows, bytes: set<Key>, k: Key)
    requires RowsOk(rows) && Stored(rows, bytes) && Sound(rows, bytes, k) && TargetOk(rows, k)
    requires Acquire(rows, k).Created? && k.hash in Acquire(rows, k).rows
    ensures var next := Referenced(Acquire(rows, k).rows, k.hash);
      RowsOk(next) && Stored(next, bytes) && Advances(rows, next)
  {
  }

  lemma CommitKeepsObjects(s: State, u: UploadId, k: Key)
    requires ObjectsOk(s)
    ensures ObjectsOk(AfterCommit(s, u, k))
    ensures Advances(s.rows, AfterCommit(s, u, k).rows)
  {
    var next := AfterCommit(s, u, k);
    if next != s {
      assert Sound(s.rows, s.bytes, (u, k).1) && TargetOk(s.rows, (u, k).1);
      hide CopiesOk, CopiedOk, PreparedOk, Sound, TargetOk, RowsOk, Stored, Advances, Acquire, Referenced;
      AcquiredRowIsStored(s.rows, s.bytes, k);
      RowsAdvance(s, next);
    }
  }

  lemma {:induction false} CleanupDeletesNamed(rows: Rows, deletes: Deletes, keys: seq<Key>, now: Time)
    requires forall d :: d in deletes ==> deletes[d].source.hash == d.0
    ensures forall d :: d in CleanupDeletes(rows, deletes, keys, now) ==>
      CleanupDeletes(rows, deletes, keys, now)[d].source.hash == d.0
  {
    if keys != [] {
      CleanupDeletesNamed(rows, deletes, keys[..|keys| - 1], now);
    }
  }

  /** Failing an upload leaves none of its copy targets fresh without bytes. */
  lemma FailRetiresTargets(s: State, u: UploadId, targets: seq<Key>)
    requires ObjectsOk(s) && u in s.uploads && TargetsOf(s, u, targets)
    ensures var rows := CleanupRows(s.rows, targets);
      && RowsOk(rows) && Stored(rows, s.bytes) && Advances(s.rows, rows)
      && forall k :: k in s.copies && s.copies[k].upload == u ==> Sound(rows, s.bytes, k)
  {
    var rows := CleanupRows(s.rows, targets);
    CleanupRetiresTargets(s.rows, targets);
    hide CleanupRows;
    forall k | k in s.copies && s.copies[k].upload == u
      ensures Sound(rows, s.bytes, k)
    {
      var i :| 0 <= i < |targets| && targets[i] == k;
      assert Unusable(rows, targets[i]) || ReadyAt(rows, targets[i]);
    }
  }

  lemma FailKeepsObjects(s: State, u: UploadId, targets: seq<Key>, now: Time)
    requires ObjectsOk(s)
    ensures ObjectsOk(AfterFail(s, u, targets, now))
    ensures Advances(s.rows, AfterFail(s, u, targets, now).rows)
  {
    var next := AfterFail(s, u, targets, now);
    if u in s.uploads && !s.uploads[u].status.Completed? && TargetsOf(s, u, targets) {
      FailRetiresTargets(s, u, targets);
      CleanupDeletesNamed(s.rows, s.deletes, targets, now);
      hide CleanupRows, CleanupDeletes, CopiesOk, CopiedOk, PreparedOk, Sound, TargetsOf, RowsOk, Stored;
      RowsAdvance(s, next);
    }
  }

  lemma NeverSucceedsByUpkeep(op: Operation, e: StorageOps.Event)
    requires Upkeep(e) || e.Claim?
    ensures StorageOps.Next(op, e).state.Succeeded? <==> op.state.Succeeded?
  {
  }

  lemma UploadKeepsObjects(s: State, e: UploadEvent)
    requires ObjectsOk(s)
    ensures ObjectsOk(AfterUpload(s, e)) && Advances(s.rows, AfterUpload(s, e).rows)
  {
    hide AfterPlan, AfterCommit, AfterFail;
    match e
    case PlanCopy(u, now) => PlanKeepsObjects(s, u, now);
    case Commit(u, k) => CommitKeepsObjects(s, u, k);
    case FailVerify(u, targets, now) => FailKeepsObjects(s, u, targets, now);
    case _ =>
  }

  lemma CopyFacts(s: State, k: Key)
    requires ObjectsOk(s) && k in s.copies
    ensures s.copies[k].upload in s.uploads && TargetOk(s.rows, k)
    ensures s.copies[k].op.state.Succeeded? || s.uploads[s.copies[k].upload].status.FailedUpload? ==>
              Sound(s.rows, s.bytes, k)
    ensures forall token: Token :: (k, token) in s.copied ==> Sound(s.rows, s.bytes, k)
  {
    forall token: Token | (k, token) in s.copied
      ensures Sound(s.rows, s.bytes, k)
    {
      assert Sound(s.rows, s.bytes, (k, token).0);
    }
  }

  lemma CopyKeepsObjects(s: State, k: Key, e: CopyEvent)
    requires ObjectsOk(s)
    ensures ObjectsOk(AfterCopy(s, k, e)) && AfterCopy(s, k, e).rows == s.rows
  {
    hide ObjectsOk, StorageOps.Next, Sound, TargetOk;
    if k in s.copies && s.copies[k].upload in s.uploads {
      CopyFacts(s, k);
      var c := s.copies[k];
      match e
      case ClaimCopy(now, token) =>
        NeverSucceedsByUpkeep(c.op, Claim(now, LEASE, token));
        CopyOpKeepsObjects(s, k, c.(op := StorageOps.Next(c.op, Claim(now, LEASE, token))));
        TokensAreSeparate(WithCopy(s, k, StorageOps.Next(c.op, Claim(now, LEASE, token))), s.tokens + {token});
      case UpdateCopy(change) =>
        if Upkeep(change) {
          NeverSucceedsByUpkeep(c.op, change);
          CopyOpKeepsObjects(s, k, c.(op := StorageOps.Next(c.op, change)));
        }
      case FinishCopy(token) =>
        if (k, token) in s.copied && OwnedBy(c.op, token) {
          CopyOpKeepsObjects(s, k, c.(op := Finished(c.op)));
        }
      case SkipCopy(token) =>
        if s.uploads[c.upload].status.FailedUpload? {
          CopyOpKeepsObjects(s, k, c.(op := Finished(c.op)));
        }
      case IssueCopy => CallsAreSeparate(s, s.copying + {k});
      case CopyLands => BytesGrow(s, k);
      case CopyReturns(token) => ReturnKeepsObjects(s, k, token);
    }
  }

  lemma TokensAreSeparate(s: State, tokens: set<Token>)
    requires ObjectsOk(s)
    ensures ObjectsOk(s.(tokens := tokens))
  {
  }

  lemma CallsAreSeparate(s: State, copying: set<Key>)
    requires ObjectsOk(s)
    ensures ObjectsOk(s.(copying := copying))
  {
  }

  lemma ReturnKeepsObjects(s: State, k: Key, token: Token)
    requires ObjectsOk(s)
    ensures ObjectsOk(s.(bytes := s.bytes + {k}, copied := s.copied + {(k, token)}))
  {
    BytesGrow(s, k);
    hide RowsOk, TargetOk, RemovalsOk, CopiesOk, PreparedOk, Stored, Unusable;
  }

  lemma RowsChange(s: State, rows: Rows, deletes: Deletes)
    requires ObjectsOk(s) && RowsOk(rows) && Stored(rows, s.bytes) && Advances(s.rows, rows)
    requires forall d :: d in deletes ==> deletes[d].source.hash == d.0
    ensures ObjectsOk(s.(rows := rows, deletes := deletes))
  {
    hide CopiesOk, CopiedOk, PreparedOk, Unusable, RowsOk, Stored, Advances;
    RowsAdvance(s, s.(rows := rows, deletes := deletes));
  }

  /** One existing row moves on, perhaps with a delete scheduled for it. */
  lemma RowAndDeletesMove(s: State, h: Hash, row: Row, deletes: Deletes)
    requires ObjectsOk(s) && h in s.rows
    requires row.key == s.rows[h].key && row.version > s.rows[h].version
    requires if row.status.Ready? then s.rows[h].status.Ready? else row.refs == 0
    requires forall d :: d in deletes ==> deletes[d].source.hash == d.0
    ensures ObjectsOk(s.(rows := s.rows[h := row], deletes := deletes)) && Advances(s.rows, s.rows[h := row])
  {
    hide CopiesOk, CopiedOk, PreparedOk, Unusable, RowsOk, Stored, Advances, RemovalsOk;
    RowMovesOn(s, h, row);
    RowsChange(s, s.rows[h := row], deletes);
  }

  lemma DeletesChange(s: State, deletes: Deletes)
    requires ObjectsOk(s) && forall d :: d in deletes ==> deletes[d].source.hash == d.0
    ensures ObjectsOk(s.(deletes := deletes)) && Advances(s.rows, s.rows)
  {
    hide CopiesOk, CopiedOk, PreparedOk, Unusable, RowsOk, Stored;
  }

  lemma RowKeepsObjects(s: State, h: Hash, e: RowEvent)
    requires ObjectsOk(s)
    ensures ObjectsOk(AfterRow(s, h, e)) && Advances(s.rows, AfterRow(s, h, e).rows)
  {
    hide ObjectsOk, Advances;
    var next := AfterRow(s, h, e);
    if h !in s.rows || next == s {
      UnchangedKeepsObjects(s);
    } else {
      RowFacts(s, h);
      if next.rows[h] == s.rows[h] {
        assert next.rows == s.rows && next == s.(deletes := next.deletes);
        DeletesChange(s, next.deletes);
      } else {
        assert next == s.(rows := s.rows[h := next.rows[h]], deletes := next.deletes);
        RowAndDeletesMove(s, h, next.rows[h], next.deletes);
      }
    }
  }

  lemma UnchangedKeepsObjects(s: State)
    requires ObjectsOk(s)
    ensures ObjectsOk(s) && Advances(s.rows, s.rows)
  {
    hide CopiesOk, CopiedOk, PreparedOk, RemovalsOk, Stored;
  }

  lemma FinalizeKeepsObjects(s: State, d: (Hash, nat), token: Token)
    requires ObjectsOk(s)
    ensures ObjectsOk(AfterFinalize(s, d, token))
    ensures Advances(s.rows, AfterFinalize(s, d, token).rows)
  {
    hide ObjectsOk, Advances, WithDelete, RowRetired, OwnedBy;
    UnchangedKeepsObjects(s);
    if AfterFinalize(s, d, token) != s {
      FinishKeepsObjects(s, d, Finished(s.deletes[d].op));
      if DeletingSource(s, d) {
        RetireKeepsObjects(WithDelete(s, d, Finished(s.deletes[d].op)), d.0);
      }
    }
  }

  lemma FinishKeepsObjects(s: State, d: (Hash, nat), op: Operation)
    requires ObjectsOk(s) && d in s.deletes
    ensures ObjectsOk(WithDelete(s, d, op)) && WithDelete(s, d, op).rows == s.rows
  {
    hide CopiesOk, CopiedOk, PreparedOk, RowsOk, Stored;
  }

  lemma RetireKeepsObjects(s: State, h: Hash)
    requires ObjectsOk(s) && h in s.rows && !s.rows[h].status.Ready?
    ensures ObjectsOk(RowRetired(s, h)) && Advances(s.rows, RowRetired(s, h).rows)
  {
    RowFacts(s, h);
    hide CopiesOk, CopiedOk, PreparedOk, RemovalsOk, RowsOk, Stored, Advances;
    RowAndDeletesMove(s, h, RowRetired(s, h).rows[h], s.deletes);
  }

  lemma DeleteKeepsObjects(s: State, d: (Hash, nat), e: DeleteEvent)
    requires ObjectsOk(s)
    ensures ObjectsOk(AfterDelete(s, d, e)) && Advances(s.rows, AfterDelete(s, d, e).rows)
  {
    hide AfterFinalize, CopiesOk, CopiedOk, PreparedOk, StorageOps.Next;
    match e
    case FinalizeDelete(token) => FinalizeKeepsObjects(s, d, token);
    case _ =>
  }

  lemma RemovalKeepsObjects(s: State, k: Key)
    requires ObjectsOk(s) && k in s.removing
    ensures ObjectsOk(s.(bytes := s.bytes - {k}))
  {
    hide TargetOk;
  }

  lemma KeepsObjects(s: State, e: Event)
    requires ObjectsOk(s)
    ensures ObjectsOk(Next(s, e)) && Advances(s.rows, Next(s, e).rows)
  {
    hide AfterUpload, AfterCopy, AfterRow, AfterDelete;
    match e
    case OnUpload(upload) => UploadKeepsObjects(s, upload);
    case OnCopy(k, copy) => CopyKeepsObjects(s, k, copy);
    case OnRow(h, row) => RowKeepsObjects(s, h, row);
    case OnDelete(d, del) => DeleteKeepsObjects(s, d, del);
    case RemovalLands(k) => if k in s.removing { RemovalKeepsObjects(s, k); }
    case RemovalReturns(k) => if k in s.removing { RemovalKeepsObjects(s, k); }
    case OnThumb(w, thumb) => ThumbKeepsObjects(s, w, thumb);
  }

  lemma ThumbKeepsObjects(s: State, w: ThumbId, e: ThumbEvent)
    ensures var next := AfterThumb(s, w, e);
      && next.rows == s.rows && next.bytes == s.bytes && next.deletes == s.deletes && next.removing == s.removing
      && next.uploads == s.uploads && next.copies == s.copies && next.copied == s.copied && next.prepared == s.prepared
  {
  }

  // ---- preservation: thumbnails ----

  /** Rows may change under the thumbnails as long as none leaves the live states or becomes ready. */
  lemma RowsKeepThumbnails(s: State, rows: Rows)
    requires ThumbnailsOk(s)
    requires forall h :: h in s.variants && h in s.rows ==>
      h in rows && !rows[h].status.Retired? && (rows[h].status.Ready? ==> s.rows[h].status.Ready?)
    ensures VariantsOk(rows, s.thumbs, s.variants, s.put)
    ensures ThumbRemovalsOk(rows, s.thumbs, s.variants, s.thumbRemoving)
  {
  }

  lemma {:induction false} CleanupOnlyAdoptsRetired(rows: Rows, keys: seq<Key>)
    ensures forall h :: h in rows && !rows[h].status.Retired? ==>
              h in CleanupRows(rows, keys) && CleanupRows(rows, keys)[h] == rows[h]
  {
    if keys != [] {
      CleanupOnlyAdoptsRetired(rows, keys[..|keys| - 1]);
    }
  }

  /** No row is lost, retired or made ready where a thumbnail hangs on it. */
  predicate Undisturbed(rows: Rows, next: Rows) {
    forall h :: h in rows ==>
      h in next && (!rows[h].status.Retired? ==>
        !next[h].status.Retired? && (next[h].status.Ready? ==> rows[h].status.Ready?))
  }

  lemma UndisturbedKeepsThumbnails(s: State, rows: Rows)
    requires ThumbnailsOk(s) && Undisturbed(s.rows, rows)
    ensures ThumbnailsOk(s.(rows := rows))
  {
    assert forall h :: h in s.variants && h in s.rows ==> !s.rows[h].status.Retired?;
    hide ThumbsOk, VariantsOk, ThumbRemovalsOk, PutOk;
    RowsKeepThumbnails(s, rows);
  }

  lemma UploadUndisturbing(s: State, e: UploadEvent)
    ensures Undisturbed(s.rows, AfterUpload(s, e).rows)
  {
    if e.FailVerify? {
      CleanupOnlyAdoptsRetired(s.rows, e.targets);
      CleanupKeepsRows(s.rows, e.targets);
    }
    hide CleanupRows, CleanupDeletes;
  }

  lemma {:induction false} CleanupKeepsRows(rows: Rows, keys: seq<Key>)
    ensures forall h :: h in rows ==> h in CleanupRows(rows, keys)
  {
    if keys != [] {
      CleanupKeepsRows(rows, keys[..|keys| - 1]);
    }
  }

  lemma UploadKeepsThumbnails(s: State, e: UploadEvent)
    requires ThumbnailsOk(s)
    ensures ThumbnailsOk(AfterUpload(s, e))
  {
    hide ThumbsOk, VariantsOk, ThumbRemovalsOk, PutOk, Undisturbed, Acquire, CleanupRows, CleanupDeletes;
    UploadUndisturbing(s, e);
    UndisturbedKeepsThumbnails(s, AfterUpload(s, e).rows);
  }

  lemma RowKeepsThumbnails(s: State, h: Hash, e: RowEvent)
    requires ThumbnailsOk(s)
    ensures ThumbnailsOk(AfterRow(s, h, e))
  {
    assert Undisturbed(s.rows, AfterRow(s, h, e).rows);
    hide ThumbsOk, VariantsOk, ThumbRemovalsOk, PutOk, Undisturbed;
    UndisturbedKeepsThumbnails(s, AfterRow(s, h, e).rows);
  }

  lemma CopyKeepsThumbnails(s: State, k: Key, e: CopyEvent)
    requires ThumbnailsOk(s)
    ensures ThumbnailsOk(AfterCopy(s, k, e))
  {
    hide VariantsOk, ThumbRemovalsOk, PutOk, StorageOps.Next;
  }

  lemma FinalizeKeepsThumbnails(s: State, d: (Hash, nat), token: Token)
    requires ThumbnailsOk(s)
    ensures ThumbnailsOk(AfterFinalize(s, d, token))
  {
    hide ThumbsOk, PutOk, OwnedBy, Finished;
  }

  lemma DeleteKeepsThumbnails(s: State, d: (Hash, nat), e: DeleteEvent)
    requires ThumbnailsOk(s)
    ensures ThumbnailsOk(AfterDelete(s, d, e))
  {
    hide VariantsOk, ThumbRemovalsOk, PutOk, AfterFinalize, StorageOps.Next;
    match e
    case FinalizeDelete(token) => FinalizeKeepsThumbnails(s, d, token);
    case IssueThumbRemoval => IssueKeepsThumbnails(s, d);
    case _ =>
  }

  lemma IssueKeepsThumbnails(s: State, d: (Hash, nat))
    requires ThumbnailsOk(s)
    ensures ThumbnailsOk(AfterDelete(s, d, IssueThumbRemoval))
  {
  }

  lemma RegisterKeepsThumbnails(s: State, w: ThumbId, h: Hash, k: Key, now: Time, token: Token)
    requires ThumbnailsOk(s)
    ensures ThumbnailsOk(AfterRegister(s, w, h, k, now, token))
  {
    hide PutOk, Enqueued;
    assert forall h :: h in s.variants ==> s.variants[h] in s.thumbs;
    assert forall v :: v in s.thumbRemoving ==> v in s.thumbs;
  }

  lemma ThumbCommitKeepsThumbnails(s: State, w: ThumbId)
    requires ThumbnailsOk(s)
    ensures ThumbnailsOk(AfterThumbCommit(s, w))
  {
    hide PutOk;
  }

  /** A cleanup's claim takes the operation from its writer for good. */
  lemma ClaimKeepsThumbnails(s: State, w: ThumbId, now: Time, token: Token)
    requires ThumbnailsOk(s) && w in s.thumbs && token !in s.tokens && Startable(s.thumbs[w].op, now)
    ensures var t := s.thumbs[w];
      ThumbnailsOk(s.(thumbs := s.thumbs[w := t.(op := Started(t.op, now, LEASE, token), reclaimed := true)],
        tokens := s.tokens + {token}))
  {
    hide PutOk;
  }

  /** Lease upkeep, and outcomes other than the writer's, give the writer nothing back. */
  lemma UpdateKeepsThumbnails(s: State, w: ThumbId, change: StorageOps.Event)
    requires ThumbnailsOk(s) && w in s.thumbs
    requires (Upkeep(change) || (change.Succeed? && change.token != s.thumbs[w].writer))
    ensures ThumbnailsOk(WithThumb(s, w, StorageOps.Next(s.thumbs[w].op, change)))
  {
    hide PutOk, StorageOps.Next;
    UpkeepGivesNothingBack(s.thumbs[w].op, change, s.thumbs[w].writer);
  }

  lemma UpkeepGivesNothingBack(op: Operation, change: StorageOps.Event, writer: Token)
    requires Upkeep(change) || (change.Succeed? && change.token != writer)
    ensures OwnedBy(StorageOps.Next(op, change), writer) ==> OwnedBy(op, writer)
    ensures op.state.Succeeded? ==> StorageOps.Next(op, change).state.Succeeded?
  {
  }

  lemma ThumbKeepsThumbnails(s: State, w: ThumbId, e: ThumbEvent)
    requires ThumbnailsOk(s)
    ensures ThumbnailsOk(AfterThumb(s, w, e))
  {
    hide AfterRegister, AfterThumbCommit, StorageOps.Next, Started, Startable, WithThumb;
    match e
    case RegisterThumb(h, k, now, token) => RegisterKeepsThumbnails(s, w, h, k, now, token);
    case CommitThumb => ThumbCommitKeepsThumbnails(s, w);
    case ClaimThumb(now, token) =>
      if w in s.thumbs && token !in s.tokens && Startable(s.thumbs[w].op, now) {
        ClaimKeepsThumbnails(s, w, now, token);
      }
    case UpdateThumb(change) =>
      if w in s.thumbs && (Upkeep(change) || (change.Succeed? && change.token != s.thumbs[w].writer)) {
        UpdateKeepsThumbnails(s, w, change);
      }
    case _ => BytesKeepThumbnails(s, w, e);
  }

  lemma BytesKeepThumbnails(s: State, w: ThumbId, e: ThumbEvent)
    requires ThumbnailsOk(s)
    requires e.IssuePut? || e.PutLands? || e.PutReturns? || e.CleanThumb? || e.ThumbRemovalLands?
    ensures ThumbnailsOk(AfterThumb(s, w, e))
  {
  }

  lemma KeepsThumbnails(s: State, e: Event)
    requires ThumbnailsOk(s)
    ensures ThumbnailsOk(Next(s, e))
  {
    hide AfterUpload, AfterCopy, AfterRow, AfterDelete, AfterThumb;
    match e
    case OnUpload(upload) => UploadKeepsThumbnails(s, upload);
    case OnCopy(k, copy) => CopyKeepsThumbnails(s, k, copy);
    case OnRow(h, row) => RowKeepsThumbnails(s, h, row);
    case OnDelete(d, del) => DeleteKeepsThumbnails(s, d, del);
    case OnThumb(w, thumb) => ThumbKeepsThumbnails(s, w, thumb);
    case _ =>
  }

  // ---- the theorems, over every history ----

  lemma {:induction false} Invariant(trace: seq<Event>)
    ensures ObjectsOk(Run(trace)) && ThumbnailsOk(Run(trace))
  {
    if trace != [] {
      Invariant(trace[..|trace| - 1]);
      hide ObjectsOk, ThumbnailsOk, Next;
      KeepsObjects(Run(trace[..|trace| - 1]), trace[|trace| - 1]);
      KeepsThumbnails(Run(trace[..|trace| - 1]), trace[|trace| - 1]);
    }
  }

  /** In every reachable state each ready object has its bytes, and so has its thumbnail. */
  lemma ReadyObjectsHaveBytes(trace: seq<Event>)
    ensures Safe(Run(trace))
  {
    Invariant(trace);
    InvariantIsSafe(Run(trace));
  }

  /** In every reachable state a referenced object is ready, and therefore readable. */
  lemma ReferencedObjectsAreReadable(trace: seq<Event>, h: Hash)
    requires h in Run(trace).rows && Run(trace).rows[h].refs > 0
    ensures Run(trace).rows[h].status.Ready? && Run(trace).rows[h].key in Run(trace).bytes
  {
    Invariant(trace);
  }

  /** A key out of use stays out of use; versions never run backwards. */
  lemma {:induction false} RetirementIsForever(trace: seq<Event>, more: seq<Event>, k: Key)
    requires Unusable(Run(trace).rows, k)
    ensures Unusable(Run(trace + more).rows, k)
    decreases |more|
  {
    hide ObjectsOk, ThumbnailsOk, Next, Unusable, Advances;
    if more == [] {
      assert trace + more == trace;
    } else {
      var n := |more| - 1;
      var all := trace + more;
      assert all[..|all| - 1] == trace + more[..n] && all[|all| - 1] == more[n];
      RetirementIsForever(trace, more[..n], k);
      Invariant(trace + more[..n]);
      KeepsObjects(Run(trace + more[..n]), more[n]);
      UnusableIsForever(Run(trace + more[..n]).rows, Run(all).rows, k);
    }
  }

  /** A row that is being deleted is never ready again under the key it is deleted under. */
  lemma DeletingKeyIsNeverReused(trace: seq<Event>, more: seq<Event>, h: Hash)
    requires h in Run(trace).rows && !Run(trace).rows[h].status.Ready?
    ensures !ReadyAt(Run(trace + more).rows, Run(trace).rows[h].key)
  {
    Invariant(trace);
    assert Unusable(Run(trace).rows, Run(trace).rows[h].key);
    RetirementIsForever(trace, more, Run(trace).rows[h].key);
  }

  /** Writer and cleanup of one thumbnail exclude each other: after any foreign claim the
      writer's commit has no effect, and after the commit no claim succeeds. */
  lemma ThumbnailFencing(trace: seq<Event>, w: ThumbId, now: Time)
    requires w in Run(trace).thumbs
    ensures var s := Run(trace);
      && (s.thumbs[w].reclaimed ==> AfterThumbCommit(s, w) == s)
      && (IsAdopted(s, w) ==> !Startable(s.thumbs[w].op, now) && s.thumbs[w].op.state.Succeeded?)
  {
    Invariant(trace);
  }

  // ---- what works, works ----

  lemma Follows(trace: seq<Event>, e: Event)
    ensures Run(trace + [e]) == Next(Run(trace), e)
  {
    assert (trace + [e])[..|trace|] == trace;
  }

  /** The row a key may be committed under: none yet, a ready one, or a deleted one whose next
      generation the key names. */
  predicate MayTake(rows: Rows, k: Key) {
    || k.hash !in rows
    || rows[k.hash].status == Ready
    || (rows[k.hash].status == ObjectRows.Status.Retired && rows[k.hash].refs == 0
        && k == Revived(k.hash, rows[k.hash].version))
  }

  /** The commit of a prepared upload completes it exactly then; a ready row gains the one new
      reference, a missing or deleted one starts with it, and nothing else changes. */
  lemma CommitExactly(s: State, u: UploadId, k: Key)
    requires (u, k) in s.prepared && u in s.uploads && s.uploads[u].status.Verifying?
    ensures var next := Next(s, OnUpload(Commit(u, k)));
      && (!MayTake(s.rows, k) ==> next == s)
      && (MayTake(s.rows, k) ==>
            && next.uploads == s.uploads[u := Upload(s.uploads[u].hash, Completed)]
            && next == s.(rows := next.rows, uploads := next.uploads)
            && next.rows == s.rows[k.hash :=
                 if k.hash !in s.rows then Row(Ready, k, 2, 1)
                 else if s.rows[k.hash].status == Ready then
                   Row(Ready, s.rows[k.hash].key, s.rows[k.hash].version + 1, s.rows[k.hash].refs + 1)
                 else Row(Ready, k, s.rows[k.hash].version + 2, 1)])
  {
  }

  /** Content that is already there is not copied again: an upload of it commits at once, and the
      object stays what it is but for one more reference. */
  lemma KnownContentCommits(trace: seq<Event>, u: UploadId, now: Time)
    requires var s := Run(trace);
      && u in s.uploads && s.uploads[u].status.Verifying?
      && s.uploads[u].hash in s.rows && s.rows[s.uploads[u].hash].status.Ready?
    ensures var s := Run(trace);
      var h := s.uploads[u].hash;
      var row := s.rows[h];
      var t := Run(trace + [OnUpload(PlanCopy(u, now))] + [OnUpload(Commit(u, row.key))]);
      && t.uploads == s.uploads[u := Upload(h, Completed)]
      && t.rows == s.rows[h := Row(Ready, row.key, row.version + 1, row.refs + 1)]
      && t.bytes == s.bytes && t.copies == s.copies && t.deletes == s.deletes
  {
    hide Run;
    var s := Run(trace);
    var h := s.uploads[u].hash;
    Invariant(trace);
    RowFacts(s, h);
    Follows(trace, OnUpload(PlanCopy(u, now)));
    Follows(trace + [OnUpload(PlanCopy(u, now))], OnUpload(Commit(u, s.rows[h].key)));
    CommitExactly(Run(trace + [OnUpload(PlanCopy(u, now))]), u, s.rows[h].key);
  }

  /** The key a new copy of the content goes to. */
  function Target(s: State, h: Hash): Key {
    if h in s.rows then Revived(h, s.rows[h].version) else Base(h)
  }

  function CopyRun(u: UploadId, k: Key, now: Time, token: Token): seq<Event> {
    [OnUpload(PlanCopy(u, now)), OnCopy(k, ClaimCopy(now, token)), OnCopy(k, IssueCopy), OnCopy(k, CopyReturns(token)),
     OnCopy(k, FinishCopy(token)), OnUpload(AwaitCopy(u, k)), OnUpload(Commit(u, k))]
  }

  lemma StepsApart(s: State, e: Event, more: seq<Event>)
    ensures Steps(s, [e] + more) == Steps(Next(s, e), more)
  {
    assert ([e] + more)[1..] == more;
  }

  /** New content, or content whose object was deleted: once a worker has copied it, the upload
      commits, and the object is ready under the key that was copied to, with one reference. */
  lemma NewContentCommits(trace: seq<Event>, u: UploadId, now: Time, token: Token)
    requires var s := Run(trace);
      && u in s.uploads && s.uploads[u].status.Verifying? && token !in s.tokens
      && (s.uploads[u].hash in s.rows ==> s.rows[s.uploads[u].hash].status.Retired?)
      && Target(s, s.uploads[u].hash) !in s.copies
    ensures var s := Run(trace);
      var h := s.uploads[u].hash;
      var k := Target(s, h);
      var t := Steps(s, CopyRun(u, k, now, token));
      && u in t.uploads && t.uploads[u] == Upload(h, Completed) && k in t.bytes
      && h in t.rows && t.rows[h] == Row(Ready, k, if h in s.rows then s.rows[h].version + 2 else 2, 1)
      && forall g :: g != h ==> (g in t.rows <==> g in s.rows) && (g in s.rows ==> t.rows[g] == s.rows[g])
  {
    var s := Run(trace);
    Invariant(trace);
    CopyRunCommits(s, u, Target(s, s.uploads[u].hash), now, token);
  }

  lemma CopyRunCopies(s: State, u: UploadId, k: Key, now: Time, token: Token) returns (t: State)
    requires u in s.uploads && s.uploads[u].status.Verifying? && token !in s.tokens
    requires k == Target(s, s.uploads[u].hash) && k !in s.copies
    requires s.uploads[u].hash in s.rows ==> s.rows[s.uploads[u].hash].status.Retired?
    ensures t == Next(Next(Next(Next(s, OnUpload(PlanCopy(u, now))), OnCopy(k, ClaimCopy(now, token))),
                           OnCopy(k, IssueCopy)), OnCopy(k, CopyReturns(token)))
    ensures t.rows == s.rows && t.uploads == s.uploads && k in t.bytes && (k, token) in t.copied && (u, k) in t.planned
    ensures k in t.copies && t.copies[k].upload == u && OwnedBy(t.copies[k].op, token)
  {
    hide AfterRow, AfterDelete, AfterThumb, AfterFail, AfterCommit;
    var s1 := Next(s, OnUpload(PlanCopy(u, now)));
    assert s1.copies == s.copies[k := Copy(Enqueued("canonical.ensure", now), u)] && s1.tokens == s.tokens;
    var s2 := Next(s1, OnCopy(k, ClaimCopy(now, token)));
    assert s2.copies[k].op == Started(Enqueued("canonical.ensure", now), now, LEASE, token);
    var s3 := Next(s2, OnCopy(k, IssueCopy));
    t := Next(s3, OnCopy(k, CopyReturns(token)));
  }

  lemma CopyRunCommits(s: State, u: UploadId, k: Key, now: Time, token: Token)
    requires u in s.uploads && s.uploads[u].status.Verifying? && token !in s.tokens && RowsOk(s.rows)
    requires k == Target(s, s.uploads[u].hash) && k !in s.copies
    requires s.uploads[u].hash in s.rows ==> s.rows[s.uploads[u].hash].status.Retired?
    ensures var h := s.uploads[u].hash;
      var t := Steps(s, CopyRun(u, k, now, token));
      && u in t.uploads && t.uploads[u] == Upload(h, Completed) && k in t.bytes
      && h in t.rows && t.rows[h] == Row(Ready, k, if h in s.rows then s.rows[h].version + 2 else 2, 1)
      && forall g :: g != h ==> (g in t.rows <==> g in s.rows) && (g in s.rows ==> t.rows[g] == s.rows[g])
  {
    hide Steps, Next, Referenced;
    var t4 := CopyRunCopies(s, u, k, now, token);
    var t6 := CopyRunFinishes(t4, u, k, token);
    var run := CopyRun(u, k, now, token);
    assert run == [run[0], run[1], run[2], run[3]] + [run[4], run[5], run[6]];
    FourThree(s, run[0], run[1], run[2], run[3], run[4], run[5], run[6]);
    CommitExactly(t6, u, k);
  }

  lemma CopyRunFinishes(s: State, u: UploadId, k: Key, token: Token) returns (t: State)
    requires k in s.copies && s.copies[k].upload in s.uploads && OwnedBy(s.copies[k].op, token)
    requires (k, token) in s.copied && (u, k) in s.planned
    ensures t == Next(Next(s, OnCopy(k, FinishCopy(token))), OnUpload(AwaitCopy(u, k)))
    ensures t.rows == s.rows && t.uploads == s.uploads && t.bytes == s.bytes && (u, k) in t.prepared
  {
    hide AfterPlan, AfterCommit, AfterRow, AfterDelete, AfterThumb, AfterFail;
    var s1 := Next(s, OnCopy(k, FinishCopy(token)));
    assert s1 == WithCopy(s, k, Finished(s.copies[k].op));
    t := Next(s1, OnUpload(AwaitCopy(u, k)));
  }

  lemma FourThree(s: State, a: Event, b: Event, c: Event, d: Event, e: Event, f: Event, g: Event)
    ensures Steps(s, [a, b, c, d] + [e, f, g])
         == Next(Next(Next(Next(Next(Next(Next(s, a), b), c), d), e), f), g)
  {
    hide Next;
    var t := Next(Next(Next(Next(s, a), b), c), d);
    assert [a, b, c, d] + [e, f, g] == [a] + ([b] + ([c] + ([d] + [e, f, g])));
    StepsApart(s, a, [b] + ([c] + ([d] + [e, f, g])));
    StepsApart(Next(s, a), b, [c] + ([d] + [e, f, g]));
    StepsApart(Next(Next(s, a), b), c, [d] + [e, f, g]);
    StepsApart(Next(Next(Next(s, a), b), c), d, [e, f, g]);
    StepsApart(t, e, [f, g]);
    assert [e, f, g] == [e] + [f, g];
    TwoSteps(Next(t, e), f, g);
  }

  /** A failing upload, and one that failed before, ends failed, with the copies it recorded adopted
      as the loop over them does; a completed one is left alone. */
  lemma FailExactly(s: State, u: UploadId, targets: seq<Key>, now: Time)
    requires u in s.uploads && TargetsOf(s, u, targets)
    ensures var next := Next(s, OnUpload(FailVerify(u, targets, now)));
      if s.uploads[u].status == Completed then next == s
      else
        && next == s.(rows := CleanupRows(s.rows, targets), deletes := CleanupDeletes(s.rows, s.deletes, targets, now),
                      uploads := s.uploads[u := Upload(s.uploads[u].hash, FailedUpload)])
  {
  }

  /** An upload alone with its content that fails after it planned a copy leaves the content to be
      deleted under the copy's key, whether or not the copy ever lands. */
  lemma OrphanCopyIsDeleted(trace: seq<Event>, u: UploadId, k: Key, now: Time)
    requires var s := Run(trace);
      && u in s.uploads && !s.uploads[u].status.Completed? && k == Target(s, k.hash)
      && k in s.copies && (forall j :: j in s.copies ==> (s.copies[j].upload == u <==> j == k))
      && (k.hash in s.rows ==> s.rows[k.hash].status.Retired?)
    ensures var next := Next(Run(trace), OnUpload(FailVerify(u, [k], now)));
      && next.uploads[u].status.FailedUpload? && k.hash in next.rows
      && next.rows[k.hash].status == Deleting && next.rows[k.hash].key == k && next.rows[k.hash].refs == 0
      && (k.hash, next.rows[k.hash].version) in next.deletes
      && next.deletes[(k.hash, next.rows[k.hash].version)].source == k
  {
    var s := Run(trace);
    CondemnedIsScheduled(trace);
    FailExactly(s, u, [k], now);
    assert [k][..0] == [];
    assert CleanupRows(s.rows, [k]) == AdoptRows(s.rows, k);
    assert CleanupDeletes(s.rows, s.deletes, [k], now) == AdoptDeletes(s.rows, s.deletes, k, now);
    CleanupPlans(s.rows, s.deletes, [k], now);
    hide Run, Next, TargetsOf, CleanupRows, CleanupDeletes;
  }

  /** A thumbnail whose writer never commits is taken over once its lease is over, and removed. */
  lemma OrphanThumbnailIsRemoved(s: State, w: ThumbId, now: Time, token: Token)
    requires w in s.thumbs && Startable(s.thumbs[w].op, now) && token !in s.tokens && !IsAdopted(s, w)
    ensures var t := Next(Next(Next(s, OnThumb(w, ClaimThumb(now, token))), OnThumb(w, CleanThumb)),
                          OnThumb(w, ThumbRemovalLands));
      && w !in t.thumbBytes && t.variants == s.variants && w in t.thumbs && OwnedBy(t.thumbs[w].op, token)
  {
    hide AfterUpload, AfterCopy, AfterRow, AfterDelete;
  }

  /** Renewals, errors, shutdowns and stops reach the operation rows of copies, deletes and thumbnails
      as they would any other, so a failed copy or delete is tried again. */
  lemma UpkeepExactly(s: State, k: Key, d: (Hash, nat), w: ThumbId, change: StorageOps.Event)
    requires change.Renew? || change.Fail? || change.Refund? || change.Stop? || change.Retire?
    ensures k in s.copies && s.copies[k].upload in s.uploads ==>
      Next(s, OnCopy(k, UpdateCopy(change))) == WithCopy(s, k, StorageOps.Next(s.copies[k].op, change))
    ensures d in s.deletes ==>
      Next(s, OnDelete(d, UpdateDelete(change))) == WithDelete(s, d, StorageOps.Next(s.deletes[d].op, change))
    ensures w in s.thumbs ==>
      Next(s, OnThumb(w, UpdateThumb(change))) == WithThumb(s, w, StorageOps.Next(s.thumbs[w].op, change))
  {
  }

  /** The deletion of an object takes its thumbnail along. */
  lemma ThumbnailGoesToo(s: State, d: (Hash, nat))
    requires DeletingSource(s, d) && d.0 in s.variants && s.variants[d.0] in s.thumbs
    ensures var t := Next(Next(s, OnDelete(d, IssueThumbRemoval)), OnThumb(s.variants[d.0], ThumbRemovalLands));
      s.variants[d.0] !in t.thumbBytes && t.rows == s.rows
  {
  }

  // ---- what is condemned is deleted ----

  /** Every object being deleted has the unfinished delete operation of its version, for its key; and
      no operation is ahead of its row. */
  predicate Planned(rows: Rows, deletes: Deletes) {
    && (forall d :: d in deletes ==> d.0 in rows && d.1 <= rows[d.0].version)
    && (forall h :: h in rows && rows[h].status.Deleting? ==>
          && (h, rows[h].version) in deletes
          && deletes[(h, rows[h].version)].source == rows[h].key
          && !deletes[(h, rows[h].version)].op.state.Succeeded?)
  }

  lemma AdoptPlans(rows: Rows, deletes: Deletes, k: Key, now: Time)
    requires Planned(rows, deletes)
    ensures Planned(AdoptRows(rows, k), AdoptDeletes(rows, deletes, k, now))
  {
    if Adopts(rows, k) {
      var row := Adopted(rows, k);
      assert (k.hash, row.version) !in deletes;
    }
  }

  lemma {:induction false} CleanupPlans(rows: Rows, deletes: Deletes, keys: seq<Key>, now: Time)
    requires Planned(rows, deletes)
    ensures Planned(CleanupRows(rows, keys), CleanupDeletes(rows, deletes, keys, now))
  {
    hide Planned, AdoptRows, AdoptDeletes;
    if keys != [] {
      var n := |keys| - 1;
      CleanupPlans(rows, deletes, keys[..n], now);
      AdoptPlans(CleanupRows(rows, keys[..n]), CleanupDeletes(rows, deletes, keys[..n], now), keys[n], now);
    }
  }

  lemma CommitPlans(s: State, u: UploadId, k: Key)
    requires Planned(s.rows, s.deletes)
    ensures var next := AfterCommit(s, u, k); Planned(next.rows, next.deletes)
  {
  }

  lemma RowPlans(s: State, h: Hash, e: RowEvent)
    requires RowsOk(s.rows) && Planned(s.rows, s.deletes)
    ensures var next := AfterRow(s, h, e); Planned(next.rows, next.deletes)
  {
  }

  lemma ClosedPlans(rows: Rows, deletes: Deletes, d: (Hash, nat), op: Operation)
    requires Planned(rows, deletes) && d in deletes
    requires op.state.Succeeded? ==> !(d.0 in rows && rows[d.0].status.Deleting? && rows[d.0].version == d.1)
    ensures Planned(rows, deletes[d := deletes[d].(op := op)])
  {
  }

  lemma RetiredPlans(rows: Rows, deletes: Deletes, d: (Hash, nat), op: Operation)
    requires Planned(rows, deletes) && d in deletes && d.0 in rows && rows[d.0].status.Deleting?
    ensures Planned(rows[d.0 := rows[d.0].(status := ObjectRows.Retired, version := rows[d.0].version + 1)],
                    deletes[d := deletes[d].(op := op)])
  {
  }

  lemma FinalizePlans(s: State, d: (Hash, nat), token: Token)
    requires RowsOk(s.rows) && Planned(s.rows, s.deletes)
    ensures var next := AfterFinalize(s, d, token); Planned(next.rows, next.deletes)
  {
    hide Planned, OwnedBy;
    if d in s.deletes && d.0 in s.rows {
      if s.rows[d.0].status.Deleting? {
        PlannedSource(s.rows, s.deletes, d.0);
      }
      if !DeletingSource(s, d) {
        ClosedPlans(s.rows, s.deletes, d, Finished(s.deletes[d].op));
      } else {
        RetiredPlans(s.rows, s.deletes, d, Finished(s.deletes[d].op));
      }
    }
  }

  lemma DeletePlans(s: State, d: (Hash, nat), e: DeleteEvent)
    requires RowsOk(s.rows) && Planned(s.rows, s.deletes)
    ensures var next := AfterDelete(s, d, e); Planned(next.rows, next.deletes)
  {
    hide AfterFinalize;
    match e
    case FinalizeDelete(token) => FinalizePlans(s, d, token);
    case ClaimDelete(now, token) =>
      if d in s.deletes {
        NeverSucceedsByUpkeep(s.deletes[d].op, Claim(now, LEASE, token));
      }
    case UpdateDelete(change) =>
      if d in s.deletes && Upkeep(change) {
        NeverSucceedsByUpkeep(s.deletes[d].op, change);
      }
    case _ =>
  }

  lemma OtherStepsPlan(s: State, e: Event)
    requires !e.OnUpload? && !e.OnRow? && !e.OnDelete?
    ensures Next(s, e).rows == s.rows && Next(s, e).deletes == s.deletes
  {
    hide AfterUpload, AfterRow, AfterDelete, AfterCopy, AfterThumb;
    match e
    case OnCopy(k, copy) => CopyTouchesNoRow(s, k, copy);
    case OnThumb(w, thumb) => ThumbTouchesNoRow(s, w, thumb);
    case _ =>
  }

  lemma CopyTouchesNoRow(s: State, k: Key, e: CopyEvent)
    ensures AfterCopy(s, k, e).rows == s.rows && AfterCopy(s, k, e).deletes == s.deletes
  {
    hide StorageOps.Next, Started, Finished;
  }

  lemma ThumbTouchesNoRow(s: State, w: ThumbId, e: ThumbEvent)
    ensures AfterThumb(s, w, e).rows == s.rows && AfterThumb(s, w, e).deletes == s.deletes
  {
    hide StorageOps.Next, Started, Finished;
  }

  lemma UploadPlans(s: State, e: UploadEvent)
    requires Planned(s.rows, s.deletes)
    ensures var next := AfterUpload(s, e); Planned(next.rows, next.deletes)
  {
    hide Planned, AfterCommit;
    match e
    case Commit(u, k) => CommitPlans(s, u, k);
    case FailVerify(u, targets, now) => CleanupPlans(s.rows, s.deletes, targets, now);
    case _ =>
  }

  /** In every reachable state an object that is no longer ready but not yet deleted has its delete
      operation, unfinished: nothing condemned is forgotten. */
  lemma {:induction false} CondemnedIsScheduled(trace: seq<Event>)
    ensures Planned(Run(trace).rows, Run(trace).deletes)
  {
    if trace != [] {
      var before, e := trace[..|trace| - 1], trace[|trace| - 1];
      CondemnedIsScheduled(before);
      Invariant(before);
      var s := Run(before);
      RowsAreOk(s);
      hide Planned, AfterUpload, AfterRow, AfterDelete, AfterCopy, AfterThumb;
      match e
      case OnUpload(upload) => UploadPlans(s, upload);
      case OnRow(h, row) => RowPlans(s, h, row);
      case OnDelete(d, del) => DeletePlans(s, d, del);
      case _ => OtherStepsPlan(s, e);
    }
  }

  lemma RowsAreOk(s: State)
    requires ObjectsOk(s)
    ensures RowsOk(s.rows)
  {
  }

  /** Garbage collection takes exactly the objects nobody references: a ready one is condemned in a
      new version, and either way its delete operation, to be claimed from now on, is there. */
  lemma CollectExactly(trace: seq<Event>, h: Hash, now: Time)
    requires h in Run(trace).rows
    ensures var s, next := Run(trace), Next(Run(trace), OnRow(h, Collect(now)));
      if s.rows[h].refs > 0 || s.rows[h].status == ObjectRows.Status.Retired then next == s
      else
        && h in next.rows && next.rows[h].status == Deleting && next.rows[h].key == s.rows[h].key
        && next.rows[h].refs == 0
        && (s.rows[h].status == Ready ==>
              && next.rows[h].version == s.rows[h].version + 1
              && (h, next.rows[h].version) in next.deletes
              && next.deletes[(h, next.rows[h].version)].source == s.rows[h].key
              && forall t :: t >= now ==> Startable(next.deletes[(h, next.rows[h].version)].op, t))
        && (s.rows[h].status == Deleting ==> next == s)
  {
    hide Run, Planned, ObjectsOk, ThumbnailsOk, Next;
    CondemnedIsScheduled(trace);
    Invariant(trace);
    RowsAreOk(Run(trace));
    CollectStep(Run(trace), h, now);
  }

  lemma CollectStep(s: State, h: Hash, now: Time)
    requires h in s.rows && RowsOk(s.rows) && Planned(s.rows, s.deletes)
    ensures var next := Next(s, OnRow(h, Collect(now)));
      if s.rows[h].refs > 0 || s.rows[h].status == ObjectRows.Status.Retired then next == s
      else
        && h in next.rows && next.rows[h].status == Deleting && next.rows[h].key == s.rows[h].key
        && next.rows[h].refs == 0
        && (s.rows[h].status == Ready ==>
              && next.rows[h].version == s.rows[h].version + 1
              && (h, next.rows[h].version) in next.deletes
              && next.deletes[(h, next.rows[h].version)].source == s.rows[h].key
              && forall t :: t >= now ==> Startable(next.deletes[(h, next.rows[h].version)].op, t))
        && (s.rows[h].status == Deleting ==> next == s)
  {
    hide AfterUpload, AfterCopy, AfterDelete, AfterThumb;
    var next := Next(s, OnRow(h, Collect(now)));
    if s.rows[h].status == Deleting {
      assert Condemned(s.rows[h]) == s.rows[h] && next.rows == s.rows && next.deletes == s.deletes;
    } else {
      assert (h, s.rows[h].version + 1) !in s.deletes;
    }
  }

  /** And its operation, once claimed, ends the object: the provider's bytes go first, then the row,
      which waits for the content under a key of its new version. */
  lemma DeletionCompletes(trace: seq<Event>, h: Hash, now: Time, token: Token)
    requires var s := Run(trace);
      && h in s.rows && s.rows[h].status.Deleting? && token !in s.tokens
      && (h, s.rows[h].version) in s.deletes && Startable(s.deletes[(h, s.rows[h].version)].op, now)
    ensures var s := Run(trace);
      var d := (h, s.rows[h].version);
      var t := Steps(s, [OnDelete(d, ClaimDelete(now, token)), OnDelete(d, IssueRemoval),
                         RemovalReturns(s.rows[h].key), OnDelete(d, FinalizeDelete(token))]);
      && s.rows[h].key !in t.bytes && d in t.deletes && t.deletes[d].op.state.Succeeded?
      && t.rows == s.rows[h := Row(ObjectRows.Status.Retired, s.rows[h].key, s.rows[h].version + 1, 0)]
  {
    hide Run, Steps, Planned, ObjectsOk, ThumbnailsOk, Next, Startable;
    var s := Run(trace);
    CondemnedIsScheduled(trace);
    Invariant(trace);
    RowFacts(s, h);
    PlannedSource(s.rows, s.deletes, h);
    RemovalRun(s, (h, s.rows[h].version), now, token);
  }

  lemma PlannedSource(rows: Rows, deletes: Deletes, h: Hash)
    requires Planned(rows, deletes) && h in rows && rows[h].status.Deleting?
    ensures (h, rows[h].version) in deletes && deletes[(h, rows[h].version)].source == rows[h].key
  {
  }

  lemma RemovalRun(s: State, d: (Hash, nat), now: Time, token: Token)
    requires d.0 in s.rows && s.rows[d.0].status.Deleting? && s.rows[d.0].refs == 0 && token !in s.tokens
    requires d in s.deletes && s.deletes[d].source == s.rows[d.0].key && Startable(s.deletes[d].op, now)
    ensures var k := s.rows[d.0].key;
      var t := Steps(s, [OnDelete(d, ClaimDelete(now, token)), OnDelete(d, IssueRemoval),
                         RemovalReturns(k), OnDelete(d, FinalizeDelete(token))]);
      && k !in t.bytes && d in t.deletes && t.deletes[d].op.state.Succeeded?
      && t.rows == s.rows[d.0 := Row(ObjectRows.Status.Retired, k, s.rows[d.0].version + 1, 0)]
  {
    hide Steps, AfterUpload, AfterCopy, AfterRow, AfterThumb;
    var k := s.rows[d.0].key;
    FourSteps(s, OnDelete(d, ClaimDelete(now, token)), OnDelete(d, IssueRemoval), RemovalReturns(k),
      OnDelete(d, FinalizeDelete(token)));
    var s1 := Next(s, OnDelete(d, ClaimDelete(now, token)));
    assert s1.rows == s.rows && s1.deletes[d].source == k && OwnedBy(s1.deletes[d].op, token);
    var s2 := Next(s1, OnDelete(d, IssueRemoval));
    var s3 := Next(s2, RemovalReturns(k));
    assert s3.rows == s.rows && k in s3.removed && s3.deletes == s1.deletes && k !in s3.bytes;
  }

  /** A thumbnail written for a ready object that has none becomes its variant. */
  lemma ThumbnailAppears(s: State, w: ThumbId, h: Hash, now: Time, token: Token)
    requires h in s.rows && s.rows[h].status.Ready? && h !in s.variants && w !in s.thumbs && token !in s.tokens
    ensures var t := Steps(s, [OnThumb(w, RegisterThumb(h, s.rows[h].key, now, token)), OnThumb(w, IssuePut),
                               OnThumb(w, PutReturns), OnThumb(w, CommitThumb)]);
      && t.variants == s.variants[h := w] && w in t.thumbBytes && t.rows == s.rows
      && w in t.thumbs && t.thumbs[w].op.state.Succeeded?
  {
    hide Steps, AfterUpload, AfterCopy, AfterRow, AfterDelete;
    var k := s.rows[h].key;
    FourSteps(s, OnThumb(w, RegisterThumb(h, k, now, token)), OnThumb(w, IssuePut), OnThumb(w, PutReturns),
      OnThumb(w, CommitThumb));
    var s1 := Next(s, OnThumb(w, RegisterThumb(h, k, now, token)));
    assert s1.rows == s.rows && s1.variants == s.variants && OwnedBy(s1.thumbs[w].op, token);
    var s2 := Next(s1, OnThumb(w, IssuePut));
    var s3 := Next(s2, OnThumb(w, PutReturns));
    assert s3.thumbs == s1.thumbs && w in s3.put && s3.rows == s.rows && s3.variants == s.variants;
  }

  // ---- why failing uploads must adopt their copy targets ----

  /** fail without registerCanonicalCleanup. */
  function AfterBareFail(s: State, u: UploadId): State {
    if u in s.uploads then s.(uploads := s.uploads[u := s.uploads[u].(status := FailedUpload)]) else s
  }

  function Steps(s: State, events: seq<Event>): State
    decreases |events|
  {
    if events == [] then s else Steps(Next(s, events[0]), events[1..])
  }

  /** One upload plans the copy for hash 7 and fails bare; its worker marks the copy succeeded
      without copying; a second upload finds the copy succeeded and commits a ready row. */
  function Unadopted(): State {
    var planned := Steps(Empty, [OnUpload(StartVerify(1, 7)), OnUpload(PlanCopy(1, 0))]);
    var skipped := Steps(AfterBareFail(planned, 1), [OnCopy(Base(7), ClaimCopy(0, 5)), OnCopy(Base(7), SkipCopy(5))]);
    Steps(skipped,
      [OnUpload(StartVerify(2, 7)), OnUpload(PlanCopy(2, 0)), OnUpload(AwaitCopy(2, Base(7))),
        OnUpload(Commit(2, Base(7)))])
  }

  lemma TwoSteps(s: State, a: Event, b: Event)
    ensures Steps(s, [a, b]) == Next(Next(s, a), b)
  {
    assert [a, b][1..] == [b] && [b][1..] == [];
    assert Steps(Next(s, a), [b]) == Steps(Next(Next(s, a), b), []);
  }

  lemma FourSteps(s: State, a: Event, b: Event, c: Event, d: Event)
    ensures Steps(s, [a, b, c, d]) == Next(Next(Next(Next(s, a), b), c), d)
  {
    assert [a, b, c, d][1..] == [b, c, d] && [b, c, d][1..] == [c, d];
    TwoSteps(Next(Next(s, a), b), c, d);
  }

  /** Without the cleanup the same protocol reaches a ready object whose bytes were never stored. */
  lemma CleanupIsNeeded()
    ensures 7 in Unadopted().rows && Unadopted().rows[7].status.Ready? && Unadopted().bytes == {} && !Safe(Unadopted())
  {
    hide AfterRow, AfterDelete, AfterThumb, AfterFail, AfterCommit, Steps;
    var s0 := Next(Empty, OnUpload(StartVerify(1, 7)));
    var s1 := Next(s0, OnUpload(PlanCopy(1, 0)));
    TwoSteps(Empty, OnUpload(StartVerify(1, 7)), OnUpload(PlanCopy(1, 0)));
    assert s1.copies == map[Base(7) := Copy(Enqueued("canonical.ensure", 0), 1)] && s1.rows == map[] && s1.bytes == {}
      && s1.tokens == {};
    var s2 := AfterBareFail(s1, 1);
    var s3 := Next(s2, OnCopy(Base(7), ClaimCopy(0, 5)));
    var s4 := Next(s3, OnCopy(Base(7), SkipCopy(5)));
    TwoSteps(s2, OnCopy(Base(7), ClaimCopy(0, 5)), OnCopy(Base(7), SkipCopy(5)));
    assert OwnedBy(s3.copies[Base(7)].op, 5);
    assert s4.copies[Base(7)].op.state.Succeeded? && s4.rows == map[] && s4.bytes == {} && 2 !in s4.uploads;
    SecondUploadCommits(s4);
  }

  lemma SecondUploadCommits(s: State)
    requires Base(7) in s.copies && s.copies[Base(7)].op.state.Succeeded? && s.rows == map[] && s.bytes == {}
    requires 2 !in s.uploads
    ensures var t := Steps(s,
              [OnUpload(StartVerify(2, 7)), OnUpload(PlanCopy(2, 0)), OnUpload(AwaitCopy(2, Base(7))),
                OnUpload(Commit(2, Base(7)))]);
      7 in t.rows && t.rows[7].status.Ready? && t.bytes == {}
  {
    hide AfterCopy, AfterRow, AfterDelete, AfterThumb, AfterFail, Steps;
    FourSteps(s, OnUpload(StartVerify(2, 7)), OnUpload(PlanCopy(2, 0)), OnUpload(AwaitCopy(2, Base(7))),
      OnUpload(Commit(2, Base(7))));
    var s1 := Next(s, OnUpload(StartVerify(2, 7)));
    var s2 := Next(s1, OnUpload(PlanCopy(2, 0)));
    assert s2.rows == map[] && (2, Base(7)) in s2.planned && s2.copies == s.copies;
    var s3 := Next(s2, OnUpload(AwaitCopy(2, Base(7))));
    assert (2, Base(7)) in s3.prepared && s3.rows == map[] && s3.uploads[2] == Upload(7, Verifying);
  }

  // ---- the object table carries out these steps ----

  predicate Backs(table: ObjectTable, s: State)
    reads table
  {
    table.rows == s.rows && table.deletes == s.deletes
  }

  method TakeReference(table: ObjectTable, ghost s: State, h: Hash)
    requires Backs(table, s)
    modifies table
    ensures Backs(table, Next(s, OnRow(h, AddRef)))
  {
    var ok := table.AddReference(h);
  }

  method DropReference(table: ObjectTable, ghost s: State, h: Hash)
    requires Backs(table, s)
    modifies table
    ensures Backs(table, Next(s, OnRow(h, ReleaseRef)))
  {
    var remaining := table.ReleaseReference(h);
  }

  method CollectGarbage(table: ObjectTable, ghost s: State, h: Hash, now: Time)
    requires Backs(table, s)
    modifies table
    ensures Backs(table, Next(s, OnRow(h, Collect(now))))
  {
    var scheduled := table.GarbageCollect(h, now);
  }

  /** The object part of Verify's commit, for an upload that prepared the key. */
  method CommitObject(table: ObjectTable, ghost s: State, ghost u: UploadId, k: Key)
    requires Backs(table, s)
    requires (u, k) in s.prepared && u in s.uploads && s.uploads[u].status.Verifying?
    modifies table
    ensures Backs(table, Next(s, OnUpload(Commit(u, k))))
  {
    var made := table.CreateOrGet(k);
    if made.Created? {
      var ok := table.AddReference(k.hash);
    }
  }

  /** The object part of fail, for the upload's copy targets. */
  method FailUpload(table: ObjectTable, ghost s: State, ghost u: UploadId, targets: seq<Key>, now: Time)
    requires Backs(table, s) && ObjectsOk(s)
    requires u in s.uploads && !s.uploads[u].status.Completed? && TargetsOf(s, u, targets)
    modifies table
    ensures Backs(table, Next(s, OnUpload(FailVerify(u, targets, now))))
  {
    table.RegisterCanonicalCleanup(targets, now);
  }
}
