/** Content-addressed objects: rows, generation keys and the transactions that change them. */
module ObjectRows {
  import opened Common
  import opened StorageOps

  type Hash = nat

  /** objects/sha256/<h> for the first life of a row, .../v<n> for a revival at row version n. */
  datatype Key = Base(hash: Hash) | Revived(hash: Hash, version: nat)

  datatype Status = Ready | Deleting | Retired

  datatype Row = Row(status: Status, key: Key, version: nat, refs: nat)

  /** An object.delete operation, named by the row version that scheduled it. */
  datatype Delete = Delete(op: Operation, source: Key)

  type Rows = map<Hash, Row>
  type Deletes = map<(Hash, nat), Delete>

  datatype Created = Created(rows: Rows) | GenerationChanged | ChangedDuringReuse | BeingDeleted

  function Generation(k: Key): nat {
    if k.Base? then 0 else k.version
  }

  function RevivalKey(h: Hash, row: Row): Key {
    Revived(h, row.version)
  }

  predicate ReadyAt(rows: Rows, k: Key) {
    k.hash in rows && rows[k.hash].status.Ready? && rows[k.hash].key == k
  }

  /** No row can become ready under `k` any more. */
  predicate Unusable(rows: Rows, k: Key) {
    && k.hash in rows
    && Generation(k) < rows[k.hash].version
    && !ReadyAt(rows, k)
  }

  function Acquire(rows: Rows, k: Key): Created {
    if k.hash !in rows then Created(rows[k.hash := Row(Ready, k, 1, 0)])
    else
      var row := rows[k.hash];
      match row.status
      case Ready => Created(rows)
      case Retired => if k != RevivalKey(k.hash, row) then GenerationChanged
                      else if row.refs != 0 then ChangedDuringReuse
                      else Created(rows[k.hash := row.(status := Ready, key := k, version := row.version + 1)])
      case Deleting => BeingDeleted
  }

  function Schedule(deletes: Deletes, h: Hash, row: Row, now: Time): Deletes {
    if (h, row.version) in deletes then deletes
    else deletes[(h, row.version) := Delete(Enqueued("object.delete", now), row.key)]
  }

  /** registerCanonicalCleanup for one copy target: adopt an orphan copy as a deleting row. */
  predicate Adopts(rows: Rows, k: Key) {
    k.hash !in rows || (rows[k.hash].status.Retired? && k == RevivalKey(k.hash, rows[k.hash]))
  }

  function Adopted(rows: Rows, k: Key): Row {
    Row(Deleting, k, if k.hash in rows then rows[k.hash].version + 2 else 2, 0)
  }

  function AdoptRows(rows: Rows, k: Key): Rows {
    if Adopts(rows, k) then rows[k.hash := Adopted(rows, k)] else rows
  }

  function AdoptDeletes(rows: Rows, deletes: Deletes, k: Key, now: Time): Deletes {
    if Adopts(rows, k) then Schedule(deletes, k.hash, Adopted(rows, k), now) else deletes
  }

  function CleanupRows(rows: Rows, keys: seq<Key>): Rows {
    if keys == [] then rows else AdoptRows(CleanupRows(rows, keys[..|keys| - 1]), keys[|keys| - 1])
  }

  function CleanupDeletes(rows: Rows, deletes: Deletes, keys: seq<Key>, now: Time): Deletes {
    if keys == [] then deletes else
      AdoptDeletes(CleanupRows(rows, keys[..|keys| - 1]), CleanupDeletes(rows, deletes, keys[..|keys| - 1], now),
                   keys[|keys| - 1], now)
  }

  function Condemned(row: Row): Row {
    if row.status.Ready? then row.(status := Deleting, version := row.version + 1) else row
  }

  predicate Collectable(rows: Rows, h: Hash) {
    h in rows && rows[h].refs == 0 && !rows[h].status.Retired?
  }

  predicate RowsOk(rows: Rows) {
    forall h :: h in rows ==>
      && rows[h].key.hash == h
      && Generation(rows[h].key) < rows[h].version
      && (!rows[h].status.Ready? ==> rows[h].refs == 0)
  }

  /** How a row may change: versions only grow, and a row turns ready only under a key whose
      generation is the row's own version (or, when there was no row, under any key). */
  predicate Advances(rows: Rows, next: Rows) {
    forall h :: h in rows ==>
      && h in next
      && rows[h].version <= next[h].version
      && (rows[h].version == next[h].version ==> rows[h] == next[h])
      && (next[h].status.Ready? ==>
            (rows[h].status.Ready? && rows[h].key == next[h].key) || Generation(next[h].key) >= rows[h].version)
  }

  lemma UnusableIsForever(rows: Rows, next: Rows, k: Key)
    requires Advances(rows, next) && Unusable(rows, k)
    ensures Unusable(next, k)
  {
  }

  /** Once a copy target is not the fresh generation of its row, it is out of use. */
  predicate TargetOk(rows: Rows, k: Key) {
    k.Revived? ==>
      && k.hash in rows
      && k.version <= rows[k.hash].version
      && (k.version == rows[k.hash].version ==> rows[k.hash].status.Retired?)
  }

  lemma CleanupStep(rows: Rows, k: Key)
    requires RowsOk(rows) && TargetOk(rows, k)
    ensures RowsOk(AdoptRows(rows, k)) && Advances(rows, AdoptRows(rows, k))
    ensures forall t: Key :: TargetOk(rows, t) ==> TargetOk(AdoptRows(rows, k), t)
    ensures forall h :: h in AdoptRows(rows, k) && AdoptRows(rows, k)[h].status.Ready? ==>
              h in rows && rows[h] == AdoptRows(rows, k)[h]
    ensures Unusable(AdoptRows(rows, k), k) || ReadyAt(AdoptRows(rows, k), k)
  {
  }

  /** After the cleanup of a failed session none of its copy targets can be taken for a fresh
      copy: each is out of use for good, unless another upload already made it a ready object. */
  lemma {:induction false} CleanupRetiresTargets(rows: Rows, keys: seq<Key>)
    requires RowsOk(rows) && forall i :: 0 <= i < |keys| ==> TargetOk(rows, keys[i])
    ensures var next := CleanupRows(rows, keys);
      && RowsOk(next) && Advances(rows, next)
      && (forall t: Key :: TargetOk(rows, t) ==> TargetOk(next, t))
      && (forall h :: h in next && next[h].status.Ready? ==> h in rows && rows[h] == next[h])
      && (forall i :: 0 <= i < |keys| ==> Unusable(next, keys[i]) || ReadyAt(next, keys[i]))
  {
    if keys != [] {
      var n := |keys| - 1;
      var mid, next := CleanupRows(rows, keys[..n]), CleanupRows(rows, keys);
      CleanupRetiresTargets(rows, keys[..n]);
      CleanupStep(mid, keys[n]);
      forall i | 0 <= i < n
        ensures Unusable(next, keys[i]) || ReadyAt(next, keys[i])
      {
        assert keys[..n][i] == keys[i];
        if Unusable(mid, keys[i]) {
          UnusableIsForever(mid, next, keys[i]);
        }
      }
    }
  }

  /** The file_objects and object.delete tables with the transactions of objectstore.Service. */
  class ObjectTable {
    var rows: Rows
    var deletes: Deletes

    /** Adds the row, returns a ready one, or revives a deleted one under the key of its version. */
    method CreateOrGet(k: Key) returns (r: Created)
      modifies this`rows
      ensures r == Acquire(old(rows), k)
      ensures rows == if r.Created? then r.rows else old(rows)
      ensures r.BeingDeleted? <==> k.hash in old(rows) && old(rows)[k.hash].status == Deleting
      ensures r.GenerationChanged? <==>
        && k.hash in old(rows) && old(rows)[k.hash].status == Status.Retired
        && k != Revived(k.hash, old(rows)[k.hash].version)
      ensures r.ChangedDuringReuse? <==>
        && k.hash in old(rows) && old(rows)[k.hash].status == Status.Retired
        && k == Revived(k.hash, old(rows)[k.hash].version) && old(rows)[k.hash].refs > 0
      ensures r.Created? ==>
        rows == old(rows)[k.hash := if k.hash !in old(rows) then Row(Ready, k, 1, 0)
                                    else if old(rows)[k.hash].status == Ready then old(rows)[k.hash]
                                    else Row(Ready, k, old(rows)[k.hash].version + 1, 0)]
    {
      if k.hash !in rows {
        rows := rows[k.hash := Row(Ready, k, 1, 0)];
        return Created(rows);
      }
      var existing := rows[k.hash];
      match existing.status {
        case Ready =>
          return Created(rows);
        case Retired =>
          if k != RevivalKey(k.hash, existing) {
            return GenerationChanged;
          }
          if existing.refs != 0 {
            return ChangedDuringReuse;
          }
          existing := existing.(status := Ready, key := k, version := existing.version + 1);
          rows := rows[k.hash := existing];
          return Created(rows);
        case Deleting =>
          return BeingDeleted;
      }
    }

    method AddReference(h: Hash) returns (ok: bool)
      modifies this`rows
      ensures ok <==> h in old(rows) && old(rows)[h].status.Ready?
      ensures rows == if ok then
                old(rows)[h := old(rows)[h].(refs := old(rows)[h].refs + 1, version := old(rows)[h].version + 1)]
                      else old(rows)
    {
      ok := h in rows && rows[h].status.Ready?;
      if ok {
        rows := rows[h := rows[h].(refs := rows[h].refs + 1, version := rows[h].version + 1)];
      }
    }

    /** Returns how many references remain, or nothing when there is no such row. */
    method ReleaseReference(h: Hash) returns (remaining: Option<nat>)
      modifies this`rows
      ensures h !in old(rows) ==> remaining == None && rows == old(rows)
      ensures h in old(rows) ==>
        var was := old(rows)[h];
        && rows == (if was.refs > 0 then old(rows)[h := was.(refs := was.refs - 1, version := was.version + 1)]
             else old(rows))
        && remaining == Some(if was.refs > 0 then was.refs - 1 else 0)
    {
      if h !in rows {
        return None;
      }
      if rows[h].refs > 0 {
        rows := rows[h := rows[h].(refs := rows[h].refs - 1, version := rows[h].version + 1)];
      }
      remaining := Some(rows[h].refs);
    }

    /** The scheduling transaction of GarbageCollect. */
    method GarbageCollect(h: Hash, now: Time) returns (scheduled: bool)
      modifies this
      ensures scheduled <==> Collectable(old(rows), h)
      ensures rows == if scheduled then old(rows)[h := Condemned(old(rows)[h])] else old(rows)
      ensures deletes == if scheduled then Schedule(old(deletes), h, Condemned(old(rows)[h]), now) else old(deletes)
    {
      if h !in rows || rows[h].refs > 0 || rows[h].status.Retired? {
        return false;
      }
      if rows[h].status.Ready? {
        rows := rows[h := rows[h].(status := Deleting, version := rows[h].version + 1)];
      }
      var name := (h, rows[h].version);
      if name !in deletes {
        deletes := deletes[name := Delete(Enqueued("object.delete", now), rows[h].key)];
      }
      return true;
    }

    /** The body of registerCanonicalCleanup's loop: an orphan copy becomes a deleting row. */
    method AdoptOrphan(k: Key, now: Time)
      requires RowsOk(rows) && TargetOk(rows, k)
      modifies this
      ensures rows == AdoptRows(old(rows), k)
      ensures deletes == AdoptDeletes(old(rows), old(deletes), k, now)
    {
      if k.hash in rows && (!rows[k.hash].status.Retired? || k != RevivalKey(k.hash, rows[k.hash])) {
        return;
      }
      var made := CreateOrGet(k);
      var row := rows[k.hash];
      row := row.(status := Deleting, version := row.version + 1);
      rows := rows[k.hash := row];
      var name := (k.hash, row.version);
      if name !in deletes {
        deletes := deletes[name := Delete(Enqueued("object.delete", now), row.key)];
      }
    }

    /** registerCanonicalCleanup over the copy targets of one failed session. */
    method RegisterCanonicalCleanup(targets: seq<Key>, now: Time)
      requires RowsOk(rows) && forall i :: 0 <= i < |targets| ==> TargetOk(rows, targets[i])
      modifies this
      ensures rows == CleanupRows(old(rows), targets)
      ensures deletes == CleanupDeletes(old(rows), old(deletes), targets, now)
    {
      hide RowsOk, TargetOk, AdoptRows, AdoptDeletes, Advances;
      for n := 0 to |targets|
        invariant rows == CleanupRows(old(rows), targets[..n])
        invariant deletes == CleanupDeletes(old(rows), old(deletes), targets[..n], now)
      {
        CleanupRetiresTargets(old(rows), targets[..n]);
        assert targets[..n + 1][..n] == targets[..n];
        AdoptOrphan(targets[n], now);
      }
      assert targets[..|targets|] == targets;
    }
  }
}
