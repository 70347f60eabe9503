/** outbox.Routes: which queues an event type goes to, and the names old relays used for them. */
module OutboxRoutes {
  import opened Common

  datatype Target = Target(task: string, queue: string)

  function Destination(t: Target): string {
    t.task + "@" + t.queue
  }

  const FILE_CREATED := "file.created.v1"
  const SHARE_IMPORTED := "share.imported.v1"
  const OBJECT_VERIFY_REQUESTED := "object.verify_requested.v1"
  const OBJECT_READY := "object.ready.v1"
  const OBJECT_GC_REQUESTED := "object.gc_requested.v1"
  const AI_INDEX_REQUESTED := "ai.index_requested.v1"
  const AI_REPROCESS_REQUESTED := "ai.reprocess_requested.v1"
  const STORAGE_OPERATION_RECOVER := "storage.operation_recover.v1"
  const UPLOAD_OPERATION_RECOVER := "upload.operation_recover.v1"
  const MEDIA_THUMBNAIL_REQUESTED := "media.thumbnail_requested.v1"
  const OBJECT_VERIFY := "object.verify.v1"
  const MEDIA_THUMBNAIL := "media.thumbnail.v1"
  const OBJECT_GC := "object.gc.v1"
  const AI_INDEX := "ai.index.v1"
  const AI_REPROCESS := "ai.reprocess.v1"
  const SEARCH_PROJECT := "search.project.v1"

  const SEARCHED: set<string> :=
    {FILE_CREATED, "file.updated.v1", "file.deleted.v1", "folder.created.v1", "folder.renamed.v1", "folder.moved.v1",
     "folder.deleted.v1", "share.created.v1", "share.updated.v1", "share.revoked.v1", SHARE_IMPORTED, OBJECT_READY,
     OBJECT_GC_REQUESTED, AI_INDEX_REQUESTED, "ai.indexed.v1"}

  function SearchRoutes(event: string, enabled: bool): seq<Target> {
    if enabled && event in SEARCHED then [Target(SEARCH_PROJECT, "search")] else []
  }

  function Routes(event: string, ai: bool): seq<Target> {
    if event == FILE_CREATED then [Target(FILE_CREATED, "maintenance")]
    else if event == SHARE_IMPORTED then [Target(SHARE_IMPORTED, "maintenance")]
    else if event == OBJECT_VERIFY_REQUESTED then [Target(OBJECT_VERIFY, "object")]
    else if event == OBJECT_READY then
      [Target(MEDIA_THUMBNAIL, "media")] + (if ai then [Target(AI_INDEX, "ai")] else [])
    else if event == OBJECT_GC_REQUESTED then [Target(OBJECT_GC, "maintenance")]
    else if event == AI_REPROCESS_REQUESTED then (if ai then [Target(AI_REPROCESS, "ai")] else [])
    else if event == AI_INDEX_REQUESTED then (if ai then [Target(AI_INDEX, "ai")] else [])
    else if event == STORAGE_OPERATION_RECOVER then [Target(STORAGE_OPERATION_RECOVER, "maintenance")]
    else if event == UPLOAD_OPERATION_RECOVER then [Target(UPLOAD_OPERATION_RECOVER, "upload")]
    else if event == MEDIA_THUMBNAIL_REQUESTED then [Target(MEDIA_THUMBNAIL_REQUESTED, "media")]
    else []
  }

  function AllRoutes(event: string, ai: bool, search: bool): seq<Target> {
    Routes(event, ai) + SearchRoutes(event, search)
  }

  /** canonicalTaskType. */
  function Canonical(t: Target): Target {
    if t == Target(OBJECT_VERIFY_REQUESTED, "object") then Target(OBJECT_VERIFY, "object")
    else if t == Target(OBJECT_READY, "media") then Target(MEDIA_THUMBNAIL, "media")
    else if t == Target(OBJECT_GC_REQUESTED, "maintenance") then Target(OBJECT_GC, "maintenance")
    else if t == Target(UPLOAD_OPERATION_RECOVER, "upload") then Target(UPLOAD_OPERATION_RECOVER, "upload")
    else if t == Target(AI_INDEX_REQUESTED, "ai") then Target(AI_INDEX, "ai")
    else if t == Target(AI_REPROCESS_REQUESTED, "ai") then Target(AI_REPROCESS, "ai")
    else t
  }

  /** Where the last @ is, or -1. */
  function LastAt(s: string): (i: int)
    ensures -1 <= i < |s|
  {
    if s == "" then -1 else if s[|s| - 1] == '@' then |s| - 1 else LastAt(s[..|s| - 1])
  }

  /** targetFromDelivery for a RabbitMQ row. */
  function Parse(destination: string): Option<Target> {
    var i := LastAt(destination);
    if i <= 0 || i == |destination| - 1 then None
    else Some(Canonical(Target(destination[..i], destination[i + 1..])))
  }

  predicate Named(t: Target) {
    t.task != "" && t.queue != "" && '@' !in t.queue
  }

  lemma {:induction false} LastAtOf(a: string, b: string)
    requires '@' !in b
    ensures LastAt(a + "@" + b) == |a|
  {
    var s := a + "@" + b;
    if b == "" {
      assert s[|s| - 1] == '@';
    } else {
      assert s[|s| - 1] == b[|b| - 1];
      assert s[..|s| - 1] == a + "@" + b[..|b| - 1];
      LastAtOf(a, b[..|b| - 1]);
    }
  }

  lemma {:induction false} AfterLastAt(s: string)
    ensures var i := LastAt(s); '@' !in s[i + 1..]
  {
    if s != "" && s[|s| - 1] != '@' {
      AfterLastAt(s[..|s| - 1]);
      var i := LastAt(s);
      assert s[i + 1..] == s[..|s| - 1][i + 1..] + [s[|s| - 1]];
    }
  }

  lemma CanonicalTwice(t: Target)
    ensures Canonical(Canonical(t)) == Canonical(t)
    ensures Named(t) ==> Named(Canonical(t))
    ensures Canonical(t).queue == t.queue
  {
  }

  lemma ParseOfDestination(t: Target)
    requires Named(t)
    ensures Parse(Destination(t)) == Some(Canonical(t))
  {
    LastAtOf(t.task, t.queue);
    var d := Destination(t);
    assert d[..|t.task|] == t.task && d[|t.task| + 1..] == t.queue;
  }

  /** Reading a destination back gives a target whose own destination reads back as itself, so one
      canonical name, and one task id, stands for all its aliases. */
  lemma CanonicalNamesAreStable(destination: string)
    requires Parse(destination).Some?
    ensures var t := Parse(destination).value;
            Named(t) && Canonical(t) == t && Parse(Destination(t)) == Some(t)
  {
    var i := LastAt(destination);
    AfterLastAt(destination);
    var raw := Target(destination[..i], destination[i + 1..]);
    CanonicalTwice(raw);
    ParseOfDestination(Parse(destination).value);
  }

  lemma NoAt(a: string)
    requires a == "maintenance" || a == "object" || a == "media" || a == "ai" || a == "upload" || a == "search"
    ensures '@' !in a
  {
  }

  /** Every registered target is already canonical. */
  lemma RoutesAreCanonical(event: string, ai: bool, search: bool)
    ensures forall i :: 0 <= i < |AllRoutes(event, ai, search)| ==>
              var t := AllRoutes(event, ai, search)[i]; Named(t) && Canonical(t) == t
  {
    NoAt("maintenance");
    NoAt("object");
    NoAt("media");
    NoAt("ai");
    NoAt("upload");
    NoAt("search");
  }

  /** Which task every event starts, spelled out as the names stand in the database. */
  lemma EventsReachTasks(ai: bool)
    ensures Routes("file.created.v1", ai) == [Target("file.created.v1", "maintenance")]
    ensures Routes("share.imported.v1", ai) == [Target("share.imported.v1", "maintenance")]
    ensures Routes("object.verify_requested.v1", ai) == [Target("object.verify.v1", "object")]
    ensures Routes("object.gc_requested.v1", ai) == [Target("object.gc.v1", "maintenance")]
    ensures Routes("storage.operation_recover.v1", ai) == [Target("storage.operation_recover.v1", "maintenance")]
    ensures Routes("upload.operation_recover.v1", ai) == [Target("upload.operation_recover.v1", "upload")]
    ensures Routes("media.thumbnail_requested.v1", ai) == [Target("media.thumbnail_requested.v1", "media")]
    ensures Routes("object.ready.v1", false) == [Target("media.thumbnail.v1", "media")]
    ensures Routes("object.ready.v1", true) == [Target("media.thumbnail.v1", "media"), Target("ai.index.v1", "ai")]
    ensures Routes("ai.index_requested.v1", true) == [Target("ai.index.v1", "ai")]
    ensures Routes("ai.reprocess_requested.v1", true) == [Target("ai.reprocess.v1", "ai")]
  {
  }

  /** AI tasks start only with AI on, search tasks for exactly the searched events with search on;
      neither switch touches any other task, and no task is started twice. */
  lemma SwitchesAreSeparate(event: string, ai: bool, search: bool, t: Target)
    ensures t in AllRoutes(event, ai, search) && t.queue == "ai" ==> ai
    ensures t.queue != "ai" && t.queue != "search" ==>
              (t in AllRoutes(event, ai, search) <==> t in AllRoutes(event, false, false))
    ensures Target("search.project.v1", "search") in AllRoutes(event, ai, search) <==> search && event in SEARCHED
    ensures t in AllRoutes(event, ai, search) && t.queue == "search" ==> t == Target("search.project.v1", "search")
    ensures forall i, j :: 0 <= i < j < |AllRoutes(event, ai, search)| ==>
              AllRoutes(event, ai, search)[i] != AllRoutes(event, ai, search)[j]
  {
  }

  /** The two tables agree: a name an old relay used for an event's task is read as that task, one the
      event still starts; and every other name is read as it stands. */
  lemma OldNamesAreRoutes(t: Target)
    ensures Canonical(t) != t ==> Canonical(t) in Routes(t.task, true)
    ensures Canonical(t) == t <==>
              t !in {Target("object.verify_requested.v1", "object"), Target("object.ready.v1", "media"),
                     Target("object.gc_requested.v1", "maintenance"), Target("ai.index_requested.v1", "ai"),
                     Target("ai.reprocess_requested.v1", "ai")}
  {
  }
}

/** One outbox event with its deliveries, and the relays that work on them. */
module Outbox {
  import opened Common
  import opened OutboxRoutes

  datatype Transport = RabbitMQ | Asynq

  datatype Key = Key(transport: Transport, destination: string)

  datatype RowStatus = Pending | Sending | Failed | Published

  /** `notBefore` is the deadline pinned once, after the row is written. */
  datatype Row = Row(
    status: RowStatus,
    token: Option<Token>,
    leaseUntil: Option<Time>,
    retry: nat,
    availableAt: Time,
    notBefore: Option<Time>)

  function NewRow(now: Time): Row {
    Row(Pending, None, None, 0, now, None)
  }

  /** The row condition of claimDeliveries. */
  predicate DueRow(k: Key, row: Row, now: Time) {
    && k.transport.RabbitMQ? && row.notBefore.Some? && row.notBefore.value <= now
    && (((row.status.Pending? || row.status.Failed?) && row.availableAt <= now)
        || (row.status.Sending? && row.leaseUntil.Some? && row.leaseUntil.value <= now))
  }

  function Claimed(row: Row, until: Time, token: Token): Row {
    row.(status := Sending, leaseUntil := Some(until), token := Some(token))
  }

  function Acked(row: Row): Row {
    row.(status := Published, leaseUntil := None, token := None)
  }

  /** A failed send waits for its backoff, a released one does not. */
  function Returned(row: Row, retryAt: Option<Time>): Row {
    var free := row.(leaseUntil := None, token := None);
    if retryAt.Some? then free.(status := Failed, availableAt := retryAt.value) else free.(status := Pending)
  }

  function Replayed(row: Row, retry: Option<nat>, now: Time): Row {
    row.(status := Pending, token := None, leaseUntil := None, availableAt := now,
         retry := if retry.Some? then retry.value else row.retry)
  }

  type Rows = map<Key, Row>

  /** The legacy transport is read as if it were the current one. */
  predicate Owns(k: Key, t: Target) {
    Parse(k.destination) == Some(t)
  }

  predicate OwnedIn(rows: Rows, t: Target) {
    exists k :: k in rows && Owns(k, t)
  }

  /** Both deliveries stand for the same task, however their destinations are written. */
  predicate Alike(j: Key, k: Key) {
    Parse(j.destination).Some? && Parse(j.destination) == Parse(k.destination)
  }

  /** No two deliveries of the event stand for the same task. */
  predicate Distinct(rows: Rows) {
    forall j, k :: j in rows && k in rows && Alike(j, k) ==> j == k
  }

  /** Deliveries for one task that are not one and the same were both there before. */
  predicate NoNewAlias(rows: Rows, next: Rows) {
    forall j, k :: j in next && k in next && Alike(j, k) && j != k ==> j in rows && k in rows
  }

  function AddRow(rows: Rows, t: Target, now: Time): Rows {
    var key := Key(RabbitMQ, Destination(t));
    if OwnedIn(rows, t) || key in rows then rows else rows[key := NewRow(now)]
  }

  function Added(rows: Rows, targets: seq<Target>, now: Time): Rows {
    if targets == [] then rows else AddRow(Added(rows, targets[..|targets| - 1], now), targets[|targets| - 1], now)
  }

  lemma AddRowKeepsDistinct(rows: Rows, t: Target, now: Time)
    requires Parse(Destination(t)) == Some(t)
    ensures var next := AddRow(rows, t, now);
            && NoNewAlias(rows, next) && OwnedIn(next, t)
            && (forall k :: k in rows ==> k in next && next[k] == rows[k])
            && (forall u :: OwnedIn(rows, u) ==> OwnedIn(next, u))
            && (forall k :: k in next && k !in rows ==> next[k].status.Pending?)
  {
    hide Parse, Destination;
    var next, own := AddRow(rows, t, now), Key(RabbitMQ, Destination(t));
    assert own in next ==> Owns(own, t);
    assert forall k :: k in next && k !in rows ==> k == own && !OwnedIn(rows, t);
    forall j, k | j in next && k in next && Alike(j, k) && j != k
      ensures j in rows && k in rows
    {
      assert j in rows && Owns(j, t) ==> OwnedIn(rows, t);
      assert k in rows && Owns(k, t) ==> OwnedIn(rows, t);
    }
    forall u | OwnedIn(rows, u)
      ensures OwnedIn(next, u)
    {
      var k :| k in rows && Owns(k, u);
      assert k in next;
    }
  }

  lemma NoNewAliasAtOnce(rows: Rows)
    ensures NoNewAlias(rows, rows)
  {
  }

  lemma NoNewAliasThrough(rows: Rows, mid: Rows, next: Rows)
    requires NoNewAlias(rows, mid) && NoNewAlias(mid, next) && rows.Keys <= mid.Keys
    ensures NoNewAlias(rows, next)
  {
    hide Alike;
  }

  lemma NoNewAliasKeepsDistinct(rows: Rows, next: Rows)
    requires NoNewAlias(rows, next) && Distinct(rows)
    ensures Distinct(next)
  {
    hide Alike;
  }

  lemma {:induction false} AddedKeepsDistinct(rows: Rows, targets: seq<Target>, now: Time)
    requires forall i :: 0 <= i < |targets| ==> Named(targets[i]) && Canonical(targets[i]) == targets[i]
    ensures var next := Added(rows, targets, now);
            && NoNewAlias(rows, next) && (Distinct(rows) ==> Distinct(next))
            && (forall k :: k in rows ==> k in next && next[k] == rows[k])
            && (forall i :: 0 <= i < |targets| ==> OwnedIn(next, targets[i]))
            && (forall k :: k in next && k !in rows ==> next[k].status.Pending?)
  {
    hide Parse, Destination, Canonical, Named, OwnedIn, Distinct, NoNewAlias, AddRow;
    if targets == [] {
      NoNewAliasAtOnce(rows);
    } else {
      var init, t := targets[..|targets| - 1], targets[|targets| - 1];
      AddedKeepsDistinct(rows, init, now);
      ParseOfDestination(t);
      AddRowKeepsDistinct(Added(rows, init, now), t, now);
      NoNewAliasThrough(rows, Added(rows, init, now), Added(rows, targets, now));
      if Distinct(rows) {
        NoNewAliasKeepsDistinct(rows, Added(rows, targets, now));
      }
      forall i | 0 <= i < |targets|
        ensures OwnedIn(Added(rows, targets, now), targets[i])
      {
        assert i < |init| ==> init[i] == targets[i];
      }
    }
  }

  /** One event under its relays; `relays` says what each claim led to. */
  datatype State = State(rows: Rows, published: bool, relays: map<Token, (Key, Option<Then>)>)

  datatype Then = Acknowledge | GiveBack(failed: bool)

  class Event {
    const kind: string
    var published: bool
    var rows: Rows

    /** An event counts as published only while every delivery is. */
    predicate Valid()
      reads this
    {
      Distinct(rows) && (published ==> forall k :: k in rows ==> rows[k].status.Published?)
    }

    function AsState(relays: map<Token, (Key, Option<Then>)>): State
      reads this
    {
      State(rows, published, relays)
    }

    constructor (kind: string)
      ensures Valid() && this.kind == kind && !published && rows == map[]
    {
      this.kind := kind;
      published, rows := false, map[];
    }

    /** addDeliveriesWithSearch, run when the event is written and again while it is unpublished. */
    method AddDeliveries(ai: bool, search: bool, now: Time)
      requires Valid() && !published
      modifies this`rows
      ensures Valid()
      ensures rows == Added(old(rows), AllRoutes(kind, ai, search), now)
      ensures AsState(map[]) == Next(kind, old(AsState(map[])), Write(ai, search, now))
      ensures forall i :: 0 <= i < |AllRoutes(kind, ai, search)| ==> OwnedIn(rows, AllRoutes(kind, ai, search)[i])
    {
      hide AllRoutes, Canonical, Named, Parse, Distinct, OwnedIn, Destination;
      var targets := AllRoutes(kind, ai, search);
      for n := 0 to |targets|
        invariant rows == Added(old(rows), targets[..n], now)
      {
        assert targets[..n + 1][..n] == targets[..n];
        var key := Key(RabbitMQ, Destination(targets[n]));
        if !OwnedIn(rows, targets[n]) && key !in rows {
          rows := rows[key := NewRow(now)];
        }
      }
      assert targets[..|targets|] == targets;
      RoutesAreCanonical(kind, ai, search);
      AddedKeepsDistinct(old(rows), targets, now);
    }

    predicate Due(k: Key, now: Time)
      reads this`rows
    {
      k in rows && DueRow(k, rows[k], now)
    }

    predicate HeldBy(k: Key, token: Token)
      reads this`rows
    {
      k in rows && rows[k].status.Sending? && rows[k].token == Some(token)
    }

    /** pinDeliveryDeadlines, for one row: the deadline is written once. */
    method Pin(k: Key, at: Time)
      requires Valid()
      modifies this`rows
      ensures Valid()
      ensures rows == if k in old(rows) && old(rows)[k].notBefore.None? && !old(rows)[k].status.Published?
                && k.transport.RabbitMQ?
                      then old(rows)[k := old(rows)[k].(notBefore := Some(at))] else old(rows)
      ensures AsState(map[]) == Next(kind, old(AsState(map[])), PinRow(k, at))
    {
      if k in rows && k.transport.RabbitMQ? && !rows[k].status.Published? && rows[k].notBefore.None? {
        rows := rows[k := rows[k].(notBefore := Some(at))];
      }
    }

    method Claim(k: Key, now: Time, until: Time, token: Token) returns (ok: bool)
      requires Valid()
      modifies this`rows
      ensures Valid()
      ensures ok <==> old(Due(k, now))
      ensures rows == if ok then old(rows)[k := Claimed(old(rows)[k], until, token)] else old(rows)
      ensures AsState(if ok then map[token := (k, None)] else map[])
           == Next(kind, old(AsState(map[])), ClaimRow(k, now, until, token))
    {
      ok := Due(k, now);
      if ok {
        rows := rows[k := rows[k].(status := Sending, leaseUntil := Some(until), token := Some(token))];
      }
    }

    /** ackDeliveryContext: the delivery, and with the last one the event. */
    method Acknowledge(k: Key, token: Token) returns (ok: bool)
      requires Valid()
      modifies this
      ensures Valid()
      ensures ok <==> old(HeldBy(k, token))
      ensures rows == if ok then old(rows)[k := Acked(old(rows)[k])] else old(rows)
      ensures published <==> old(published) || (ok && forall j :: j in rows ==> rows[j].status.Published?)
      ensures var relays: map<Token, (Key, Option<Then>)> := map[token := (k, Some(Then.Acknowledge))];
              AsState(relays) == Next(kind, old(AsState(relays)), Settle(token, 0, true))
    {
      if !HeldBy(k, token) {
        return false;
      }
      rows := rows[k := rows[k].(status := Published, leaseUntil := None, token := None)];
      if forall j :: j in rows ==> rows[j].status.Published? {
        published := true;
      }
      ok := true;
    }

    /** failDeliveryContext, with the time of the next attempt, and releaseClaims, without: each
        gives back only its own claim. */
    method GiveBack(k: Key, token: Token, retryAt: Option<Time>) returns (ok: bool)
      requires Valid()
      modifies this`rows
      ensures Valid()
      ensures ok <==> old(HeldBy(k, token))
      ensures rows == if ok then old(rows)[k := Returned(old(rows)[k], retryAt)] else old(rows)
      ensures var relays: map<Token, (Key, Option<Then>)> := map[token := (k, Some(Then.GiveBack(retryAt.Some?)))];
              AsState(relays)
                == Next(kind, old(AsState(relays)), Settle(token, if retryAt.Some? then retryAt.value else 0, true))
    {
      ok := HeldBy(k, token);
      if ok {
        var row := rows[k].(status := Pending, leaseUntil := None, token := None);
        if retryAt.Some? {
          row := row.(status := Failed, availableAt := retryAt.value);
        }
        rows := rows[k := row];
      }
    }

    /** The write of recoverPublished: the same delivery goes out again with its execution's count. */
    method Replay(k: Key, retry: Option<nat>, now: Time) returns (ok: bool)
      requires Valid()
      modifies this
      ensures Valid()
      ensures ok <==> k in old(rows) && old(rows)[k].status.Published?
      ensures !ok ==> rows == old(rows) && published == old(published)
      ensures ok ==> !published && rows == old(rows)[k := Replayed(old(rows)[k], retry, now)]
      ensures AsState(map[]) == Next(kind, old(AsState(map[])), ReplayRow(k, retry, now))
    {
      ok := k in rows && rows[k].status.Published?;
      if ok {
        var row := rows[k].(status := Pending, token := None, leaseUntil := None, availableAt := now);
        if retry.Some? {
          row := row.(retry := retry.value);
        }
        rows := rows[k := row];
        published := false;
      }
    }
  }

  // ---- relays, each between its claim and its last write ----

  /** sendDelivery: what follows the claim. `confirmed` is the broker's answer, should it be asked. */
  function Send(event: string, destination: string, ai: bool, search: bool, cancelled: bool, confirmed: bool,
          cancelledLater: bool): Then {
    if cancelled then GiveBack(false)
    else
      var target := Parse(destination);
      if target.None? then GiveBack(true)
      else if target.value.queue == "ai" && !ai then Acknowledge
      else if target.value !in AllRoutes(event, ai, search) then GiveBack(true)
      else if confirmed then Acknowledge
      else GiveBack(!cancelledLater)
  }

  /** Acknowledged means a confirmed publish to a queue registered for the event, or AI turned off
      for an AI queue. */
  lemma AcknowledgedExactly(event: string, destination: string, ai: bool, search: bool, cancelled: bool,
          confirmed: bool, later: bool)
    ensures Send(event, destination, ai, search, cancelled, confirmed, later).Acknowledge? <==>
              && !cancelled && Parse(destination).Some?
              && ((Parse(destination).value.queue == "ai" && !ai)
                  || (confirmed && Parse(destination).value in AllRoutes(event, ai, search)))
  {
  }

  datatype Action =
    | Write(ai: bool, search: bool, now: Time)
    | PinRow(k: Key, at: Time)
    | ClaimRow(k: Key, now: Time, until: Time, token: Token)
    | Sent(token: Token, ai: bool, search: bool, cancelled: bool, confirmed: bool, later: bool)
    | Settle(token: Token, retryAt: Time, written: bool)
    | ReplayRow(k: Key, retry: Option<nat>, now: Time)

  predicate Holds(s: State, k: Key, token: Token) {
    k in s.rows && s.rows[k].status.Sending? && s.rows[k].token == Some(token)
  }

  predicate AllPublished(rows: Rows) {
    forall k :: k in rows ==> rows[k].status.Published?
  }

  /** `written` is false when the last write failed and the claim is released instead. */
  function Next(event: string, s: State, a: Action): State {
    match a
    case Write(ai, search, now) => if s.published then s
      else s.(rows := Added(s.rows, AllRoutes(event, ai, search), now))
    case PinRow(k, at) =>
      if k in s.rows && s.rows[k].notBefore.None? && !s.rows[k].status.Published? && k.transport.RabbitMQ?
      then s.(rows := s.rows[k := s.rows[k].(notBefore := Some(at))]) else s
    case ClaimRow(k, now, until, token) =>
      if token in s.relays || k !in s.rows || !DueRow(k, s.rows[k], now) then s
      else s.(rows := s.rows[k := Claimed(s.rows[k], until, token)], relays := s.relays[token := (k, None)])
    case Sent(token, ai, search, cancelled, confirmed, later) =>
      if token !in s.relays || s.relays[token].1.Some? then s
      else
        var k := s.relays[token].0;
        s.(relays := s.relays[token := (k, Some(Send(event, k.destination, ai, search, cancelled, confirmed, later)))])
    case Settle(token, retryAt, written) =>
      if token !in s.relays || s.relays[token].1.None? || !Holds(s, s.relays[token].0, token) then s
      else
        var k, order := s.relays[token].0, s.relays[token].1.value;
        if order.Acknowledge? && written then
          var rows := s.rows[k := Acked(s.rows[k])];
          s.(rows := rows, published := s.published || AllPublished(rows))
        else
          var failed := order.GiveBack? && order.failed && written;
          s.(rows := s.rows[k := Returned(s.rows[k], if failed then Some(retryAt) else None)])
    case ReplayRow(k, retry, now) =>
      if k in s.rows && s.rows[k].status.Published?
      then s.(rows := s.rows[k := Replayed(s.rows[k], retry, now)], published := false) else s
  }

  function Run(event: string, start: State, trace: seq<Action>): State {
    if trace == [] then start
    else Next(event, Run(event, start, trace[..|trace| - 1]), trace[|trace| - 1])
  }

  predicate IsPublished(s: State, k: Key) {
    k in s.rows && s.rows[k].status.Published?
  }

  predicate PublishedTruly(s: State) {
    s.published ==> AllPublished(s.rows)
  }

  /** Every row being sent is being sent by the relay that claimed it. */
  predicate SendersKnown(s: State) {
    forall k :: k in s.rows && s.rows[k].status.Sending? ==>
      s.rows[k].token.Some? && s.rows[k].token.value in s.relays && s.relays[s.rows[k].token.value].0 == k
  }

  lemma WriteKeeps(event: string, s: State, a: Action)
    requires a.Write?
    ensures var next := Next(event, s, a);
            && NoNewAlias(s.rows, next.rows)
            && (PublishedTruly(s) ==> PublishedTruly(next)) && (SendersKnown(s) ==> SendersKnown(next))
            && (forall k :: k in s.rows ==> k in next.rows && next.rows[k] == s.rows[k])
            && (forall k :: IsPublished(next, k) ==> IsPublished(s, k))
  {
    hide NoNewAlias;
    if s.published {
      NoNewAliasAtOnce(s.rows);
    } else {
      RoutesAreCanonical(event, a.ai, a.search);
      AddedKeepsDistinct(s.rows, AllRoutes(event, a.ai, a.search), a.now);
    }
  }

  lemma RowKeepsPublished(event: string, s: State, a: Action)
    requires !a.Write? && PublishedTruly(s)
    ensures PublishedTruly(Next(event, s, a))
  {
    hide Parse, AllRoutes, Added, Send;
  }

  lemma RowKeepsSenders(event: string, s: State, a: Action)
    requires !a.Write? && SendersKnown(s)
    ensures SendersKnown(Next(event, s, a))
  {
    hide Parse, AllRoutes, Added, DueRow, Send;
  }

  lemma RowKeeps(event: string, s: State, a: Action)
    requires !a.Write?
    ensures var next := Next(event, s, a);
            && next.rows.Keys == s.rows.Keys
            && (PublishedTruly(s) ==> PublishedTruly(next)) && (SendersKnown(s) ==> SendersKnown(next))
  {
    hide Parse, AllRoutes, Added, DueRow, Send, PublishedTruly, SendersKnown;
    if PublishedTruly(s) {
      RowKeepsPublished(event, s, a);
    }
    if SendersKnown(s) {
      RowKeepsSenders(event, s, a);
    }
  }

  /** Over every run, from whatever deliveries it finds, of either transport and under any spelling:
      none disappears and no second delivery for a task is added, so that distinct tasks stay
      distinct; and the event is published only while all its deliveries are. */
  lemma {:induction false} OutboxInvariant(event: string, start: State, trace: seq<Action>)
    ensures var now := Run(event, start, trace);
            && start.rows.Keys <= now.rows.Keys && NoNewAlias(start.rows, now.rows)
            && (Distinct(start.rows) ==> Distinct(now.rows))
            && (PublishedTruly(start) ==> PublishedTruly(now)) && (SendersKnown(start) ==> SendersKnown(now))
  {
    hide PublishedTruly, SendersKnown, NoNewAlias, Distinct, Next;
    if trace == [] {
      NoNewAliasAtOnce(start.rows);
    } else {
      var s, a := Run(event, start, trace[..|trace| - 1]), trace[|trace| - 1];
      OutboxInvariant(event, start, trace[..|trace| - 1]);
      if a.Write? {
        WriteKeeps(event, s, a);
      } else {
        RowKeeps(event, s, a);
        SameKeysNoAlias(s.rows, Next(event, s, a).rows);
      }
      NoNewAliasThrough(start.rows, s.rows, Next(event, s, a).rows);
      if Distinct(start.rows) {
        NoNewAliasKeepsDistinct(start.rows, Next(event, s, a).rows);
      }
    }
  }

  lemma SameKeysNoAlias(rows: Rows, next: Rows)
    requires rows.Keys == next.Keys
    ensures NoNewAlias(rows, next)
  {
  }

  /** A task some delivery stood for from the start, under whatever name, never gets another. */
  lemma LegacyRowsServe(event: string, start: State, trace: seq<Action>, k: Key, j: Key, t: Target)
    requires Distinct(start.rows) && k in start.rows && Owns(k, t)
    requires j in Run(event, start, trace).rows && Owns(j, t)
    ensures j == k
  {
    hide Run, Parse;
    assert Alike(j, k);
    OutboxInvariant(event, start, trace);
  }

  // ---- what stands behind a published delivery ----

  /** At step `a` the relay `t` takes the delivery, under a token never used before. */
  predicate ClaimedAt(event: string, start: State, trace: seq<Action>, a: nat, k: Key, t: Token) {
    && a < |trace| && trace[a].ClaimRow? && trace[a].k == k && trace[a].token == t
    && t !in Run(event, start, trace[..a]).relays && Holds(Run(event, start, trace[..a + 1]), k, t)
  }

  /** At step `b` the relay `t` learns that the broker confirmed the publish to a queue registered
      for the event, or finds AI turned off for an AI queue. */
  predicate ConfirmedAt(event: string, trace: seq<Action>, b: nat, k: Key, t: Token) {
    && b < |trace| && trace[b].Sent? && trace[b].token == t && !trace[b].cancelled
    && Parse(k.destination).Some?
    && ((Parse(k.destination).value.queue == "ai" && !trace[b].ai)
        || (trace[b].confirmed && Parse(k.destination).value in AllRoutes(event, trace[b].ai, trace[b].search)))
  }

  /** At step `i` the relay `t`, still holding the delivery, publishes it, and so it stays. */
  predicate PublishedAt(event: string, start: State, trace: seq<Action>, i: nat, k: Key, t: Token) {
    && i < |trace| && trace[i].Settle? && trace[i].token == t && trace[i].written
    && Holds(Run(event, start, trace[..i]), k, t)
    && forall j :: i < j <= |trace| ==> IsPublished(Run(event, start, trace[..j]), k)
  }

  /** Published when the run began, and ever since. */
  predicate PublishedBefore(event: string, start: State, trace: seq<Action>, k: Key) {
    forall j :: 0 <= j <= |trace| ==> IsPublished(Run(event, start, trace[..j]), k)
  }

  lemma PublishedAtOnce(event: string, start: State, k: Key)
    ensures IsPublished(Run(event, start, []), k) ==> PublishedBefore(event, start, [], k)
  {
    var none: seq<Action> := [];
    forall j | 0 <= j <= |none|
      ensures none[..j] == none
    {
    }
  }

  lemma PrefixOfPrefix(trace: seq<Action>, i: nat)
    requires trace != [] && i < |trace|
    ensures trace[..|trace| - 1][..i] == trace[..i]
  {
  }

  lemma ClaimedEarlier(event: string, start: State, trace: seq<Action>, a: nat, k: Key, t: Token)
    requires trace != [] && ClaimedAt(event, start, trace[..|trace| - 1], a, k, t)
    ensures ClaimedAt(event, start, trace, a, k, t)
  {
    PrefixOfPrefix(trace, a);
    PrefixOfPrefix(trace, a + 1);
  }

  lemma ConfirmedEarlier(event: string, trace: seq<Action>, b: nat, k: Key, t: Token)
    requires trace != [] && ConfirmedAt(event, trace[..|trace| - 1], b, k, t)
    ensures ConfirmedAt(event, trace, b, k, t) && b < |trace| - 1
  {
  }

  lemma StaysPublished(event: string, start: State, before: seq<Action>, trace: seq<Action>, i: nat, k: Key)
    requires trace != [] && before == trace[..|trace| - 1] && IsPublished(Run(event, start, trace), k)
    requires forall j :: i <= j <= |before| ==> IsPublished(Run(event, start, before[..j]), k)
    ensures forall j :: i <= j <= |trace| ==> IsPublished(Run(event, start, trace[..j]), k)
  {
    forall j | i <= j <= |trace|
      ensures IsPublished(Run(event, start, trace[..j]), k)
    {
      if j < |trace| {
        PrefixOfPrefix(trace, j);
        assert IsPublished(Run(event, start, before[..j]), k);
      } else {
        assert trace[..j] == trace;
      }
    }
  }

  lemma StillPublished(event: string, start: State, trace: seq<Action>, i: nat, k: Key, t: Token)
    requires trace != [] && PublishedAt(event, start, trace[..|trace| - 1], i, k, t)
    requires IsPublished(Run(event, start, trace), k)
    ensures PublishedAt(event, start, trace, i, k, t)
  {
    PrefixOfPrefix(trace, i);
    StaysPublished(event, start, trace[..|trace| - 1], trace, i + 1, k);
  }

  lemma JustPublished(event: string, start: State, trace: seq<Action>, k: Key)
    requires trace != []
    requires IsPublished(Run(event, start, trace), k) && !IsPublished(Run(event, start, trace[..|trace| - 1]), k)
    ensures var s, last := Run(event, start, trace[..|trace| - 1]), trace[|trace| - 1];
            && last.Settle? && PublishedAt(event, start, trace, |trace| - 1, k, last.token)
            && last.token in s.relays && s.relays[last.token] == (k, Some(Acknowledge))
  {
    PublishingStep(event, Run(event, start, trace[..|trace| - 1]), trace[|trace| - 1], k);
    assert trace[..|trace|] == trace;
  }

  /** The record of every relay that began in the run goes back to its claim and, if it is to
      acknowledge, to a confirmation. */
  lemma {:induction false} RelayHistory(event: string, start: State, trace: seq<Action>, t: Token)
    returns (a: nat, b: nat)
    requires t in Run(event, start, trace).relays && t !in start.relays
    ensures ClaimedAt(event, start, trace, a, Run(event, start, trace).relays[t].0, t)
    ensures Run(event, start, trace).relays[t].1 == Some(Acknowledge) ==>
              a < b && ConfirmedAt(event, trace, b, Run(event, start, trace).relays[t].0, t)
    decreases trace
  {
    hide Next, AllRoutes, Parse, Holds;
    assert trace != [];
    var last := |trace| - 1;
    var s, e := Run(event, start, trace[..last]), trace[last];
    assert trace[..last + 1] == trace;
    RelayStep(event, s, e, t);
    if t !in s.relays {
      a, b := last, last;
    } else {
      a, b := RelayHistory(event, start, trace[..last], t);
      ClaimedEarlier(event, start, trace, a, s.relays[t].0, t);
      if Run(event, start, trace).relays[t] != s.relays[t] {
        AcknowledgedExactly(event, s.relays[t].0.destination, e.ai, e.search, e.cancelled, e.confirmed, e.later);
        b := last;
      }
    }
  }

  /** A relay's record begins with its claim and changes once, when it learns how its send went. */
  lemma RelayStep(event: string, s: State, e: Action, t: Token)
    requires t in Next(event, s, e).relays
    ensures var next := Next(event, s, e);
            if t !in s.relays then
              && e.ClaimRow? && e.token == t && next.relays[t] == (e.k, None) && Holds(next, e.k, t)
            else
              && next.relays[t].0 == s.relays[t].0
              && (next.relays[t] != s.relays[t] ==>
                    && e.Sent? && e.token == t
                    && next.relays[t].1 == Some(Send(event, s.relays[t].0.destination, e.ai, e.search, e.cancelled,
                                                     e.confirmed, e.later)))
  {
    hide AllRoutes, Parse, Added, DueRow, Send;
  }

  lemma PublishingStep(event: string, s: State, e: Action, k: Key)
    requires !IsPublished(s, k) && IsPublished(Next(event, s, e), k)
    ensures e.Settle? && e.written && Holds(s, k, e.token)
    ensures e.token in s.relays && s.relays[e.token] == (k, Some(Acknowledge))
  {
    if e.Write? {
      WriteKeeps(event, s, e);
    }
  }

  /** Whenever a delivery that was not published all along is published, the step that made it so was
      taken by the relay that held it under its own token, and that relay, unless it was at work when
      the run began, had claimed it and then, uncancelled, seen its publish confirmed for a registered
      queue or AI turned off. A replay starts this over. */
  lemma {:induction false} PublishedOnlyAfterConfirmation(event: string, start: State, trace: seq<Action>, k: Key)
    returns (t: Token, a: nat, b: nat, i: nat)
    requires IsPublished(Run(event, start, trace), k) && !PublishedBefore(event, start, trace, k)
    ensures PublishedAt(event, start, trace, i, k, t)
    ensures t !in start.relays ==>
              a < b < i && ClaimedAt(event, start, trace, a, k, t) && ConfirmedAt(event, trace, b, k, t)
    decreases trace
  {
    hide Next, ClaimedAt, ConfirmedAt, PublishedAt, IsPublished;
    PublishedAtOnce(event, start, k);
    assert trace != [];
    var last := |trace| - 1;
    var before := trace[..last];
    if IsPublished(Run(event, start, before), k) {
      if PublishedBefore(event, start, before, k) {
        StaysPublished(event, start, before, trace, 0, k);
        assert false;
      }
      t, a, b, i := PublishedOnlyAfterConfirmation(event, start, before, k);
      StillPublished(event, start, trace, i, k, t);
    } else {
      JustPublished(event, start, trace, k);
      t, i, a, b := trace[last].token, last, 0, 0;
      if t !in start.relays {
        a, b := RelayHistory(event, start, before, t);
        ConfirmedEarlier(event, trace, b, k, t);
      }
    }
    if t !in start.relays {
      ClaimedEarlier(event, start, trace, a, k, t);
      ConfirmedEarlier(event, trace, b, k, t);
    }
  }

  /** A relay whose claim was taken over cannot change the row any more. */
  lemma LostClaimIsPowerless(event: string, s: State, settle: Action, other: Token)
    requires settle.Settle? && settle.token in s.relays && other != settle.token
    requires Holds(s, s.relays[settle.token].0, other)
    ensures Next(event, s, settle) == s
  {
  }

  // ---- what is written goes out ----

  /** How a send ends a relay's claim: at once when it was cancelled, with a backoff when the
      destination is unknown or the publish failed by itself, else by acknowledging. */
  lemma SendExactly(event: string, destination: string, ai: bool, search: bool, cancelled: bool, confirmed: bool,
          later: bool)
    ensures var then_ := Send(event, destination, ai, search, cancelled, confirmed, later);
            var target := Parse(destination);
            if cancelled then then_ == GiveBack(false)
            else if target.None? then then_ == GiveBack(true)
            else if target.value.queue == "ai" && !ai then then_ == Acknowledge
            else if target.value !in AllRoutes(event, ai, search) then then_ == GiveBack(true)
            else if confirmed then then_ == Acknowledge
            else then_ == GiveBack(!later)
  {
  }

  /** A delivery as its writer leaves it: to be sent as soon as its deadline is pinned and reached. */
  lemma WrittenIsDue(event: string, start: State, ai: bool, search: bool, now: Time, at: Time, t: Target)
    requires start == State(map[], false, map[]) && t in AllRoutes(event, ai, search)
    ensures var k := Key(RabbitMQ, Destination(t));
            var s := Run(event, start, [Write(ai, search, now), PinRow(k, at)]);
            && k in s.rows && !s.published && s.rows[k].retry == 0 && s.rows[k].status == Pending
            && forall later :: later >= now && later >= at ==> DueRow(k, s.rows[k], later)
  {
    hide AllRoutes, Parse, Destination, Canonical, Named, Run, Added;
    var k := Key(RabbitMQ, Destination(t));
    var i :| 0 <= i < |AllRoutes(event, ai, search)| && AllRoutes(event, ai, search)[i] == t;
    TwoSteps(event, start, Write(ai, search, now), PinRow(k, at));
    RoutesAreCanonical(event, ai, search);
    AddedFromNothing(AllRoutes(event, ai, search), now);
  }

  lemma TwoSteps(event: string, s: State, a: Action, b: Action)
    ensures Run(event, s, [a, b]) == Next(event, Next(event, s, a), b)
  {
    hide Next;
    assert [a, b][..1] == [a] && [a][..0] == [];
    assert Run(event, s, [a]) == Next(event, s, a);
  }

  lemma {:induction false} AddedFromNothing(targets: seq<Target>, now: Time)
    requires forall i :: 0 <= i < |targets| ==> Named(targets[i]) && Canonical(targets[i]) == targets[i]
    ensures var rows := Added(map[], targets, now);
            && (forall i :: 0 <= i < |targets| ==> Key(RabbitMQ, Destination(targets[i])) in rows)
            && (forall k :: k in rows ==> rows[k] == Row(Pending, None, None, 0, now, None))
            && (forall k :: k in rows ==> exists t :: t in targets && k == Key(RabbitMQ, Destination(t)))
  {
    hide Parse, Destination, Canonical, Named;
    if targets != [] {
      var n := |targets| - 1;
      var init := targets[..n];
      AddedFromNothing(init, now);
      var rows, t := Added(map[], init, now), targets[n];
      assert targets == init + [t];
      OwnedByItself(rows, init, t);
      forall i | 0 <= i < |targets|
        ensures Key(RabbitMQ, Destination(targets[i])) in Added(map[], targets, now)
      {
        assert i < n ==> init[i] == targets[i];
      }
    }
  }

  lemma OwnedByItself(rows: Rows, targets: seq<Target>, t: Target)
    requires forall i :: 0 <= i < |targets| ==> Named(targets[i]) && Canonical(targets[i]) == targets[i]
    requires forall k :: k in rows ==> exists u :: u in targets && k == Key(RabbitMQ, Destination(u))
    ensures OwnedIn(rows, t) ==> Key(RabbitMQ, Destination(t)) in rows
  {
    hide Parse, Destination, Canonical, Named;
    if OwnedIn(rows, t) {
      var k :| k in rows && Owns(k, t);
      var u :| u in targets && k == Key(RabbitMQ, Destination(u));
      ParseOfDestination(u);
    }
  }

  /** A relay that claims a due delivery, has its publish confirmed and settles publishes it, unless
      somebody took the claim over; with the last delivery the event is published. */
  lemma DueGoesOut(event: string, s: State, k: Key, now: Time, until: Time, token: Token, ai: bool, search: bool,
          later: bool)
    requires k in s.rows && DueRow(k, s.rows[k], now) && token !in s.relays
    requires Parse(k.destination).Some? && Parse(k.destination).value in AllRoutes(event, ai, search)
    ensures var claimed := Next(event, s, ClaimRow(k, now, until, token));
            var sent := Next(event, claimed, Sent(token, ai, search, false, true, later));
            var done := Next(event, sent, Settle(token, 0, true));
            && Holds(claimed, k, token) && claimed.rows[k].leaseUntil == Some(until)
            && done.rows == s.rows[k := s.rows[k].(status := Published, leaseUntil := None, token := None)]
            && (AllPublished(done.rows) ==> done.published)
  {
    hide AllRoutes, Parse, Added;
    SendExactly(event, k.destination, ai, search, false, true, later);
  }

  /** A relay whose publish fails puts its delivery off to the moment it names, one that is cancelled
      or cannot write gives it back at once; either way others can claim it from then on, and one
      that dies loses it when its lease is over. */
  lemma ClaimsEnd(event: string, s: State, token: Token, retryAt: Time, written: bool)
    requires token in s.relays && s.relays[token].1.Some? && Holds(s, s.relays[token].0, token)
    requires s.relays[token].0.transport.RabbitMQ? && s.rows[s.relays[token].0].notBefore.Some?
    requires s.rows[s.relays[token].0].leaseUntil.Some?
    ensures var k := s.relays[token].0;
            var order := s.relays[token].1.value;
            var row := Next(event, s, Settle(token, retryAt, written)).rows[k];
            if order.Acknowledge? && written then row.status == Published
            else
              var due := if order.GiveBack? && order.failed && written then retryAt else s.rows[k].availableAt;
              && row.token.None? && row.retry == s.rows[k].retry && row.notBefore == s.rows[k].notBefore
              && forall t :: DueRow(k, row, t) <==> t >= due && t >= row.notBefore.value
    ensures var k := s.relays[token].0;
            forall t :: DueRow(k, s.rows[k], t) <==> t >= s.rows[k].leaseUntil.value && t >= s.rows[k].notBefore.value
  {
    hide AllRoutes, Parse, Added;
  }

  ghost predicate DueFrom(k: Key, row: Row, since: Time) {
    forall t :: t >= since ==> DueRow(k, row, t)
  }

  predicate Leased(s: State) {
    forall k :: k in s.rows && s.rows[k].status.Sending? ==> s.rows[k].leaseUntil.Some?
  }

  lemma LeasedStep(event: string, s: State, a: Action)
    requires Leased(s)
    ensures Leased(Next(event, s, a))
  {
    hide AllRoutes, Parse, Send;
    if a.Write? && !s.published {
      RoutesAreCanonical(event, a.ai, a.search);
      hide Added;
      AddedKeepsDistinct(s.rows, AllRoutes(event, a.ai, a.search), a.now);
    }
  }

  /** In every state a delivery of the current transport whose deadline is pinned is published or will
      be due from some moment on. */
  lemma {:induction false} NothingIsLeftBehind(event: string, start: State, trace: seq<Action>, k: Key)
    requires Leased(start) && k in Run(event, start, trace).rows && k.transport.RabbitMQ?
    requires Run(event, start, trace).rows[k].notBefore.Some?
    ensures Run(event, start, trace).rows[k].status.Published?
            || exists since :: DueFrom(k, Run(event, start, trace).rows[k], since)
  {
    LeasedThroughout(event, start, trace);
    var row := Run(event, start, trace).rows[k];
    var first := if row.status.Sending? then row.leaseUntil.value else row.availableAt;
    var since := if first < row.notBefore.value then row.notBefore.value else first;
    if !row.status.Published? {
      assert DueFrom(k, row, since);
    }
  }

  lemma {:induction false} LeasedThroughout(event: string, start: State, trace: seq<Action>)
    requires Leased(start)
    ensures Leased(Run(event, start, trace))
  {
    hide Leased, Next;
    if trace != [] {
      LeasedThroughout(event, start, trace[..|trace| - 1]);
      LeasedStep(event, Run(event, start, trace[..|trace| - 1]), trace[|trace| - 1]);
    }
  }

  /** A replay makes a published delivery due again at once, with the counter its execution reached,
      and takes the event's publication back. */
  lemma ReplayGoesOutAgain(event: string, s: State, k: Key, retry: Option<nat>, now: Time)
    requires k in s.rows && s.rows[k].status.Published? && k.transport.RabbitMQ? && s.rows[k].notBefore.Some?
    ensures var next := Next(event, s, ReplayRow(k, retry, now));
            && !next.published && k in next.rows && next.rows[k].status == Pending
            && next.rows[k].retry == (if retry.Some? then retry.value else s.rows[k].retry)
            && (forall t :: DueRow(k, next.rows[k], t) <==> t >= now && t >= s.rows[k].notBefore.value)
            && forall j :: j != k ==> (j in next.rows <==> j in s.rows) && (j in s.rows ==> next.rows[j] == s.rows[j])
  {
  }
}
