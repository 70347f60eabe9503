/** Sums over table columns, and how one row's change shows in them. */
module Sums {
  function Sum(xs: seq<int>): int {
    if xs == [] then 0 else Sum(xs[..|xs| - 1]) + xs[|xs| - 1]
  }

  lemma SumAppend(xs: seq<int>, x: int)
    ensures Sum(xs + [x]) == Sum(xs) + x
  {
    assert (xs + [x])[..|xs|] == xs;
  }

  lemma {:induction false} SumUpdate(xs: seq<int>, i: nat, x: int)
    requires i < |xs|
    ensures Sum(xs[i := x]) == Sum(xs) - xs[i] + x
  {
    var last := |xs| - 1;
    if i < last {
      SumUpdate(xs[..last], i, x);
      assert xs[i := x][..last] == xs[..last][i := x];
    } else {
      assert xs[i := x][..last] == xs[..last];
    }
  }

  lemma {:induction false} SumAtLeast(xs: seq<int>, i: nat)
    requires i < |xs| && forall k :: 0 <= k < |xs| ==> xs[k] >= 0
    ensures Sum(xs) >= xs[i]
  {
    SumUpdate(xs, i, 0);
    SumNonNegative(xs[i := 0]);
  }

  lemma {:induction false} SumNonNegative(xs: seq<int>)
    requires forall k :: 0 <= k < |xs| ==> xs[k] >= 0
    ensures Sum(xs) >= 0
  {
    if xs != [] {
      SumNonNegative(xs[..|xs| - 1]);
    }
  }

  lemma {:induction false} SumZero(xs: seq<int>)
    requires forall k :: 0 <= k < |xs| ==> xs[k] == 0
    ensures Sum(xs) == 0
  {
    if xs != [] {
      SumZero(xs[..|xs| - 1]);
    }
  }
}

/** Rows of users, upload sessions, file entries and objects, and the totals the counters promise. */
module LedgerTables {
  import opened Common
  import opened Sums

  type Id = nat

  /** What an object is found by: its hash and its size. */
  datatype Content = Content(sha256: nat, size: nat)

  datatype User = User(active: bool, quota: int, used: int, reserved: int)

  datatype Status = Initializing | Created | Uploading | Completing | Verifying | Completed | Failed | Aborted | Expired

  datatype Session = Session(user: Id, content: Content, reserved: int, status: Status, uploadId: bool,
    entry: Option<Id>)

  datatype Entry = Entry(owner: Id, file: Id, live: bool)

  datatype ObjectStatus = Ready | Deleting | Deleted

  datatype Object = Object(content: Content, refs: int, status: ObjectStatus)

  type Users = map<Id, User>

  predicate Holding(s: Status) {
    s.Initializing? || s.Created? || s.Uploading? || s.Completing? || s.Verifying?
  }

  function Reservations(sessions: seq<Session>, u: Id): seq<int> {
    seq(|sessions|, i requires 0 <= i < |sessions| => if sessions[i].user == u then sessions[i].reserved else 0)
  }

  function SizeOf(files: seq<Object>, o: Id): int {
    if o < |files| then files[o].content.size else 0
  }

  function Usages(entries: seq<Entry>, files: seq<Object>, u: Id): seq<int> {
    seq(|entries|, i requires 0 <= i < |entries| =>
      if entries[i].live && entries[i].owner == u then SizeOf(files, entries[i].file) else 0)
  }

  function Holders(entries: seq<Entry>, o: Id): seq<int> {
    seq(|entries|, i requires 0 <= i < |entries| => if entries[i].live && entries[i].file == o then 1 else 0)
  }

  function Reserved(sessions: seq<Session>, u: Id): int {
    Sum(Reservations(sessions, u))
  }

  function Used(entries: seq<Entry>, files: seq<Object>, u: Id): int {
    Sum(Usages(entries, files, u))
  }

  function References(entries: seq<Entry>, o: Id): int {
    Sum(Holders(entries, o))
  }

  lemma SessionAdded(sessions: seq<Session>, x: Session, u: Id)
    ensures Reserved(sessions + [x], u) == Reserved(sessions, u) + (if x.user == u then x.reserved else 0)
  {
    var w := if x.user == u then x.reserved else 0;
    assert Reservations(sessions + [x], u) == Reservations(sessions, u) + [w];
    SumAppend(Reservations(sessions, u), w);
  }

  lemma SessionChanged(sessions: seq<Session>, i: nat, x: Session, u: Id)
    requires i < |sessions| && x.user == sessions[i].user
    ensures Reserved(sessions[i := x], u)
         == Reserved(sessions, u) + (if x.user == u then x.reserved - sessions[i].reserved else 0)
  {
    var w := if x.user == u then x.reserved else 0;
    assert Reservations(sessions[i := x], u) == Reservations(sessions, u)[i := w];
    SumUpdate(Reservations(sessions, u), i, w);
  }

  lemma EntryAdded(entries: seq<Entry>, files: seq<Object>, e: Entry, u: Id, o: Id)
    requires e.live
    ensures Used(entries + [e], files, u)
         == Used(entries, files, u) + (if e.owner == u then SizeOf(files, e.file) else 0)
    ensures References(entries + [e], o) == References(entries, o) + (if e.file == o then 1 else 0)
  {
    var w, n := if e.owner == u then SizeOf(files, e.file) else 0, if e.file == o then 1 else 0;
    assert Usages(entries + [e], files, u) == Usages(entries, files, u) + [w];
    assert Holders(entries + [e], o) == Holders(entries, o) + [n];
    SumAppend(Usages(entries, files, u), w);
    SumAppend(Holders(entries, o), n);
  }

  lemma EntryDropped(entries: seq<Entry>, files: seq<Object>, i: nat, u: Id, o: Id)
    requires i < |entries| && entries[i].live
    ensures var e := entries[i];
            && Used(entries[i := e.(live := false)], files, u)
                 == Used(entries, files, u) - (if e.owner == u then SizeOf(files, e.file) else 0)
            && References(entries[i := e.(live := false)], o) == References(entries, o) - (if e.file == o then 1 else 0)
  {
    var e := entries[i].(live := false);
    assert Usages(entries[i := e], files, u) == Usages(entries, files, u)[i := 0];
    assert Holders(entries[i := e], o) == Holders(entries, o)[i := 0];
    SumUpdate(Usages(entries, files, u), i, 0);
    SumUpdate(Holders(entries, o), i, 0);
  }

  /** Rows keep the size of what they name when other object columns change or rows are added. */
  lemma SizesKept(entries: seq<Entry>, files: seq<Object>, next: seq<Object>, u: Id)
    requires |files| <= |next|
    requires forall o :: 0 <= o < |files| ==> next[o].content == files[o].content
    requires forall i :: 0 <= i < |entries| ==> entries[i].file < |files|
    ensures Used(entries, next, u) == Used(entries, files, u)
  {
    assert Usages(entries, next, u) == Usages(entries, files, u);
  }

  lemma Unreferenced(entries: seq<Entry>, o: Id)
    requires forall i :: 0 <= i < |entries| ==> entries[i].file != o
    ensures References(entries, o) == 0
  {
    SumZero(Holders(entries, o));
  }

  lemma HeldOnce(entries: seq<Entry>, i: nat)
    requires i < |entries| && entries[i].live
    ensures References(entries, entries[i].file) >= 1
  {
    SumAtLeast(Holders(entries, entries[i].file), i);
  }

  lemma ReservedAtLeast(sessions: seq<Session>, i: nat)
    requires i < |sessions| && forall k :: 0 <= k < |sessions| ==> sessions[k].reserved >= 0
    ensures Reserved(sessions, sessions[i].user) >= sessions[i].reserved
  {
    SumAtLeast(Reservations(sessions, sessions[i].user), i);
  }

  lemma UsedAtLeast(entries: seq<Entry>, files: seq<Object>, i: nat)
    requires i < |entries| && entries[i].live
    ensures Used(entries, files, entries[i].owner) >= SizeOf(files, entries[i].file)
  {
    SumAtLeast(Usages(entries, files, entries[i].owner), i);
  }

  // ---- the session life cycle ----

  /** Every status change any transaction makes. */
  predicate Edge(a: Status, b: Status) {
    match a
    case Initializing => b.Created? || b.Aborted? || b.Expired? || b.Failed?
    case Created => b.Uploading? || b.Completing? || b.Aborted? || b.Expired?
    case Uploading => b.Completing? || b.Aborted? || b.Expired?
    case Completing => b.Verifying? || b.Failed?
    case Verifying => b.Completed? || b.Failed?
    case Expired => b.Aborted?
    case _ => false
  }

  /** From one committed state to a later one: no session disappears, each keeps its owner and
      content, and its status stands still or follows one edge. */
  predicate StepsBetween(before: seq<Session>, after: seq<Session>) {
    && |before| <= |after|
    && forall i :: 0 <= i < |before| ==>
         && after[i].user == before[i].user && after[i].content == before[i].content
         && (after[i].status == before[i].status || Edge(before[i].status, after[i].status))
  }

  /** The session table after each transaction of a run. */
  predicate SessionRun(h: seq<seq<Session>>) {
    forall k :: 0 < k < |h| ==> StepsBetween(h[k - 1], h[k])
  }

  function Rank(s: Status): nat {
    match s
    case Initializing => 0
    case Created => 1
    case Uploading => 2
    case Completing => 3
    case Verifying => 4
    case Expired => 4
    case _ => 5
  }

  lemma {:induction false} OnlyForward(h: seq<seq<Session>>, s: Id, i: nat, j: nat)
    requires SessionRun(h) && i <= j < |h| && s < |h[i]|
    ensures s < |h[j]| && h[j][s].user == h[i][s].user && h[j][s].content == h[i][s].content
    ensures Rank(h[i][s].status) <= Rank(h[j][s].status)
    ensures Rank(h[i][s].status) == Rank(h[j][s].status) ==> h[i][s].status == h[j][s].status
    ensures h[i][s].status.Expired? ==> h[j][s].status.Expired? || h[j][s].status.Aborted?
    decreases j
  {
    if i < j {
      OnlyForward(h, s, i, j - 1);
      assert StepsBetween(h[j - 1], h[j]);
    }
  }

  predicate Verifies(h: seq<seq<Session>>, s: Id, k: nat)
    requires 0 < k < |h|
  {
    s < |h[k - 1]| && s < |h[k]| && h[k - 1][s].status.Completing? && h[k][s].status.Verifying?
  }

  /** In every run completed, failed and aborted sessions stay so, an expired one can only become
      aborted, and a session starts verifying at most once. */
  lemma TerminalIsFinal(h: seq<seq<Session>>, s: Id, i: nat, j: nat)
    requires SessionRun(h) && i <= j < |h| && s < |h[i]|
    ensures s < |h[j]|
    ensures h[i][s].status.Completed? || h[i][s].status.Failed? || h[i][s].status.Aborted? ==>
              h[j][s].status == h[i][s].status
    ensures h[i][s].status.Expired? ==> h[j][s].status.Expired? || h[j][s].status.Aborted?
    ensures 0 < i < j && Verifies(h, s, i) ==> !Verifies(h, s, j)
  {
    OnlyForward(h, s, i, j);
    if 0 < i < j {
      OnlyForward(h, s, i, j - 1);
    }
  }
}

/** The transactions of identity, upload, drive and sharing that move quota, references and
    session status. Each either commits all of its changes or none. */
module Ledger {
  import opened Common
  import opened Sums
  import opened LedgerTables

  datatype Error = InvalidInput | NotFound | Conflict | QuotaExceeded | FileExists | NameConflict | ObjectBusy

  datatype Result = Ok(id: Id) | Err(error: Error)

  datatype ImportRow = ImportRow(folder: Id, entry: Id)

  function AtLeastZero(n: int): int {
    if n < 0 then 0 else n
  }

  function Occurrences(events: seq<Id>, s: Id): nat {
    if events == [] then 0
    else Occurrences(events[..|events| - 1], s) + (if events[|events| - 1] == s then 1 else 0)
  }

  predicate SessionOk(s: Session) {
    s.reserved == if Holding(s.status) then s.content.size else 0
  }

  /** Both counters are exact, and together stay within the quota. */
  predicate CountersOk(users: Users, sessions: seq<Session>, entries: seq<Entry>, files: seq<Object>) {
    forall u :: u in users ==>
      && users[u].reserved == Reserved(sessions, u)
      && users[u].used == Used(entries, files, u)
      && users[u].used + users[u].reserved <= users[u].quota
  }

  predicate SessionsOk(known: set<Id>, sessions: seq<Session>) {
    forall i :: 0 <= i < |sessions| ==> sessions[i].user in known && SessionOk(sessions[i])
  }

  predicate EntriesOk(known: set<Id>, entries: seq<Entry>, files: seq<Object>) {
    forall i :: 0 <= i < |entries| ==> entries[i].file < |files| && entries[i].owner in known
  }

  /** Reference counts are exact, and only a ready object has any. */
  predicate ObjectsOk(entries: seq<Entry>, files: seq<Object>) {
    && (forall o :: 0 <= o < |files| ==>
         files[o].refs == References(entries, o) && (files[o].refs > 0 ==> files[o].status.Ready?))
    && (forall o, p :: 0 <= o < p < |files| ==> files[o].content != files[p].content)
  }

  /** One verification request per session that got as far as verifying, none before. */
  predicate EventsOk(sessions: seq<Session>, events: seq<Id>) {
    && (forall i :: 0 <= i < |sessions| ==> EventsFit(sessions[i].status, Occurrences(events, i)))
    && (forall i :: 0 <= i < |events| ==> events[i] < |sessions|)
  }

  predicate EventsFit(s: Status, n: nat) {
    match s
    case Verifying => n == 1
    case Completed => n == 1
    case Failed => n <= 1
    case _ => n == 0
  }

  predicate KeysOk(sessions: seq<Session>, entries: seq<Entry>, requests: map<(Id, nat), Id>,
          imports: map<(Id, Id, nat), ImportRow>) {
    && (forall k :: k in requests ==> requests[k] < |sessions| && sessions[requests[k]].user == k.0)
    && (forall k :: k in imports ==> imports[k].entry < |entries| && entries[imports[k].entry].owner == k.0)
  }

  // ---- what each kind of change keeps ----

  lemma OpenKeeps(users: Users, sessions: seq<Session>, entries: seq<Entry>, files: seq<Object>, x: Session)
    requires CountersOk(users, sessions, entries, files) && x.user in users
    requires users[x.user].used + users[x.user].reserved + x.reserved <= users[x.user].quota
    ensures CountersOk(users[x.user := users[x.user].(reserved := users[x.user].reserved + x.reserved)],
              sessions + [x], entries, files)
  {
    forall u | u in users
      ensures Reserved(sessions + [x], u) == Reserved(sessions, u) + (if x.user == u then x.reserved else 0)
    {
      SessionAdded(sessions, x, u);
    }
  }

  /** Releasing what a session holds never meets the clamp at zero. */
  lemma CloseKeeps(users: Users, sessions: seq<Session>, entries: seq<Entry>, files: seq<Object>, i: nat, x: Session)
    requires CountersOk(users, sessions, entries, files) && SessionsOk(users.Keys, sessions) && i < |sessions|
    requires x.user == sessions[i].user && 0 <= x.reserved <= sessions[i].reserved
    ensures users[x.user].reserved >= sessions[i].reserved
    ensures var reserved := users[x.user].reserved - sessions[i].reserved + x.reserved;
            CountersOk(users[x.user := users[x.user].(reserved := reserved)], sessions[i := x], entries, files)
  {
    ReservedAtLeast(sessions, i);
    forall u | u in users
      ensures Reserved(sessions[i := x], u)
           == Reserved(sessions, u) + (if x.user == u then x.reserved - sessions[i].reserved else 0)
    {
      SessionChanged(sessions, i, x, u);
    }
  }

  lemma AdvanceKeeps(users: Users, sessions: seq<Session>, entries: seq<Entry>, files: seq<Object>, i: nat, x: Session)
    requires CountersOk(users, sessions, entries, files) && i < |sessions|
    requires x.user == sessions[i].user && x.reserved == sessions[i].reserved
    ensures CountersOk(users, sessions[i := x], entries, files)
  {
    forall u | u in users
      ensures Reserved(sessions[i := x], u) == Reserved(sessions, u)
    {
      SessionChanged(sessions, i, x, u);
    }
  }

  lemma FilesKeep(users: Users, sessions: seq<Session>, entries: seq<Entry>, files: seq<Object>, next: seq<Object>)
    requires CountersOk(users, sessions, entries, files) && EntriesOk(users.Keys, entries, files)
    requires |files| <= |next| && forall o :: 0 <= o < |files| ==> next[o].content == files[o].content
    ensures CountersOk(users, sessions, entries, next) && EntriesOk(users.Keys, entries, next)
  {
    forall u | u in users
      ensures Used(entries, next, u) == Used(entries, files, u)
    {
      SizesKept(entries, files, next, u);
    }
  }

  function Referenced(files: seq<Object>, o: Id, delta: int): seq<Object>
    requires o < |files|
  {
    files[o := files[o].(refs := files[o].refs + delta)]
  }

  function Charged(users: Users, u: Id, delta: int): Users
    requires u in users
  {
    users[u := users[u].(used := users[u].used + delta)]
  }

  lemma EntryKeepsCounters(users: Users, sessions: seq<Session>, entries: seq<Entry>, files: seq<Object>, u: Id, o: Id)
    requires CountersOk(users, sessions, entries, files) && EntriesOk(users.Keys, entries, files) && u in users
    requires o < |files|
    requires users[u].used + users[u].reserved + files[o].content.size <= users[u].quota
    ensures CountersOk(Charged(users, u, files[o].content.size), sessions, entries + [Entry(u, o, true)],
              Referenced(files, o, 1))
    ensures EntriesOk(users.Keys, entries + [Entry(u, o, true)], Referenced(files, o, 1))
  {
    var next, e := Referenced(files, o, 1), Entry(u, o, true);
    FilesKeep(users, sessions, entries, files, next);
    forall v | v in users
      ensures Used(entries + [e], next, v) == Used(entries, next, v) + (if v == u then files[o].content.size else 0)
    {
      EntryAdded(entries, next, e, v, o);
    }
  }

  lemma EntryKeepsObjects(entries: seq<Entry>, files: seq<Object>, u: Id, o: Id)
    requires ObjectsOk(entries, files) && o < |files| && files[o].status.Ready?
    ensures ObjectsOk(entries + [Entry(u, o, true)], Referenced(files, o, 1))
  {
    forall p | 0 <= p < |files|
      ensures References(entries + [Entry(u, o, true)], p) == References(entries, p) + (if p == o then 1 else 0)
    {
      EntryAdded(entries, files, Entry(u, o, true), u, p);
    }
  }

  /** Deleting an entry never meets the clamps either, and its object is there to be released. */
  lemma DropKeepsCounters(users: Users, sessions: seq<Session>, entries: seq<Entry>, files: seq<Object>, i: nat)
    requires CountersOk(users, sessions, entries, files) && EntriesOk(users.Keys, entries, files) && i < |entries|
    requires entries[i].live
    ensures var e := entries[i]; var size := files[e.file].content.size;
            && users[e.owner].used >= size
            && CountersOk(Charged(users, e.owner, -(size as int)), sessions, entries[i := e.(live := false)],
                 Referenced(files, e.file, -1))
            && EntriesOk(users.Keys, entries[i := e.(live := false)], Referenced(files, e.file, -1))
  {
    var e := entries[i];
    var next := Referenced(files, e.file, -1);
    UsedAtLeast(entries, files, i);
    FilesKeep(users, sessions, entries, files, next);
    forall v | v in users
      ensures Used(entries[i := e.(live := false)], next, v)
           == Used(entries, next, v) - (if v == e.owner then files[e.file].content.size else 0)
    {
      EntryDropped(entries, next, i, v, e.file);
    }
  }

  lemma DropKeepsObjects(entries: seq<Entry>, files: seq<Object>, i: nat)
    requires ObjectsOk(entries, files) && i < |entries| && entries[i].live && entries[i].file < |files|
    ensures var e := entries[i];
            files[e.file].refs >= 1 && files[e.file].status.Ready?
            && ObjectsOk(entries[i := e.(live := false)], Referenced(files, e.file, -1))
  {
    var e := entries[i];
    HeldOnce(entries, i);
    forall p | 0 <= p < |files|
      ensures References(entries[i := e.(live := false)], p) == References(entries, p) - (if p == e.file then 1 else 0)
    {
      EntryDropped(entries, files, i, e.owner, p);
    }
  }

  /** A live entry's object is ready, so what the entry shows can be read. */
  lemma LiveIsReady(users: Users, entries: seq<Entry>, files: seq<Object>, i: nat)
    requires ObjectsOk(entries, files) && EntriesOk(users.Keys, entries, files) && i < |entries| && entries[i].live
    ensures files[entries[i].file].status.Ready? && files[entries[i].file].refs >= 1
  {
    HeldOnce(entries, i);
  }

  lemma OccurrencesAppend(events: seq<Id>, s: Id, i: Id)
    ensures Occurrences(events + [s], i) == Occurrences(events, i) + (if s == i then 1 else 0)
  {
    assert (events + [s])[..|events|] == events;
  }

  lemma {:induction false} NoOccurrence(events: seq<Id>, n: nat)
    requires forall i :: 0 <= i < |events| ==> events[i] < n
    ensures Occurrences(events, n) == 0
  {
    if events != [] {
      NoOccurrence(events[..|events| - 1], n);
    }
  }

  lemma OpenKeepsRows(known: set<Id>, sessions: seq<Session>, entries: seq<Entry>, requests: map<(Id, nat), Id>,
          imports: map<(Id, Id, nat), ImportRow>, x: Session, key: nat)
    requires SessionsOk(known, sessions) && KeysOk(sessions, entries, requests, imports) && x.user in known
    requires SessionOk(x)
    ensures SessionsOk(known, sessions + [x])
    ensures KeysOk(sessions + [x], entries, requests[(x.user, key) := |sessions|], imports)
  {
  }

  lemma MoveKeepsRows(known: set<Id>, sessions: seq<Session>, entries: seq<Entry>, requests: map<(Id, nat), Id>,
          imports: map<(Id, Id, nat), ImportRow>, i: nat, x: Session)
    requires SessionsOk(known, sessions) && KeysOk(sessions, entries, requests, imports) && i < |sessions|
    requires x.user == sessions[i].user && SessionOk(x)
    ensures SessionsOk(known, sessions[i := x])
    ensures KeysOk(sessions[i := x], entries, requests, imports)
  {
  }

  lemma KeysKept(sessions: seq<Session>, entries: seq<Entry>, requests: map<(Id, nat), Id>,
          imports: map<(Id, Id, nat), ImportRow>, e: Entry)
    requires KeysOk(sessions, entries, requests, imports)
    ensures KeysOk(sessions, entries + [e], requests, imports)
  {
  }

  lemma KeysKeptDropping(sessions: seq<Session>, entries: seq<Entry>, requests: map<(Id, nat), Id>,
          imports: map<(Id, Id, nat), ImportRow>, i: nat)
    requires KeysOk(sessions, entries, requests, imports) && i < |entries|
    ensures KeysOk(sessions, entries[i := entries[i].(live := false)], requests, imports)
  {
  }

  /** What is reserved may be used: a commit needs no second look at the quota. */
  lemma RoomForCommit(users: Users, sessions: seq<Session>, entries: seq<Entry>, files: seq<Object>, u: Id, size: int)
    requires CountersOk(users, sessions, entries, files) && u in users
    ensures users[u].used + (users[u].reserved - size) + size <= users[u].quota
  {
  }

  lemma OpenKeepsEvents(sessions: seq<Session>, events: seq<Id>, x: Session)
    requires EventsOk(sessions, events) && x.status.Initializing?
    ensures EventsOk(sessions + [x], events)
  {
    NoOccurrence(events, |sessions|);
  }

  lemma MoveKeepsEvents(sessions: seq<Session>, events: seq<Id>, i: nat, x: Session)
    requires EventsOk(sessions, events) && i < |sessions|
    requires Edge(sessions[i].status, x.status) && !x.status.Verifying?
    ensures EventsOk(sessions[i := x], events)
  {
  }

  lemma VerifyingKeepsEvents(sessions: seq<Session>, events: seq<Id>, i: nat, x: Session)
    requires EventsOk(sessions, events) && i < |sessions| && sessions[i].status.Completing? && x.status.Verifying?
    ensures EventsOk(sessions[i := x], events + [i])
  {
    forall k | 0 <= k < |sessions|
      ensures EventsFit(sessions[i := x][k].status, Occurrences(events + [i], k))
    {
      OccurrencesAppend(events, i, k);
      assert EventsFit(sessions[k].status, Occurrences(events, k));
    }
  }

  /** The row of the verified content: found ready, revived, or new. */
  predicate Acquires(files: seq<Object>, c: Content, o: Id, next: seq<Object>) {
    if o < |files| then
      && files[o].content == c && !files[o].status.Deleting?
      && next == files[o := files[o].(status := Ready)]
    else
      && o == |files| && (forall p :: 0 <= p < |files| ==> files[p].content != c)
      && next == files + [Object(c, 0, Ready)]
  }

  lemma AcquireKeeps(known: set<Id>, entries: seq<Entry>, files: seq<Object>, c: Content, o: Id, next: seq<Object>)
    requires ObjectsOk(entries, files) && EntriesOk(known, entries, files) && Acquires(files, c, o, next)
    ensures ObjectsOk(entries, next) && o < |next| && next[o].content == c && next[o].status.Ready?
    ensures |files| <= |next| && forall p :: 0 <= p < |files| ==> next[p].content == files[p].content
  {
    if o == |files| {
      Unreferenced(entries, o);
    }
  }

  /** Orphan copies of a content after their adoption: a missing row is added, a deleted one whose
      next generation was copied is deleted once more, and no other row changes. */
  predicate Adopted(files: seq<Object>, c: Content, copied: bool, newest: bool, next: seq<Object>) {
    && (if copied && forall o :: 0 <= o < |files| ==> files[o].content != c
        then |next| == |files| + 1 && next[|files|] == Object(c, 0, Deleting) else |next| == |files|)
    && (forall o :: 0 <= o < |files| ==>
          next[o] == if copied && newest && files[o].content == c && files[o].status.Deleted?
                     then files[o].(status := Deleting) else files[o])
  }

  /** Which copies leave a row to be deleted: those of a content without a row, and those that carry
      the next generation of a deleted one. */
  lemma AdoptedExactly(files: seq<Object>, c: Content, copied: bool, newest: bool, next: seq<Object>)
    requires Adopted(files, c, copied, newest, next)
    ensures !copied ==> next == files
    ensures (copied && forall o :: 0 <= o < |files| ==> files[o].content != c) ==>
              next == files + [Object(c, 0, Deleting)]
    ensures forall o :: 0 <= o < |files| && files[o].content == c ==>
              next[o].status == if copied && newest && files[o].status == Deleted then Deleting else files[o].status
    ensures forall o :: 0 <= o < |files| && files[o].content != c ==> next[o] == files[o]
  {
  }

  lemma AdoptKeeps(known: set<Id>, entries: seq<Entry>, files: seq<Object>, c: Content, newest: bool, next: seq<Object>)
    requires ObjectsOk(entries, files) && EntriesOk(known, entries, files) && Adopted(files, c, true, newest, next)
    ensures ObjectsOk(entries, next)
    ensures |files| <= |next| && forall p :: 0 <= p < |files| ==> next[p].content == files[p].content
  {
    if |next| > |files| {
      Unreferenced(entries, |files|);
    }
  }

  predicate HoldsContent(entries: seq<Entry>, files: seq<Object>, u: Id, c: Content) {
    exists i :: 0 <= i < |entries| && entries[i].live && entries[i].owner == u && entries[i].file < |files|
      && files[entries[i].file].content == c && files[entries[i].file].status.Ready?
  }

  /** drive.Service.CreateFile counts the owner's live entries of the object. */
  predicate HoldsFile(entries: seq<Entry>, u: Id, o: Id) {
    exists i :: 0 <= i < |entries| && entries[i].live && entries[i].owner == u && entries[i].file == o
  }

  // ---- what one user has is nobody else's ----

  /** The objects of the user's own live entries. */
  function Held(entries: seq<Entry>, u: Id): set<Id> {
    set i | 0 <= i < |entries| && entries[i].live && entries[i].owner == u :: entries[i].file
  }

  lemma HeldMeans(entries: seq<Entry>, files: seq<Object>, u: Id, o: Id, c: Content)
    ensures HoldsFile(entries, u, o) <==> o in Held(entries, u)
    ensures HoldsContent(entries, files, u, c) <==>
              exists p :: p in Held(entries, u) && p < |files| && files[p].content == c && files[p].status.Ready?
  {
  }

  /** An entry shows in its owner's holdings and in no other user's; so does its deletion. */
  lemma HoldingsAreOwn(entries: seq<Entry>, e: Entry, i: nat, u: Id)
    requires e.live && i < |entries| && entries[i].live
    ensures Held(entries + [e], u) == if u == e.owner then Held(entries, u) + {e.file} else Held(entries, u)
    ensures u != entries[i].owner ==> Held(entries[i := entries[i].(live := false)], u) == Held(entries, u)
    ensures u == entries[i].owner && References(entries, entries[i].file) == 1 ==>
              Held(entries[i := entries[i].(live := false)], u) == Held(entries, u) - {entries[i].file}
  {
    var f, less := entries[i].file, entries[i := entries[i].(live := false)];
    assert forall k :: 0 <= k < |entries| ==> (entries + [e])[k] == entries[k];
    assert (entries + [e])[|entries|] == e;
    assert forall k :: 0 <= k < |entries| && k != i ==> less[k] == entries[k];
    if References(entries, f) == 1 {
      OnlyHolder(entries, i);
    }
  }

  lemma OnlyHolder(entries: seq<Entry>, i: nat)
    requires i < |entries| && entries[i].live && References(entries, entries[i].file) == 1
    ensures forall k :: 0 <= k < |entries| && k != i && entries[k].live ==> entries[k].file != entries[i].file
  {
    var less := entries[i := entries[i].(live := false)];
    EntryDropped(entries, [], i, entries[i].owner, entries[i].file);
    forall k | 0 <= k < |entries| && k != i && entries[k].live
      ensures entries[k].file != entries[i].file
    {
      if entries[k].file == entries[i].file {
        assert less[k] == entries[k];
        HeldOnce(less, k);
      }
    }
  }

  class Accounts {
    var users: Users
    var sessions: seq<Session>
    var entries: seq<Entry>
    var files: seq<Object>
    var requests: map<(Id, nat), Id>
    var imports: map<(Id, Id, nat), ImportRow>
    var verifyEvents: seq<Id>

    predicate Valid()
      reads this
    {
      && CountersOk(users, sessions, entries, files)
      && SessionsOk(users.Keys, sessions)
      && EntriesOk(users.Keys, entries, files)
      && ObjectsOk(entries, files)
      && EventsOk(sessions, verifyEvents)
      && KeysOk(sessions, entries, requests, imports)
    }

    constructor (users: Users)
      requires forall u :: u in users ==> users[u].used == 0 && users[u].reserved == 0 && users[u].quota >= 0
      ensures Valid() && this.users == users && sessions == [] && entries == [] && files == []
      ensures requests == map[] && imports == map[] && verifyEvents == []
    {
      this.users := users;
      sessions, entries, files, requests, imports, verifyEvents := [], [], [], map[], map[], [];
    }

    /** Status changes follow the life cycle; a session's owner and content never change. */
    twostate predicate Steps()
      reads this
    {
      StepsBetween(old(sessions), sessions)
    }

    twostate predicate Unchanged()
      reads this
    {
      && users == old(users) && sessions == old(sessions) && entries == old(entries) && files == old(files)
      && requests == old(requests) && imports == old(imports) && verifyEvents == old(verifyEvents)
    }

    /** The guard of identity.ReserveQuota. */
    predicate MayReserve(u: Id, size: int)
      reads this`users
    {
      Fits(u, size) && users[u].active
    }

    /** The guard of identity.AddLogicalUsage. */
    predicate Fits(u: Id, size: int)
      reads this`users
    {
      u in users && users[u].used + users[u].reserved + size <= users[u].quota
    }

    twostate predicate SessionsSame()
      reads this
    {
      sessions == old(sessions) && requests == old(requests) && verifyEvents == old(verifyEvents)
    }

    twostate predicate FilesSame()
      reads this
    {
      entries == old(entries) && files == old(files) && imports == old(imports)
    }

    /** AddLogicalUsage, CreateFile and AddReference in one transaction: the whole of an instant
        upload and the core of an import. `free` says the folder and name checks pass. */
    method AddEntry(u: Id, o: Id, free: bool) returns (r: Result)
      requires Valid() && o < |files|
      modifies this
      ensures Valid() && SessionsSame() && imports == old(imports)
      ensures r.Ok? <==>
                old(Fits(u, files[o].content.size)) && free && !HoldsFile(old(entries), u, o)
                  && old(files)[o].status.Ready?
      ensures r.Ok? <==>
                && u in old(users)
                && old(users)[u].used + old(users)[u].reserved + old(files)[o].content.size <= old(users)[u].quota
                && free && o !in Held(old(entries), u) && old(files)[o].status.Ready?
      ensures r.Err? ==> Unchanged()
      ensures !old(Fits(u, files[o].content.size)) ==> r == Err(QuotaExceeded)
      ensures old(Fits(u, files[o].content.size)) && free && HoldsFile(old(entries), u, o) ==> r == Err(FileExists)
      ensures r.Ok? ==>
                && r.id == |old(entries)| && entries == old(entries) + [Entry(u, o, true)]
                && files == Referenced(old(files), o, 1)
                && users == Charged(old(users), u, old(files)[o].content.size)
    {
      hide Held, HoldsFile, HoldsContent;
      HeldMeans(entries, files, u, o, files[o].content);
      if !Fits(u, files[o].content.size) {
        return Err(QuotaExceeded);
      }
      if !free {
        return Err(Conflict);
      }
      if HoldsFile(entries, u, o) {
        return Err(FileExists);
      }
      if !files[o].status.Ready? {
        return Err(ObjectBusy);
      }
      hide CountersOk, SessionsOk, EntriesOk, ObjectsOk, EventsOk;
      EntryKeepsCounters(users, sessions, entries, files, u, o);
      EntryKeepsObjects(entries, files, u, o);
      users := Charged(users, u, files[o].content.size);
      assert users.Keys == old(users).Keys;
      files := Referenced(files, o, 1);
      entries := entries + [Entry(u, o, true)];
      r := Ok(|entries| - 1);
    }

    /** The starting transaction of upload.Create; `free` says the folder and both name checks pass.
        The branch for content the owner already holds never succeeds: it goes on to add a second
        entry for the same object, which CreateFile refuses. */
    method Create(u: Id, key: nat, content: Content, free: bool) returns (r: Result)
      requires Valid()
      modifies this
      ensures Valid() && Steps()
      ensures r.Err? ==> Unchanged()
      ensures content.size == 0 ==> r == Err(InvalidInput)
      ensures content.size > 0 && (u, key) in old(requests) ==>
                && Unchanged()
                && r == (if old(sessions)[old(requests)[(u, key)]].content == content then Ok(old(requests)[(u, key)])
                     else Err(Conflict))
      ensures content.size > 0 && (u, key) !in old(requests) ==>
                (r.Ok? <==>
                   free && !HoldsContent(old(entries), old(files), u, content) && old(MayReserve(u, content.size)))
      ensures (content.size > 0 && (u, key) !in old(requests) && free && u in old(users) && old(users)[u].active
               && old(users)[u].used + old(users)[u].reserved + content.size <= old(users)[u].quota
               && forall o :: o in Held(old(entries), u) && o < |old(files)| ==> old(files)[o].content != content) ==>
                r == Ok(|old(sessions)|) && Opened(u, key, content)
      ensures content.size > 0 && (u, key) !in old(requests) && free && old(Fits(u, content.size))
              && HoldsContent(old(entries), old(files), u, content) ==>
                r == Err(FileExists)
      ensures (u, key) !in old(requests) && r.Ok? ==>
                && u in old(users) && old(users)[u].active
                && old(users)[u].used + old(users)[u].reserved + content.size <= old(users)[u].quota
      ensures (u, key) !in old(requests) && r.Ok? ==>
                r.id == |old(sessions)| && u in old(users) && Opened(u, key, content)
    {
      HeldMeans(entries, files, u, 0, content);
      if content.size == 0 {
        return Err(InvalidInput);
      }
      if (u, key) in requests {
        var prior := requests[(u, key)];
        return if sessions[prior].content == content then Ok(prior) else Err(Conflict);
      }
      if !free {
        return Err(NameConflict);
      }
      if HoldsContent(entries, files, u, content) {
        var i :| 0 <= i < |entries| && entries[i].live && entries[i].owner == u && entries[i].file < |files|
          && files[entries[i].file].content == content && files[entries[i].file].status.Ready?;
        r := AddEntry(u, entries[i].file, true);
        return;
      }
      if !MayReserve(u, content.size) {
        return Err(QuotaExceeded);
      }
      r := Ok(|sessions|);
      Open(u, key, content);
    }

    twostate predicate Opened(u: Id, key: nat, content: Content)
      requires u in old(users)
      reads this
    {
      && sessions == old(sessions) + [Session(u, content, content.size, Initializing, false, None)]
      && users == old(users)[u := old(users)[u].(reserved := old(users)[u].reserved + content.size)]
      && requests == old(requests)[(u, key) := |old(sessions)|]
      && FilesSame() && verifyEvents == old(verifyEvents)
    }

    method Open(u: Id, key: nat, content: Content)
      requires Valid() && Fits(u, content.size)
      modifies this
      ensures Valid() && Steps() && Opened(u, key, content)
    {
      hide CountersOk, SessionsOk, EntriesOk, ObjectsOk, EventsOk, KeysOk;
      var session := Session(u, content, content.size, Initializing, false, None);
      OpenKeeps(users, sessions, entries, files, session);
      OpenKeepsEvents(sessions, verifyEvents, session);
      OpenKeepsRows(users.Keys, sessions, entries, requests, imports, session, key);
      users := users[u := users[u].(reserved := users[u].reserved + content.size)];
      assert users.Keys == old(users).Keys;
      requests := requests[(u, key) := |sessions|];
      sessions := sessions + [session];
    }

    /** The rows a session's own transactions may change beside it. */
    twostate predicate OnlySessions()
      reads this
    {
      FilesSame() && requests == old(requests)
    }

    /** A status change that leaves what the session holds alone. */
    method Advance(i: Id, to: Status, uploadId: bool)
      requires Valid() && i < |sessions| && Edge(sessions[i].status, to) && Holding(to) && !to.Verifying?
      modifies this
      ensures Valid() && Steps() && OnlySessions() && users == old(users) && verifyEvents == old(verifyEvents)
      ensures sessions == old(sessions)[i := old(sessions)[i].(status := to, uploadId := uploadId)]
    {
      hide CountersOk, EntriesOk, ObjectsOk, EventsOk, KeysOk;
      var x := sessions[i].(status := to, uploadId := uploadId);
      AdvanceKeeps(users, sessions, entries, files, i, x);
      MoveKeepsEvents(sessions, verifyEvents, i, x);
      MoveKeepsRows(users.Keys, sessions, entries, requests, imports, i, x);
      sessions := sessions[i := x];
    }

    /** ReleaseQuota with its clamp, and the status change that goes with it. */
    method Close(i: Id, to: Status)
      requires Valid() && i < |sessions| && Edge(sessions[i].status, to) && !Holding(to) && !to.Completed?
      modifies this
      ensures Valid() && Steps() && OnlySessions() && verifyEvents == old(verifyEvents)
      ensures Closed(i, to)
    {
      hide CountersOk, EntriesOk, ObjectsOk, EventsOk, KeysOk;
      var u, x := sessions[i].user, sessions[i].(status := to, reserved := 0);
      CloseKeeps(users, sessions, entries, files, i, x);
      MoveKeepsEvents(sessions, verifyEvents, i, x);
      MoveKeepsRows(users.Keys, sessions, entries, requests, imports, i, x);
      hide SessionsOk;
      users := users[u := users[u].(reserved := AtLeastZero(users[u].reserved - sessions[i].reserved))];
      assert users.Keys == old(users).Keys;
      sessions := sessions[i := x];
    }

    /** The session ends with nothing reserved, and exactly what it held is given back. */
    twostate predicate Closed(i: Id, to: Status)
      requires i < |old(sessions)|
      reads this
    {
      var x := old(sessions)[i];
      && sessions == old(sessions)[i := x.(status := to, reserved := 0)]
      && x.user in old(users)
      && users == old(users)[x.user := old(users)[x.user].(reserved := old(users)[x.user].reserved - x.reserved)]
    }

    /** multipart.create converges: the session learns its upload id. */
    method UploadCreated(i: Id)
      requires Valid()
      modifies this
      ensures Valid() && Steps() && OnlySessions() && users == old(users) && verifyEvents == old(verifyEvents)
      ensures sessions == if i < |old(sessions)| && old(sessions)[i].status.Initializing?
                          then old(sessions)[i := old(sessions)[i].(status := Created, uploadId := true)]
                          else old(sessions)
    {
      if i < |sessions| && sessions[i].status.Initializing? {
        Advance(i, Created, true);
      }
    }

    /** ConfirmParts' status change. */
    method PartsConfirmed(i: Id)
      requires Valid()
      modifies this
      ensures Valid() && Steps() && OnlySessions() && users == old(users) && verifyEvents == old(verifyEvents)
      ensures sessions == if i < |old(sessions)| && old(sessions)[i].status.Created?
                          then old(sessions)[i := old(sessions)[i].(status := Uploading)]
                          else old(sessions)
    {
      if i < |sessions| && sessions[i].status.Created? {
        Advance(i, Uploading, sessions[i].uploadId);
      }
    }

    /** upload.Complete; `allParts` says every part is confirmed. */
    method Complete(u: Id, i: Id, allParts: bool) returns (r: Result)
      requires Valid()
      modifies this
      ensures Valid() && Steps() && OnlySessions() && users == old(users) && verifyEvents == old(verifyEvents)
      ensures i >= |old(sessions)| || old(sessions)[i].user != u ==> r == Err(NotFound) && Unchanged()
      ensures i < |old(sessions)| && old(sessions)[i].user == u ==>
                var x := old(sessions)[i];
                && r == (if x.status.Verifying? || x.status.Completed? || x.status.Completing? then Ok(i)
                         else if (x.status.Created? || x.status.Uploading?) && allParts && x.uploadId then Ok(i)
                           else Err(Conflict))
                && sessions == (if r.Ok? && (x.status.Created? || x.status.Uploading?)
                                then old(sessions)[i := x.(status := Completing)] else old(sessions))
    {
      if i >= |sessions| || sessions[i].user != u {
        return Err(NotFound);
      }
      var status := sessions[i].status;
      if status.Verifying? || status.Completed? || status.Completing? {
        return Ok(i);
      }
      if (!status.Uploading? && !status.Created?) || !allParts || !sessions[i].uploadId {
        return Err(Conflict);
      }
      Advance(i, Completing, sessions[i].uploadId);
      r := Ok(i);
    }

    /** The transaction after the provider completed the upload, from whichever worker gets there. */
    method StartVerifying(i: Id) returns (r: Result)
      requires Valid()
      modifies this
      ensures Valid() && Steps() && OnlySessions() && users == old(users)
      ensures i >= |old(sessions)| ==> r == Err(NotFound) && Unchanged()
      ensures i < |old(sessions)| && old(sessions)[i].status.Completing? ==>
                && r == Ok(i) && sessions == old(sessions)[i := old(sessions)[i].(status := Verifying)]
                && verifyEvents == old(verifyEvents) + [i]
      ensures i < |old(sessions)| && !old(sessions)[i].status.Completing? ==>
                && Unchanged()
                && r == (if old(sessions)[i].status.Verifying? || old(sessions)[i].status.Completed? then Ok(i)
                     else Err(Conflict))
    {
      hide CountersOk, EntriesOk, ObjectsOk, EventsOk, KeysOk;
      if i >= |sessions| {
        return Err(NotFound);
      }
      if sessions[i].status.Verifying? || sessions[i].status.Completed? {
        return Ok(i);
      }
      if !sessions[i].status.Completing? {
        return Err(Conflict);
      }
      var x := sessions[i].(status := Verifying);
      AdvanceKeeps(users, sessions, entries, files, i, x);
      VerifyingKeepsEvents(sessions, verifyEvents, i, x);
      MoveKeepsRows(users.Keys, sessions, entries, requests, imports, i, x);
      hide SessionsOk;
      sessions := sessions[i := x];
      verifyEvents := verifyEvents + [i];
      r := Ok(i);
    }

    /** registerCanonicalCleanup: `copied` says the session started a copy of its content, `newest`
        that one of the copies has the key the content's deleted row would be revived under. */
    method Adopt(c: Content, copied: bool, newest: bool)
      requires Valid()
      modifies this`files
      ensures Valid() && Adopted(old(files), c, copied, newest, files)
    {
      hide CountersOk, SessionsOk, EntriesOk, EventsOk, KeysOk;
      if !copied {
        return;
      }
      if exists o :: 0 <= o < |files| && files[o].content == c {
        var o :| 0 <= o < |files| && files[o].content == c;
        if !files[o].status.Deleted? || !newest {
          return;
        }
        AdoptKeeps(users.Keys, entries, files, c, newest, files[o := files[o].(status := Deleting)]);
        FilesKeep(users, sessions, entries, files, files[o := files[o].(status := Deleting)]);
        files := files[o := files[o].(status := Deleting)];
      } else {
        AdoptKeeps(users.Keys, entries, files, c, newest, files + [Object(c, 0, Deleting)]);
        FilesKeep(users, sessions, entries, files, files + [Object(c, 0, Deleting)]);
        files := files + [Object(c, 0, Deleting)];
      }
    }

    /** upload.fail: the copies the session made become rows to be deleted. */
    method Fail(i: Id, copied: bool, newest: bool) returns (r: Result)
      requires Valid()
      modifies this
      ensures Valid() && Steps() && verifyEvents == old(verifyEvents)
      ensures entries == old(entries) && requests == old(requests) && imports == old(imports)
      ensures i >= |old(sessions)| ==> r == Err(NotFound) && Unchanged()
      ensures i < |old(sessions)| ==>
                var x := old(sessions)[i];
                && (x.status.Verifying? ==>
                      r == Ok(i) && Closed(i, Failed) && Adopted(old(files), x.content, copied, newest, files))
                && (!x.status.Verifying? ==>
                      Unchanged() && r == (if x.status.Failed? || x.status.Completed? then Ok(i) else Err(Conflict)))
    {
      hide CountersOk, SessionsOk, EntriesOk, ObjectsOk, EventsOk, KeysOk, Adopted;
      if i >= |sessions| {
        return Err(NotFound);
      }
      if !sessions[i].status.Verifying? {
        return if sessions[i].status.Failed? || sessions[i].status.Completed? then Ok(i) else Err(Conflict);
      }
      Adopt(sessions[i].content, copied, newest);
      Close(i, Failed);
      r := Ok(i);
    }

    /** ReconcileCanonicalOrphans: the same adoption once more for a session that has ended. */
    method ReconcileOrphan(i: Id, copied: bool, newest: bool)
      requires Valid()
      modifies this`files
      ensures Valid()
      ensures if i < |sessions|
                && (sessions[i].status.Failed? || sessions[i].status.Aborted? || sessions[i].status.Expired?)
              then Adopted(old(files), sessions[i].content, copied, newest, files) else files == old(files)
    {
      hide CountersOk, SessionsOk, EntriesOk, ObjectsOk, EventsOk, KeysOk, Adopted;
      if i < |sessions| && (sessions[i].status.Failed? || sessions[i].status.Aborted? || sessions[i].status.Expired?) {
        Adopt(sessions[i].content, copied, newest);
      }
    }

    /** upload.Abort. */
    method Abort(u: Id, i: Id) returns (r: Result)
      requires Valid()
      modifies this
      ensures Valid() && Steps() && OnlySessions() && verifyEvents == old(verifyEvents)
      ensures i >= |old(sessions)| || old(sessions)[i].user != u ==> r == Err(NotFound) && Unchanged()
      ensures i < |old(sessions)| && old(sessions)[i].user == u ==>
                match old(sessions)[i].status
                case Aborted => r == Ok(i) && Unchanged()
                case Failed => r == Ok(i) && Unchanged()
                case Completed => r == Err(Conflict) && Unchanged()
                case Verifying => r == Err(Conflict) && Unchanged()
                case Completing => r == Err(Conflict) && Unchanged()
                case _ => r == Ok(i) && Closed(i, Aborted)
    {
      if i >= |sessions| || sessions[i].user != u {
        return Err(NotFound);
      }
      var status := sessions[i].status;
      if status.Aborted? || status.Failed? {
        return Ok(i);
      }
      if status.Completed? || status.Verifying? || status.Completing? {
        return Err(Conflict);
      }
      Close(i, Aborted);
      r := Ok(i);
    }

    /** upload.expireOne; `due` says the expiry time has passed. */
    method Expire(i: Id, due: bool) returns (changed: bool)
      requires Valid()
      modifies this
      ensures Valid() && Steps() && OnlySessions() && verifyEvents == old(verifyEvents)
      ensures changed <==> i < |old(sessions)| && due && old(BeforeCompleting(i))
      ensures i < |old(sessions)| && due ==>
                var was := old(sessions)[i].status;
                (changed <==> was == Initializing || was == Created || was == Uploading)
      ensures if changed then Closed(i, Expired) else Unchanged()
    {
      if i >= |sessions| || !BeforeCompleting(i) || !due {
        return false;
      }
      Close(i, Expired);
      changed := true;
    }

    predicate BeforeCompleting(i: Id)
      reads this`sessions
    {
      i < |sessions|
        && (sessions[i].status.Initializing? || sessions[i].status.Created? || sessions[i].status.Uploading?)
    }

    predicate WaitsForProvider(i: Id)
      reads this`sessions
    {
      i < |sessions| && (sessions[i].status.Initializing? || sessions[i].status.Completing?)
    }

    /** RetireStoppedSessions; `stopped` says the session's storage operation is dead, or can be
        made so because its recovery stopped while no worker runs it. */
    method Retire(i: Id, stopped: bool) returns (changed: bool)
      requires Valid()
      modifies this
      ensures Valid() && Steps() && OnlySessions() && verifyEvents == old(verifyEvents)
      ensures changed <==> i < |old(sessions)| && stopped && old(WaitsForProvider(i))
      ensures i < |old(sessions)| && stopped ==>
                var was := old(sessions)[i].status; (changed <==> was == Initializing || was == Completing)
      ensures if changed then Closed(i, Failed) else Unchanged()
    {
      if !WaitsForProvider(i) || !stopped {
        return false;
      }
      Close(i, Failed);
      changed := true;
    }

    /** What the verifier read before it fetched the bytes: the session, then already verifying. */
    predicate ReadEarlier(i: Id, seen: Session)
      reads this`sessions
    {
      i < |sessions| && seen.user == sessions[i].user && seen.content == sessions[i].content && seen.status.Verifying?
        && SessionOk(seen)
    }

    /** No row of the content is being deleted or needs another copy, and the user does not hold it. */
    predicate Acceptable(u: Id, c: Content, newest: bool)
      reads this
    {
      forall o :: 0 <= o < |files| && files[o].content == c ==>
        !files[o].status.Deleting? && (files[o].status.Deleted? ==> newest) && !HoldsFile(entries, u, o)
    }

    lemma AcceptableMeans(u: Id, c: Content, newest: bool)
      ensures Acceptable(u, c, newest) <==>
                forall o :: 0 <= o < |files| && files[o].content == c ==>
                  o !in Held(entries, u) && (files[o].status == Ready || (newest && files[o].status == Deleted))
    {
      forall o | 0 <= o < |files| && files[o].content == c
        ensures HoldsFile(entries, u, o) <==> o in Held(entries, u)
      {
        HeldMeans(entries, files, u, o, c);
      }
    }

    /** CreateOrGet, and CreateFile's look at what the user already holds. */
    method Acquire(u: Id, c: Content, newest: bool) returns (e: Option<Error>, o: Id, next: seq<Object>)
      requires ObjectsOk(entries, files) && EntriesOk(users.Keys, entries, files)
      ensures e.None? <==> Acceptable(u, c, newest)
      ensures e.None? ==> Acquires(files, c, o, next)
    {
      o, next := |files|, files + [Object(c, 0, Ready)];
      if exists p :: 0 <= p < |files| && files[p].content == c {
        o :| 0 <= o < |files| && files[o].content == c;
        if files[o].status.Deleting? || (files[o].status.Deleted? && !newest) {
          return Some(ObjectBusy), o, next;
        }
        next := files[o := files[o].(status := Ready)];
      }
      if HoldsFile(entries, u, o) {
        return Some(FileExists), o, next;
      }
      e := None;
    }

    /** The committing transaction of upload.Verify. `named` and `placed` are the file name checks
        here and in CreateFile; `newest` says the copied key is the row's next generation. */
    method CommitVerified(i: Id, seen: Session, named: bool, placed: bool, newest: bool) returns (r: Result)
      requires Valid() && ReadEarlier(i, seen)
      modifies this
      ensures Valid() && Steps() && verifyEvents == old(verifyEvents) && requests == old(requests)
      ensures imports == old(imports)
      ensures old(sessions)[i].status.Completed? ==> r == Ok(i) && Unchanged()
      ensures !old(sessions)[i].status.Completed? && !old(sessions)[i].status.Verifying? ==> r == Err(Conflict)
      ensures old(sessions)[i].status.Verifying? && !named ==> r == Err(NameConflict)
      ensures old(sessions)[i].status.Verifying? ==>
                (r.Ok? <==> named && placed && old(Acceptable(seen.user, seen.content, newest)))
      ensures (old(sessions)[i].status.Verifying? && named && placed
               && forall o :: 0 <= o < |old(files)| && old(files)[o].content == old(sessions)[i].content ==>
                    && o !in Held(old(entries), old(sessions)[i].user)
                    && (old(files)[o].status == Ready || (newest && old(files)[o].status == Deleted))) ==> r.Ok?
      ensures r.Err? ==> Unchanged()
      ensures r.Ok? && old(sessions)[i].status.Verifying? ==> named && placed && exists o, next :: Stored(i, o, next)
    {
      hide CountersOk, SessionsOk, EntriesOk, ObjectsOk, EventsOk, KeysOk, Acquires, Acceptable, SessionOk;
      hide Held, HoldsFile;
      AcceptableMeans(seen.user, seen.content, newest);
      if sessions[i].status.Completed? {
        return Ok(i);
      }
      if !sessions[i].status.Verifying? {
        return Err(Conflict);
      }
      if !named {
        return Err(NameConflict);
      }
      var found, o, next := Acquire(seen.user, seen.content, newest);
      if found.Some? {
        return Err(found.value);
      }
      if !placed {
        return Err(Conflict);
      }
      Store(i, seen, o, next);
      assert Stored(i, o, next);
      r := Ok(i);
    }

    /** CreateFile, AddReference, CommitQuota and the session's completion. */
    method Store(i: Id, seen: Session, o: Id, next: seq<Object>)
      requires Valid() && ReadEarlier(i, seen) && sessions[i].status.Verifying?
      requires Acquires(files, seen.content, o, next)
      modifies this
      ensures Valid() && Steps() && verifyEvents == old(verifyEvents) && requests == old(requests)
      ensures imports == old(imports)
      ensures Stored(i, o, next)
    {
      hide CountersOk, EntriesOk, ObjectsOk, EventsOk, KeysOk, Acquires;
      var u, size := seen.user, seen.content.size;
      var x := sessions[i].(status := Completed, reserved := 0, entry := Some(|entries|));
      ghost var released := users[u := users[u].(reserved := users[u].reserved - sessions[i].reserved)];
      CloseKeeps(users, sessions, entries, files, i, x);
      MoveKeepsEvents(sessions, verifyEvents, i, x);
      MoveKeepsRows(users.Keys, sessions, entries, requests, imports, i, x);
      AcquireKeeps(users.Keys, entries, files, seen.content, o, next);
      assert released.Keys == users.Keys;
      FilesKeep(released, sessions[i := x], entries, files, next);
      RoomForCommit(users, sessions, entries, files, u, sessions[i].reserved);
      EntryKeepsCounters(released, sessions[i := x], entries, next, u, o);
      EntryKeepsObjects(entries, next, u, o);
      KeysKept(sessions[i := x], entries, requests, imports, Entry(u, o, true));
      hide SessionsOk;
      users := users[u := users[u].(reserved := AtLeastZero(users[u].reserved - seen.reserved),
        used := users[u].used + size)];
      assert users == Charged(released, u, size);
      assert users.Keys == old(users).Keys;
      files := Referenced(next, o, 1);
      entries := entries + [Entry(u, o, true)];
      sessions := sessions[i := x];
    }

    /** Exactly the reserved bytes become used bytes, for one new entry of one referenced object. */
    twostate predicate Stored(i: Id, o: Id, next: seq<Object>)
      reads this
    {
      && i < |old(sessions)| && old(sessions)[i].user in old(users)
      && Acquires(old(files), old(sessions)[i].content, o, next) && o < |next|
      && var x := old(sessions)[i];
         var was := old(users)[x.user];
         && users == old(users)[x.user := was.(reserved := was.reserved - x.content.size,
              used := was.used + x.content.size)]
         && files == Referenced(next, o, 1)
         && entries == old(entries) + [Entry(x.user, o, true)]
         && sessions == old(sessions)[i := x.(status := Completed, reserved := 0, entry := Some(|old(entries)|))]
    }

    /** sharing.Import. `allowed` says the share is valid; one request key makes one entry. */
    method Import(u: Id, share: Id, key: nat, folder: Id, source: Id, allowed: bool, free: bool) returns (r: Result)
      requires Valid()
      modifies this
      ensures Valid() && SessionsSame()
      ensures r.Err? ==> Unchanged()
      ensures (u, share, key) !in old(imports) && source >= |old(entries)| ==> r == Err(NotFound)
      ensures (u, share, key) in old(imports) ==>
                && Unchanged()
                && var prior := old(imports)[(u, share, key)];
                   r == if prior.folder == folder then Ok(prior.entry) else Err(Conflict)
      ensures (u, share, key) !in old(imports) && source < |old(entries)| ==>
                var e := old(entries)[source];
                && e.file < |old(files)|
                && (r.Ok? <==>
                     allowed && e.live && free && !HoldsFile(old(entries), u, e.file)
                       && old(Fits(u, files[entries[source].file].content.size)))
                && (r.Ok? ==>
                      && r.id == |old(entries)| && entries == old(entries) + [Entry(u, e.file, true)]
                      && files == Referenced(old(files), e.file, 1)
                      && u in old(users) && users == Charged(old(users), u, old(files)[e.file].content.size)
                      && imports == old(imports)[(u, share, key) := ImportRow(folder, r.id)])
    {
      hide CountersOk, SessionsOk, ObjectsOk, EventsOk;
      if (u, share, key) in imports {
        var prior := imports[(u, share, key)];
        return if prior.folder == folder then Ok(prior.entry) else Err(Conflict);
      }
      if !allowed || source >= |entries| || !entries[source].live {
        return Err(NotFound);
      }
      LiveIsReady(users, entries, files, source);
      r := AddEntry(u, entries[source].file, free);
      if r.Ok? {
        imports := imports[(u, share, key) := ImportRow(folder, r.id)];
      }
    }

    /** drive.FileManager.Delete: entry, reference and quota in one step. `collect` asks for
        garbage collection of an object without references. */
    method DeleteEntry(u: Id, i: Id, current: bool) returns (r: Result, collect: bool)
      requires Valid()
      modifies this
      ensures Valid() && SessionsSame() && imports == old(imports)
      ensures r.Err? ==> Unchanged() && !collect
      ensures r == (if i >= |old(entries)| || !old(entries)[i].live || old(entries)[i].owner != u then Err(NotFound)
                    else if !current then Err(Conflict) else Ok(i))
      ensures r.Ok? ==>
                var e := old(entries)[i];
                && e.file < |old(files)| && u in old(users)
                && entries == old(entries)[i := e.(live := false)]
                && files == Referenced(old(files), e.file, -1)
                && users == Charged(old(users), u, -(old(files)[e.file].content.size as int))
                && (collect <==> files[e.file].refs == 0)
    {
      collect := false;
      if i >= |entries| || !entries[i].live || entries[i].owner != u {
        return Err(NotFound), false;
      }
      if !current {
        return Err(Conflict), false;
      }
      Drop(i);
      collect := files[entries[i].file].refs == 0;
      r := Ok(i);
    }

    method Drop(i: Id)
      requires Valid() && i < |entries| && entries[i].live
      modifies this
      ensures Valid() && SessionsSame() && imports == old(imports)
      ensures var e := old(entries)[i];
              && e.file < |old(files)| && e.owner in old(users)
              && entries == old(entries)[i := e.(live := false)]
              && files == Referenced(old(files), e.file, -1)
              && users == Charged(old(users), e.owner, -(old(files)[e.file].content.size as int))
    {
      hide CountersOk, SessionsOk, ObjectsOk, EventsOk, KeysOk;
      var e := entries[i];
      var size: int := files[e.file].content.size;
      DropKeepsCounters(users, sessions, entries, files, i);
      DropKeepsObjects(entries, files, i);
      KeysKeptDropping(sessions, entries, requests, imports, i);
      hide EntriesOk;
      entries := entries[i := e.(live := false)];
      if files[e.file].refs > 0 {
        files := Referenced(files, e.file, -1);
      }
      users := users[e.owner := users[e.owner].(used := AtLeastZero(users[e.owner].used - size))];
      assert users == Charged(old(users), e.owner, -size);
      assert users.Keys == old(users).Keys;
    }

    /** GarbageCollect: an object nobody references is put to deletion, and one already there is
        scheduled again. */
    method Collect(o: Id) returns (scheduled: bool)
      requires Valid()
      modifies this`files
      ensures Valid()
      ensures scheduled <==> o < |old(files)| && old(files)[o].refs == 0 && !old(files)[o].status.Deleted?
      ensures files == if scheduled then old(files)[o := old(files)[o].(status := Deleting)] else old(files)
    {
      if o >= |files| || References(entries, o) > 0 || files[o].refs > 0 || files[o].status.Deleted? {
        return false;
      }
      FilesKeep(users, sessions, entries, files, files[o := files[o].(status := Deleting)]);
      assert files[o].refs == 0 by {
        SumNonNegative(Holders(entries, o));
      }
      if files[o].status.Ready? {
        files := files[o := files[o].(status := Deleting)];
      }
      assert files == old(files)[o := old(files)[o].(status := Deleting)];
      scheduled := true;
    }

    /** The end of that delete. */
    method Removed(o: Id)
      requires Valid() && o < |files| && files[o].status.Deleting?
      modifies this`files
      ensures Valid() && files == old(files)[o := old(files)[o].(status := Deleted)]
    {
      FilesKeep(users, sessions, entries, files, files[o := files[o].(status := Deleted)]);
      files := files[o := files[o].(status := Deleted)];
    }
  }
}

/** Runs of those transactions in any order, by any users, with stale reads where the code has them. */
module LedgerRuns {
  import opened LedgerTables
  import opened Ledger

  /** A call with the outcomes of the checks it makes outside these tables. CommitVerified acts on
      the session row it read after call number `readAt`. */
  datatype Call =
    | Create(u: Id, key: nat, content: Content, free: bool)
    | UploadCreated(i: Id)
    | PartsConfirmed(i: Id)
    | Complete(u: Id, i: Id, allParts: bool)
    | StartVerifying(i: Id)
    | CommitVerified(i: Id, readAt: nat, named: bool, placed: bool, newest: bool)
    | Fail(i: Id, copied: bool, newest: bool)
    | ReconcileOrphan(i: Id, copied: bool, newest: bool)
    | Abort(u: Id, i: Id)
    | Expire(i: Id, due: bool)
    | Retire(i: Id, stopped: bool)
    | Import(u: Id, share: Id, key: nat, folder: Id, source: Id, allowed: bool, free: bool)
    | DeleteEntry(u: Id, i: Id, current: bool)
    | Collect(o: Id)
    | Removed(o: Id)

  predicate EachOk(sessions: seq<Session>) {
    forall i :: 0 <= i < |sessions| ==> SessionOk(sessions[i])
  }

  /** What a verifier read once, in a state of this run, it may still act on. */
  lemma EarlierRead(h: seq<seq<Session>>, i: Id, k: nat)
    requires SessionRun(h) && k < |h| && i < |h[k]| && EachOk(h[k]) && h[k][i].status.Verifying?
    ensures var last := h[|h| - 1];
            i < |last| && h[k][i].user == last[i].user && h[k][i].content == last[i].content && SessionOk(h[k][i])
  {
    OnlyForward(h, i, k, |h| - 1);
  }

  method Do(a: Accounts, h: seq<seq<Session>>, c: Call)
    requires a.Valid() && SessionRun(h) && h != [] && h[|h| - 1] == a.sessions
    requires forall k :: 0 <= k < |h| ==> EachOk(h[k])
    modifies a
    ensures a.Valid() && StepsBetween(old(a.sessions), a.sessions)
  {
    hide CountersOk, EntriesOk, ObjectsOk, EventsOk, KeysOk, Acquires, Adopted, SessionRun, SessionsOk, EachOk;
    match c
    case Create(u, key, content, free) => var r := a.Create(u, key, content, free);
    case UploadCreated(i) => a.UploadCreated(i);
    case PartsConfirmed(i) => a.PartsConfirmed(i);
    case Complete(u, i, allParts) => var r := a.Complete(u, i, allParts);
    case StartVerifying(i) => var r := a.StartVerifying(i);
    case CommitVerified(i, k, named, placed, newest) =>
      if k < |h| && i < |h[k]| && h[k][i].status.Verifying? {
        EarlierRead(h, i, k);
        var r := a.CommitVerified(i, h[k][i], named, placed, newest);
      }
    case Fail(i, copied, newest) => var r := a.Fail(i, copied, newest);
    case ReconcileOrphan(i, copied, newest) => a.ReconcileOrphan(i, copied, newest);
    case Abort(u, i) => var r := a.Abort(u, i);
    case Expire(i, due) => var changed := a.Expire(i, due);
    case Retire(i, stopped) => var changed := a.Retire(i, stopped);
    case Import(u, share, key, folder, source, allowed, free) =>
      var r := a.Import(u, share, key, folder, source, allowed, free);
    case DeleteEntry(u, i, current) => var r, collect := a.DeleteEntry(u, i, current);
    case Collect(o) => var scheduled := a.Collect(o);
    case Removed(o) => if o < |a.files| && a.files[o].status.Deleting? { a.Removed(o); }
  }

  /** The counters, references, events and keys stay exact over every run, and its session tables
      form a run of the life cycle, so that TerminalIsFinal speaks of it. */
  method Perform(a: Accounts, calls: seq<Call>) returns (h: seq<seq<Session>>)
    requires a.Valid()
    modifies a
    ensures a.Valid() && SessionRun(h) && |h| == |calls| + 1
    ensures h[0] == old(a.sessions) && h[|calls|] == a.sessions
  {
    hide CountersOk, EntriesOk, ObjectsOk, EventsOk, KeysOk, StepsBetween;
    h := [a.sessions];
    for n := 0 to |calls|
      invariant a.Valid() && SessionRun(h) && |h| == n + 1
      invariant h[0] == old(a.sessions) && h[n] == a.sessions
      invariant forall k :: 0 <= k < |h| ==> EachOk(h[k])
    {
      Do(a, h, calls[n]);
      h := h + [a.sessions];
    }
  }
}
