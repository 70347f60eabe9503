/** recovery.Reconciler: six classes of stuck work share one bounded, rotating scan. */
module RecoveryScan {
  import opened Common

  type Id = nat

  const CLASSES := 6

  /** How late a class comes when the rotation starts at `start`. */
  function Offset(start: nat, class_: nat): (d: nat)
    requires start < CLASSES && class_ < CLASSES
    ensures d < CLASSES
  {
    if class_ >= start then class_ - start else class_ + CLASSES - start
  }

  function Share(offset: nat, limit: nat): nat {
    limit / CLASSES + (if offset < limit % CLASSES then 1 else 0)
  }

  /** What a class may scan. */
  function Slot(start: nat, class_: nat, limit: nat): nat
    requires start < CLASSES && class_ < CLASSES
  {
    Share(Offset(start, class_), limit)
  }

  function Rotated(start: nat, k: nat): (r: nat)
    requires start < CLASSES && k < CLASSES
    ensures r < CLASSES && r == (start + k) % CLASSES
  {
    if start + k < CLASSES then start + k else start + k - CLASSES
  }

  lemma AllShares(limit: nat)
    ensures Share(0, limit) + Share(1, limit) + Share(2, limit) + Share(3, limit) + Share(4, limit) + Share(5, limit)
         == limit
  {
    assert limit == CLASSES * (limit / CLASSES) + limit % CLASSES;
  }

  /** Over six consecutive scans every class gets exactly the limit, wherever the rotation stands. */
  lemma SixScansAreFair(start: nat, class_: nat, limit: nat)
    requires start < CLASSES && class_ < CLASSES
    ensures Slot(start, class_, limit) + Slot(Rotated(start, 1), class_, limit) + Slot(Rotated(start, 2), class_, limit)
            + Slot(Rotated(start, 3), class_, limit) + Slot(Rotated(start, 4), class_, limit)
              + Slot(Rotated(start, 5), class_, limit) == limit
  {
    AllShares(limit);
    hide Share;
    var d := Offset(start, class_);
    assert d in {0, 1, 2, 3, 4, 5};
  }

  /** And no single scan hands out more than the limit. */
  lemma OneScanIsBounded(start: nat, limit: nat)
    requires start < CLASSES
    ensures Slot(start, 0, limit) + Slot(start, 1, limit) + Slot(start, 2, limit)
            + Slot(start, 3, limit) + Slot(start, 4, limit) + Slot(start, 5, limit) == limit
  {
    AllShares(limit);
    hide Share;
    assert start in {0, 1, 2, 3, 4, 5};
  }

  // ---- cursors ----

  predicate Ascending(rows: seq<Id>) {
    forall i, j :: 0 <= i < j < |rows| ==> rows[i] < rows[j]
  }

  /** The order of a query by id: any set of candidates has it, in one way. */
  lemma {:induction false} CandidatesAscend(ids: set<Id>) returns (rows: seq<Id>)
    ensures Ascending(rows) && |rows| == |ids| && forall id :: id in rows <==> id in ids
    decreases |ids|
  {
    rows := [];
    if ids != {} {
      var last := Greatest(ids);
      var init := CandidatesAscend(ids - {last});
      forall i | 0 <= i < |init|
        ensures init[i] < last
      {
        assert init[i] in init;
      }
      rows := init + [last];
    }
  }

  lemma {:induction false} Greatest(ids: set<Id>) returns (m: Id)
    requires ids != {}
    ensures m in ids && forall id :: id in ids ==> id <= m
    decreases |ids|
  {
    m :| m in ids;
    var others := ids - {m};
    assert forall id :: id in ids ==> id == m || id in others;
    if others != {} {
      var rest := Greatest(others);
      m := if m < rest then rest else m;
    }
  }

  /** How many candidates the cursor has passed. */
  function Passed(rows: seq<Id>, cursor: Option<Id>): (p: nat)
    ensures p <= |rows|
  {
    if rows == [] || cursor.None? then 0
    else if rows[|rows| - 1] <= cursor.value then |rows|
    else Passed(rows[..|rows| - 1], cursor)
  }

  /** The id > cursor predicate selects exactly the candidates from there on. */
  lemma {:induction false} PassedSplits(rows: seq<Id>, cursor: Option<Id>)
    requires Ascending(rows)
    ensures forall i :: 0 <= i < |rows| ==> (i < Passed(rows, cursor) <==> cursor.Some? && rows[i] <= cursor.value)
  {
    if rows != [] && cursor.Some? {
      var init := rows[..|rows| - 1];
      PassedSplits(init, cursor);
      forall i | 0 <= i < |init|
        ensures i < Passed(rows, cursor) <==> rows[i] <= cursor.value
      {
        assert init[i] == rows[i] < rows[|rows| - 1];
      }
      assert |rows| - 1 < Passed(rows, cursor) <==> rows[|rows| - 1] <= cursor.value;
    } else {
      assert Passed(rows, cursor) == 0;
    }
  }

  function Page(rows: seq<Id>, from: nat, limit: nat): seq<Id>
    requires from <= |rows|
  {
    rows[from..if from + limit < |rows| then from + limit else |rows|]
  }

  /** Where a scan starts reading: past the cursor, or at the beginning when nothing is left. */
  function Start(rows: seq<Id>, cursor: Option<Id>): nat {
    if Passed(rows, cursor) == |rows| then 0 else Passed(rows, cursor)
  }

  function NextCursor(rows: seq<Id>, cursor: Option<Id>, limit: nat): Option<Id> {
    var page := Page(rows, Start(rows, cursor), limit);
    if page == [] then None else Some(page[|page| - 1])
  }

  lemma CursorPasses(rows: seq<Id>, i: nat)
    requires Ascending(rows) && i < |rows|
    ensures Passed(rows, Some(rows[i])) == i + 1
  {
    PassedSplits(rows, Some(rows[i]));
    assert rows[i] <= rows[i];
    assert i + 1 < |rows| ==> rows[i] < rows[i + 1];
  }

  function End(rows: seq<Id>, from: nat, limit: nat): nat {
    if from + limit < |rows| then from + limit else |rows|
  }

  /** A page that is not empty leaves the cursor at its end. */
  lemma NextStart(rows: seq<Id>, cursor: Option<Id>, limit: nat)
    requires Ascending(rows) && rows != [] && limit > 0
    ensures var e := End(rows, Start(rows, cursor), limit);
            Start(rows, NextCursor(rows, cursor, limit)) == if e == |rows| then 0 else e
  {
    var p := Start(rows, cursor);
    var e := End(rows, p, limit);
    var page := Page(rows, p, limit);
    assert page[|page| - 1] == rows[e - 1];
    CursorPasses(rows, e - 1);
  }

  function Scans(rows: seq<Id>, cursor: Option<Id>, limits: seq<nat>): seq<seq<Id>>
    decreases limits
  {
    if limits == [] then []
    else [Page(rows, Start(rows, cursor), limits[0])] + Scans(rows, NextCursor(rows, cursor, limits[0]), limits[1..])
  }

  predicate Returned(pages: seq<seq<Id>>, id: Id) {
    exists k :: 0 <= k < |pages| && id in pages[k]
  }

  lemma LaterPage(page: seq<Id>, pages: seq<seq<Id>>, id: Id)
    requires Returned(pages, id)
    ensures Returned([page] + pages, id)
  {
    var k :| 0 <= k < |pages| && id in pages[k];
    assert ([page] + pages)[k + 1] == pages[k];
  }

  lemma TimesStep(k: nat, least: nat)
    requires k > 0
    ensures (k - 1) * least == k * least - least
  {
  }

  /** `tail` scans reach the end of the table and `head` more reach row i from its beginning. */
  lemma {:induction false} ReachesRow(rows: seq<Id>, cursor: Option<Id>, limits: seq<nat>, least: nat, i: nat,
          tail: nat, head: nat)
    requires Ascending(rows) && i < |rows| && least > 0 && (forall k :: 0 <= k < |limits| ==> limits[k] >= least)
    requires |limits| >= tail + head
    requires var p := Start(rows, cursor);
             if p <= i then tail == 0 && i - p < head * least else |rows| - p <= tail * least && i < head * least
    ensures Returned(Scans(rows, cursor, limits), rows[i])
    decreases limits
  {
    var p := Start(rows, cursor);
    assert tail + head > 0 by {
      assert 0 * least == 0;
    }
    var page, next, later := Page(rows, p, limits[0]), NextCursor(rows, cursor, limits[0]), limits[1..];
    var rest := Scans(rows, next, later);
    assert Scans(rows, cursor, limits) == [page] + rest;
    var e := End(rows, p, limits[0]);
    NextStart(rows, cursor, limits[0]);
    hide Scans, Start, NextCursor, Ascending;
    if p <= i < e {
      assert page[i - p] == rows[i];
      assert ([page] + rest)[0] == page;
    } else if p <= i {
      assert head > 0 by {
        assert 0 * least == 0;
      }
      TimesStep(head, least);
      ReachesRow(rows, next, later, least, i, 0, head - 1);
      LaterPage(page, rest, rows[i]);
    } else {
      assert tail > 0 by {
        assert 0 * least == 0;
      }
      TimesStep(tail, least);
      if e == |rows| {
        ReachesRow(rows, next, later, least, i, 0, head);
      } else {
        ReachesRow(rows, next, later, least, i, tail - 1, head);
      }
      LaterPage(page, rest, rows[i]);
    }
  }

  function CeilDiv(n: nat, d: nat): nat
    requires d > 0
  {
    (n + d - 1) / d
  }

  lemma CeilCovers(n: nat, d: nat)
    requires d > 0
    ensures n <= CeilDiv(n, d) * d < n + d
  {
    var q := (n + d - 1) / d;
    assert n + d - 1 == q * d + (n + d - 1) % d;
  }

  lemma CeilSum(a: nat, b: nat, n: nat, d: nat)
    requires d > 0 && a + b <= n
    ensures CeilDiv(a, d) + CeilDiv(b, d) <= CeilDiv(n, d) + 1
  {
    CeilCovers(a, d);
    CeilCovers(b, d);
    CeilCovers(n, d);
    var x, y, z := CeilDiv(a, d), CeilDiv(b, d), CeilDiv(n, d);
    Distribute(x, y, d);
    Distribute(z, 2, d);
    if x + y > z + 1 {
      Monotone(z + 2, x + y, d);
      assert false;
    }
  }

  lemma Distribute(x: nat, y: nat, d: nat)
    ensures (x + y) * d == x * d + y * d
  {
  }

  lemma Monotone(x: nat, y: nat, d: nat)
    requires x <= y
    ensures x * d <= y * d
  {
    Distribute(x, y - x, d);
  }

  /** From any cursor, ceil(n / L) + 1 scans of at least L rows return every one of n candidates. */
  lemma EveryRowIsScanned(rows: seq<Id>, cursor: Option<Id>, limits: seq<nat>, least: nat, i: nat)
    requires Ascending(rows) && i < |rows| && least > 0 && (forall k :: 0 <= k < |limits| ==> limits[k] >= least)
    requires |limits| >= CeilDiv(|rows|, least) + 1
    ensures Returned(Scans(rows, cursor, limits), rows[i])
  {
    var p := Start(rows, cursor);
    if p <= i {
      CeilCovers(i - p + 1, least);
      CeilSum(i - p + 1, 0, |rows|, least);
      ReachesRow(rows, cursor, limits, least, i, 0, CeilDiv(i - p + 1, least));
    } else {
      CeilCovers(|rows| - p, least);
      CeilCovers(i + 1, least);
      CeilSum(|rows| - p, i + 1, |rows|, least);
      ReachesRow(rows, cursor, limits, least, i, CeilDiv(|rows| - p, least), CeilDiv(i + 1, least));
    }
  }

  class Reconciler {
    var nextScan: nat
    var cursors: map<string, Id>

    constructor ()
      ensures nextScan == 0 && cursors == map[]
    {
      nextScan, cursors := 0, map[];
    }

    function Cursor(kind: string): Option<Id>
      reads this`cursors
    {
      if kind in cursors then Some(cursors[kind]) else None
    }

    /** The sharing of one RunOnce: the class that scans first moves on by one each time. */
    method RunOnce(limit: int) returns (ok: bool, slots: seq<nat>)
      modifies this`nextScan
      ensures ok <==> limit > 0
      ensures !ok ==> nextScan == old(nextScan) && slots == []
      ensures ok ==> nextScan == Rotated(old(nextScan) % CLASSES, 1)
      ensures ok ==> |slots| == CLASSES
      ensures ok ==> forall c :: 0 <= c < CLASSES ==> slots[c] == Slot(old(nextScan) % CLASSES, c, limit)
    {
      if limit <= 0 {
        return false, [];
      }
      var start := nextScan % CLASSES;
      nextScan := (start + 1) % CLASSES;
      var base, extra := limit / CLASSES, limit % CLASSES;
      slots := [0, 0, 0, 0, 0, 0];
      var offset := 0;
      while offset < CLASSES
        invariant 0 <= offset <= CLASSES && |slots| == CLASSES
        invariant forall c :: 0 <= c < CLASSES ==>
                  slots[c] == if Offset(start, c) < offset then Slot(start, c, limit) else 0
      {
        var slot := base;
        if offset < extra {
          slot := slot + 1;
        }
        if slot == 0 {
          break;
        }
        assert Rotated(start, offset) == (start + offset) % CLASSES;
        slots := slots[(start + offset) % CLASSES := slot];
        offset := offset + 1;
      }
      ok := true;
    }

    /** scanPage: one page after the class's cursor, wrapping to the beginning when it is empty. */
    method ScanPage(kind: string, rows: seq<Id>, limit: nat) returns (page: seq<Id>)
      requires Ascending(rows)
      modifies this`cursors
      ensures page == Page(rows, Start(rows, old(Cursor(kind))), limit)
      ensures Cursor(kind) == NextCursor(rows, old(Cursor(kind)), limit)
      ensures forall k :: k != kind ==> Cursor(k) == old(Cursor(k))
      ensures rows != [] && limit > 0 ==> page != []
    {
      var cursor := Cursor(kind);
      page := Page(rows, Passed(rows, cursor), limit);
      if page == [] && cursor.Some? {
        page := Page(rows, 0, limit);
      }
      if page != [] {
        cursors := cursors[kind := page[|page| - 1]];
      } else {
        cursors := map k | k in cursors && k != kind :: cursors[k];
      }
    }
  }
}

/** Reconciler.ensureWithPolicy: the recovery rows that share one key prefix. */
module RecoveryFamily {
  import opened Common

  const BUDGET := 3

  /** The base key, or the key chained after one published event. */
  datatype Key = Base | After(event: nat)

  datatype Recovery = Recovery(key: Key, stopped: bool)

  /** What recoverDelivery found for the resource's existing publications. */
  datatype Existing = Existing(active: bool, replayed: bool, dead: bool)

  /** The newest published event of this kind, and whether it is younger than the grace period. */
  datatype Previous = Previous(event: nat, recent: bool)

  /** The storage operation behind the recovery, when there is one. */
  datatype Operation = Finished | RunningLeased | Unfinished

  predicate Stopped(rows: seq<Recovery>) {
    exists i :: 0 <= i < |rows| && rows[i].stopped
  }

  predicate Taken(rows: seq<Recovery>, key: Key) {
    exists i :: 0 <= i < |rows| && rows[i].key == key
  }

  function KeyFor(previous: Option<Previous>): Key {
    if previous.None? then Base else After(previous.value.event)
  }

  /** Exactly when a scan adds a new event to a family. */
  predicate Adds(rows: seq<Recovery>, found: Existing, previous: Option<Previous>) {
    && !Stopped(rows) && !found.active && |rows| < BUDGET
    && (previous.Some? && previous.value.recent ==> found.dead)
    && !Taken(rows, KeyFor(previous))
  }

  predicate Exhausts(rows: seq<Recovery>, found: Existing, retryDead: bool, op: Option<Operation>) {
    !Stopped(rows) && !found.active && |rows| >= BUDGET && !(retryDead && op == Some(RunningLeased))
  }

  function StopAll(rows: seq<Recovery>): seq<Recovery> {
    seq(|rows|, i requires 0 <= i < |rows| => rows[i].(stopped := true))
  }

  class Family {
    var rows: seq<Recovery>

    predicate Valid()
      reads this
    {
      |rows| <= BUDGET && forall i, j :: 0 <= i < j < |rows| ==> rows[i].key != rows[j].key
    }

    constructor ()
      ensures Valid() && rows == []
    {
      rows := [];
    }

    method Ensure(found: Existing, previous: Option<Previous>, retryDead: bool, op: Option<Operation>)
      returns (created: bool, killed: bool)
      requires Valid()
      modifies this
      ensures Valid()
      ensures created <==> Adds(old(rows), found, previous) || (!Stopped(old(rows)) && found.active && found.replayed)
      ensures killed <==> Exhausts(old(rows), found, retryDead, op) && retryDead && op == Some(Unfinished)
      ensures rows == if Adds(old(rows), found, previous) then old(rows) + [Recovery(KeyFor(previous), false)]
                      else if Exhausts(old(rows), found, retryDead, op) then StopAll(old(rows)) else old(rows)
      ensures rows == Next(old(rows), Call(found, previous, retryDead, op))
    {
      created, killed := false, false;
      if Stopped(rows) {
        return;
      }
      if found.active {
        return found.replayed, false;
      }
      if |rows| >= BUDGET {
        if retryDead {
          if op == Some(RunningLeased) {
            return;
          }
          killed := op == Some(Unfinished);
        }
        rows := StopAll(rows);
        return;
      }
      var key := Base;
      if previous.Some? {
        if !found.dead && previous.value.recent {
          return;
        }
        key := After(previous.value.event);
      }
      if !Taken(rows, key) {
        rows := rows + [Recovery(key, false)];
        created := true;
      }
    }
  }

  /** When a scan adds an event, and under which key: the family is neither stopped nor full, nothing
      active was found, and the newest published event is old, or known dead, or there is none. */
  lemma AddsExactly(rows: seq<Recovery>, c: Call)
    ensures var stopped := exists i :: 0 <= i < |rows| && rows[i].stopped;
            var key := match c.previous case None => Base case Some(p) => After(p.event);
            var taken := exists i :: 0 <= i < |rows| && rows[i].key == key;
            var young := c.previous.Some? && c.previous.value.recent && !c.found.dead;
            Next(rows, c) ==
              if stopped || c.found.active then rows
              else if |rows| >= 3 then
                (if c.retryDead && c.op == Some(RunningLeased) then rows
                 else seq(|rows|, i requires 0 <= i < |rows| => Recovery(rows[i].key, true)))
              else if young || taken then rows
              else rows + [Recovery(key, false)]
  {
  }

  lemma OneMore(calls: seq<Call>, c: Call)
    ensures Run(calls + [c]) == Next(Run(calls), c)
  {
    assert (calls + [c])[..|calls|] == calls;
  }

  lemma AddsOne(rows: seq<Recovery>, c: Call)
    requires !c.found.active && |rows| < 3 && (c.previous.Some? ==> !c.previous.value.recent)
    requires forall i :: 0 <= i < |rows| ==> !rows[i].stopped && rows[i].key != KeyFor(c.previous)
    ensures Next(rows, c) == rows + [Recovery(KeyFor(c.previous), false)]
  {
  }

  function Scan(found: Existing, previous: Option<nat>, op: Option<Operation>): Call {
    Call(found, if previous.None? then None else Some(Previous(previous.value, false)), true, op)
  }

  /** A resource whose publications keep dying gets its three events, one scan each, and the fourth scan
      stops the family for good, unless a worker still runs the operation. */
  lemma ThreeThenStop(found: Existing, a: nat, b: nat, c: nat, op: Option<Operation>, more: seq<Call>)
    requires !found.active && a != b && op != Some(RunningLeased)
    ensures var three := [Scan(found, None, op)] + [Scan(found, Some(a), op)] + [Scan(found, Some(b), op)];
            && Run(three) == [Recovery(Base, false), Recovery(After(a), false), Recovery(After(b), false)]
            && Run(three + [Scan(found, Some(c), op)] + more)
               == [Recovery(Base, true), Recovery(After(a), true), Recovery(After(b), true)]
  {
    hide Next, Run;
    var x, y := Scan(found, None, op), Scan(found, Some(a), op);
    var z, w := Scan(found, Some(b), op), Scan(found, Some(c), op);
    var r1, r2 := [Recovery(Base, false)], [Recovery(Base, false), Recovery(After(a), false)];
    var full := [Recovery(Base, false), Recovery(After(a), false), Recovery(After(b), false)];
    NothingYet();
    OneMore([], x);
    AddsOne([], x);
    assert [] + [x] == [x] && [] + [Recovery(Base, false)] == r1;
    OneMore([x], y);
    AddsOne(r1, y);
    assert r1 + [Recovery(After(a), false)] == r2;
    OneMore([x] + [y], z);
    AddsOne(r2, z);
    assert r2 + [Recovery(After(b), false)] == full;
    OneMore([x] + [y] + [z], w);
    StopsFull(full, w);
    BudgetIsFinal([x] + [y] + [z] + [w], more);
  }

  lemma NothingYet()
    ensures Run([]) == []
  {
  }

  lemma StopsFull(rows: seq<Recovery>, c: Call)
    requires |rows| == 3 && !c.found.active && c.op != Some(RunningLeased)
    requires forall i :: 0 <= i < |rows| ==> !rows[i].stopped
    ensures Next(rows, c) == [Recovery(rows[0].key, true), Recovery(rows[1].key, true), Recovery(rows[2].key, true)]
    ensures Stopped(Next(rows, c))
  {
    assert StopAll(rows)[0].stopped;
  }

  datatype Call = Call(found: Existing, previous: Option<Previous>, retryDead: bool, op: Option<Operation>)

  function Next(rows: seq<Recovery>, c: Call): seq<Recovery> {
    if Adds(rows, c.found, c.previous) then rows + [Recovery(KeyFor(c.previous), false)]
    else if Exhausts(rows, c.found, c.retryDead, c.op) then StopAll(rows) else rows
  }

  function Run(calls: seq<Call>): seq<Recovery> {
    if calls == [] then [] else Next(Run(calls[..|calls| - 1]), calls[|calls| - 1])
  }

  /** However often a family is scanned it creates at most three events, and none once stopped. */
  lemma {:induction false} BudgetIsFinal(calls: seq<Call>, more: seq<Call>)
    ensures |Run(calls)| <= BUDGET && |Run(calls)| <= |Run(calls + more)|
    ensures Stopped(Run(calls)) ==> Run(calls + more) == Run(calls)
    decreases |calls| + |more|
  {
    if more != [] {
      var init := more[..|more| - 1];
      BudgetIsFinal(calls, init);
      assert (calls + more)[..|calls + more| - 1] == calls + init;
    } else {
      assert calls + more == calls;
      if calls != [] {
        BudgetIsFinal(calls[..|calls| - 1], []);
      }
    }
  }
}
