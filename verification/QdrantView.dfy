/** search.QdrantIndex: append-only deletion records beside content points that are only masked. */
module QdrantView {
  import opened Common

  datatype Scope = OfObject | OfChunk

  /** One deletion record; its id is a hash of the three fields, so writing it again is no change. */
  datatype Tombstone = Tombstone(scope: Scope, subject: nat, epoch: int)

  /** A content point's identity and the object its chunk belongs to. */
  datatype Candidate = Candidate(chunk: nat, subject: nat, epoch: int)

  predicate Concerns(t: Tombstone, c: Candidate) {
    t.subject == if t.scope.OfObject? then c.subject else c.chunk
  }

  predicate Covers(t: Tombstone, c: Candidate) {
    Concerns(t, c) && c.epoch <= t.epoch
  }

  /** What a deletion is meant to hide. */
  predicate Covered(ts: seq<Tombstone>, c: Candidate) {
    exists i :: 0 <= i < |ts| && Covers(ts[i], c)
  }

  /** What the lookup can find: its map of maxima starts at zero. */
  predicate Found(ts: seq<Tombstone>, c: Candidate) {
    exists i :: 0 <= i < |ts| && Covers(ts[i], c) && ts[i].epoch > 0
  }

  function Unfound(ts: seq<Tombstone>, cs: seq<Candidate>): seq<Candidate> {
    if cs == [] then []
    else Unfound(ts, cs[..|cs| - 1]) + (if Found(ts, cs[|cs| - 1]) then [] else [cs[|cs| - 1]])
  }

  // ---- the lookup ----

  const PAGE := 256
  const PAGES := 16

  datatype Result = Ok(visible: seq<Candidate>) | Unavailable

  type Deleted = map<(Scope, nat), int>

  /** The server's filter: subject among the candidates' ids, epoch not below the smallest. */
  predicate Matches(t: Tombstone, subjects: set<nat>, least: int) {
    t.subject in subjects && t.epoch >= least
  }

  function Matching(ts: seq<Tombstone>, subjects: set<nat>, least: int): seq<Tombstone> {
    if ts == [] then []
    else
      Matching(ts[..|ts| - 1], subjects, least)
      + (if Matches(ts[|ts| - 1], subjects, least) then [ts[|ts| - 1]] else [])
  }

  lemma {:induction false} MatchingHas(ts: seq<Tombstone>, subjects: set<nat>, least: int, t: Tombstone)
    ensures t in Matching(ts, subjects, least) <==> t in ts && Matches(t, subjects, least)
  {
    if ts != [] {
      MatchingHas(ts[..|ts| - 1], subjects, least, t);
      assert ts == ts[..|ts| - 1] + [ts[|ts| - 1]];
    }
  }

  /** `deleted` misses no record of positive epoch that was there at first, and invents none that
      is not there at last: per scope and subject it holds the largest epoch met. */
  predicate Reflects(deleted: Deleted, first: seq<Tombstone>, last: seq<Tombstone>) {
    && (forall t :: t in first && t.epoch > 0 ==>
          (t.scope, t.subject) in deleted && deleted[(t.scope, t.subject)] >= t.epoch)
    && (forall k :: k in deleted ==> deleted[k] > 0 && Tombstone(k.0, k.1, deleted[k]) in last)
  }

  function SubjectsOf(cs: seq<Candidate>): set<nat> {
    (set c | c in cs :: c.subject) + (set c | c in cs :: c.chunk)
  }

  function LeastEpoch(cs: seq<Candidate>): int
    requires cs != []
  {
    var last := cs[|cs| - 1].epoch;
    if |cs| == 1 || LeastEpoch(cs[..|cs| - 1]) > last then last else LeastEpoch(cs[..|cs| - 1])
  }

  lemma {:induction false} LeastIsLower(cs: seq<Candidate>, c: Candidate)
    requires c in cs
    ensures LeastEpoch(cs) <= c.epoch
  {
    if c != cs[|cs| - 1] {
      assert c in cs[..|cs| - 1];
      LeastIsLower(cs[..|cs| - 1], c);
    }
  }

  method Collect(candidates: seq<Candidate>) returns (subjects: set<nat>, least: int)
    requires candidates != []
    ensures subjects == SubjectsOf(candidates) && least == LeastEpoch(candidates)
  {
    subjects, least := {}, candidates[0].epoch;
    for i := 0 to |candidates|
      invariant subjects == SubjectsOf(candidates[..i])
      invariant least == if i == 0 then candidates[0].epoch else LeastEpoch(candidates[..i])
    {
      assert candidates[..i + 1][..i] == candidates[..i];
      assert candidates[..i + 1] == candidates[..i] + [candidates[i]];
      subjects := subjects + {candidates[i].subject, candidates[i].chunk};
      if candidates[i].epoch < least {
        least := candidates[i].epoch;
      }
    }
    assert candidates[..|candidates|] == candidates;
  }

  // ---- pages read at different moments ----

  /** The server keeps points in the order of their ids. */
  type Ids = Tombstone -> nat

  predicate InOrder(id: Ids, ts: seq<Tombstone>) {
    forall i, j :: 0 <= i < j < |ts| ==> id(ts[i]) < id(ts[j])
  }

  /** What each page request finds: records are only ever added. */
  predicate Growing(id: Ids, views: seq<seq<Tombstone>>) {
    && |views| == PAGES
    && (forall p :: 0 <= p < |views| ==> InOrder(id, views[p]))
    && (forall p, q, t :: 0 <= p <= q < |views| && t in views[p] ==> t in views[q])
  }

  /** The records a scroll has still before it: those from the offset on. */
  function Onward(id: Ids, ts: seq<Tombstone>, offset: nat): (rest: seq<Tombstone>)
    ensures |rest| <= |ts| && rest == ts[|ts| - |rest|..]
    ensures forall t :: t in rest ==> t in ts
  {
    if ts == [] || id(ts[0]) >= offset then ts else Onward(id, ts[1..], offset)
  }

  lemma {:induction false} OnwardHas(id: Ids, ts: seq<Tombstone>, offset: nat, t: Tombstone)
    requires InOrder(id, ts)
    ensures InOrder(id, Onward(id, ts, offset))
    ensures t in Onward(id, ts, offset) <==> t in ts && id(t) >= offset
    decreases |ts|
  {
    if ts != [] {
      if id(ts[0]) >= offset {
        assert t in ts ==> id(t) >= id(ts[0]);
      } else {
        OnwardHas(id, ts[1..], offset, t);
      }
    }
  }

  function Records(ts: seq<Tombstone>): set<Tombstone> {
    set t | t in ts
  }

  lemma {:induction false} OrderedCount(id: Ids, ts: seq<Tombstone>)
    requires InOrder(id, ts)
    ensures |Records(ts)| == |ts|
  {
    if ts != [] {
      var init, last := ts[..|ts| - 1], ts[|ts| - 1];
      OrderedCount(id, init);
      assert Records(ts) == Records(init) + {last};
    }
  }

  /** `seen` are records of the last view below the offset, among them all of the first. */
  ghost predicate Passed(id: Ids, first: seq<Tombstone>, last: seq<Tombstone>, offset: nat, seen: seq<Tombstone>) {
    && (forall t :: t in seen ==> id(t) < offset && t in last)
    && (forall t :: t in first && id(t) < offset ==> t in seen)
  }

  /** Where the scroll stands after some pages: `seen` are the records of full pages. */
  ghost predicate Scrolled(id: Ids, views: seq<seq<Tombstone>>, page: nat, offset: nat, seen: seq<Tombstone>,
          deleted: Deleted) {
    && page <= PAGES && Growing(id, views) && InOrder(id, seen) && |seen| == page * PAGE
    && Passed(id, views[0], views[PAGES - 1], offset, seen)
    && (page > 0 ==> exists t :: t in views[PAGES - 1] && id(t) == offset)
    && Reflects(deleted, seen, seen)
  }

  lemma OnwardIs(id: Ids, ts: seq<Tombstone>, offset: nat)
    requires InOrder(id, ts)
    ensures InOrder(id, Onward(id, ts, offset))
    ensures forall t :: t in Onward(id, ts, offset) <==> t in ts && id(t) >= offset
  {
    forall t
      ensures t in Onward(id, ts, offset) <==> t in ts && id(t) >= offset
    {
      OnwardHas(id, ts, offset, t);
    }
    OnwardHas(id, ts, offset, Tombstone(OfObject, 0, 0));
  }

  lemma PageBelow(id: Ids, rest: seq<Tombstone>, n: nat)
    requires InOrder(id, rest) && n < |rest|
    ensures forall t :: t in rest[..n] <==> t in rest && id(t) < id(rest[n])
  {
    forall t | t in rest && id(t) < id(rest[n])
      ensures t in rest[..n]
    {
      var i :| 0 <= i < |rest| && rest[i] == t;
    }
  }

  lemma Joined(id: Ids, a: seq<Tombstone>, b: seq<Tombstone>, offset: nat)
    requires InOrder(id, a) && InOrder(id, b)
    requires (forall t :: t in a ==> id(t) < offset) && (forall t :: t in b ==> id(t) >= offset)
    ensures InOrder(id, a + b)
  {
    forall i, j | 0 <= i < j < |a + b|
      ensures id((a + b)[i]) < id((a + b)[j])
    {
      assert i < |a| ==> (a + b)[i] in a;
      assert j >= |a| ==> (a + b)[j] in b;
    }
  }

  lemma PassedMore(id: Ids, first: seq<Tombstone>, mid: seq<Tombstone>, last: seq<Tombstone>, offset: nat, next: nat,
          seen: seq<Tombstone>, page: seq<Tombstone>)
    requires (forall t :: t in first ==> t in mid) && (forall t :: t in mid ==> t in last)
    requires forall t :: t in page <==> t in mid && offset <= id(t) < next
    requires offset <= next && Passed(id, first, last, offset, seen)
    ensures Passed(id, first, last, next, seen + page)
  {
  }

  lemma PageTurns(id: Ids, views: seq<seq<Tombstone>>, page: nat, offset: nat, seen: seq<Tombstone>,
          deleted: Deleted, after: Deleted)
    requires Scrolled(id, views, page, offset, seen, deleted) && page < PAGES
    requires |Onward(id, views[page], offset)| > PAGE
    requires var now := seen + Onward(id, views[page], offset)[..PAGE]; Reflects(after, now, now)
    ensures var rest := Onward(id, views[page], offset);
            Scrolled(id, views, page + 1, id(rest[PAGE]), seen + rest[..PAGE], after)
  {
    hide Reflects, InOrder, Onward, Passed;
    var rest := Onward(id, views[page], offset);
    var next := rest[PAGE];
    OnwardIs(id, views[page], offset);
    PageBelow(id, rest, PAGE);
    OrderKept(id, rest, PAGE);
    PassedBelow(id, views[0], views[PAGES - 1], offset, seen);
    Joined(id, seen, rest[..PAGE], offset);
    assert next in rest && next in views[page];
    hide Growing;
    StillThere(id, views, 0, page);
    StillThere(id, views, page, PAGES - 1);
    PassedMore(id, views[0], views[page], views[PAGES - 1], offset, id(next), seen, rest[..PAGE]);
  }

  lemma StillThere(id: Ids, views: seq<seq<Tombstone>>, p: nat, q: nat)
    requires Growing(id, views) && p <= q < PAGES
    ensures |views| == PAGES && forall t :: t in views[p] ==> t in views[q]
  {
  }

  lemma PassedBelow(id: Ids, first: seq<Tombstone>, last: seq<Tombstone>, offset: nat, seen: seq<Tombstone>)
    requires Passed(id, first, last, offset, seen)
    ensures forall t :: t in seen ==> id(t) < offset
  {
  }

  lemma OrderKept(id: Ids, ts: seq<Tombstone>, n: nat)
    requires InOrder(id, ts) && n <= |ts|
    ensures InOrder(id, ts[..n])
  {
  }

  lemma LastPage(id: Ids, views: seq<seq<Tombstone>>, page: nat, offset: nat, seen: seq<Tombstone>,
          deleted: Deleted, after: Deleted)
    requires Scrolled(id, views, page, offset, seen, deleted) && page < PAGES
    requires |Onward(id, views[page], offset)| <= PAGE
    requires var all := seen + Onward(id, views[page], offset); Reflects(after, all, all)
    ensures Reflects(after, views[0], views[PAGES - 1])
    ensures |views[0]| <= PAGE * PAGES
  {
    var rest := Onward(id, views[page], offset);
    var all := seen + rest;
    forall t | t in views[0]
      ensures t in all
    {
      OnwardHas(id, views[page], offset, t);
    }
    OrderedCount(id, views[0]);
    CountAtMost(all, Records(views[0]));
  }

  lemma {:induction false} CountAtMost(ts: seq<Tombstone>, some: set<Tombstone>)
    requires forall t :: t in some ==> t in ts
    ensures |some| <= |ts|
  {
    if ts == [] {
      assert some == {};
    } else {
      var last := ts[|ts| - 1];
      assert forall t :: t in ts ==> t == last || t in ts[..|ts| - 1];
      CountAtMost(ts[..|ts| - 1], some - {last});
    }
  }

  lemma TooMany(id: Ids, views: seq<seq<Tombstone>>, offset: nat, seen: seq<Tombstone>, deleted: Deleted)
    requires Scrolled(id, views, PAGES, offset, seen, deleted)
    ensures |views[PAGES - 1]| > PAGE * PAGES
  {
    var t :| t in views[PAGES - 1] && id(t) == offset;
    OrderedCount(id, seen);
    assert t !in seen;
    assert |Records(seen) + {t}| == |seen| + 1;
    CountAtMost(views[PAGES - 1], Records(seen) + {t});
  }

  /** Scrolls through the matching records page by page, each page read from what the server holds by
      then; a seventeenth page is never asked for. */
  method Scroll(id: Ids, views: seq<seq<Tombstone>>) returns (ok: bool, deleted: Deleted)
    requires Growing(id, views)
    ensures ok ==> Reflects(deleted, views[0], views[PAGES - 1]) && |views[0]| <= PAGE * PAGES
    ensures !ok ==> |views[PAGES - 1]| > PAGE * PAGES
  {
    hide Growing, Reflects, Scrolled, InOrder;
    deleted := map[];
    var page, offset := 0, 0;
    ghost var seen: seq<Tombstone> := [];
    NothingScrolled(id, views);
    SixteenViews(id, views);
    while true
      invariant 0 <= page <= PAGES == |views| && Scrolled(id, views, page, offset, seen, deleted)
      invariant Reflects(deleted, seen, seen)
      decreases PAGES - page
    {
      if page == PAGES {
        TooMany(id, views, offset, seen, deleted);
        return false, deleted;
      }
      var rest := Onward(id, views[page], offset);
      var end := if PAGE < |rest| then PAGE else |rest|;
      ghost var before := deleted;
      deleted := FoldPage(deleted, seen, rest[..end]);
      if end == |rest| {
        assert rest[..end] == rest;
        LastPage(id, views, page, offset, seen, before, deleted);
        return true, deleted;
      }
      PageTurns(id, views, page, offset, seen, before, deleted);
      seen := seen + rest[..PAGE];
      page, offset := page + 1, id(rest[PAGE]);
    }
  }

  lemma NothingScrolled(id: Ids, views: seq<seq<Tombstone>>)
    requires Growing(id, views)
    ensures Scrolled(id, views, 0, 0, [], map[]) && Reflects(map[], [], [])
  {
  }

  lemma SixteenViews(id: Ids, views: seq<seq<Tombstone>>)
    requires Growing(id, views)
    ensures |views| == PAGES
  {
  }

  method FoldPage(before: Deleted, ghost seen: seq<Tombstone>, page: seq<Tombstone>) returns (deleted: Deleted)
    requires Reflects(before, seen, seen)
    ensures Reflects(deleted, seen + page, seen + page)
  {
    hide Reflects;
    deleted := before;
    assert seen + page[..0] == seen;
    for i := 0 to |page|
      invariant Reflects(deleted, seen + page[..i], seen + page[..i])
    {
      var t := page[i];
      var key := (t.scope, t.subject);
      ghost var was := deleted;
      if t.epoch > (if key in deleted then deleted[key] else 0) {
        deleted := deleted[key := t.epoch];
      }
      FoldStep(was, deleted, seen + page[..i], t);
      assert seen + page[..i + 1] == seen + page[..i] + [t];
    }
    assert page[..|page|] == page;
  }

  lemma FoldStep(was: Deleted, now: Deleted, ts: seq<Tombstone>, t: Tombstone)
    requires Reflects(was, ts, ts)
    requires now == if t.epoch > (if (t.scope, t.subject) in was then was[(t.scope, t.subject)] else 0)
                    then was[(t.scope, t.subject) := t.epoch] else was
    ensures Reflects(now, ts + [t], ts + [t])
  {
    forall k | k in now
      ensures now[k] > 0 && Tombstone(k.0, k.1, now[k]) in ts + [t]
    {
      assert (k in was && now[k] == was[k]) || Tombstone(k.0, k.1, now[k]) == t;
    }
  }

  predicate HiddenBy(deleted: Deleted, c: Candidate) {
    || ((OfObject, c.subject) in deleted && c.epoch <= deleted[(OfObject, c.subject)])
    || ((OfChunk, c.chunk) in deleted && c.epoch <= deleted[(OfChunk, c.chunk)])
  }

  lemma FoundByRecord(ts: seq<Tombstone>, c: Candidate, t: Tombstone)
    requires t in ts && Covers(t, c) && t.epoch > 0
    ensures Found(ts, c)
  {
    var i :| 0 <= i < |ts| && ts[i] == t;
  }

  /** Filtering by the smallest epoch, paging and folding to maxima lose no relevant record that was
      there when the lookup began, and hide nothing without a record that is there when it ends. */
  lemma FoldIsExact(first: seq<Tombstone>, last: seq<Tombstone>, subjects: set<nat>, least: int, deleted: Deleted,
          c: Candidate)
    requires c.subject in subjects && c.chunk in subjects && least <= c.epoch
    requires Reflects(deleted, Matching(first, subjects, least), Matching(last, subjects, least))
    ensures Found(first, c) ==> HiddenBy(deleted, c)
    ensures HiddenBy(deleted, c) ==> Found(last, c)
  {
    if Found(first, c) {
      var i :| 0 <= i < |first| && Covers(first[i], c) && first[i].epoch > 0;
      MatchingHas(first, subjects, least, first[i]);
      assert (first[i].scope, first[i].subject) in deleted;
    }
    if HiddenBy(deleted, c) {
      var k := if (OfObject, c.subject) in deleted && c.epoch <= deleted[(OfObject, c.subject)]
               then (OfObject, c.subject) else (OfChunk, c.chunk);
      var t := Tombstone(k.0, k.1, deleted[k]);
      MatchingHas(last, subjects, least, t);
      FoundByRecord(last, c, t);
    }
  }

  /** The candidates in order without some that a record hides at last, and without all that one hid
      at first. */
  predicate Drops(first: seq<Tombstone>, last: seq<Tombstone>, cs: seq<Candidate>, kept: seq<Candidate>) {
    if cs == [] then kept == []
    else
      var n, m := |cs| - 1, |kept| - 1;
      || (!Found(first, cs[n]) && kept != [] && kept[m] == cs[n] && Drops(first, last, cs[..n], kept[..m]))
      || (Found(last, cs[n]) && Drops(first, last, cs[..n], kept))
  }

  /** When no record is added meanwhile, that says exactly which candidates are left. */
  lemma {:induction false} DropsAtOnce(ts: seq<Tombstone>, cs: seq<Candidate>, kept: seq<Candidate>)
    requires Drops(ts, ts, cs, kept)
    ensures kept == Unfound(ts, cs)
    decreases |cs|
  {
    if cs != [] {
      var n, m := |cs| - 1, |kept| - 1;
      if Found(ts, cs[n]) {
        DropsAtOnce(ts, cs[..n], kept);
      } else {
        DropsAtOnce(ts, cs[..n], kept[..m]);
        assert kept == kept[..m] + [kept[m]];
      }
    }
  }

  function MatchingEach(views: seq<seq<Tombstone>>, subjects: set<nat>, least: int): (r: seq<seq<Tombstone>>)
    ensures |r| == |views| && forall p :: 0 <= p < |views| ==> r[p] == Matching(views[p], subjects, least)
  {
    seq(|views|, p requires 0 <= p < |views| => Matching(views[p], subjects, least))
  }

  lemma {:induction false} MatchingInOrder(id: Ids, ts: seq<Tombstone>, subjects: set<nat>, least: int)
    requires InOrder(id, ts)
    ensures InOrder(id, Matching(ts, subjects, least))
  {
    if ts != [] {
      var init, last := ts[..|ts| - 1], ts[|ts| - 1];
      MatchingInOrder(id, init, subjects, least);
      forall t | t in Matching(init, subjects, least)
        ensures id(t) < id(last)
      {
        MatchingHas(init, subjects, least, t);
      }
    }
  }

  lemma MatchingGrows(id: Ids, views: seq<seq<Tombstone>>, subjects: set<nat>, least: int)
    requires Growing(id, views)
    ensures Growing(id, MatchingEach(views, subjects, least))
  {
    var each := MatchingEach(views, subjects, least);
    forall p | 0 <= p < |views|
      ensures InOrder(id, each[p])
    {
      MatchingInOrder(id, views[p], subjects, least);
    }
    forall p, q, t | 0 <= p <= q < |views| && t in each[p]
      ensures t in each[q]
    {
      MatchingHas(views[p], subjects, least, t);
      MatchingHas(views[q], subjects, least, t);
    }
  }

  function MatchCount(ts: seq<Tombstone>, candidates: seq<Candidate>): nat
    requires candidates != []
  {
    |Matching(ts, SubjectsOf(candidates), LeastEpoch(candidates))|
  }

  /** The records a lookup has to read: about an object or chunk of some candidate, of an epoch that
      some candidate reaches down to. */
  lemma MatchCountMeans(id: Ids, ts: seq<Tombstone>, candidates: seq<Candidate>)
    requires candidates != [] && InOrder(id, ts)
    ensures MatchCount(ts, candidates) ==
            |set t | t in ts && (exists c :: c in candidates && (t.subject == c.subject || t.subject == c.chunk))
                     && (exists c :: c in candidates && c.epoch <= t.epoch)|
  {
    var subjects, least := SubjectsOf(candidates), LeastEpoch(candidates);
    var found := Matching(ts, subjects, least);
    var means := set t | t in ts && (exists c :: c in candidates && (t.subject == c.subject || t.subject == c.chunk))
                         && (exists c :: c in candidates && c.epoch <= t.epoch);
    MatchingInOrder(id, ts, subjects, least);
    DistinctCount(id, found);
    LeastIsReached(candidates);
    forall t
      ensures t in found <==> t in means
    {
      MatchingHas(ts, subjects, least, t);
      if c :| c in candidates && c.epoch <= t.epoch {
        LeastIsLower(candidates, c);
      }
    }
    assert (set t | t in found) == means;
  }

  lemma {:induction false} LeastIsReached(cs: seq<Candidate>)
    requires cs != []
    ensures exists c :: c in cs && c.epoch == LeastEpoch(cs)
  {
    if |cs| > 1 && LeastEpoch(cs) != cs[|cs| - 1].epoch {
      LeastIsReached(cs[..|cs| - 1]);
    } else {
      assert cs[|cs| - 1] in cs;
    }
  }

  lemma {:induction false} DistinctCount(id: Ids, ts: seq<Tombstone>)
    requires InOrder(id, ts)
    ensures |set t | t in ts| == |ts|
  {
    if ts != [] {
      var init, last := ts[..|ts| - 1], ts[|ts| - 1];
      DistinctCount(id, init);
      assert last !in init;
      assert (set t | t in ts) == (set t | t in init) + {last};
    }
  }

  /** `views` are the deletion records at the moments of the page requests. */
  method VisibleCandidates(id: Ids, views: seq<seq<Tombstone>>, candidates: seq<Candidate>) returns (r: Result)
    requires Growing(id, views)
    ensures r.Ok? ==> Drops(views[0], views[PAGES - 1], candidates, r.visible)
    ensures r.Ok? && views[0] == views[PAGES - 1] ==> r.visible == Unfound(views[0], candidates)
    ensures r.Ok? ==> candidates == [] || MatchCount(views[0], candidates) <= PAGE * PAGES
    ensures !r.Ok? ==> candidates != [] && MatchCount(views[PAGES - 1], candidates) > PAGE * PAGES
  {
    if candidates == [] {
      return Ok([]);
    }
    var subjects, least := Collect(candidates);
    MatchingGrows(id, views, subjects, least);
    var ok, deleted := Scroll(id, MatchingEach(views, subjects, least));
    if !ok {
      return Unavailable;
    }
    var result := Keep(views[0], views[PAGES - 1], candidates, subjects, least, deleted);
    if views[0] == views[PAGES - 1] {
      DropsAtOnce(views[0], candidates, result);
    }
    r := Ok(result);
  }

  method Keep(ghost first: seq<Tombstone>, ghost last: seq<Tombstone>, candidates: seq<Candidate>,
          ghost subjects: set<nat>, ghost least: int, deleted: Deleted)
    returns (result: seq<Candidate>)
    requires candidates != [] && subjects == SubjectsOf(candidates) && least == LeastEpoch(candidates)
    requires Reflects(deleted, Matching(first, subjects, least), Matching(last, subjects, least))
    ensures Drops(first, last, candidates, result)
  {
    hide Reflects, Found, HiddenBy, Matching;
    result := [];
    for i := 0 to |candidates|
      invariant Drops(first, last, candidates[..i], result)
    {
      var c := candidates[i];
      LeastIsLower(candidates, c);
      FoldIsExact(first, last, subjects, least, deleted, c);
      assert candidates[..i + 1][..i] == candidates[..i];
      if !HiddenBy(deleted, c) {
        assert (result + [c])[..|result|] == result;
        result := result + [c];
      }
    }
    assert candidates[..|candidates|] == candidates;
  }

  lemma PositiveEpochIsFound(ts: seq<Tombstone>, c: Candidate)
    requires c.epoch >= 1
    ensures Found(ts, c) <==> Covered(ts, c)
  {
    if Covered(ts, c) {
      var i :| 0 <= i < |ts| && Covers(ts[i], c);
      assert ts[i].epoch > 0;
    }
  }

  /** A record of epoch zero covers such a candidate and is never seen. */
  lemma LookupMissesEpochZero(c: Candidate)
    requires c.epoch <= 0
    ensures Covered([Tombstone(OfObject, c.subject, 0)], c) && !Found([Tombstone(OfObject, c.subject, 0)], c)
  {
    assert Covers([Tombstone(OfObject, c.subject, 0)][0], c);
  }

  /** The lookup can be trusted for a candidate, whatever records there are, exactly when the
      candidate's epoch is positive: below that, a record of epoch zero covers it unseen. */
  lemma LookupIsNaiveExactly(c: Candidate)
    ensures c.epoch >= 1 <==> forall ts :: Found(ts, c) <==> Covered(ts, c)
  {
    if c.epoch >= 1 {
      forall ts
        ensures Found(ts, c) <==> Covered(ts, c)
      {
        PositiveEpochIsFound(ts, c);
      }
    } else {
      LookupMissesEpochZero(c);
    }
  }

  // ---- every interleaving of writers ----

  /** `owner` says which object a chunk belongs to; points are keyed by chunk and epoch. */
  datatype State = State(points: map<(nat, int), bool>, tombstones: seq<Tombstone>, doomed: set<(nat, int)>)

  const Empty := State(map[], [], {})

  /** Requests of any number of concurrent writers, each one atomic at the server. */
  datatype Event =
    | Put(chunk: nat, epoch: int)                      // content point, unmasked
    | WriteTombstone(t: Tombstone)
    | MaskTombstone(t: Tombstone)                      // second half of a deletion
    | Lookup(chunk: nat, epoch: int)                   // a writer finds its own point deleted; a miss is no event
    | MaskPoint(chunk: nat, epoch: int)                // and masks it, any time later

  function CandidateOf(owner: nat -> nat, k: (nat, int)): Candidate {
    Candidate(k.0, owner(k.0), k.1)
  }

  function Next(owner: nat -> nat, s: State, e: Event): State {
    match e
    case Put(chunk, epoch) => s.(points := s.points[(chunk, epoch) := false])
    case WriteTombstone(t) => s.(tombstones := s.tombstones + [t])
    case MaskTombstone(t) =>
      if t in s.tombstones
      then s.(points := map k | k in s.points :: s.points[k] || Covers(t, CandidateOf(owner, k)))
      else s
    case Lookup(chunk, epoch) =>
      if Found(s.tombstones, CandidateOf(owner, (chunk, epoch))) then s.(doomed := s.doomed + {(chunk, epoch)}) else s
    case MaskPoint(chunk, epoch) =>
      if (chunk, epoch) in s.doomed && (chunk, epoch) in s.points then s.(points := s.points[(chunk, epoch) := true])
        else s
  }

  function Run(owner: nat -> nat, trace: seq<Event>): State {
    if trace == [] then Empty else Next(owner, Run(owner, trace[..|trace| - 1]), trace[|trace| - 1])
  }

  predicate WasPut(trace: seq<Event>, k: (nat, int)) {
    Put(k.0, k.1) in trace
  }

  predicate WasDeleted(trace: seq<Event>, c: Candidate) {
    exists i :: 0 <= i < |trace| && trace[i].WriteTombstone? && Covers(trace[i].t, c)
  }

  /** Masks and pending masks only ever name points some deletion record covers. */
  ghost predicate Inv(owner: nat -> nat, trace: seq<Event>, s: State) {
    && (forall k :: k in s.points <==> WasPut(trace, k))
    && (forall k :: k in s.points && s.points[k] ==> Covered(s.tombstones, CandidateOf(owner, k)))
    && (forall k :: k in s.doomed ==> Covered(s.tombstones, CandidateOf(owner, k)))
    && (forall c :: Covered(s.tombstones, c) <==> WasDeleted(trace, c))
  }

  lemma CoveredGrows(ts: seq<Tombstone>, t: Tombstone, c: Candidate)
    ensures Covered(ts + [t], c) <==> Covered(ts, c) || Covers(t, c)
  {
    assert (ts + [t])[|ts|] == t;
    if Covered(ts, c) {
      var i :| 0 <= i < |ts| && Covers(ts[i], c);
      assert (ts + [t])[i] == ts[i];
    }
  }

  lemma DeletedGrows(trace: seq<Event>, c: Candidate)
    requires trace != []
    ensures var e := trace[|trace| - 1];
            WasDeleted(trace, c) <==> WasDeleted(trace[..|trace| - 1], c) || (e.WriteTombstone? && Covers(e.t, c))
  {
    if WasDeleted(trace[..|trace| - 1], c) {
      var i :| 0 <= i < |trace| - 1 && trace[..|trace| - 1][i].WriteTombstone? && Covers(trace[..|trace| - 1][i].t, c);
      assert trace[i].WriteTombstone?;
    }
    if WasDeleted(trace, c) {
      var i :| 0 <= i < |trace| && trace[i].WriteTombstone? && Covers(trace[i].t, c);
      assert i < |trace| - 1 ==> trace[..|trace| - 1][i] == trace[i];
    }
  }

  lemma {:induction false} Invariant(owner: nat -> nat, trace: seq<Event>)
    ensures Inv(owner, trace, Run(owner, trace))
  {
    if trace != [] {
      var before, e := trace[..|trace| - 1], trace[|trace| - 1];
      var s := Run(owner, before);
      Invariant(owner, before);
      assert trace == before + [e];
      forall c
        ensures Covered(Next(owner, s, e).tombstones, c) <==> WasDeleted(trace, c)
        ensures Covered(s.tombstones, c) ==> Covered(Next(owner, s, e).tombstones, c)
      {
        DeletedGrows(trace, c);
        if e.WriteTombstone? {
          CoveredGrows(s.tombstones, e.t, c);
        }
      }
      PointsStep(owner, s, e);
    }
  }

  lemma PointsStep(owner: nat -> nat, s: State, e: Event)
    requires forall k :: k in s.points && s.points[k] ==> Covered(s.tombstones, CandidateOf(owner, k))
    requires forall k :: k in s.doomed ==> Covered(s.tombstones, CandidateOf(owner, k))
    ensures var n := Next(owner, s, e);
            && (forall k :: k in n.points <==> k in s.points || (e.Put? && k == (e.chunk, e.epoch)))
            && (forall k :: k in n.points && n.points[k] && !e.WriteTombstone? ==>
                 Covered(s.tombstones, CandidateOf(owner, k)))
            && (forall k :: k in n.doomed ==> Covered(s.tombstones, CandidateOf(owner, k)))
  {
    if e.MaskTombstone? && e.t in s.tombstones {
      var i :| 0 <= i < |s.tombstones| && s.tombstones[i] == e.t;
    }
  }

  /** A deletion's mask reaches every point stored by then that its record covers, and a writer that
      found its point deleted masks it: what the search has to look up is only what came later. */
  lemma MasksReach(owner: nat -> nat, s: State, t: Tombstone, k: (nat, int))
    requires k in s.points
    ensures t in s.tombstones && Covers(t, CandidateOf(owner, k)) ==>
              k in Next(owner, s, MaskTombstone(t)).points && Next(owner, s, MaskTombstone(t)).points[k]
    ensures Found(s.tombstones, CandidateOf(owner, k)) ==>
              var next := Next(owner, Next(owner, s, Lookup(k.0, k.1)), MaskPoint(k.0, k.1));
              k in next.points && next.points[k]
  {
  }

  /** A point the search shows: stored, not masked, and not dropped by the lookup. */
  predicate Visible(owner: nat -> nat, s: State, k: (nat, int)) {
    k in s.points && !s.points[k] && !Found(s.tombstones, CandidateOf(owner, k))
  }

  /** However writers interleave or repeat their requests, exactly the points that were put and
      never covered by a deletion are visible; masks are only an optimisation. */
  lemma PositiveViewIsExact(owner: nat -> nat, trace: seq<Event>, k: (nat, int))
    requires k.1 >= 1
    ensures Visible(owner, Run(owner, trace), k) <==> WasPut(trace, k) && !WasDeleted(trace, CandidateOf(owner, k))
  {
    Invariant(owner, trace);
    PositiveEpochIsFound(Run(owner, trace).tombstones, CandidateOf(owner, k));
  }

  lemma ZeroDeletionIsUnseen(owner: nat -> nat, k: (nat, int))
    requires k.1 <= 0
    ensures var trace := [Put(k.0, k.1), WriteTombstone(Tombstone(OfChunk, k.0, 0))];
            Visible(owner, Run(owner, trace), k) && WasDeleted(trace, CandidateOf(owner, k))
  {
    var put, delete := Put(k.0, k.1), WriteTombstone(Tombstone(OfChunk, k.0, 0));
    var trace := [put, delete];
    assert trace[..1] == [put] && [put][..0] == [];
    assert Run(owner, [put]) == Next(owner, Empty, put);
    assert trace[1].WriteTombstone? && Covers(trace[1].t, CandidateOf(owner, k));
  }

  /** The view is exact over every run precisely for the points of a positive epoch. */
  lemma ViewIsExact(owner: nat -> nat, k: (nat, int))
    ensures k.1 >= 1 <==>
            forall trace :: Visible(owner, Run(owner, trace), k) <==>
              WasPut(trace, k) && !WasDeleted(trace, CandidateOf(owner, k))
  {
    if k.1 >= 1 {
      forall trace
        ensures Visible(owner, Run(owner, trace), k) <==> WasPut(trace, k) && !WasDeleted(trace, CandidateOf(owner, k))
      {
        PositiveViewIsExact(owner, trace, k);
      }
    } else {
      ZeroDeletionIsUnseen(owner, k);
    }
  }

  // ---- a search takes its time, and only so many points ----

  datatype Request = Request(limit: int, oversample: int, epoch: int)

  function Bounded(n: int): (r: nat)
    ensures 1 <= r <= 200
  {
    if n <= 0 then 50 else if n > 200 then 200 else n
  }

  /** How many points the server is asked for. */
  function Asked(q: Request): nat {
    if q.oversample > 1 then Bounded(q.limit * q.oversample) else Bounded(q.limit)
  }

  /** Fifty points are wanted when nothing is said, two hundred at most; oversampling asks for more,
      within the same bound. */
  lemma LimitsExactly(q: Request)
    ensures q.limit <= 0 ==> Bounded(q.limit) == 50
    ensures 0 < q.limit <= 200 ==> Bounded(q.limit) == q.limit
    ensures q.limit > 200 ==> Bounded(q.limit) == 200
    ensures q.oversample <= 1 ==> Asked(q) == Bounded(q.limit)
    ensures q.oversample > 1 && 0 < q.limit && q.limit * q.oversample <= 200 ==> Asked(q) == q.limit * q.oversample
    ensures q.oversample > 1 && q.limit * q.oversample > 200 ==> Asked(q) == 200
    ensures q.limit > 0 ==> Asked(q) >= Bounded(q.limit)
  {
    if q.oversample > 1 && q.limit > 0 {
      MoreIsMore(q.limit, q.oversample);
    }
  }

  lemma MoreIsMore(a: int, b: int)
    requires a > 0 && b > 1
    ensures a * b >= a
  {
  }

  /** `views` are the deletion records at the moments of the lookup's page requests, `hits` what the
      server found near a vector of the right dimension. */
  method SearchVector(id: Ids, views: seq<seq<Tombstone>>, q: Request, hits: seq<Candidate>) returns (r: Result)
    requires Growing(id, views)
    ensures r.Ok? ==> Drops(views[0], views[PAGES - 1], hits, r.visible)
    ensures r.Ok? ==> |hits| < Asked(q) || |r.visible| >= Bounded(q.limit)
    ensures views[0] == views[PAGES - 1] ==>
              (r.Ok? <==>
                 && (hits == [] || MatchCount(views[0], hits) <= PAGE * PAGES)
                 && (|hits| < Asked(q) || |Unfound(views[0], hits)| >= Bounded(q.limit)))
  {
    r := VisibleCandidates(id, views, hits);
    if r.Ok? && |hits| >= Asked(q) && |r.visible| < Bounded(q.limit) {
      r := Unavailable;
    }
  }

  /** The points the server may return: unmasked, and of the epoch asked for, if one is. */
  predicate Matched(s: State, q: Request, k: (nat, int)) {
    k in s.points && !s.points[k] && (q.epoch > 0 ==> k.1 == q.epoch)
  }

  predicate Hits(owner: nat -> nat, s: State, q: Request, hits: seq<Candidate>) {
    |hits| <= Asked(q)
    && forall h :: h in hits ==> h == CandidateOf(owner, (h.chunk, h.epoch)) && Matched(s, q, (h.chunk, h.epoch))
  }

  /** The server returns fewer points than asked for only when there are no more. */
  ghost predicate Exhaustive(owner: nat -> nat, s: State, q: Request, hits: seq<Candidate>) {
    |hits| < Asked(q) ==> forall k :: Matched(s, q, k) ==> CandidateOf(owner, k) in hits
  }

  /** What the lookup does to a list it does to each of its candidates. */
  lemma {:induction false} DropsEach(first: seq<Tombstone>, last: seq<Tombstone>, cs: seq<Candidate>,
          kept: seq<Candidate>, c: Candidate)
    requires Drops(first, last, cs, kept)
    ensures c in kept ==> c in cs && !Found(first, c)
    ensures c in cs && c !in kept ==> Found(last, c)
    decreases |cs|
  {
    hide Found;
    if cs != [] {
      var n, m := |cs| - 1, |kept| - 1;
      assert cs == cs[..n] + [cs[n]];
      if Found(last, cs[n]) && Drops(first, last, cs[..n], kept) {
        DropsEach(first, last, cs[..n], kept, c);
      } else {
        DropsEach(first, last, cs[..n], kept[..m], c);
        assert kept == kept[..m] + [kept[m]];
      }
    }
  }

  lemma DeletionsStay(trace: seq<Event>, a: nat, b: nat, c: Candidate)
    requires a <= b <= |trace| && WasDeleted(trace[..a], c)
    ensures WasDeleted(trace[..b], c)
  {
    var i :| 0 <= i < a && trace[..a][i].WriteTombstone? && Covers(trace[..a][i].t, c);
    assert trace[..b][i] == trace[..a][i];
  }

  /** A search found `hits` after `a` requests of a run, looked deletions up from then until after `b`
      requests and returned `kept`. Whatever requests fell in between: it returns only points that
      were put and not deleted before it began, and of its hits every one not deleted before it
      ended. */
  lemma SearchSpansItsTime(owner: nat -> nat, trace: seq<Event>, a: nat, b: nat, q: Request, hits: seq<Candidate>,
          kept: seq<Candidate>, h: Candidate)
    requires h.epoch >= 1 && a <= b <= |trace| && Hits(owner, Run(owner, trace[..a]), q, hits)
    requires Drops(Run(owner, trace[..a]).tombstones, Run(owner, trace[..b]).tombstones, hits, kept)
    ensures h in kept ==> h in hits && WasPut(trace[..a], (h.chunk, h.epoch)) && !WasDeleted(trace[..a], h)
    ensures h in hits && !WasDeleted(trace[..b], h) ==> h in kept
    ensures h in kept && q.epoch > 0 ==> h.epoch == q.epoch
  {
    hide Run, Drops;
    Invariant(owner, trace[..a]);
    Invariant(owner, trace[..b]);
    PositiveEpochIsFound(Run(owner, trace[..a]).tombstones, h);
    PositiveEpochIsFound(Run(owner, trace[..b]).tombstones, h);
    DropsEach(Run(owner, trace[..a]).tombstones, Run(owner, trace[..b]).tombstones, hits, kept, h);
  }

  /** A search that succeeds misses nothing unless it is full: with an exhaustive server, every
      matching point put before it began and not deleted before it ended is returned, or as many
      points as were wanted are. */
  lemma SearchMissesNothing(owner: nat -> nat, trace: seq<Event>, a: nat, b: nat, q: Request, hits: seq<Candidate>,
          kept: seq<Candidate>, k: (nat, int))
    requires k.1 >= 1 && (q.epoch > 0 ==> k.1 == q.epoch) && a <= b <= |trace|
    requires Hits(owner, Run(owner, trace[..a]), q, hits) && Exhaustive(owner, Run(owner, trace[..a]), q, hits)
    requires Drops(Run(owner, trace[..a]).tombstones, Run(owner, trace[..b]).tombstones, hits, kept)
    requires |hits| < Asked(q) || |kept| >= Bounded(q.limit)
    requires WasPut(trace[..a], k) && !WasDeleted(trace[..b], CandidateOf(owner, k))
    ensures CandidateOf(owner, k) in kept || |kept| >= Bounded(q.limit)
  {
    hide Run, Drops;
    var c := CandidateOf(owner, k);
    Invariant(owner, trace[..a]);
    if WasDeleted(trace[..a], c) {
      DeletionsStay(trace, a, b, c);
    }
    assert k == (c.chunk, c.epoch);
    if |hits| < Asked(q) {
      assert Matched(Run(owner, trace[..a]), q, k);
      SearchSpansItsTime(owner, trace, a, b, q, hits, kept, c);
    }
  }
}
