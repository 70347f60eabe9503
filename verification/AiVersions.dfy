/** Index generations of one AI document and the version readers follow. */
module AiVersionRows {
  import opened Common

  datatype VersionStatus = Building | Indexed | Failed | Unsupported

  datatype Version = Version(
    generation: nat,
    status: VersionStatus,
    token: Option<Token>,
    leaseUntil: Option<Time>,
    retired: bool,
    pipeline: nat)

  datatype Summary = Processing | Ready | Broken | Refused

  datatype Started = Current | Busy | Acquired(index: nat)

  /** Generations count up, only the newest version can be building, and the document follows the one
      indexed version that is not retired. */
  predicate Coherent(versions: seq<Version>, active: Option<nat>) {
    && (forall i :: 0 <= i < |versions| ==> versions[i].generation == i + 1)
    && (forall i :: 0 <= i < |versions| && versions[i].status.Building? ==> i == |versions| - 1)
    && (forall i :: 0 <= i < |versions| ==>
         (versions[i].status.Indexed? && !versions[i].retired <==> active == Some(i)))
    && (active.Some? ==> active.value < |versions|)
    && (forall i :: 0 <= i < |versions| && versions[i].retired ==> versions[i].status.Indexed?)
  }

  function Generation(active: Option<nat>): nat {
    if active.None? then 0 else active.value + 1
  }

  /** How one transaction may change the rows. */
  predicate Evolves(before: seq<Version>, wasActive: Option<nat>, after: seq<Version>, active: Option<nat>) {
    && |before| <= |after|
    && (forall i :: 0 <= i < |before| ==>
          && after[i].generation == before[i].generation
          && (!before[i].status.Building? ==> after[i].status == before[i].status)
          && (before[i].retired ==> after[i].retired)
          && (before[i].status.Building? && after[i].status.Building? ==> after[i].token == before[i].token))
    && (active == wasActive
        || (Generation(wasActive) < Generation(active) <= |before| && before[active.value].status.Building?
             && after[active.value].status.Indexed?))
  }

  datatype Doc = Doc(versions: seq<Version>, active: Option<nat>, summary: Summary)

  const NewDoc := Doc([], None, Processing)

  /** The transactions of any number of indexers. A failing indexer writes its version and the
      document's summary separately, the summary without its token. */
  datatype Event =
    | Start(now: Time, token: Token, force: bool, pipeline: nat)
    | Touch(v: nat, token: Token, now: Time)
    | Publish(v: nat, token: Token)
    | Refuse(v: nat, token: Token)
    | FailVersion(v: nat, token: Token)
    | MarkBroken(sawActive: bool)

  predicate Holds(d: Doc, v: nat, token: Token) {
    v < |d.versions| && d.versions[v].status.Building? && d.versions[v].token == Some(token)
  }

  predicate UpToDate(d: Doc, pipeline: nat) {
    d.active.Some? && d.active.value < |d.versions| && d.versions[d.active.value].status.Indexed?
    && d.versions[d.active.value].pipeline == pipeline
  }

  predicate Leased(d: Doc, now: Time) {
    && d.versions != [] && d.versions[|d.versions| - 1].status.Building?
    && d.versions[|d.versions| - 1].leaseUntil.Some? && d.versions[|d.versions| - 1].leaseUntil.value > now
  }

  function Expired(versions: seq<Version>): seq<Version> {
    var last := |versions| - 1;
    if versions != [] && versions[last].status.Building? then versions[last := versions[last].(status := Failed)]
      else versions
  }

  function AfterStart(lease: nat, d: Doc, now: Time, token: Token, force: bool, pipeline: nat): Doc {
    if (!force && UpToDate(d, pipeline)) || Leased(d, now) then d
    else
      var version := Version(|d.versions| + 1, Building, Some(token), Some(now + lease), false, pipeline);
      Doc(Expired(d.versions) + [version], d.active, Processing)
  }

  function Ended(v: Version, status: VersionStatus): Version {
    v.(status := status, token := None, leaseUntil := None)
  }

  function RetiredOthers(versions: seq<Version>, v: nat): seq<Version> {
    seq(|versions|, i requires 0 <= i < |versions| =>
      if i != v && versions[i].status.Indexed? then versions[i].(retired := true) else versions[i])
  }

  function Next(lease: nat, d: Doc, e: Event): Doc {
    match e
    case Start(now, token, force, pipeline) => AfterStart(lease, d, now, token, force, pipeline)
    case Touch(v, token, now) =>
      if Holds(d, v, token) && d.versions[v].leaseUntil.Some? && d.versions[v].leaseUntil.value > now
      then d.(versions := d.versions[v := d.versions[v].(leaseUntil := Some(now + lease))]) else d
    case Publish(v, token) =>
      if !Holds(d, v, token) then d
      else Doc(RetiredOthers(d.versions, v)[v := Ended(d.versions[v], Indexed)], Some(v), Ready)
    case Refuse(v, token) =>
      if !Holds(d, v, token) then d
      else Doc(d.versions[v := Ended(d.versions[v], Unsupported)], d.active, if d.active.Some? then Ready else Refused)
    case FailVersion(v, token) =>
      if Holds(d, v, token) then d.(versions := d.versions[v := Ended(d.versions[v], Failed)]) else d
    case MarkBroken(sawActive) => if !sawActive && d.active.None? then d.(summary := Broken) else d
  }

  function Run(lease: nat, trace: seq<Event>): Doc {
    if trace == [] then NewDoc else Next(lease, Run(lease, trace[..|trace| - 1]), trace[|trace| - 1])
  }

  lemma StartEvolves(lease: nat, d: Doc, now: Time, token: Token, force: bool, pipeline: nat)
    requires Coherent(d.versions, d.active)
    ensures var next := AfterStart(lease, d, now, token, force, pipeline);
            Coherent(next.versions, next.active) && Evolves(d.versions, d.active, next.versions, next.active)
  {
  }

  lemma PublishEvolves(lease: nat, d: Doc, v: nat, token: Token)
    requires Coherent(d.versions, d.active)
    ensures var next := Next(lease, d, Publish(v, token));
            Coherent(next.versions, next.active) && Evolves(d.versions, d.active, next.versions, next.active)
  {
    hide AfterStart;
  }

  lemma StepEvolves(lease: nat, d: Doc, e: Event)
    requires Coherent(d.versions, d.active)
    ensures var next := Next(lease, d, e);
            Coherent(next.versions, next.active) && Evolves(d.versions, d.active, next.versions, next.active)
  {
    hide AfterStart, RetiredOthers;
    match e
    case Start(now, token, force, pipeline) => StartEvolves(lease, d, now, token, force, pipeline);
    case Publish(v, token) => PublishEvolves(lease, d, v, token);
    case _ =>
  }

  lemma {:induction false} RunIsCoherent(lease: nat, trace: seq<Event>)
    ensures Coherent(Run(lease, trace).versions, Run(lease, trace).active)
  {
    if trace != [] {
      RunIsCoherent(lease, trace[..|trace| - 1]);
      StepEvolves(lease, Run(lease, trace[..|trace| - 1]), trace[|trace| - 1]);
    }
  }

  /** `later` is no further back: the active generation did not fall, and no version that had
      stopped building builds again. */
  predicate NoRegress(d: Doc, later: Doc) {
    && Generation(d.active) <= Generation(later.active)
    && (Generation(d.active) == Generation(later.active) ==> d.active == later.active)
    && |d.versions| <= |later.versions|
    && (forall v :: 0 <= v < |d.versions| && !d.versions[v].status.Building? ==>
          && later.versions[v].status == d.versions[v].status
          && (d.versions[v].retired ==> later.versions[v].retired))
  }

  lemma NoRegressAtOnce(d: Doc)
    ensures NoRegress(d, d)
  {
  }

  lemma NoRegressStep(d: Doc, mid: Doc, next: Doc)
    requires NoRegress(d, mid) && Evolves(mid.versions, mid.active, next.versions, next.active)
    ensures NoRegress(d, next)
  {
  }

  /** Over any run the active generation only grows, and a version that stopped building never
      builds again and keeps its outcome. */
  lemma {:induction false} ActiveOnlyAdvances(lease: nat, trace: seq<Event>, more: seq<Event>)
    ensures NoRegress(Run(lease, trace), Run(lease, trace + more))
    decreases |more|
  {
    hide Next, Coherent, NoRegress, Evolves;
    if more == [] {
      assert trace + more == trace;
      NoRegressAtOnce(Run(lease, trace));
    } else {
      var init, all := more[..|more| - 1], trace + more;
      assert all[..|all| - 1] == trace + init && all[|all| - 1] == more[|more| - 1];
      ActiveOnlyAdvances(lease, trace, init);
      RunIsCoherent(lease, trace + init);
      StepEvolves(lease, Run(lease, trace + init), more[|more| - 1]);
      NoRegressStep(Run(lease, trace), Run(lease, trace + init), Run(lease, all));
    }
  }

  /** An indexer whose version was superseded, failed or refused never becomes the active one. */
  lemma SupersededNeverActive(lease: nat, trace: seq<Event>, more: seq<Event>, v: nat)
    requires var d := Run(lease, trace); v < |d.versions| && !d.versions[v].status.Building? && d.active != Some(v)
    ensures Run(lease, trace + more).active != Some(v)
  {
    var d, later := Run(lease, trace), Run(lease, trace + more);
    ActiveOnlyAdvances(lease, trace, more);
    RunIsCoherent(lease, trace);
    RunIsCoherent(lease, trace + more);
    assert d.versions[v].status.Indexed? && !d.versions[v].retired <==> d.active == Some(v);
    assert later.versions[v].status.Indexed? && !later.versions[v].retired <==> later.active == Some(v);
  }

  // ---- a lease keeps others out, and its holder gets through ----

  /** A start is refused exactly while the newest version is being built under a live lease, or when
      the version readers follow is of the same pipeline and nothing is forced; otherwise it takes
      the next generation for its lease, and an expired builder has failed. */
  lemma StartExactly(lease: nat, d: Doc, now: Time, token: Token, force: bool, pipeline: nat)
    requires Coherent(d.versions, d.active)
    ensures var n := |d.versions|;
            var live := n > 0 && d.versions[n - 1].status == Building
                        && d.versions[n - 1].leaseUntil.Some? && d.versions[n - 1].leaseUntil.value > now;
            var current := !force && d.active.Some? && d.versions[d.active.value].pipeline == pipeline;
            var next := Next(lease, d, Start(now, token, force, pipeline));
            if live || current then next == d
            else
              && |next.versions| == n + 1 && next.active == d.active && next.summary == Processing
              && next.versions[n] == Version(n + 1, Building, Some(token), Some(now + lease), false, pipeline)
              && forall i :: 0 <= i < n ==>
                   next.versions[i] == if d.versions[i].status == Building then d.versions[i].(status := Failed)
                                       else d.versions[i]
  {
  }

  /** What others do while the lease lasts: start at some moment of it, or write under their own
      tokens. */
  predicate Meanwhile(e: Event, token: Token, until: Time) {
    match e
    case Start(t, other, _, _) => t < until
    case Touch(_, other, _) => other != token
    case Publish(_, other) => other != token
    case Refuse(_, other) => other != token
    case FailVersion(_, other) => other != token
    case MarkBroken(_) => true
  }

  predicate Owns(d: Doc, v: nat, token: Token, until: Time) {
    |d.versions| == v + 1 && Holds(d, v, token) && d.versions[v].leaseUntil == Some(until)
  }

  lemma OwnsOn(lease: nat, d: Doc, v: nat, token: Token, until: Time, e: Event)
    requires Coherent(d.versions, d.active) && Owns(d, v, token, until) && Meanwhile(e, token, until)
    ensures Owns(Next(lease, d, e), v, token, until) && Next(lease, d, e).active == d.active
  {
  }

  lemma {:induction false} OwnsThroughout(lease: nat, trace: seq<Event>, v: nat, token: Token, until: Time,
          more: seq<Event>)
    requires Owns(Run(lease, trace), v, token, until)
    requires forall i :: 0 <= i < |more| ==> Meanwhile(more[i], token, until)
    ensures Owns(Run(lease, trace + more), v, token, until)
    ensures Run(lease, trace + more).active == Run(lease, trace).active
  {
    hide Owns, Next, Coherent, Meanwhile;
    if more == [] {
      assert trace + more == trace;
    } else {
      var last := |more| - 1;
      OwnsThroughout(lease, trace, v, token, until, more[..last]);
      assert trace + more == (trace + more[..last]) + [more[last]];
      OneMore(lease, trace + more[..last], more[last]);
      RunIsCoherent(lease, trace + more[..last]);
      OwnsOn(lease, Run(lease, trace + more[..last]), v, token, until, more[last]);
    }
  }

  /** An indexer that got a version publishes it, whatever others try while its lease lasts: readers
      then follow it, and the version they followed before is retired. */
  lemma BuilderPublishes(lease: nat, trace: seq<Event>, now: Time, token: Token, force: bool, pipeline: nat,
          more: seq<Event>)
    requires var d := Run(lease, trace);
             !(Leased(d, now) || (!force && UpToDate(d, pipeline)))
    requires forall i :: 0 <= i < |more| ==> Meanwhile(more[i], token, now + lease)
    ensures var was := Run(lease, trace);
            var v := |was.versions|;
            var d := Run(lease, trace + [Start(now, token, force, pipeline)] + more);
            var next := Next(lease, d, Publish(v, token));
            && next.active == Some(v) && next.summary == Ready && |next.versions| == v + 1
            && next.versions[v] == Version(v + 1, Indexed, None, None, false, pipeline)
            && (was.active.Some? ==> was.active.value < v && next.versions[was.active.value].retired)
  {
    var start := trace + [Start(now, token, force, pipeline)];
    RunIsCoherent(lease, trace);
    OneMore(lease, trace, Start(now, token, force, pipeline));
    StartExactly(lease, Run(lease, trace), now, token, force, pipeline);
    OwnsThroughout(lease, start, |Run(lease, trace).versions|, token, now + lease, more);
    RunIsCoherent(lease, start + more);
    ActiveOnlyAdvances(lease, start, more);
    FieldsStay(lease, start, more, |Run(lease, trace).versions|);
    hide Run;
    PublishExactly(lease, Run(lease, start + more), |Run(lease, trace).versions|, token);
  }

  lemma FieldsStep(lease: nat, d: Doc, e: Event, v: nat)
    requires Coherent(d.versions, d.active) && v < |d.versions|
    ensures var next := Next(lease, d, e);
            && v < |next.versions| && next.versions[v].pipeline == d.versions[v].pipeline
            && next.versions[v].generation == d.versions[v].generation
  {
  }

  /** A version's generation and pipeline are written once. */
  lemma {:induction false} FieldsStay(lease: nat, trace: seq<Event>, more: seq<Event>, v: nat)
    requires v < |Run(lease, trace).versions|
    ensures var d, later := Run(lease, trace), Run(lease, trace + more);
            && v < |later.versions| && later.versions[v].pipeline == d.versions[v].pipeline
            && later.versions[v].generation == d.versions[v].generation
  {
    hide Next, Coherent;
    if more == [] {
      assert trace + more == trace;
    } else {
      var last := |more| - 1;
      FieldsStay(lease, trace, more[..last], v);
      assert trace + more == (trace + more[..last]) + [more[last]];
      OneMore(lease, trace + more[..last], more[last]);
      RunIsCoherent(lease, trace + more[..last]);
      FieldsStep(lease, Run(lease, trace + more[..last]), more[last], v);
    }
  }

  /** How a build ends under its own token: published, refused or failed, and what readers see. */
  lemma PublishExactly(lease: nat, d: Doc, v: nat, token: Token)
    requires Coherent(d.versions, d.active) && Holds(d, v, token)
    ensures var next := Next(lease, d, Publish(v, token));
            && next.active == Some(v) && next.summary == Ready && |next.versions| == |d.versions|
            && next.versions[v] == d.versions[v].(status := Indexed, token := None, leaseUntil := None)
            && (forall i :: 0 <= i < |d.versions| && i != v ==>
                  next.versions[i] == d.versions[i].(retired := d.versions[i].status == Indexed))
    ensures var next := Next(lease, d, Refuse(v, token));
            && next.active == d.active && next.summary == (if d.active.Some? then Ready else Refused)
            && next.versions == d.versions[v :=
                 d.versions[v].(status := Unsupported, token := None, leaseUntil := None)]
    ensures var next := Next(lease, d, FailVersion(v, token));
            && next.active == d.active && next.summary == d.summary
            && next.versions == d.versions[v := d.versions[v].(status := Failed, token := None, leaseUntil := None)]
  {
  }

  // ---- the summary is not fenced ----

  /** A failing indexer that looked for an active version at `trace` and writes after `more` leaves
      every summary as it finds it exactly when the document has an active version by then. Whether
      it was superseded meanwhile makes no difference. */
  lemma FailureReachesSummaryExactly(lease: nat, trace: seq<Event>, more: seq<Event>)
    ensures var saw, d := Run(lease, trace).active.Some?, Run(lease, trace + more);
            (forall summary :: Next(lease, d.(summary := summary), MarkBroken(saw)).summary == summary) <==>
              d.active.Some?
  {
    var saw, d := Run(lease, trace).active.Some?, Run(lease, trace + more);
    ActiveOnlyAdvances(lease, trace, more);
    if d.active.None? {
      assert Next(lease, d.(summary := Ready), MarkBroken(saw)).summary == Broken;
    }
  }

  /** Two indexers of a new document; the first outlives its lease and fails after the second
      started. */
  function Overtaken(lease: nat): seq<Event> {
    [Start(0, 1, false, 0), Start(lease, 2, false, 0), FailVersion(0, 1), MarkBroken(false)]
  }

  lemma OneMore(lease: nat, trace: seq<Event>, e: Event)
    ensures Run(lease, trace + [e]) == Next(lease, Run(lease, trace), e)
  {
    assert (trace + [e])[..|trace|] == trace;
  }

  /** The superseded indexer marks the document broken while its successor holds the version. */
  lemma SupersededBreaksSummary(lease: nat)
    ensures var d := Run(lease, Overtaken(lease));
            d.summary.Broken? && Holds(d, 1, 2) && |d.versions| == 2 && d.versions[0].status.Failed?
  {
    var t := Overtaken(lease);
    OneMore(lease, [], t[0]);
    OneMore(lease, [t[0]], t[1]);
    OneMore(lease, [t[0], t[1]], t[2]);
    OneMore(lease, [t[0], t[1], t[2]], t[3]);
    assert [] + [t[0]] == [t[0]] && [t[0]] + [t[1]] == [t[0], t[1]];
    assert [t[0], t[1]] + [t[2]] == [t[0], t[1], t[2]] && [t[0], t[1], t[2]] + [t[3]] == t;
    var first := Version(1, Building, Some(1), Some(lease), false, 0);
    assert Run(lease, [t[0]]) == Doc([first], None, Processing);
    assert Run(lease, [t[0], t[1]]).versions
      == [first.(status := Failed), Version(2, Building, Some(2), Some(lease + lease), false, 0)];
  }
}

/** ai.Service's transactions on one document. */
module AiVersions {
  import opened Common
  import opened AiVersionRows

  class Document {
    const lease: nat
    var versions: seq<Version>
    var active: Option<nat>
    var summary: Summary

    function AsDoc(): Doc
      reads this
    {
      Doc(versions, active, summary)
    }

    predicate Valid()
      reads this
    {
      Coherent(versions, active)
    }

    constructor (lease: nat)
      ensures Valid() && this.lease == lease && AsDoc() == NewDoc
    {
      this.lease := lease;
      versions, active, summary := [], None, Processing;
    }

    /** What every transaction leaves true of the one before. */
    twostate predicate Advances()
      reads this
    {
      Valid() && Evolves(old(versions), old(active), versions, active)
    }

    /** startDocumentVersion: an expired building version becomes failed history, and the new one
        gets the next generation. */
    method Start(now: Time, token: Token, force: bool, pipeline: nat) returns (r: Started)
      requires Valid()
      modifies this
      ensures AsDoc() == Next(lease, old(AsDoc()), Event.Start(now, token, force, pipeline)) && Advances()
      ensures r == (if !force && UpToDate(old(AsDoc()), pipeline) then Current
                    else if Leased(old(AsDoc()), now) then Busy else Acquired(|old(versions)|))
      ensures r.Acquired? ==> Holds(AsDoc(), r.index, token) && versions[r.index].generation == |old(versions)| + 1
    {
      StepEvolves(lease, AsDoc(), Event.Start(now, token, force, pipeline));
      hide Coherent, Evolves;
      if !force && UpToDate(AsDoc(), pipeline) {
        return Current;
      }
      var last := |versions| - 1;
      if versions != [] && versions[last].status.Building? {
        if versions[last].leaseUntil.Some? && versions[last].leaseUntil.value > now {
          return Busy;
        }
        versions := versions[last := versions[last].(status := Failed)];
      }
      r := Acquired(|versions|);
      versions := versions + [Version(|versions| + 1, Building, Some(token), Some(now + lease), false, pipeline)];
      summary := Processing;
    }

    method Touch(v: nat, token: Token, now: Time) returns (ok: bool)
      requires Valid()
      modifies this
      ensures AsDoc() == Next(lease, old(AsDoc()), Event.Touch(v, token, now)) && Advances()
      ensures ok <==>
                Holds(old(AsDoc()), v, token) && old(versions)[v].leaseUntil.Some?
                  && old(versions)[v].leaseUntil.value > now
      ensures ok ==> versions == old(versions)[v := old(versions)[v].(leaseUntil := Some(now + lease))]
    {
      StepEvolves(lease, AsDoc(), Event.Touch(v, token, now));
      hide Coherent, Evolves;
      ok := Holds(AsDoc(), v, token) && versions[v].leaseUntil.Some? && versions[v].leaseUntil.value > now;
      if ok {
        versions := versions[v := versions[v].(leaseUntil := Some(now + lease))];
      }
    }

    /** The publish transaction: only the holder of the building version moves readers to it, and the
        version it replaces is retired in the same step. */
    method Publish(v: nat, token: Token) returns (ok: bool)
      requires Valid()
      modifies this
      ensures AsDoc() == Next(lease, old(AsDoc()), Event.Publish(v, token)) && Advances()
      ensures ok <==> Holds(old(AsDoc()), v, token)
      ensures ok ==> active == Some(v) && Generation(old(active)) < Generation(active)
    {
      StepEvolves(lease, AsDoc(), Event.Publish(v, token));
      if !Holds(AsDoc(), v, token) {
        return false;
      }
      assert active != Some(v);
      hide Coherent;
      RetireOthers(v);
      versions := versions[v := versions[v].(status := Indexed, token := None, leaseUntil := None)];
      active := Some(v);
      summary := Ready;
      ok := true;
    }

    /** UPDATE ... SET retired_at WHERE id <> v AND status = 'indexed' AND retired_at IS NULL. */
    method RetireOthers(v: nat)
      modifies this`versions
      ensures versions == RetiredOthers(old(versions), v)
    {
      for i := 0 to |versions|
        invariant |versions| == |old(versions)|
        invariant forall k :: 0 <= k < i ==> versions[k] == RetiredOthers(old(versions), v)[k]
        invariant forall k :: i <= k < |versions| ==> versions[k] == old(versions)[k]
      {
        if i != v && versions[i].status.Indexed? && !versions[i].retired {
          versions := versions[i := versions[i].(retired := true)];
        }
      }
    }

    /** finishUnsupportedVersion: the summary goes back to the version readers still see. */
    method FinishUnsupported(v: nat, token: Token) returns (ok: bool)
      requires Valid()
      modifies this
      ensures AsDoc() == Next(lease, old(AsDoc()), Refuse(v, token)) && Advances()
      ensures ok <==> Holds(old(AsDoc()), v, token)
    {
      StepEvolves(lease, AsDoc(), Refuse(v, token));
      if !Holds(AsDoc(), v, token) {
        return false;
      }
      assert active.Some? ==> active.value != v && versions[active.value].status.Indexed?;
      hide Coherent, Evolves;
      versions := versions[v := versions[v].(status := Unsupported, token := None, leaseUntil := None)];
      if active.Some? {
        if versions[active.value].status.Indexed? {
          summary := Ready;
        }
      } else {
        summary := Refused;
      }
      ok := true;
    }

    /** finishFailedVersion. `sawActive` says whether the indexer found an active version at its
        start. The summary is written without the token, so a superseded indexer still reaches it. */
    method FinishFailed(v: nat, token: Token, sawActive: bool)
      requires Valid()
      modifies this
      ensures AsDoc() == Next(lease, Next(lease, old(AsDoc()), FailVersion(v, token)), MarkBroken(sawActive))
      ensures Advances() && active == old(active)
    {
      StepEvolves(lease, AsDoc(), FailVersion(v, token));
      hide Coherent, Evolves;
      if Holds(AsDoc(), v, token) {
        versions := versions[v := versions[v].(status := Failed, token := None, leaseUntil := None)];
      }
      if !sawActive && active.None? {
        summary := Broken;
      }
    }
  }
}
