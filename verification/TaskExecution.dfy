/** One task identity: its execution row, its receipt and the statements that change them. */
module TaskRows {
  import opened Common

  datatype Status = Running | Retry | Finished

  datatype Receipt = Succeeded | Dead

  datatype Row = Row(
    payload: nat,
    status: Status,
    token: Option<Token>,
    leaseUntil: Option<Time>,
    availableAt: Time,
    retry: nat,
    maxRetry: nat)

  datatype Verdict = Granted | AlreadySucceeded | AlreadyDead | Busy | Conflict

  /** What ended a handler: nothing, an error that may be retried, or one that must not be. */
  datatype Cause = Success | Failure | SkipRetry

  /** `stop` is the store's stop timeout in milliseconds. */
  function LeaseDuration(stop: nat): Time {
    3 * (stop + 5 * SECOND)
  }

  function RetryDelay(attempt: int): (d: Time)
    ensures d >= SECOND
  {
    if attempt <= 1 then SECOND else if attempt == 2 then 5 * SECOND else if attempt == 3 then 30 * SECOND
    else if attempt == 4 then 60 * SECOND else 300 * SECOND
  }

  function Judge(row: Option<Row>, receipt: Option<Receipt>, payload: nat, now: Time): Verdict {
    if row.Some? && row.value.payload != payload then Conflict
    else if receipt.Some? then (if receipt.value.Succeeded? then AlreadySucceeded else AlreadyDead)
    else if row.None? then Granted
    else if row.value.status.Running? && row.value.leaseUntil.Some? && row.value.leaseUntil.value > now then Busy
    else if row.value.status.Retry? && row.value.availableAt > now then Busy
    else if row.value.status.Finished? then AlreadyDead
    else Granted
  }

  function Claimed(row: Option<Row>, payload: nat, now: Time, token: Token, stop: nat, retry: nat, maxRetry: nat): Row {
    var lease := Some(now + LeaseDuration(stop));
    if row.None? then Row(payload, Running, Some(token), lease, now, retry, maxRetry)
    else row.value.(status := Running, token := Some(token), leaseUntil := lease)
  }

  predicate HeldBy(row: Option<Row>, token: Token) {
    row.Some? && row.value.status.Running? && row.value.token == Some(token)
  }

  /** The guard of every write after the claim: the same token, and a lease not yet over. */
  predicate Writable(row: Option<Row>, token: Token, now: Time) {
    HeldBy(row, token) && row.value.leaseUntil.Some? && row.value.leaseUntil.value > now
  }

  predicate Terminal(cause: Cause, shutdown: bool, retry: nat, maxRetry: nat) {
    !cause.Success? && !shutdown && (cause.SkipRetry? || retry >= maxRetry)
  }

  function FinishedRow(row: Row, cause: Cause, shutdown: bool, now: Time, retry: nat, maxRetry: nat): Row {
    var released := row.(token := None, leaseUntil := None);
    if cause.Success? || Terminal(cause, shutdown, retry, maxRetry) then released.(status := Finished)
    else if shutdown then released.(status := Retry, retry := retry, availableAt := now)
    else released.(status := Retry, retry := retry + 1, availableAt := now + RetryDelay(retry + 1))
  }

  function FinishedReceipt(receipt: Option<Receipt>, cause: Cause, shutdown: bool, retry: nat,
          maxRetry: nat): Option<Receipt> {
    if receipt.Some? then receipt
    else if cause.Success? then Some(Succeeded)
    else if Terminal(cause, shutdown, retry, maxRetry) then Some(Dead)
    else None
  }

  /** recordStuck keeps the lease running past the process's own exit. */
  function StuckRow(row: Row, shutdown: bool, lostLease: bool, now: Time, retry: nat, maxRetry: nat): Row {
    var count := if !shutdown && !lostLease && retry < maxRetry then retry + 1 else retry;
    row.(retry := count, availableAt := now + RetryDelay(count) + 5 * SECOND,
         leaseUntil := Some(now + RetryDelay(count) + 5 * SECOND))
  }

  function StuckReceipt(receipt: Option<Receipt>, shutdown: bool, lostLease: bool, retry: nat,
          maxRetry: nat): Option<Receipt> {
    if receipt.None? && !shutdown && !lostLease && retry >= maxRetry then Some(Dead) else receipt
  }

  datatype Task = Task(id: string, payload: nat, token: Token, retry: nat, maxRetry: nat)

  /** The task_executions and task_results tables behind taskqueue.Store. */
  class Store {
    const stop: nat
    var rows: map<string, Row>
    var receipts: map<string, Receipt>

    constructor (stop: nat)
      ensures this.stop == stop && rows == map[] && receipts == map[]
    {
      this.stop := stop;
      rows, receipts := map[], map[];
    }

    function RowOf(id: string): Option<Row>
      reads this
    {
      if id in rows then Some(rows[id]) else None
    }

    function ReceiptOf(id: string): Option<Receipt>
      reads this
    {
      if id in receipts then Some(receipts[id]) else None
    }

    method Claim(t: Task, now: Time, token: Token) returns (v: Verdict, claimed: Task)
      modifies this
      ensures v == Judge(old(RowOf(t.id)), old(ReceiptOf(t.id)), t.payload, now)
      ensures receipts == old(receipts)
      ensures !v.Granted? ==> rows == old(rows) && claimed == t
      ensures v.Granted? ==>
        var row := Claimed(old(RowOf(t.id)), t.payload, now, token, stop, t.retry, t.maxRetry);
        rows == old(rows)[t.id := row] && claimed == t.(token := token, retry := row.retry, maxRetry := row.maxRetry)
    {
      claimed := t;
      if t.id in rows && rows[t.id].payload != t.payload {
        return Conflict, claimed;
      }
      if t.id in receipts {
        return if receipts[t.id].Succeeded? then AlreadySucceeded else AlreadyDead, claimed;
      }
      var until := now + LeaseDuration(stop);
      if t.id !in rows {
        rows := rows[t.id := Row(t.payload, Running, Some(token), Some(until), now, t.retry, t.maxRetry)];
      } else {
        var row := rows[t.id];
        if row.status.Running? && row.leaseUntil.Some? && row.leaseUntil.value > now {
          return Busy, claimed;
        }
        if row.status.Retry? && row.availableAt > now {
          return Busy, claimed;
        }
        if row.status.Finished? {
          return AlreadyDead, claimed;
        }
        rows := rows[t.id := row.(status := Running, token := Some(token), leaseUntil := Some(until))];
      }
      claimed := claimed.(token := token, retry := rows[t.id].retry, maxRetry := rows[t.id].maxRetry);
      v := Granted;
    }

    method Finish(t: Task, cause: Cause, shutdown: bool, now: Time) returns (ok: bool)
      modifies this
      ensures ok <==> Writable(old(RowOf(t.id)), t.token, now)
      ensures !ok ==> rows == old(rows) && receipts == old(receipts)
      ensures ok ==> rows == old(rows)[t.id := FinishedRow(old(rows[t.id]), cause, shutdown, now, t.retry, t.maxRetry)]
      ensures ok ==> ReceiptOf(t.id) == FinishedReceipt(old(ReceiptOf(t.id)), cause, shutdown, t.retry, t.maxRetry)
      ensures forall id :: id != t.id ==> ReceiptOf(id) == old(ReceiptOf(id))
    {
      var terminal := !cause.Success? && !shutdown && (cause.SkipRetry? || t.retry >= t.maxRetry);
      if !Writable(RowOf(t.id), t.token, now) {
        return false;
      }
      var row := rows[t.id].(status := Finished, token := None, leaseUntil := None);
      if !cause.Success? && !terminal {
        var count, available := t.retry, now;
        if !shutdown {
          count := count + 1;
          available := now + RetryDelay(count);
        }
        row := row.(status := Retry, retry := count, availableAt := available);
      }
      rows := rows[t.id := row];
      if cause.Success? {
        InsertReceipt(t.id, Succeeded);
      } else if terminal {
        InsertReceipt(t.id, Dead);
      }
      ok := true;
    }

    /** insertSuccess and recordFailure: an existing receipt is left alone. */
    method InsertReceipt(id: string, r: Receipt)
      modifies this`receipts
      ensures receipts == if id in old(receipts) then old(receipts) else old(receipts)[id := r]
    {
      if id !in receipts {
        receipts := receipts[id := r];
      }
    }

    method RecordStuck(t: Task, shutdown: bool, lostLease: bool, now: Time) returns (ok: bool)
      modifies this
      ensures ok <==> Writable(old(RowOf(t.id)), t.token, now)
      ensures !ok ==> rows == old(rows) && receipts == old(receipts)
      ensures ok ==> rows == old(rows)[t.id := StuckRow(old(rows[t.id]), shutdown, lostLease, now, t.retry, t.maxRetry)]
      ensures ok ==> ReceiptOf(t.id) == StuckReceipt(old(ReceiptOf(t.id)), shutdown, lostLease, t.retry, t.maxRetry)
      ensures forall id :: id != t.id ==> ReceiptOf(id) == old(ReceiptOf(id))
    {
      var count := t.retry;
      var terminal := !shutdown && !lostLease && count >= t.maxRetry;
      if !shutdown && !lostLease && !terminal {
        count := count + 1;
      }
      var until := now + RetryDelay(count) + 5 * SECOND;
      if !Writable(RowOf(t.id), t.token, now) {
        return false;
      }
      rows := rows[t.id := rows[t.id].(retry := count, availableAt := until, leaseUntil := Some(until))];
      if terminal {
        InsertReceipt(t.id, Dead);
      }
      ok := true;
    }
  }
}

/** Workers, handlers and the clock around one task identity. Handlers run in workers that may
    crash, stall in a call, or ignore cancellation; every wait has the bound the code gives it. */
module TaskProtocol {
  import opened Common
  import opened TaskRows

  datatype Config = Config(stop: nat, payload: nat, retry: nat, maxRetry: nat)

  const CALL: Time := 5 * SECOND

  datatype Phase =
    | Admitted(deadline: Time)              // claim committed, its call not yet returned
    | Body(tick: Time)                      // handler running, next renewal due at `tick`
    | Renewing(deadline: Time, done: bool)  // handler running, renewal call in flight
    | Grace(until: Time)                    // handler cancelled but still running
    | Stuck(deadline: Time, done: bool)     // handler still running, recordStuck call in flight
    | Closing(deadline: Time, cause: Cause) // handler returned, finish call in flight
    | Settling(terminal: bool)              // finish committed, delivery not yet settled
    | Gone

  datatype Worker = Worker(phase: Phase, retry: nat, maxRetry: nat)

  datatype State = State(now: Time, row: Option<Row>, receipt: Option<Receipt>, workers: map<Token, Worker>)

  const Start := State(0, None, None, map[])

  datatype Event =
    | Advance(to: Time)
    | Claim(token: Token, called: Time)
    | Begin(token: Token)
    | Tick(token: Token)
    | RenewCommits(token: Token)
    | RenewReturns(token: Token)
    | Cancel(token: Token)
    | GraceEnds(token: Token)
    | StuckCommits(token: Token, shutdown: bool, lostLease: bool)
    | HandlerReturns(token: Token, cause: Cause)
    | FinishCommits(token: Token, shutdown: bool)
    | RecordFailure(token: Token)
    | Exit(token: Token)

  /** A handler body is executing. */
  predicate Acting(w: Worker) {
    w.phase.Body? || w.phase.Renewing? || w.phase.Grace? || w.phase.Stuck?
  }

  /** The latest time the worker's phase can last to. */
  predicate Allows(p: Phase, t: Time) {
    match p
    case Admitted(d) => t <= d
    case Body(tick) => t <= tick
    case Renewing(d, _) => t <= d
    case Grace(u) => t <= u
    case Stuck(d, _) => t <= d
    case Closing(d, _) => t <= d
    case _ => true
  }

  function Put(s: State, token: Token, p: Phase): State
    requires token in s.workers
  {
    s.(workers := s.workers[token := s.workers[token].(phase := p)])
  }

  function Next(c: Config, s: State, e: Event): State {
    match e
    case Advance(to) =>
      if to > s.now && forall w :: w in s.workers ==> Allows(s.workers[w].phase, to) then s.(now := to) else s
    case Claim(token, called) =>
      if token in s.workers || !(called <= s.now < called + CALL)
        || !Judge(s.row, s.receipt, c.payload, s.now).Granted? then s
      else
        var row := Claimed(s.row, c.payload, s.now, token, c.stop, c.retry, c.maxRetry);
        s.(row := Some(row), workers := s.workers[token := Worker(Admitted(called + CALL), row.retry, row.maxRetry)])
    case _ => if e.token !in s.workers then s else Act(c, s, e.token, e)
  }

  function Act(c: Config, s: State, token: Token, e: Event): State
    requires token in s.workers
  {
    var w := s.workers[token];
    var p := w.phase;
    match e
    case Begin(_) => if p.Admitted? && s.now < p.deadline then Put(s, token, Body(s.now + c.stop + CALL)) else s
    case Tick(_) => if p.Body? && s.now == p.tick then Put(s, token, Renewing(s.now + CALL, false)) else s
    case RenewCommits(_) =>
      if p.Renewing? && !p.done && Writable(s.row, token, s.now)
      then Put(s, token, Renewing(p.deadline, true)).(
             row := Some(s.row.value.(leaseUntil := Some(s.now + LeaseDuration(c.stop))))) else s
    case RenewReturns(_) =>
      if p.Renewing? && p.done && s.now < p.deadline then Put(s, token, Body(p.deadline + c.stop)) else s
    case Cancel(_) => if p.Body? || p.Renewing? then Put(s, token, Grace(s.now + c.stop)) else s
    case GraceEnds(_) => if p.Grace? && s.now == p.until then Put(s, token, Stuck(s.now + CALL, false)) else s
    case StuckCommits(_, shutdown, lostLease) =>
      if p.Stuck? && !p.done && Writable(s.row, token, s.now)
      then Put(s, token, Stuck(p.deadline, true)).(
             row := Some(StuckRow(s.row.value, shutdown, lostLease, s.now, w.retry, w.maxRetry)),
              receipt := StuckReceipt(s.receipt, shutdown, lostLease, w.retry, w.maxRetry)) else s
    case HandlerReturns(_, cause) =>
      if p.Body? || p.Renewing? || p.Grace? then Put(s, token, Closing(s.now + CALL, cause)) else s
    case FinishCommits(_, shutdown) =>
      if p.Closing? && Writable(s.row, token, s.now)
      then Put(s, token, Settling(Terminal(p.cause, shutdown, w.retry, w.maxRetry)))
           .(row := Some(FinishedRow(s.row.value, p.cause, shutdown, s.now, w.retry, w.maxRetry)),
             receipt := FinishedReceipt(s.receipt, p.cause, shutdown, w.retry, w.maxRetry)) else s
    case RecordFailure(_) =>
      if p.Settling? && p.terminal && s.receipt.None? then s.(receipt := Some(Dead)) else s
    case Exit(_) => Put(s, token, Gone)
    case _ => s
  }

  function Run(c: Config, trace: seq<Event>): State {
    if trace == [] then Start else Next(c, Run(c, trace[..|trace| - 1]), trace[|trace| - 1])
  }

  // ---- the invariant ----

  /** How much of its lease a worker in this phase is sure to have left. */
  predicate Covered(c: Config, s: State, token: Token, w: Worker) {
    var p := w.phase;
    (p.Admitted? || Acting(w)) ==>
      && HeldBy(s.row, token) && s.row.value.leaseUntil.Some?
      && var lease := s.row.value.leaseUntil.value;
         match p
         case Admitted(d) => lease >= d - CALL + LeaseDuration(c.stop)
         case Body(tick) => tick + c.stop + 2 * CALL < lease
         case Renewing(d, done) =>
           && d - CALL <= s.now
           && d + c.stop + CALL < lease
           && (done ==> lease >= d - CALL + LeaseDuration(c.stop))
         case Grace(u) => u + CALL < lease
         case Stuck(d, _) => d - CALL <= s.now && d < lease
         case _ => true
  }

  predicate OnTime(s: State) {
    forall t :: t in s.workers ==> Allows(s.workers[t].phase, s.now)
  }

  predicate Leases(c: Config, s: State) {
    forall t :: t in s.workers ==> Covered(c, s, t, s.workers[t])
  }

  /** Until its own write, a holder's copy of the retry counter is the row's. */
  predicate Counters(c: Config, s: State) {
    && (forall t :: t in s.workers && HeldBy(s.row, t) && !Wrote(s.workers[t].phase) ==>
          s.row.value.retry == s.workers[t].retry)
    && (forall t :: t in s.workers && HeldBy(s.row, t) ==> s.workers[t].retry <= s.row.value.retry)
    && (forall t :: t in s.workers ==> s.workers[t].maxRetry == c.maxRetry && s.workers[t].retry <= Most(c))
    && (s.row.Some? ==>
          && s.row.value.maxRetry == c.maxRetry && s.row.value.payload == c.payload
          && s.row.value.retry <= Most(c))
  }

  predicate Wrote(p: Phase) {
    (p.Stuck? && p.done) || p.Gone?
  }

  function Most(c: Config): nat {
    if c.retry > c.maxRetry then c.retry else c.maxRetry
  }

  predicate Receipts(s: State) {
    && (s.row.Some? && s.row.value.status.Finished? ==> s.receipt.Some?)
    && (s.row.Some? && s.row.value.status.Running? ==> s.row.value.token.Some? && s.row.value.token.value in s.workers)
    && (forall t :: t in s.workers && MayStart(s.workers[t]) ==> s.receipt.None?)
    && (forall t :: t in s.workers && s.workers[t].phase.Settling? && s.workers[t].phase.terminal ==> s.receipt.Some?)
  }

  predicate MayStart(w: Worker) {
    w.phase.Admitted? || (Acting(w) && !w.phase.Stuck?)
  }

  predicate Inv(c: Config, s: State) {
    OnTime(s) && Leases(c, s) && Counters(c, s) && Receipts(s)
  }

  /** A worker whose handler runs, or is about to, has time left on the lease it holds. */
  lemma AliveIsCovered(c: Config, s: State, t: Token)
    requires c.stop >= 5 * SECOND && OnTime(s) && Leases(c, s)
    requires t in s.workers && (s.workers[t].phase.Admitted? || Acting(s.workers[t]))
    ensures Writable(s.row, t, s.now)
  {
    assert Covered(c, s, t, s.workers[t]) && Allows(s.workers[t].phase, s.now);
  }

  lemma ClaimKeeps(c: Config, s: State, e: Event)
    requires c.stop >= 5 * SECOND && Inv(c, s) && e.Claim?
    ensures Inv(c, Next(c, s, e))
  {
    if Next(c, s, e) != s {
      forall t | t in s.workers
        ensures !s.workers[t].phase.Admitted? && !Acting(s.workers[t])
      {
        if s.workers[t].phase.Admitted? || Acting(s.workers[t]) {
          AliveIsCovered(c, s, t);
        }
      }
    }
  }

  lemma AdvanceKeeps(c: Config, s: State, e: Event)
    requires Inv(c, s) && e.Advance?
    ensures Inv(c, Next(c, s, e))
  {
  }

  lemma ActKeepsLeases(c: Config, s: State, token: Token, e: Event)
    requires c.stop >= 5 * SECOND && Inv(c, s) && token in s.workers && !e.Advance? && !e.Claim?
    ensures OnTime(Act(c, s, token, e)) && Leases(c, Act(c, s, token, e))
  {
    hide Counters, Receipts, Terminal, FinishedReceipt, StuckReceipt;
    var next := Act(c, s, token, e);
    assert Covered(c, s, token, s.workers[token]) && Allows(s.workers[token].phase, s.now);
    assert Covered(c, next, token, next.workers[token]) && Allows(next.workers[token].phase, next.now);
    if next.row != s.row {
      assert HeldBy(s.row, token);
    }
    forall t | t in next.workers && t != token
      ensures Covered(c, next, t, next.workers[t]) && Allows(next.workers[t].phase, next.now)
    {
      assert Covered(c, s, t, s.workers[t]) && Allows(s.workers[t].phase, s.now);
    }
  }

  lemma ActKeepsCounters(c: Config, s: State, token: Token, e: Event)
    requires Inv(c, s) && token in s.workers && !e.Advance? && !e.Claim?
    ensures Counters(c, Act(c, s, token, e))
  {
    hide OnTime, Receipts, FinishedReceipt, StuckReceipt, LeaseDuration;
  }

  lemma ActKeepsReceipts(c: Config, s: State, token: Token, e: Event)
    requires c.stop >= 5 * SECOND && Inv(c, s) && token in s.workers && !e.Advance? && !e.Claim?
    ensures Receipts(Act(c, s, token, e))
  {
    hide Counters;
    var next := Act(c, s, token, e);
    if next.receipt != s.receipt && !e.RecordFailure? {
      forall t | t in s.workers && t != token
        ensures !MayStart(s.workers[t])
      {
        if MayStart(s.workers[t]) {
          AliveIsCovered(c, s, t);
        }
      }
    }
  }

  lemma {:induction false} Invariant(c: Config, trace: seq<Event>)
    requires c.stop >= 5 * SECOND
    ensures Inv(c, Run(c, trace))
  {
    if trace != [] {
      var s, e := Run(c, trace[..|trace| - 1]), trace[|trace| - 1];
      Invariant(c, trace[..|trace| - 1]);
      if e.Claim? {
        ClaimKeeps(c, s, e);
      } else if e.Advance? {
        AdvanceKeeps(c, s, e);
      } else if e.token in s.workers {
        hide OnTime, Leases, Counters, Receipts, Act;
        ActKeepsLeases(c, s, e.token, e);
        ActKeepsCounters(c, s, e.token, e);
        ActKeepsReceipts(c, s, e.token, e);
      }
    }
  }

  // ---- what the invariant gives ----

  predicate Exclusive(s: State) {
    forall t, u :: t in s.workers && u in s.workers && Acting(s.workers[t]) && Acting(s.workers[u]) ==> t == u
  }

  /** Two handler bodies of one task never overlap, and a running one still owns its lease. */
  lemma NoOverlap(c: Config, trace: seq<Event>)
    requires c.stop >= 5 * SECOND
    ensures Exclusive(Run(c, trace))
    ensures var s := Run(c, trace);
            forall t :: t in s.workers && Acting(s.workers[t]) ==> Writable(s.row, t, s.now)
  {
    Invariant(c, trace);
    var s := Run(c, trace);
    forall t | t in s.workers && Acting(s.workers[t])
      ensures Writable(s.row, t, s.now)
    {
      AliveIsCovered(c, s, t);
    }
  }

  lemma Snoc(c: Config, trace: seq<Event>, e: Event)
    ensures Run(c, trace + [e]) == Next(c, Run(c, trace), e)
  {
    assert (trace + [e])[..|trace|] == trace;
  }

  /** A handler admitted at the last moment that then ignores its cancellation. */
  function Stubborn(stop: nat): seq<Event> {
    [Claim(1, 0), Advance(4999), Begin(1), Advance(9999 + stop), Tick(1), Advance(14999 + stop),
     Cancel(1), Advance(14999 + 2 * stop), GraceEnds(1)]
  }

  function Successor(stop: nat): seq<Event> {
    [Advance(15000 + 3 * stop), Claim(2, 15000 + 3 * stop), Begin(2)]
  }

  lemma RunsTo(c: Config, trace: seq<Event>, e: Event, s: State, next: State)
    requires Run(c, trace) == s && Next(c, s, e) == next
    ensures Run(c, trace + [e]) == next
  {
    Snoc(c, trace, e);
  }

  function StubbornRow(c: Config): Row {
    Row(c.payload, Running, Some(1), Some(3 * (c.stop + 5000)), 0, c.retry, c.maxRetry)
  }

  function StubbornState(c: Config, now: Time, p: Phase): State {
    State(now, Some(StubbornRow(c)), None, map[1 := Worker(p, c.retry, c.maxRetry)])
  }

  lemma StubbornRuns(c: Config)
    requires 0 < c.stop
    ensures Run(c, Stubborn(c.stop)) == StubbornState(c, 14999 + 2 * c.stop, Stuck(19999 + 2 * c.stop, false))
  {
    var t, n := Stubborn(c.stop), c.stop;
    RunsTo(c, [], t[0], Start, StubbornState(c, 0, Admitted(5000)));
    RunsTo(c, [t[0]], t[1], StubbornState(c, 0, Admitted(5000)), StubbornState(c, 4999, Admitted(5000)));
    RunsTo(c, [t[0], t[1]], t[2], StubbornState(c, 4999, Admitted(5000)), StubbornState(c, 4999, Body(9999 + n)));
    var first := [t[0], t[1], t[2]];
    assert [t[0], t[1]] + [t[2]] == first;
    RunsTo(c, first, t[3], StubbornState(c, 4999, Body(9999 + n)), StubbornState(c, 9999 + n, Body(9999 + n)));
    RunsTo(c, first + [t[3]], t[4], StubbornState(c, 9999 + n, Body(9999 + n)),
           StubbornState(c, 9999 + n, Renewing(14999 + n, false)));
    StubbornEnds(c, first + [t[3]] + [t[4]]);
    assert first + [t[3]] + [t[4]] + [t[5]] + [t[6]] + [t[7]] + [t[8]] == t;
  }

  lemma StubbornGrace(c: Config)
    requires 0 < c.stop
    ensures Next(c, StubbornState(c, 14999 + c.stop, Grace(14999 + 2 * c.stop)), Advance(14999 + 2 * c.stop))
         == StubbornState(c, 14999 + 2 * c.stop, Grace(14999 + 2 * c.stop))
    ensures Next(c, StubbornState(c, 14999 + 2 * c.stop, Grace(14999 + 2 * c.stop)), GraceEnds(1))
         == StubbornState(c, 14999 + 2 * c.stop, Stuck(19999 + 2 * c.stop, false))
  {
  }

  lemma StubbornRenewal(c: Config)
    requires 0 < c.stop
    ensures Next(c, StubbornState(c, 9999 + c.stop, Renewing(14999 + c.stop, false)), Advance(14999 + c.stop))
         == StubbornState(c, 14999 + c.stop, Renewing(14999 + c.stop, false))
    ensures Next(c, StubbornState(c, 14999 + c.stop, Renewing(14999 + c.stop, false)), Cancel(1))
         == StubbornState(c, 14999 + c.stop, Grace(14999 + 2 * c.stop))
  {
  }

  lemma StubbornEnds(c: Config, sofar: seq<Event>)
    requires 0 < c.stop && Run(c, sofar) == StubbornState(c, 9999 + c.stop, Renewing(14999 + c.stop, false))
    ensures Run(c, sofar + [Advance(14999 + c.stop)] + [Cancel(1)] + [Advance(14999 + 2 * c.stop)] + [GraceEnds(1)])
         == StubbornState(c, 14999 + 2 * c.stop, Stuck(19999 + 2 * c.stop, false))
  {
    hide Run, Next, StubbornState;
    StubbornRenewal(c);
    StubbornGrace(c);
    var n := c.stop;
    var s := sofar + [Advance(14999 + n)];
    Snoc(c, sofar, Advance(14999 + n));
    Snoc(c, s, Cancel(1));
    Snoc(c, s + [Cancel(1)], Advance(14999 + 2 * n));
    Snoc(c, s + [Cancel(1)] + [Advance(14999 + 2 * n)], GraceEnds(1));
  }

  /** With a stop timeout under five seconds the lease can end first, and a second body starts. */
  lemma Overlap(c: Config)
    requires 0 < c.stop < 5 * SECOND
    ensures !Exclusive(Run(c, Stubborn(c.stop) + Successor(c.stop)))
  {
    StubbornRuns(c);
    var t, u, late := Stubborn(c.stop), Successor(c.stop), 15000 + 3 * c.stop;
    var s0 := StubbornState(c, 14999 + 2 * c.stop, Stuck(19999 + 2 * c.stop, false));
    var s1 := s0.(now := late);
    RunsTo(c, t, u[0], s0, s1);
    var s2 := Next(c, s1, u[1]);
    assert 2 in s2.workers && s2.workers[2].phase == Admitted(late + CALL) && s2.workers[1] == s1.workers[1];
    RunsTo(c, t + [u[0]], u[1], s1, s2);
    var s3 := Next(c, s2, u[2]);
    RunsTo(c, t + [u[0]] + [u[1]], u[2], s2, s3);
    assert t + [u[0]] + [u[1]] + [u[2]] == t + u;
    assert Acting(s3.workers[1]) && Acting(s3.workers[2]);
  }

  /** Five seconds is exactly the stop timeout the arithmetic needs. */
  lemma SafeExactly(c: Config)
    requires 0 < c.stop
    ensures c.stop >= 5 * SECOND <==> forall trace :: Exclusive(Run(c, trace))
  {
    if c.stop >= 5 * SECOND {
      forall trace
        ensures Exclusive(Run(c, trace))
      {
        NoOverlap(c, trace);
      }
    } else {
      Overlap(c);
    }
  }

  // ---- receipts and retry counts over a run ----

  lemma ReceiptStep(c: Config, s: State, e: Event)
    requires s.receipt.Some?
    ensures Next(c, s, e).receipt == s.receipt
  {
  }

  /** A receipt is written once; from then on nothing is claimed and no handler starts or goes on
      unless it was already being killed. */
  lemma {:induction false} ReceiptIsFinal(c: Config, trace: seq<Event>, more: seq<Event>)
    requires c.stop >= 5 * SECOND && Run(c, trace).receipt.Some?
    ensures Run(c, trace + more).receipt == Run(c, trace).receipt
    ensures var s := Run(c, trace + more);
            && (forall now :: !Judge(s.row, s.receipt, c.payload, now).Granted?)
            && (forall t :: t in s.workers ==> !MayStart(s.workers[t]))
  {
    Invariant(c, trace + more);
    if more == [] {
      assert trace + more == trace;
    } else {
      var last := |more| - 1;
      ReceiptIsFinal(c, trace, more[..last]);
      assert trace + more == (trace + more[..last]) + [more[last]];
      Snoc(c, trace + more[..last], more[last]);
      ReceiptStep(c, Run(c, trace + more[..last]), more[last]);
    }
  }

  /** The row survives every step, its counter only grows and stays within the message's limit. */
  lemma RetryStep(c: Config, trace: seq<Event>, e: Event)
    requires c.stop >= 5 * SECOND && Run(c, trace).row.Some?
    ensures var s, next := Run(c, trace), Run(c, trace + [e]);
            && next.row.Some? && s.row.value.retry <= next.row.value.retry <= Most(c)
            && next.row.value.payload == s.row.value.payload
  {
    Snoc(c, trace, e);
    Invariant(c, trace);
    Invariant(c, trace + [e]);
    hide OnTime, Leases, Receipts, FinishedReceipt, StuckReceipt, LeaseDuration;
  }

  /** A write that counts a failure of the handler: its own after it returned, or the stuck record
      after it ignored its cancellation. */
  predicate CountsFailure(s: State, e: Event) {
    match e
    case FinishCommits(t, shutdown) =>
      && t in s.workers && s.workers[t].phase.Closing? && s.workers[t].phase.cause.Failure? && !shutdown
      && Writable(s.row, t, s.now)
    case StuckCommits(t, shutdown, lostLease) =>
      && t in s.workers && s.workers[t].phase.Stuck? && !s.workers[t].phase.done && !shutdown && !lostLease
      && Writable(s.row, t, s.now)
    case _ => false
  }

  /** A failure that counts against an exhausted budget, on either path, leaves the task dead in the
      same step: its receipt is there and nothing is ever claimed again. A returned handler's row is
      finished; a stuck one's keeps its lease, and its counter, so that nobody runs beside it. */
  lemma ExhaustedIsDead(c: Config, trace: seq<Event>, e: Event, more: seq<Event>)
    requires c.stop >= 5 * SECOND && CountsFailure(Run(c, trace), e)
    requires Run(c, trace).workers[e.token].retry >= c.maxRetry
    ensures var s, next := Run(c, trace), Run(c, trace + [e]);
            && next.receipt.Some? && (s.receipt.None? ==> next.receipt == Some(Dead))
            && next.row.Some? && next.row.value.retry == s.row.value.retry
            && (if e.FinishCommits? then next.row.value.status.Finished? && next.workers[e.token].phase.Settling?
                else HeldBy(next.row, e.token) && next.row.value.leaseUntil == Some(next.row.value.availableAt)
                     && next.row.value.availableAt >= s.now + 5 * SECOND)
    ensures var later := Run(c, trace + [e] + more);
            && later.receipt == Run(c, trace + [e]).receipt
            && (forall now :: !Judge(later.row, later.receipt, c.payload, now).Granted?)
            && (Run(c, trace).receipt.None? ==>
                  forall now :: Judge(later.row, later.receipt, c.payload, now).AlreadyDead?)
  {
    Snoc(c, trace, e);
    Invariant(c, trace);
    DiesInStep(c, Run(c, trace), e);
    ReceiptIsFinal(c, trace + [e], more);
    Invariant(c, trace + [e] + more);
  }

  lemma DiesInStep(c: Config, s: State, e: Event)
    requires Inv(c, s) && CountsFailure(s, e) && s.workers[e.token].retry >= c.maxRetry
    ensures var next := Next(c, s, e);
            && next.receipt.Some? && (s.receipt.None? ==> next.receipt == Some(Dead))
            && next.row.Some? && next.row.value.retry == s.row.value.retry
            && (if e.FinishCommits? then next.row.value.status.Finished? && next.workers[e.token].phase.Settling?
                else HeldBy(next.row, e.token) && next.row.value.leaseUntil == Some(next.row.value.availableAt)
                     && next.row.value.availableAt >= s.now + 5 * SECOND)
  {
    assert Covered(c, s, e.token, s.workers[e.token]);
  }

  // ---- a healthy worker gets through ----

  /** A granted delivery runs its handler and records its success, if its calls return in time. */
  lemma HealthyTaskSucceeds(c: Config, s: State, t: Token)
    requires t !in s.workers && s.receipt.None? && Judge(s.row, s.receipt, c.payload, s.now).Granted?
    ensures var s1 := Next(c, s, Claim(t, s.now));
            var s2 := Next(c, s1, Begin(t));
            var s3 := Next(c, s2, HandlerReturns(t, Success));
            var s4 := Next(c, s3, FinishCommits(t, false));
            && Acting(s2.workers[t]) && s4.receipt == Some(Succeeded) && s4.row.Some?
            && s4.row.value.status.Finished? && s4.row.value.payload == c.payload
  {
  }

  /** A handler at work renews its lease before it runs out: the renewal that commits and returns in
      time puts it back to work with a whole lease ahead. */
  lemma RenewalCarriesOn(c: Config, s: State, t: Token)
    requires c.stop >= 5 * SECOND && Inv(c, s)
    requires t in s.workers && s.workers[t].phase.Body? && s.workers[t].phase.tick == s.now
    ensures var s1 := Next(c, s, Tick(t));
            var s2 := Next(c, s1, RenewCommits(t));
            var s3 := Next(c, s2, RenewReturns(t));
            && s3.workers[t].phase.Body? && s3.workers[t].phase.tick > s.now
            && s3.row.Some? && s3.row.value.leaseUntil == Some(s.now + LeaseDuration(c.stop))
            && Writable(s3.row, t, s3.workers[t].phase.tick)
  {
    AliveIsCovered(c, s, t);
  }

  /** A worker that dies loses nothing but time: when the lease it had is over, the next delivery of
      the task is let in, with the counter the row has. */
  lemma CrashedTaskIsTakenOver(c: Config, trace: seq<Event>, t: Token, now: Time)
    requires c.stop >= 5 * SECOND
    requires var s := Run(c, trace);
             && t in s.workers && HeldBy(s.row, t) && s.row.value.leaseUntil.Some? && s.receipt.None?
             && now >= s.row.value.leaseUntil.value
    ensures var s, next := Run(c, trace), Run(c, trace + [Exit(t)]);
            && t in next.workers && next.workers[t].phase.Gone? && next.row == s.row
            && Judge(next.row, next.receipt, c.payload, now).Granted?
  {
    Snoc(c, trace, Exit(t));
    Invariant(c, trace);
  }

  // ---- what each outcome records ----

  /** A handler's success leaves a success receipt and a finished row without a lease in one step, and
      from then on every delivery of the task, at any time, is told that it succeeded. */
  lemma SuccessIsRecorded(c: Config, trace: seq<Event>, t: Token, shutdown: bool, more: seq<Event>)
    requires var s := Run(c, trace);
             && t in s.workers && s.workers[t].phase.Closing? && s.workers[t].phase.cause.Success?
             && Writable(s.row, t, s.now) && s.receipt.None?
    requires c.stop >= 5 * SECOND
    ensures var next := Run(c, trace + [FinishCommits(t, shutdown)]);
            && next.receipt == Some(Succeeded) && next.row.Some?
            && next.row.value.status.Finished? && next.row.value.token.None? && next.row.value.leaseUntil.None?
    ensures var later := Run(c, trace + [FinishCommits(t, shutdown)] + more);
            forall now :: Judge(later.row, later.receipt, c.payload, now).AlreadySucceeded?
  {
    Snoc(c, trace, FinishCommits(t, shutdown));
    Invariant(c, trace + [FinishCommits(t, shutdown)] + more);
    ReceiptIsFinal(c, trace + [FinishCommits(t, shutdown)], more);
    RowStays(c, trace + [FinishCommits(t, shutdown)], more);
  }

  lemma {:induction false} RowStays(c: Config, trace: seq<Event>, more: seq<Event>)
    requires Run(c, trace).row.Some?
    ensures Run(c, trace + more).row.Some?
  {
    if more == [] {
      assert trace + more == trace;
    } else {
      var last := |more| - 1;
      RowStays(c, trace, more[..last]);
      assert trace + more == (trace + more[..last]) + [more[last]];
      Snoc(c, trace + more[..last], more[last]);
    }
  }

  /** The step ends a task whose budget is spent or whose error must not be retried. */
  predicate Kills(s: State, e: Event) {
    match e
    case FinishCommits(t, shutdown) =>
      && t in s.workers && s.workers[t].phase.Closing? && !shutdown && Writable(s.row, t, s.now)
      && (s.workers[t].phase.cause.SkipRetry?
          || (s.workers[t].phase.cause.Failure? && s.workers[t].retry >= s.workers[t].maxRetry))
    case StuckCommits(t, shutdown, lostLease) =>
      && t in s.workers && s.workers[t].phase.Stuck? && !s.workers[t].phase.done && !shutdown && !lostLease
      && Writable(s.row, t, s.now) && s.workers[t].retry >= s.workers[t].maxRetry
    case _ => false
  }

  predicate Succeeds(s: State, e: Event) {
    && e.FinishCommits? && e.token in s.workers && s.workers[e.token].phase.Closing?
    && s.workers[e.token].phase.cause.Success? && Writable(s.row, e.token, s.now)
  }

  predicate TerminalHasReceipt(s: State) {
    forall t :: t in s.workers && s.workers[t].phase.Settling? && s.workers[t].phase.terminal ==> s.receipt.Some?
  }

  lemma TerminalStep(c: Config, s: State, e: Event)
    requires TerminalHasReceipt(s)
    ensures TerminalHasReceipt(Next(c, s, e))
    ensures s.receipt.None? ==> (Next(c, s, e).receipt == Some(Dead) <==> Kills(s, e))
    ensures s.receipt.None? ==> (Next(c, s, e).receipt == Some(Succeeded) <==> Succeeds(s, e))
  {
    hide LeaseDuration, RetryDelay;
  }

  /** Every receipt has its reason: where it was written, the run has the step of a handler that
      succeeded, or of one that failed for good, and no receipt was there before. */
  lemma {:induction false} ReceiptHasReason(c: Config, trace: seq<Event>) returns (i: nat)
    ensures TerminalHasReceipt(Run(c, trace))
    ensures Run(c, trace).receipt.Some? ==>
              && i < |trace| && Run(c, trace[..i]).receipt.None?
              && (Run(c, trace).receipt == Some(Dead) <==> Kills(Run(c, trace[..i]), trace[i]))
              && (Run(c, trace).receipt == Some(Succeeded) <==> Succeeds(Run(c, trace[..i]), trace[i]))
    decreases trace
  {
    hide Next, Kills, Succeeds, TerminalHasReceipt;
    i := 0;
    if trace == [] {
      NoReceiptAtFirst(c);
    } else {
      var before, e := trace[..|trace| - 1], trace[|trace| - 1];
      i := ReceiptHasReason(c, before);
      TerminalStep(c, Run(c, before), e);
      if Run(c, before).receipt.Some? {
        ReceiptStep(c, Run(c, before), e);
        assert before[..i] == trace[..i];
      } else {
        i := |trace| - 1;
      }
    }
  }

  lemma NoReceiptAtFirst(c: Config)
    ensures Run(c, []).receipt.None? && TerminalHasReceipt(Run(c, []))
  {
  }

  /** A failure below the limit is counted once, writes no receipt and puts the task off: a returned
      handler's row waits its delay without a lease, a stuck one's waits five seconds longer, leased. */
  lemma FailureIsCounted(c: Config, trace: seq<Event>, e: Event)
    requires c.stop >= 5 * SECOND && CountsFailure(Run(c, trace), e)
    requires Run(c, trace).workers[e.token].retry < c.maxRetry
    ensures var s, next := Run(c, trace), Run(c, trace + [e]);
            && next.receipt == s.receipt && next.row.Some? && next.row.value.retry == s.row.value.retry + 1
            && var row := next.row.value;
               if e.FinishCommits? then
                 && row.status.Retry? && row.token.None? && row.leaseUntil.None?
                 && row.availableAt == s.now + RetryDelay(row.retry)
               else
                 && HeldBy(next.row, e.token) && row.leaseUntil == Some(row.availableAt)
                 && row.availableAt == s.now + RetryDelay(row.retry) + 5000
  {
    Snoc(c, trace, e);
    Invariant(c, trace);
    CountedInStep(c, Run(c, trace), e);
  }

  lemma CountedInStep(c: Config, s: State, e: Event)
    requires Inv(c, s) && CountsFailure(s, e) && s.workers[e.token].retry < c.maxRetry
    ensures var next := Next(c, s, e);
            && next.receipt == s.receipt && next.row.Some? && next.row.value.retry == s.row.value.retry + 1
            && var row := next.row.value;
               if e.FinishCommits? then
                 && row.status.Retry? && row.token.None? && row.leaseUntil.None?
                 && row.availableAt == s.now + RetryDelay(row.retry)
               else
                 && HeldBy(next.row, e.token) && row.leaseUntil == Some(row.availableAt)
                 && row.availableAt == s.now + RetryDelay(row.retry) + 5000
  {
    assert s.workers[e.token].maxRetry == c.maxRetry && s.row.value.retry == s.workers[e.token].retry;
    hide OnTime, Leases, Receipts, LeaseDuration, RetryDelay;
  }

  /** A shutdown costs nothing: the row keeps its counter and is free at once, and no receipt is
      written for an error. */
  lemma ShutdownIsFree(c: Config, trace: seq<Event>, t: Token)
    requires c.stop >= 5 * SECOND
    requires var s := Run(c, trace);
             && t in s.workers && s.workers[t].phase.Closing? && !s.workers[t].phase.cause.Success?
             && Writable(s.row, t, s.now) && s.receipt.None?
    ensures var s, next := Run(c, trace), Run(c, trace + [FinishCommits(t, true)]);
            && next.receipt.None? && next.row.Some? && next.row.value.retry == s.row.value.retry
            && forall now :: now >= s.now ==> Judge(next.row, next.receipt, c.payload, now).Granted?
  {
    Snoc(c, trace, FinishCommits(t, true));
    Invariant(c, trace);
  }

  /** The delays grow from one second to five minutes. */
  lemma DelaysGrow(a: int, b: int)
    requires a <= b
    ensures 1000 <= RetryDelay(a) <= RetryDelay(b) <= 300000
    ensures RetryDelay(1) == 1000 && RetryDelay(2) == 5000 && RetryDelay(3) == 30000
    ensures RetryDelay(4) == 60000 && RetryDelay(5) == 300000
  {
  }

  /** Without a receipt a delivery of the recorded payload is let in exactly when nobody has a live
      lease and no delay is running: in particular a dead worker's task is not lost. */
  lemma GrantedExactly(c: Config, trace: seq<Event>, now: Time)
    requires c.stop >= 5 * SECOND && Run(c, trace).receipt.None?
    ensures var s := Run(c, trace);
            Judge(s.row, s.receipt, c.payload, now).Granted? <==>
              || s.row.None?
              || (s.row.value.status.Running? && (s.row.value.leaseUntil.None? || s.row.value.leaseUntil.value <= now))
              || (s.row.value.status.Retry? && s.row.value.availableAt <= now)
  {
    Invariant(c, trace);
  }

  /** A holder may write exactly while its running row keeps others out. */
  lemma WritableExactly(row: Option<Row>, t: Token, payload: nat, now: Time)
    requires HeldBy(row, t) && row.value.payload == payload
    ensures Writable(row, t, now) <==> Judge(row, None, payload, now).Busy?
  {
  }

  /** What a delivery is told, whatever the rows say. */
  lemma JudgeExactly(row: Option<Row>, receipt: Option<Receipt>, payload: nat, now: Time)
    ensures var v := Judge(row, receipt, payload, now);
            if row.Some? && row.value.payload != payload then v == Conflict
            else if receipt == Some(Succeeded) then v == AlreadySucceeded
            else if receipt == Some(Dead) then v == AlreadyDead
            else if row.None? then v == Granted
            else match row.value.status
                 case Running =>
                   v == (if row.value.leaseUntil.Some? && now < row.value.leaseUntil.value then Busy else Granted)
                 case Retry => v == (if now < row.value.availableAt then Busy else Granted)
                 case Finished => v == AlreadyDead
  {
  }

  /** Another payload under the same task id never runs, whatever the rows say. */
  lemma OtherPayloadConflicts(c: Config, trace: seq<Event>, payload: nat, now: Time)
    requires c.stop >= 5 * SECOND && Run(c, trace).row.Some? && payload != c.payload
    ensures Judge(Run(c, trace).row, Run(c, trace).receipt, payload, now).Conflict?
  {
    Invariant(c, trace);
  }

  // ---- replaying a publication whose execution vanished ----

  datatype Recovery = Receipted(dead: bool) | Leave | Replay(retry: Option<nat>) | Unexplained

  /** recoverPublished over the rows it locks; `updatedAt` is the execution row's last change. */
  function Recover(row: Option<Row>, receipt: Option<Receipt>, published: Option<Time>, updatedAt: Time, now: Time,
          stale: Time): Recovery {
    if receipt.Some? then Receipted(receipt.value.Dead?)
    else
      var due := published.Some? && published.value + stale <= now;
      if row.None? then (if due then Replay(None) else Leave)
      else
        match row.value.status
        case Running =>
          var over := match row.value.leaseUntil case Some(u) => u <= now case None => updatedAt + stale <= now;
          if due && over then Replay(Some(row.value.retry)) else Leave
        case Retry => if due && row.value.availableAt + stale <= now then Replay(Some(row.value.retry)) else Leave
        case Finished => Unexplained
  }

  /** In every reachable state the scanner's error branch is dead, and a replay happens only when
      the task has no receipt, no handler runs or is about to, and the replayed message would be
      admitted with its counter kept. `now` is the scanner's clock, read at or before the commit. */
  lemma RecoveryIsSafe(c: Config, trace: seq<Event>, published: Option<Time>, updatedAt: Time, now: Time, stale: Time)
    requires c.stop >= 5 * SECOND && stale > 0
    requires now <= Run(c, trace).now
    ensures var s := Run(c, trace);
            var r := Recover(s.row, s.receipt, published, updatedAt, now, stale);
            && !r.Unexplained?
            && (r.Receipted? <==> s.receipt.Some?)
            && (r.Replay? ==>
                  && Judge(s.row, s.receipt, c.payload, s.now).Granted?
                  && (forall t :: t in s.workers ==> !s.workers[t].phase.Admitted? && !Acting(s.workers[t]))
                  && r.retry == (if s.row.None? then None else Some(s.row.value.retry)))
  {
    Invariant(c, trace);
    var s := Run(c, trace);
    var r := Recover(s.row, s.receipt, published, updatedAt, now, stale);
    if r.Replay? {
      forall t | t in s.workers
        ensures !s.workers[t].phase.Admitted? && !Acting(s.workers[t])
      {
        if s.workers[t].phase.Admitted? || Acting(s.workers[t]) {
          AliveIsCovered(c, s, t);
        }
      }
    }
  }

  /** And it finds what is lost: a publication without a receipt, older than the threshold, is replayed
      exactly when its execution never began, or its lease ran out (or was never set and the row has
      not changed for as long), or its retry has been due for as long. */
  lemma RecoveryFinds(row: Option<Row>, receipt: Option<Receipt>, published: Option<Time>, updatedAt: Time, now: Time,
          stale: Time)
    ensures var r := Recover(row, receipt, published, updatedAt, now, stale);
            && (receipt.Some? ==> r == Receipted(receipt == Some(Dead)))
            && (r.Replay? <==>
                  && receipt.None? && published.Some? && now - published.value >= stale
                  && (|| row.None?
                      || (row.value.status == Running
                          && if row.value.leaseUntil.Some? then now >= row.value.leaseUntil.value
                             else now - updatedAt >= stale)
                      || (row.value.status == Status.Retry && now - row.value.availableAt >= stale)))
            && (r.Unexplained? <==> receipt.None? && row.Some? && row.value.status == Finished)
  {
  }

  // ---- the store carries out these steps ----

  /** The rows of one task in the store are the protocol's. */
  predicate Backs(store: Store, id: string, c: Config, s: State)
    reads store
  {
    store.stop == c.stop && store.RowOf(id) == s.row && store.ReceiptOf(id) == s.receipt
  }

  method ClaimStep(store: Store, id: string, ghost c: Config, ghost s: State, t: Task, now: Time, token: Token,
          ghost called: Time)
    requires Backs(store, id, c, s)
    requires t.id == id && t.payload == c.payload && t.retry == c.retry && t.maxRetry == c.maxRetry
    requires now == s.now && token !in s.workers && called <= now < called + CALL
    modifies store
    ensures Backs(store, id, c, Next(c, s, Claim(token, called)))
  {
    var v, claimed := store.Claim(t, now, token);
  }

  method FinishStep(store: Store, id: string, ghost c: Config, ghost s: State, t: Task, cause: Cause, shutdown: bool,
          now: Time)
    requires Backs(store, id, c, s) && t.id == id && now == s.now && t.token in s.workers
    requires var w := s.workers[t.token];
             w.phase.Closing? && w.phase.cause == cause && w.retry == t.retry && w.maxRetry == t.maxRetry
    modifies store
    ensures Backs(store, id, c, Next(c, s, FinishCommits(t.token, shutdown)))
  {
    var ok := store.Finish(t, cause, shutdown, now);
  }

  method StuckStep(store: Store, id: string, ghost c: Config, ghost s: State, t: Task, shutdown: bool, lostLease: bool,
          now: Time)
    requires Backs(store, id, c, s) && t.id == id && now == s.now && t.token in s.workers
    requires var w := s.workers[t.token];
             w.phase.Stuck? && !w.phase.done && w.retry == t.retry && w.maxRetry == t.maxRetry
    modifies store
    ensures Backs(store, id, c, Next(c, s, StuckCommits(t.token, shutdown, lostLease)))
  {
    var ok := store.RecordStuck(t, shutdown, lostLease, now);
  }
}

/** Broker.handleDelivery: how one consumed message is settled. */
module DeliverySettlement {
  import opened Common
  import TaskRows

  datatype Sentinel = TaskStorage | LeaseLost | TaskBusy | TaskConflict | TaskDead | SkipRetry

  /** A handler's result: nil, or an error wrapping these sentinels. */
  datatype Outcome = Ok | Failed(errs: set<Sentinel>)

  datatype Queue = RetryAfter(delay: Time) | DeadLetter

  datatype Action =
    | Publish(queue: Queue, retry: int, confirmed: bool)
    | RecordFailure(ok: bool)
    | Ack
    | Nack

  const FIRST_DELAY: Time := SECOND

  /** The message's fate, independent of how the broker call behind it goes. */
  datatype Fate = Requeue | Done | Copy(queue: Queue, retry: int, record: bool)

  function Decide(shutdown: bool, outcome: Outcome, retry: int, maxRetry: int): Fate {
    if shutdown then Requeue
    else match outcome
      case Ok => Done
      case Failed(errs) =>
        if TaskStorage in errs || LeaseLost in errs then Requeue
        else if TaskBusy in errs then Copy(RetryAfter(FIRST_DELAY), retry, false)
        else if TaskConflict in errs || TaskDead in errs then Copy(DeadLetter, retry, false)
        else if SkipRetry in errs || retry >= maxRetry then Copy(DeadLetter, retry, true)
        else Copy(RetryAfter(TaskRows.RetryDelay(retry + 1)), retry + 1, false)
  }

  predicate Settles(a: Action) {
    a.Ack? || a.Nack?
  }

  /** What the sequence of broker calls must be for a fate, given which of them succeeded. */
  predicate Carries(log: seq<Action>, f: Fate, hasRecorder: bool) {
    match f
    case Requeue => log == [Nack]
    case Done => log == [Ack]
    case Copy(q, retry, record) =>
      if record && hasRecorder then
        log == [RecordFailure(false), Nack] || log == [RecordFailure(true), Publish(q, retry, true), Ack]
        || log == [RecordFailure(true), Publish(q, retry, false), Nack]
      else log == [Publish(q, retry, true), Ack] || log == [Publish(q, retry, false), Nack]
  }

  /** `published` and `recorded` are the outcomes of the two calls, should they be made. */
  method HandleDelivery(shutdown: bool, outcome: Outcome, retry: int, maxRetry: int, hasRecorder: bool,
          recorded: bool, published: bool)
    returns (log: seq<Action>, consumerFails: bool)
    ensures Carries(log, Decide(shutdown, outcome, retry, maxRetry), hasRecorder)
    ensures consumerFails ==> log[|log| - 1] == Nack
    ensures consumerFails <==> !shutdown && log[|log| - 1] == Nack
  {
    log, consumerFails := [], false;
    if shutdown {
      return log + [Nack], false;
    }
    if outcome.Ok? {
      return log + [Ack], false;
    }
    if TaskStorage in outcome.errs || LeaseLost in outcome.errs {
      return log + [Nack], true;
    }
    var key, count := DeadLetter, retry;
    if TaskBusy in outcome.errs {
      key := RetryAfter(FIRST_DELAY);
    } else if TaskConflict !in outcome.errs && TaskDead !in outcome.errs {
      if SkipRetry in outcome.errs || retry >= maxRetry {
        if hasRecorder {
          log := log + [RecordFailure(recorded)];
          if !recorded {
            return log + [Nack], true;
          }
        }
      } else {
        key, count := RetryAfter(TaskRows.RetryDelay(retry + 1)), retry + 1;
      }
    }
    log := log + [Publish(key, count, published)];
    if !published {
      return log + [Nack], true;
    }
    log := log + [Ack];
  }

  /** However the calls go: settled exactly once and last, and acknowledged only after success or
      after a confirmed copy whose counter did not go down. */
  lemma SettledOnce(log: seq<Action>, shutdown: bool, outcome: Outcome, retry: int, maxRetry: int, hasRecorder: bool)
    requires Carries(log, Decide(shutdown, outcome, retry, maxRetry), hasRecorder)
    ensures |log| > 0 && forall i :: 0 <= i < |log| ==> (Settles(log[i]) <==> i == |log| - 1)
    ensures log[|log| - 1].Ack? <==>
              !shutdown && (outcome.Ok? || (|log| >= 2 && log[|log| - 2].Publish? && log[|log| - 2].confirmed))
    ensures |log| >= 2 && log[|log| - 2].Publish? ==>
              && retry <= log[|log| - 2].retry <= retry + 1
              && (log[|log| - 2].retry == retry + 1 ==> retry < maxRetry && log[|log| - 2].queue.RetryAfter?)
    ensures shutdown ==> log == [Nack]
  {
  }

  /** An error that leaves the message where it is. */
  predicate Untouchable(errs: set<Sentinel>) {
    TaskStorage in errs || LeaseLost in errs
  }

  /** Where a failed delivery goes when every broker call works: back to the queue, to a delay queue
      or to the dead letters, and with which counter. A failure below the limit is tried again with
      its counter raised by one; a busy task after a second with its counter kept; only a conflict, a
      dead task, an error that forbids it or a spent limit ends at the dead letters. */
  lemma PlaceExactly(log: seq<Action>, outcome: Outcome, retry: int, maxRetry: int, hasRecorder: bool)
    requires outcome.Failed? && Carries(log, Decide(false, outcome, retry, maxRetry), hasRecorder)
    requires forall i :: 0 <= i < |log| ==>
               (log[i].Publish? ==> log[i].confirmed) && (log[i].RecordFailure? ==> log[i].ok)
    ensures var errs := outcome.errs;
            var limit := SkipRetry in errs || retry >= maxRetry;
            if Untouchable(errs) then log == [Nack]
            else if TaskBusy in errs then log == [Publish(RetryAfter(1000), retry, true), Ack]
            else if TaskConflict in errs || TaskDead in errs then log == [Publish(DeadLetter, retry, true), Ack]
            else if limit then
              log == (if hasRecorder then [RecordFailure(true)] else []) + [Publish(DeadLetter, retry, true), Ack]
            else log == [Publish(RetryAfter(TaskRows.RetryDelay(retry + 1)), retry + 1, true), Ack]
  {
    assert log[0].Publish? ==> log[0].confirmed;
    assert log[0].RecordFailure? ==> log[0].ok && (|log| > 1 && log[1].Publish? ==> log[1].confirmed);
  }

  /** A message whose handler keeps failing is tried again until its counter meets the limit, and only
      then put to the dead letters: it is delivered once more than it has retries left. */
  function Deliveries(retry: int, maxRetry: int): nat
    decreases maxRetry - retry
  {
    match Decide(false, Failed({}), retry, maxRetry)
    case Copy(RetryAfter(_), next, _) => if retry < next <= maxRetry then 1 + Deliveries(next, maxRetry) else 1
    case _ => 1
  }

  lemma {:induction false} RetriesAreUsed(retry: int, maxRetry: int)
    ensures Deliveries(retry, maxRetry) == if retry < maxRetry then maxRetry - retry + 1 else 1
    decreases maxRetry - retry
  {
    if retry < maxRetry {
      RetriesAreUsed(retry + 1, maxRetry);
    }
  }

  /** Copies of the message the broker still holds. A publish that was not confirmed may or may
      not have left a copy behind. */
  datatype Delivery = Delivery(
    shutdown: bool,
    outcome: Outcome,
    retry: int,
    maxRetry: int,
    hasRecorder: bool,
    log: seq<Action>,
    stray: bool)

  predicate Legal(d: Delivery) {
    Carries(d.log, Decide(d.shutdown, d.outcome, d.retry, d.maxRetry), d.hasRecorder)
  }

  function CopiesMade(log: seq<Action>, stray: bool): nat {
    if log == [] then 0
    else
      (match log[|log| - 1]
       case Publish(_, _, confirmed) => if confirmed || stray then 1 else 0
       case Nack => 1
       case _ => 0)
      + CopiesMade(log[..|log| - 1], stray)
  }

  function Copies(start: nat, ds: seq<Delivery>): int {
    if ds == [] then start
    else Copies(start, ds[..|ds| - 1]) - 1 + CopiesMade(ds[|ds| - 1].log, ds[|ds| - 1].stray)
  }

  lemma OneFate(d: Delivery)
    requires Legal(d)
    ensures CopiesMade(d.log, d.stray) >= 1 || (!d.shutdown && d.outcome.Ok?)
  {
    var n := |d.log|;
    assert CopiesMade(d.log, d.stray) == (match d.log[n - 1]
                                          case Publish(_, _, confirmed) => if confirmed || d.stray then 1 else 0
                                          case Nack => 1
                                          case _ => 0) + CopiesMade(d.log[..n - 1], d.stray);
    if d.log[n - 1].Ack? && n >= 2 {
      assert d.log[..n - 1][n - 2] == d.log[n - 2];
    }
  }

  /** No message is lost: after any number of deliveries at least as many copies remain as there
      were, less the deliveries that ended in a recorded success; without one, all of them. */
  lemma {:induction false} NeverLost(start: nat, ds: seq<Delivery>)
    requires forall i :: 0 <= i < |ds| ==> Legal(ds[i])
    ensures Copies(start, ds) >= start - Successes(ds)
    ensures (forall i :: 0 <= i < |ds| ==> ds[i].shutdown || !ds[i].outcome.Ok?) ==> Copies(start, ds) >= start
  {
    if ds != [] {
      NeverLost(start, ds[..|ds| - 1]);
      OneFate(ds[|ds| - 1]);
    }
  }

  function Successes(ds: seq<Delivery>): nat {
    if ds == [] then 0
    else Successes(ds[..|ds| - 1]) + (if !ds[|ds| - 1].shutdown && ds[|ds| - 1].outcome.Ok? then 1 else 0)
  }
}
