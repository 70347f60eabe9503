/** Durable object-storage work: idempotent rows, fenced leases and a retry budget. */
module StorageOps {
  import opened Common

  datatype State = Pending | Running | Succeeded | Failed | Dead

  datatype Operation = Operation(
    kind: string,
    state: State,
    attempt: nat,
    availableAt: Time,
    leaseUntil: Option<Time>,
    leaseToken: Option<Token>)

  datatype Outcome = Done | LeaseLost | Exhausted | Missing

  const MAX_ATTEMPTS: nat := 12

  function Enqueued(kind: string, now: Time): Operation {
    Operation(kind, Pending, 0, now, None, None)
  }

  predicate LeaseOver(op: Operation, now: Time) {
    op.leaseUntil == None || op.leaseUntil.value <= now
  }

  /** The row condition of stopExhausted. */
  predicate Stoppable(op: Operation, now: Time) {
    op.attempt >= MAX_ATTEMPTS && (op.state.Pending? || op.state.Failed? || (op.state.Running? && LeaseOver(op, now)))
  }

  function Stopped(op: Operation): Operation {
    op.(state := Dead, leaseUntil := None, leaseToken := None)
  }

  /** The row condition of TryStartWithToken. */
  predicate Startable(op: Operation, now: Time) {
    && op.attempt < MAX_ATTEMPTS
    && (((op.state.Pending? || op.state.Failed?) && op.availableAt <= now) || (op.state.Running? && LeaseOver(op, now)))
  }

  /** The row condition of ClaimTypes, which the code writes differently. */
  predicate Claimable(op: Operation, now: Time) {
    && op.attempt < MAX_ATTEMPTS
    && (op.state.Pending? || op.state.Failed? || op.state.Running?)
    && op.availableAt <= now
    && LeaseOver(op, now)
  }

  function Started(op: Operation, now: Time, lease: Time, token: Token): Operation {
    op.(state := Running, leaseUntil := Some(now + lease), leaseToken := Some(token), attempt := op.attempt + 1)
  }

  predicate OwnedBy(op: Operation, token: Token) {
    op.state.Running? && op.leaseToken == Some(token)
  }

  function Finished(op: Operation): Operation {
    op.(state := Succeeded, leaseUntil := None, leaseToken := None)
  }

  function Backoff(attempt: nat): Time {
    if attempt <= 1 then SECOND else if attempt == 2 then 5 * SECOND else if attempt == 3 then 30 * SECOND
    else if attempt == 4 then 60 * SECOND else 300 * SECOND
  }

  function Max(a: Time, b: Time): Time { if a < b then b else a }

  function Broken(op: Operation, now: Time, retryAfter: Time): Operation {
    op.(state := if op.attempt >= MAX_ATTEMPTS then Dead else Failed,
        availableAt := now + Max(Max(retryAfter, SECOND), Backoff(op.attempt)),
        leaseUntil := None, leaseToken := None)
  }

  function Refunded(op: Operation, now: Time): Operation {
    op.(state := Pending, attempt := if op.attempt == 0 then 0 else op.attempt - 1, availableAt := now,
        leaseUntil := None, leaseToken := None)
  }

  predicate Renewable(op: Operation, token: Token, now: Time) {
    OwnedBy(op, token) && op.leaseUntil.Some? && op.leaseUntil.value > now
  }

  function Renewed(op: Operation, now: Time, lease: Time): Operation {
    op.(leaseUntil := Some(now + lease))
  }

  /** The recovery scanner and RetireStoppedSessions stop unfinished work without a live owner. */
  predicate Retirable(op: Operation, now: Time) {
    !op.state.Succeeded? && !op.state.Dead? && !(op.state.Running? && !LeaseOver(op, now))
  }

  /** The storage_operations table, keyed by its unique idempotency key. */
  class OperationTable {
    var rows: map<string, Operation>

    constructor ()
      ensures rows == map[]
    {
      rows := map[];
    }

    method Enqueue(key: string, kind: string, now: Time) returns (op: Operation)
      modifies this
      ensures key in rows && op == rows[key]
      ensures rows == if key in old(rows) then old(rows) else old(rows)[key := Enqueued(kind, now)]
    {
      if key !in rows {
        rows := rows[key := Enqueued(kind, now)];
      }
      op := rows[key];
    }

    method TryStartWithToken(key: string, now: Time, lease: Time, token: Token) returns (started: bool)
      modifies this
      ensures started <==> key in old(rows) && Startable(old(rows[key]), now)
      ensures started ==>
        && key in rows && OwnedBy(rows[key], token)
        && rows[key].leaseUntil == Some(now + if lease <= 0 then 300000 else lease)
      ensures rows == if key !in old(rows) then old(rows)
        else if started then
          old(rows)[key := Started(old(rows[key]), now, if lease <= 0 then 300 * SECOND else lease, token)]
        else if Stoppable(old(rows[key]), now) then old(rows)[key := Stopped(old(rows[key]))]
        else old(rows)
      ensures key in old(rows) ==>
        rows[key] == Next(Next(old(rows[key]), Stop(now)),
          Claim(now, if lease <= 0 then 300 * SECOND else lease, token))
    {
      var length := lease;
      if length <= 0 {
        length := 300 * SECOND;
      }
      started := false;
      if key in rows {
        if Stoppable(rows[key], now) {
          rows := rows[key := Stopped(rows[key])];
        }
        if Startable(rows[key], now) {
          rows := rows[key := Started(rows[key], now, length, token)];
          started := true;
        }
      }
    }

    /** Leases the listed rows one by one, each under its own token, as ClaimTypes does for the
        rows its query returned (`limit`, ordering and SKIP LOCKED choose which those are). */
    method ClaimAll(keys: seq<string>, now: Time, lease: Time, tokens: seq<Token>)
      requires |tokens| == |keys|
      requires forall i, j :: 0 <= i < j < |keys| ==> keys[i] != keys[j]
      requires forall i :: 0 <= i < |keys| ==> keys[i] in rows && Claimable(rows[keys[i]], now)
      modifies this
      ensures rows.Keys == old(rows).Keys
      ensures forall i :: 0 <= i < |keys| ==>
                rows[keys[i]] == Started(old(rows)[keys[i]], now, if lease <= 0 then 60 * SECOND else lease, tokens[i])
      ensures forall k :: k in rows && k !in keys ==> rows[k] == old(rows)[k]
    {
      var length := lease;
      if length <= 0 {
        length := 60 * SECOND;
      }
      for n := 0 to |keys|
        invariant rows.Keys == old(rows).Keys
        invariant forall i :: 0 <= i < n ==> rows[keys[i]] == Started(old(rows)[keys[i]], now, length, tokens[i])
        invariant forall i :: n <= i < |keys| ==> rows[keys[i]] == old(rows)[keys[i]]
        invariant forall k :: k in rows && k !in keys ==> rows[k] == old(rows)[k]
      {
        rows := rows[keys[n] := Started(rows[keys[n]], now, length, tokens[n])];
      }
    }

    predicate Owns(key: string, token: Token)
      reads this
    {
      key in rows && OwnedBy(rows[key], token)
    }

    method MarkSucceededOwned(key: string, token: Token) returns (r: Outcome)
      modifies this
      ensures r == if key !in old(rows) then Missing
                   else if old(Owns(key, token)) || old(rows[key]).state.Succeeded? then Done else LeaseLost
      ensures rows == if old(Owns(key, token)) then old(rows)[key := Finished(old(rows[key]))] else old(rows)
      ensures key in old(rows) ==> rows[key] == Next(old(rows[key]), Succeed(token))
    {
      if Owns(key, token) {
        rows := rows[key := Finished(rows[key])];
        return Done;
      }
      if key !in rows {
        return Missing;
      }
      if rows[key].state.Succeeded? {
        return Done;
      }
      return LeaseLost;
    }

    method MarkFailedOwned(key: string, token: Token, now: Time, retryAfter: Time) returns (r: Outcome)
      modifies this
      ensures rows == if old(Owns(key, token)) then old(rows)[key := Broken(old(rows[key]), now, retryAfter)]
                else old(rows)
      ensures r == if key !in old(rows) then Missing else if !old(Owns(key, token)) then LeaseLost
                   else if rows[key].state.Dead? then Exhausted else Done
      ensures r.Exhausted? <==> old(Owns(key, token)) && old(rows[key]).attempt >= 12
      ensures old(Owns(key, token)) ==> rows[key].state == if old(rows[key]).attempt >= 12 then Dead else State.Failed
      ensures key in old(rows) ==> rows[key] == Next(old(rows[key]), Fail(now, retryAfter, token))
    {
      if !Owns(key, token) {
        return if key in rows then LeaseLost else Missing;
      }
      rows := rows[key := Broken(rows[key], now, retryAfter)];
      if rows[key].state.Dead? {
        return Exhausted;
      }
      return Done;
    }

    /** RecordError: a shutdown returns the attempt, any other error spends it. */
    method RecordError(key: string, token: Token, now: Time, shutdown: bool) returns (r: Outcome)
      modifies this
      ensures !old(Owns(key, token)) ==>
                rows == old(rows) && r == (if key in rows || shutdown then LeaseLost else Missing)
      ensures old(Owns(key, token)) ==>
        rows == old(rows)[key := if shutdown then Refunded(old(rows[key]), now)
          else Broken(old(rows[key]), now, SECOND)]
      ensures old(Owns(key, token)) ==> r == (if rows[key].state.Dead? then Exhausted else Done)
      ensures key in old(rows) ==>
        rows[key] == Next(old(rows[key]), if shutdown then Refund(now, token) else Fail(now, SECOND, token))
    {
      if shutdown {
        if !Owns(key, token) {
          return LeaseLost;
        }
        rows := rows[key := Refunded(rows[key], now)];
        return Done;
      }
      r := MarkFailedOwned(key, token, now, SECOND);
    }
  }

  /** Everything that can happen to one row, by any worker at any time. */
  datatype Event =
    | Claim(now: Time, lease: Time, token: Token)
    | Renew(now: Time, lease: Time, token: Token)
    | Succeed(token: Token)
    | Fail(now: Time, retryAfter: Time, token: Token)
    | Refund(now: Time, token: Token)
    | Stop(now: Time)
    | Retire(now: Time)

  function Next(op: Operation, e: Event): (r: Operation) {
    match e
    case Claim(now, lease, token) => if Startable(op, now) then Started(op, now, lease, token) else op
    case Renew(now, lease, token) => if Renewable(op, token, now) then Renewed(op, now, lease) else op
    case Succeed(token) => if OwnedBy(op, token) then Finished(op) else op
    case Fail(now, retryAfter, token) => if OwnedBy(op, token) then Broken(op, now, retryAfter) else op
    case Refund(now, token) => if OwnedBy(op, token) then Refunded(op, now) else op
    case Stop(now) => if Stoppable(op, now) then Stopped(op) else op
    case Retire(now) => if Retirable(op, now) then Stopped(op) else op
  }

  function Run(op: Operation, trace: seq<Event>): Operation {
    if trace == [] then op else Next(Run(op, trace[..|trace| - 1]), trace[|trace| - 1])
  }

  /** Claims that took effect minus refunds that took effect. */
  function Spent(op: Operation, trace: seq<Event>): int {
    if trace == [] then 0 else
      var before, e := Run(op, trace[..|trace| - 1]), trace[|trace| - 1];
      Spent(op, trace[..|trace| - 1])
      + (if e.Claim? && Startable(before, e.now) then 1 else 0)
      - (if e.Refund? && OwnedBy(before, e.token) then 1 else 0)
  }

  /** The token of the last claim that took effect. */
  function Holder(op: Operation, trace: seq<Event>): Option<Token> {
    if trace == [] then None else
      var before, e := Run(op, trace[..|trace| - 1]), trace[|trace| - 1];
      if e.Claim? && Startable(before, e.now) then Some(e.token) else Holder(op, trace[..|trace| - 1])
  }

  predicate Coherent(op: Operation) {
    && op.attempt <= MAX_ATTEMPTS
    && (op.state.Running? <==> op.leaseToken.Some?)
    && (op.state.Running? <==> op.leaseUntil.Some?)
    && (op.state.Running? ==> op.attempt >= 1)
  }

  /** The budget over any history: attempts are claims minus shutdown refunds, never above the
      limit, and the refund's floor at zero is never reached. */
  lemma {:induction false} Budget(kind: string, start: Time, trace: seq<Event>)
    ensures var op := Run(Enqueued(kind, start), trace);
      && Coherent(op)
      && op.attempt == Spent(Enqueued(kind, start), trace)
      && (op.leaseToken.Some? ==> op.leaseToken == Holder(Enqueued(kind, start), trace))
  {
    if trace != [] {
      Budget(kind, start, trace[..|trace| - 1]);
    }
  }

  predicate IsOutcome(e: Event) {
    e.Succeed? || e.Fail? || e.Refund?
  }

  predicate NoClaims(trace: seq<Event>) {
    forall i :: 0 <= i < |trace| ==> !trace[i].Claim?
  }

  lemma {:induction false} IdleUntilClaimed(op: Operation, trace: seq<Event>)
    requires !op.state.Running? && NoClaims(trace)
    ensures !Run(op, trace).state.Running?
  {
    if trace != [] {
      IdleUntilClaimed(op, trace[..|trace| - 1]);
    }
  }

  /** Fencing over any history: an outcome takes effect only if its token is the latest claim's,
      and from then on, whatever else happens, no outcome takes effect until a new claim. */
  lemma Fencing(kind: string, start: Time, trace: seq<Event>, e: Event, more: seq<Event>, f: Event)
    requires IsOutcome(e) && Next(Run(Enqueued(kind, start), trace), e) != Run(Enqueued(kind, start), trace)
    requires NoClaims(more) && IsOutcome(f)
    ensures Holder(Enqueued(kind, start), trace) == Some(e.token)
    ensures var later := Run(Next(Run(Enqueued(kind, start), trace), e), more);
      !later.state.Running? && Next(later, f) == later
  {
    Budget(kind, start, trace);
    IdleUntilClaimed(Next(Run(Enqueued(kind, start), trace), e), more);
  }

  /** Succeeded and dead are absorbing under every further history. */
  lemma {:induction false} Absorbing(op: Operation, trace: seq<Event>)
    requires op.state.Succeeded? || op.state.Dead?
    ensures Run(op, trace) == op
  {
    if trace != [] {
      Absorbing(op, trace[..|trace| - 1]);
    }
  }

  /** The two ways the code words "may be leased now" agree on every row that a history
      whose claims are not in the future can produce. */
  lemma {:induction false} ClaimConditionsAgree(kind: string, start: Time, trace: seq<Event>, now: Time)
    requires forall i :: 0 <= i < |trace| && trace[i].Claim? ==> trace[i].now <= now
    ensures var op := Run(Enqueued(kind, start), trace);
      (op.state.Running? ==> op.availableAt <= now) && (Claimable(op, now) <==> Startable(op, now))
  {
    Budget(kind, start, trace);
    if trace != [] {
      ClaimConditionsAgree(kind, start, trace[..|trace| - 1], now);
    }
  }

  /** The event is not an outcome of the holder itself, and if it looks at the clock it happens
      before the lease, as renewed so far, runs out. */
  predicate Meanwhile(op: Operation, token: Token, e: Event) {
    if IsOutcome(e) then e.token != token
    else op.leaseUntil.Some? && e.now < op.leaseUntil.value
  }

  predicate AllMeanwhile(op: Operation, token: Token, trace: seq<Event>) {
    forall i :: 0 <= i < |trace| ==> Meanwhile(Run(op, trace[..i]), token, trace[i])
  }

  /** A live lease keeps every other worker out: whatever they try until it runs out, the row stays
      running under its holder's token, no attempt is spent, and an outcome of the holder counts. */
  lemma {:induction false} LiveLeaseIsExclusive(op: Operation, token: Token, trace: seq<Event>)
    requires Coherent(op) && OwnedBy(op, token) && AllMeanwhile(op, token, trace)
    ensures var now := Run(op, trace);
      && OwnedBy(now, token) && now.leaseUntil.Some? && now.attempt == op.attempt
      && Next(now, Succeed(token)).state.Succeeded?
  {
    if trace != [] {
      var n := |trace| - 1;
      forall i | 0 <= i < n
        ensures Meanwhile(Run(op, trace[..n][..i]), token, trace[..n][i])
      {
        assert trace[..n][..i] == trace[..i];
        assert Meanwhile(Run(op, trace[..i]), token, trace[i]);
      }
      LiveLeaseIsExclusive(op, token, trace[..n]);
      assert Meanwhile(Run(op, trace[..n]), token, trace[n]);
    }
  }

  // ---- work is retried until twelve attempts are spent ----

  ghost predicate StartableFrom(op: Operation, since: Time) {
    forall t :: t >= since ==> Startable(op, t)
  }

  ghost predicate StoppableFrom(op: Operation, since: Time) {
    forall t :: t >= since ==> Stoppable(op, t)
  }

  /** As long as nobody retires it, a row dies only with all twelve attempts spent. */
  lemma {:induction false} DeadOnlyExhausted(kind: string, start: Time, trace: seq<Event>)
    requires forall i :: 0 <= i < |trace| ==> !trace[i].Retire?
    ensures var op := Run(Enqueued(kind, start), trace);
      op.state.Dead? ==> op.attempt == 12 && Spent(Enqueued(kind, start), trace) == 12
  {
    Budget(kind, start, trace);
    if trace != [] {
      var before, e := trace[..|trace| - 1], trace[|trace| - 1];
      DeadOnlyExhausted(kind, start, before);
      Budget(kind, start, before);
    }
  }

  /** The holder's failure before the twelfth attempt leaves the row to be leased again, not within a
      second, but always after five minutes or the pause the error asks for. */
  lemma FailureIsRetried(kind: string, start: Time, trace: seq<Event>, now: Time, retryAfter: Time, token: Token)
    requires var op := Run(Enqueued(kind, start), trace); OwnedBy(op, token) && op.attempt < 12
    ensures var op := Run(Enqueued(kind, start), trace + [Fail(now, retryAfter, token)]);
      && op.state.Failed? && op.attempt == Run(Enqueued(kind, start), trace).attempt
      && StartableFrom(op, now + Max(retryAfter, 300000))
      && (forall t :: t < now + Max(retryAfter, 1000) ==> !Startable(op, t))
  {
    assert (trace + [Fail(now, retryAfter, token)])[..|trace|] == trace;
  }

  /** The failure of the twelfth attempt is the last: the row is dead for good. */
  lemma TwelfthFailureKills(kind: string, start: Time, trace: seq<Event>, now: Time, retryAfter: Time, token: Token,
          more: seq<Event>)
    requires var op := Run(Enqueued(kind, start), trace); OwnedBy(op, token) && op.attempt == 12
    ensures Run(Run(Enqueued(kind, start), trace + [Fail(now, retryAfter, token)]), more).state.Dead?
  {
    assert (trace + [Fail(now, retryAfter, token)])[..|trace|] == trace;
    Absorbing(Run(Enqueued(kind, start), trace + [Fail(now, retryAfter, token)]), more);
  }

  /** A shutdown gives the attempt back, and the row can be leased at once. */
  lemma ShutdownIsFree(kind: string, start: Time, trace: seq<Event>, now: Time, token: Token)
    requires OwnedBy(Run(Enqueued(kind, start), trace), token)
    ensures var op := Run(Enqueued(kind, start), trace + [Refund(now, token)]);
      && op.attempt == Run(Enqueued(kind, start), trace).attempt - 1
      && StartableFrom(op, now)
  {
    Budget(kind, start, trace);
    assert (trace + [Refund(now, token)])[..|trace|] == trace;
  }

  /** Nothing is left behind: in every state a row that is neither done nor dead will, from some
      moment on, be leased to whoever asks, or be stopped if its attempts are spent. */
  lemma NothingIsLeftBehind(kind: string, start: Time, trace: seq<Event>)
    ensures var op := Run(Enqueued(kind, start), trace);
      !op.state.Succeeded? && !op.state.Dead? ==>
        if op.attempt < 12 then exists since :: StartableFrom(op, since) else exists since :: StoppableFrom(op, since)
  {
    Budget(kind, start, trace);
    var op := Run(Enqueued(kind, start), trace);
    if !op.state.Succeeded? && !op.state.Dead? {
      var since := if op.state.Running? then op.leaseUntil.value else op.availableAt;
      if op.attempt < 12 {
        assert StartableFrom(op, since);
      } else {
        assert StoppableFrom(op, since);
      }
    }
  }

  /** Its holder extends the lease from the moment it asks, and nobody else does; and only unfinished
      work that no live lease protects is retired. */
  lemma RenewAndRetireExactly(op: Operation, now: Time, lease: Time, token: Token)
    requires Coherent(op)
    ensures Next(op, Renew(now, lease, token)) ==
            if op.state == Running && op.leaseToken == Some(token) && op.leaseUntil.value > now
            then op.(leaseUntil := Some(now + lease)) else op
    ensures Next(op, Retire(now)) ==
            if || op.state == State.Pending || op.state == State.Failed
               || (op.state == Running && op.leaseUntil.value <= now)
            then op.(state := Dead, leaseUntil := None, leaseToken := None) else op
  {
  }

  /** New work can be leased at once, with all its attempts ahead. */
  lemma NewIsStartable(kind: string, now: Time, t: Time)
    ensures Startable(Enqueued(kind, now), t) <==> t >= now
    ensures Enqueued(kind, now).attempt == 0 && Enqueued(kind, now).kind == kind
  {
  }

  /** The pauses between attempts, in milliseconds. */
  lemma BackoffTable(n: nat)
    ensures Backoff(0) == 1000 && Backoff(1) == 1000 && Backoff(2) == 5000 && Backoff(3) == 30000
    ensures Backoff(4) == 60000 && Backoff(5 + n) == 300000
  {
  }

  /** A claim that finds the row startable leases it under its token for the time it asks. */
  lemma ClaimTakesLease(op: Operation, now: Time, lease: Time, token: Token)
    requires Startable(op, now) && lease > 0
    ensures var next := Next(op, Claim(now, lease, token));
      && OwnedBy(next, token) && next.attempt == op.attempt + 1 && next.kind == op.kind
      && (forall t :: now <= t < now + lease ==> Renewable(next, token, t) && !Startable(next, t))
      && !Renewable(next, token, now + lease)
      && Next(next, Succeed(token)).state.Succeeded?
  {
  }
}
