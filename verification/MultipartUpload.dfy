/** One upload session, its multipart.create operation and the uploads the provider keeps for its
    key, under any number of workers that may stall or die between any two of their reads, provider
    calls and writes. */
module MultipartUpload {
  import opened Common

  /** Upload ids in the order they were initiated. */
  type UploadId = nat

  datatype SessionStatus = Initializing | Live | Completing | Uploaded | Terminal

  datatype OpState = Waiting | Running(token: Token) | Succeeded | Dead

  /** How far a worker got: it read the operation row, claimed it, read the session, learnt that the
      provider has no upload, is aborting all but the newest, knows an id, saved it. */
  datatype Worker =
    | Fetched(known: Option<UploadId>)
    | Claimed(known: Option<UploadId>)
    | Read(known: Option<UploadId>, terminal: bool, live: bool)
    | NoUpload
    | Aborting(pick: UploadId, others: set<UploadId>)
    | Found(id: UploadId)
    | Persisted(id: UploadId)
    | NothingToDo

  /** `abort` is the upload id of the session's multipart.abort operation, once one exists; `open`
      is what the provider keeps, `issued` how many ids it has handed out. */
  datatype State = State(
    session: SessionStatus,
    held: Option<UploadId>,
    op: OpState,
    saved: Option<UploadId>,
    abort: Option<UploadId>,
    open: set<UploadId>,
    issued: nat,
    workers: map<Token, Worker>)

  const Start := State(Initializing, None, Waiting, None, None, {}, 0, map[])

  /** `candid`: a listing is empty only when no upload is open; it may still leave some out.
      `fenced`: a worker calls the provider only while it holds the lease, which the code does not
      see to. */
  datatype Setting = Setting(candid: bool, fenced: bool)

  datatype Event =
    | Fetch(token: Token)
    | Claim(token: Token)
    | Release(token: Token)
    | ReadSession(token: Token)
    | UseKnown(token: Token)
    | List(token: Token, seen: set<UploadId>)
    | AbortOther(token: Token, id: UploadId)
    | Create(token: Token)
    | Persist(token: Token)
    | Finish(token: Token)
    | EndSession
    | Exhaust
    | Retire
    | StartCompleting
    | ProviderCompletes
    | StartVerifying
    | FailVerifying
    | Converge
    | ProviderAborts
    | AbortDone

  /** Enqueue keeps the first operation of its key. */
  function Enqueued(abort: Option<UploadId>, id: Option<UploadId>): Option<UploadId> {
    if abort.Some? then abort else id
  }

  predicate Holds(s: State, token: Token) {
    s.op.Running? && s.op.token == token
  }

  predicate Calls(c: Setting, s: State, token: Token) {
    c.fenced ==> Holds(s, token)
  }

  function Put(s: State, token: Token, w: Worker): State {
    s.(workers := s.workers[token := w])
  }

  function Next(c: Setting, s: State, e: Event): State {
    match e
    case Fetch(token) => if token in s.workers then s else Put(s, token, Fetched(s.saved))
    case Claim(token) =>
      if token !in s.workers || !s.workers[token].Fetched? || s.op.Succeeded? || s.op.Dead? then s
      else Put(s, token, Claimed(s.workers[token].known)).(op := Running(token))
    case Release(token) => if Holds(s, token) then s.(op := Waiting) else s
    case Exhaust => if s.op.Waiting? then s.(op := Dead) else s
    case ReadSession(token) => if token in s.workers then Work(c, s, token, e) else s
    case UseKnown(token) => if token in s.workers then Work(c, s, token, e) else s
    case List(token, _) => if token in s.workers then Work(c, s, token, e) else s
    case AbortOther(token, _) => if token in s.workers then Work(c, s, token, e) else s
    case Create(token) => if token in s.workers then Work(c, s, token, e) else s
    case Persist(token) => if token in s.workers then Work(c, s, token, e) else s
    case Finish(token) => if token in s.workers then Work(c, s, token, e) else s
    case _ => SessionStep(s, e)
  }

  /** The session's own transactions and what they have the provider do. */
  function SessionStep(s: State, e: Event): State {
    match e
    case EndSession =>
      if s.session.Initializing? || s.session.Live? then s.(session := Terminal, abort := Enqueued(s.abort, s.held))
        else s
    case Retire =>
      if s.session.Initializing? && s.op.Dead? then s.(session := Terminal, abort := Enqueued(s.abort, s.saved))
      else if s.session.Completing? then s.(session := Terminal, abort := Enqueued(s.abort, s.held))
      else s
    case StartCompleting => if s.session.Live? then s.(session := Completing) else s
    case ProviderCompletes =>
      if s.session.Completing? && s.held.Some? then s.(open := s.open - {s.held.value}) else s
    case StartVerifying => if s.session.Completing? then s.(session := Uploaded) else s
    case FailVerifying => if s.session.Uploaded? then s.(session := Terminal) else s
    case Converge =>
      if s.op.Succeeded? && s.session.Initializing? && s.saved.Some? then s.(session := Live, held := s.saved) else s
    case ProviderAborts => if s.abort.Some? then s.(open := s.open - {s.abort.value}) else s
    case AbortDone => if s.abort.Some? then s.(held := None) else s
    case _ => s
  }

  function Newest(ids: set<UploadId>): (id: UploadId)
    requires ids != {}
    ensures id in ids && forall j :: j in ids ==> j <= id
  {
    NewestExists(ids);
    var id :| id in ids && forall j :: j in ids ==> j <= id;
    id
  }

  lemma {:induction false} NewestExists(ids: set<UploadId>)
    requires ids != {}
    ensures exists id :: id in ids && forall j :: j in ids ==> j <= id
  {
    var one :| one in ids;
    var rest := ids - {one};
    if rest == {} {
      assert ids == {one} + rest;
      assert one in ids && forall j :: j in ids ==> j <= one;
    } else {
      NewestExists(rest);
      var top :| top in rest && forall j :: j in rest ==> j <= top;
      var id := if top < one then one else top;
      assert forall j :: j in ids ==> j == one || j in rest;
      assert id in ids && forall j :: j in ids ==> j <= id;
    }
  }

  /** What recoverExistingMultipartUpload makes of a listing. */
  function AfterListing(terminal: bool, seen: set<UploadId>): Worker {
    if seen == {} then (if terminal then NothingToDo else NoUpload)
    else
      var others := seen - {Newest(seen)};
      if others == {} then Found(Newest(seen)) else Aborting(Newest(seen), others)
  }

  /** One step of reconcileMultipartCreate. */
  function Work(c: Setting, s: State, token: Token, e: Event): State
    requires token in s.workers
  {
    var w := s.workers[token];
    match e
    case ReadSession(_) =>
      if w.Claimed?
      then Put(s, token, Read(w.known, s.session.Terminal?, !s.session.Terminal? && !s.session.Initializing?)) else s
    case UseKnown(_) => if w.Read? && !w.live && w.known.Some? then Put(s, token, Found(w.known.value)) else s
    case List(_, seen) =>
      if !w.Read? || w.live || w.known.Some? || !Calls(c, s, token) || !(seen <= s.open)
         || (c.candid && seen == {} && s.open != {})
      then s else Put(s, token, AfterListing(w.terminal, seen))
    case AbortOther(_, id) =>
      if !w.Aborting? || id !in w.others || !Calls(c, s, token) then s
      else
        var left := w.others - {id};
        Put(s, token, if left == {} then Found(w.pick) else Aborting(w.pick, left)).(open := s.open - {id})
    case Create(_) =>
      if w.NoUpload? && Calls(c, s, token)
      then Put(s, token, Found(s.issued)).(open := s.open + {s.issued}, issued := s.issued + 1) else s
    case Persist(_) =>
      if w.Found? && ((Holds(s, token) && s.saved.None?) || s.saved == Some(w.id))
      then Put(s, token, Persisted(w.id)).(saved := Some(w.id)) else s
    case Finish(_) =>
      if !Holds(s, token) then s
      else if w.NothingToDo? || (w.Read? && w.live) then s.(op := Succeeded)
      else if !w.Persisted? then s
      else if s.session.Initializing? then s.(session := Live, held := Some(w.id), op := Succeeded)
      else if s.session.Terminal? then s.(abort := Enqueued(s.abort, Some(w.id)), op := Succeeded)
      else s.(op := Succeeded)
    case _ => s
  }

  function From(c: Setting, s: State, trace: seq<Event>): State
    decreases |trace|
  {
    if trace == [] then s else From(c, Next(c, s, trace[0]), trace[1..])
  }

  function Run(c: Setting, trace: seq<Event>): State {
    From(c, Start, trace)
  }

  // ---- no upload the operation recorded is forgotten ----

  /** The id a succeeded multipart.create recorded is held by the session or named by an abort
      operation; if it recorded none, the session had ended. */
  predicate Accounted(s: State) {
    s.op.Succeeded? ==>
      if s.saved.Some? then s.held == s.saved || s.abort == s.saved
      else s.session.Terminal?
  }

  /** The newest upload is never among those a worker discards, so as long as nothing is handed over
      some upload stays open, and a candid listing shows one. */
  predicate RowsOk(s: State) {
    && Accounted(s)
    && (!s.op.Succeeded? ==> s.held.None? && (s.session.Initializing? || s.session.Terminal?))
    && (!s.op.Succeeded? && !s.op.Dead? ==> s.abort.None?)
    && (s.held.Some? ==> s.held == s.saved)
    && (s.abort.Some? ==> s.abort == s.saved && s.session.Terminal?)
    && (!s.session.Initializing? && !s.session.Terminal? ==> s.held.Some?)
    && (s.saved.Some? ==> s.saved.value < s.issued)
    && (forall id :: id in s.open ==> id < s.issued)
    && (s.issued > 0 && s.abort.None? && s.held.None? ==> s.issued - 1 in s.open)
  }

  /** What a worker remembers of the operation row was true once, and ids are written once. */
  predicate Recalls(s: State, known: Option<UploadId>) {
    known.Some? ==> known == s.saved
  }

  predicate WorkerOk(s: State, t: Token, w: Worker) {
    match w
    case Fetched(known) => Recalls(s, known)
    case Claimed(known) => Recalls(s, known)
    case Read(known, terminal, live) =>
      Recalls(s, known) && (terminal ==> s.session.Terminal?) && (live ==> s.op.Succeeded?)
    case NoUpload => true
    case Aborting(pick, others) => pick < s.issued && forall id :: id in others ==> id < pick
    case Found(id) => id < s.issued
    case Persisted(id) => s.saved == Some(id)
    case NothingToDo => s.session.Terminal? && (Holds(s, t) ==> s.saved.None?)
  }

  predicate Inv(s: State) {
    && RowsOk(s)
    && (forall t :: t in s.workers ==> WorkerOk(s, t, s.workers[t]))
    && (s.op.Running? ==> s.op.token in s.workers && !s.workers[s.op.token].Fetched?)
  }

  lemma WorkKeepsOwn(c: Setting, s: State, token: Token, e: Event)
    requires c.candid && Inv(s) && token in s.workers
    ensures var next := Work(c, s, token, e); RowsOk(next) && WorkerOk(next, token, next.workers[token])
  {
    assert WorkerOk(s, token, s.workers[token]);
  }

  lemma WorkKeeps(c: Setting, s: State, token: Token, e: Event)
    requires c.candid && Inv(s) && token in s.workers
    ensures Inv(Work(c, s, token, e))
  {
    WorkKeepsOwn(c, s, token, e);
    var next := Work(c, s, token, e);
    hide RowsOk, AfterListing;
    forall t | t in next.workers && t != token
      ensures WorkerOk(next, t, next.workers[t])
    {
      assert WorkerOk(s, t, s.workers[t]);
      OthersKeep(c, s, token, e, t);
    }
  }

  lemma OthersKeep(c: Setting, s: State, token: Token, e: Event, t: Token)
    requires Inv(s) && token in s.workers && t in s.workers && t != token
    ensures var next := Work(c, s, token, e); t in next.workers && WorkerOk(next, t, next.workers[t])
  {
    hide AfterListing, Accounted;
    assert WorkerOk(s, t, s.workers[t]);
  }

  lemma RowStepKeeps(c: Setting, s: State, e: Event)
    requires Inv(s) && (e.Fetch? || e.Claim? || e.Release? || e.Exhaust? || Next(c, s, e) == SessionStep(s, e))
    ensures Inv(Next(c, s, e))
  {
    hide AfterListing, Work;
    var next := Next(c, s, e);
    forall t | t in next.workers
      ensures WorkerOk(next, t, next.workers[t])
    {
      assert t in s.workers ==> WorkerOk(s, t, s.workers[t]);
    }
  }

  predicate ByWorker(e: Event) {
    e.ReadSession? || e.UseKnown? || e.List? || e.AbortOther? || e.Create? || e.Persist? || e.Finish?
  }

  lemma StepKeeps(c: Setting, s: State, e: Event)
    requires c.candid && Inv(s)
    ensures Inv(Next(c, s, e))
  {
    hide Inv, Work, SessionStep;
    if ByWorker(e) {
      if e.token in s.workers {
        WorkKeeps(c, s, e.token, e);
      }
    } else {
      RowStepKeeps(c, s, e);
    }
  }

  lemma {:induction false} InvariantFrom(c: Setting, s: State, trace: seq<Event>)
    requires c.candid && Inv(s)
    ensures Inv(From(c, s, trace))
    decreases |trace|
  {
    hide Inv, Next;
    if trace != [] {
      StepKeeps(c, s, trace[0]);
      InvariantFrom(c, Next(c, s, trace[0]), trace[1..]);
    }
  }

  // ---- single runs and their abort calls ----

  /** What a worker may see to before it aborts an upload it listed: that it holds the lease, and that
      the operation row records no upload yet. The code sees to neither. */
  datatype Care = Care(lease: bool, blank: bool)

  const Careless := Care(false, false)

  /** The step is an abort call that reaches the provider. */
  predicate Aborts(c: Setting, s: State, e: Event) {
    && e.AbortOther? && e.token in s.workers && s.workers[e.token].Aborting? && e.id in s.workers[e.token].others
    && Calls(c, s, e.token)
  }

  predicate Careful(c: Setting, d: Care, s: State, e: Event) {
    Aborts(c, s, e) ==> (d.lease ==> Holds(s, e.token)) && (d.blank ==> s.saved.None?)
  }

  /** Every abort call of the run is made with that care. */
  predicate AllCareful(c: Setting, d: Care, s: State, trace: seq<Event>)
    decreases |trace|
  {
    trace == [] || (Careful(c, d, s, trace[0]) && AllCareful(c, d, Next(c, s, trace[0]), trace[1..]))
  }

  // ---- runs that go wrong ----

  lemma {:induction false} Splits(c: Setting, d: Care, s: State, a: seq<Event>, b: seq<Event>)
    ensures From(c, s, a + b) == From(c, From(c, s, a), b)
    ensures AllCareful(c, d, s, a) && AllCareful(c, d, From(c, s, a), b) ==> AllCareful(c, d, s, a + b)
    decreases |a|
  {
    hide Next, Careful;
    if a == [] {
      assert a + b == b;
    } else {
      assert (a + b)[1..] == a[1..] + b;
      Splits(c, d, Next(c, s, a[0]), a[1..], b);
    }
  }

  lemma ThreeSteps(c: Setting, d: Care, s: State, x: Event, y: Event, z: Event)
    ensures From(c, s, [x, y, z]) == Next(c, Next(c, Next(c, s, x), y), z)
    ensures Careful(c, d, s, x) && Careful(c, d, Next(c, s, x), y) && Careful(c, d, Next(c, Next(c, s, x), y), z) ==>
              AllCareful(c, d, s, [x, y, z])
  {
    hide Next, Careful;
    var t := [x, y, z];
    assert t[1..] == [y, z] && [y, z][1..] == [z] && [z][1..] == [];
    var s2 := Next(c, Next(c, s, x), y);
    assert From(c, s2, [z]) == From(c, Next(c, s2, z), []);
    assert AllCareful(c, d, s2, [z]) <==> Careful(c, d, s2, z) && AllCareful(c, d, Next(c, s2, z), []);
    assert AllCareful(c, d, Next(c, s, x), [y, z]) <==> Careful(c, d, Next(c, s, x), y) && AllCareful(c, d, s2, [z]);
  }

  lemma OnlyOne(id: UploadId)
    ensures Newest({id}) == id && {id} - {Newest({id})} == {}
  {
  }

  ghost predicate Reaches(c: Setting, d: Care, s: State, next: State) {
    exists trace :: From(c, s, trace) == next && AllCareful(c, d, s, trace)
  }

  lemma Then(c: Setting, d: Care, s: State, mid: State, next: State)
    requires Reaches(c, d, s, mid) && Reaches(c, d, mid, next)
    ensures Reaches(c, d, s, next)
  {
    var a :| From(c, s, a) == mid && AllCareful(c, d, s, a);
    var b :| From(c, mid, b) == next && AllCareful(c, d, mid, b);
    Splits(c, d, s, a, b);
  }

  lemma Goes(c: Setting, d: Care, s: State, mid: State, x: Event, y: Event, z: Event, next: State)
    requires Reaches(c, d, s, mid) && Next(c, Next(c, Next(c, mid, x), y), z) == next
    requires Careful(c, d, mid, x) && Careful(c, d, Next(c, mid, x), y) && Careful(c, d, Next(c, Next(c, mid, x), y), z)
    ensures Reaches(c, d, s, next)
  {
    hide Next, Careful;
    ThreeSteps(c, d, mid, x, y, z);
    assert Reaches(c, d, mid, next);
    Then(c, d, s, mid, next);
  }

  lemma Here(c: Setting, d: Care, s: State)
    ensures Reaches(c, d, s, s)
  {
    assert From(c, s, []) == s && AllCareful(c, d, s, []);
  }

  /** A worker that claims, reads the session, lists nothing and creates an upload. */
  lemma Opens(c: Setting, d: Care, from: State, s: State, t: Token, next: State)
    requires Reaches(c, d, from, s)
    requires t in s.workers && s.workers[t] == Fetched(None) && !s.op.Succeeded? && !s.op.Dead?
    requires s.session.Initializing? && (c.candid ==> s.open == {})
    requires next == s.(op := Running(t), open := s.open + {s.issued}, issued := s.issued + 1,
                        workers := s.workers[t := Found(s.issued)])
    ensures Reaches(c, d, from, next)
  {
    hide From, AllCareful, Reaches;
    var read := s.(op := Running(t), workers := s.workers[t := NoUpload]);
    Goes(c, d, from, s, Claim(t), ReadSession(t), List(t, {}), read);
    Goes(c, d, from, read, Create(t), Create(t), Create(t), next);
  }

  /** Three workers have read the fresh operation row. */
  function Fresh(): State {
    Start.(workers := map[1 := Fetched(None), 2 := Fetched(None), 3 := Fetched(None)])
  }

  lemma ReachesFresh(c: Setting, d: Care)
    ensures Reaches(c, d, Start, Fresh())
  {
    Here(c, d, Start);
    Goes(c, d, Start, Start, Fetch(1), Fetch(2), Fetch(3), Fresh());
  }

  /** Worker 1 created upload 0 and saved it; its lease is over. */
  function Saved(): State {
    State(Initializing, None, Waiting, Some(0), None, {0}, 1, Fresh().workers[1 := Persisted(0)])
  }

  lemma ReachesSaved(c: Setting, d: Care)
    ensures Reaches(c, d, Start, Saved())
  {
    hide From, AllCareful, Reaches, AfterListing;
    var created := State(Initializing, None, Running(1), None, None, {0}, 1, Fresh().workers[1 := Found(0)]);
    ReachesFresh(c, d);
    Opens(c, d, Start, Fresh(), 1, created);
    Goes(c, d, Start, created, Persist(1), Release(1), Release(1), Saved());
  }

  /** Worker 2 read the operation row before worker 1 saved the upload's id, and claims it only when
      the session has ended. */
  function Late(): State {
    Saved().(session := Terminal, op := Running(2), workers := Saved().workers[2 := Read(None, true, false)])
  }

  lemma ReachesLate(c: Setting, d: Care)
    ensures Reaches(c, d, Start, Late())
  {
    hide From, AllCareful, Reaches, AfterListing;
    ReachesSaved(c, d);
    Goes(c, d, Start, Saved(), EndSession, Claim(2), ReadSession(2), Late());
  }

  /** A listing that misses the upload then has it close the operation with nothing to do. */
  lemma ListingMisses(c: Setting) returns (bad: State)
    requires !c.candid
    ensures Reaches(c, Careless, Start, bad) && !Accounted(bad)
  {
    hide From, AllCareful, Reaches;
    bad := Late().(op := Succeeded, workers := Late().workers[2 := NothingToDo]);
    ReachesLate(c, Careless);
    Goes(c, Careless, Start, Late(), List(2, {}), Finish(2), Finish(2), bad);
  }

  /** Whatever the interleaving of reads, claims, provider calls and crashes, the recorded upload is
      accounted for exactly when a listing is never empty while an upload is open. */
  lemma UploadIdIsAccountedFor(c: Setting)
    ensures c.candid <==> forall trace :: Accounted(Run(c, trace))
  {
    if c.candid {
      forall trace
        ensures Accounted(Run(c, trace))
      {
        InvariantFrom(c, Start, trace);
      }
    } else {
      var bad := ListingMisses(c);
      var trace :| From(c, Start, trace) == bad && AllCareful(c, Careless, Start, trace);
      assert !Accounted(Run(c, trace));
    }
  }

  // ---- the upload a live session holds ----

  /** Parts can still be sent to the upload the session holds. */
  predicate HeldIsOpen(s: State) {
    s.session.Live? && s.held.Some? ==> s.held.value in s.open
  }

  /** Under the lease there is at most one upload, and nobody has one to abort. */
  predicate Single(s: State) {
    && (forall a, b :: a in s.open && b in s.open ==> a == b)
    && (s.saved.Some? && (s.session.Initializing? || s.session.Live?) ==> s.saved.value in s.open)
    && (forall t :: t in s.workers ==> SingleFor(s, t, s.workers[t]))
  }

  predicate SingleFor(s: State, t: Token, w: Worker) {
    match w
    case NoUpload => Holds(s, t) ==> s.open == {}
    case Aborting(_, _) => false
    case Found(id) => Holds(s, t) && s.saved.None? ==> id in s.open
    case _ => true
  }

  lemma SingleWork(c: Setting, s: State, token: Token, e: Event)
    requires c.candid && c.fenced && Inv(s) && Single(s) && token in s.workers
    ensures Single(Work(c, s, token, e))
  {
    assert SingleFor(s, token, s.workers[token]) && WorkerOk(s, token, s.workers[token]);
    if e.List? && e.seen <= s.open && e.seen != {} {
      assert e.seen == {Newest(e.seen)};
      OnlyOne(Newest(e.seen));
    }
    var next := Work(c, s, token, e);
    forall t | t in next.workers && t != token
      ensures SingleFor(next, t, next.workers[t])
    {
      assert SingleFor(s, t, s.workers[t]);
    }
  }

  lemma SingleRowStep(c: Setting, s: State, e: Event)
    requires Inv(s) && Single(s) && !ByWorker(e)
    ensures Single(Next(c, s, e))
  {
    hide AfterListing, Work;
    var next := Next(c, s, e);
    forall t | t in next.workers
      ensures SingleFor(next, t, next.workers[t])
    {
      assert t in s.workers ==> SingleFor(s, t, s.workers[t]) && WorkerOk(s, t, s.workers[t]);
    }
  }

  lemma {:induction false} SingleFrom(c: Setting, s: State, trace: seq<Event>)
    requires c.candid && c.fenced && Inv(s) && Single(s)
    ensures Single(From(c, s, trace)) && Inv(From(c, s, trace))
    decreases |trace|
  {
    hide Inv, Single, Work, SessionStep;
    if trace != [] {
      var e := trace[0];
      StepKeeps(c, s, e);
      if !ByWorker(e) {
        SingleRowStep(c, s, e);
      } else if e.token in s.workers {
        SingleWork(c, s, e.token, e);
      }
      hide Next;
      SingleFrom(c, Next(c, s, e), trace[1..]);
    }
  }

  lemma NewestOfTwo()
    ensures Newest({0, 1}) == 1 && {0, 1} - {1} == {0} && {0} - {0} == {} && {0, 1} - {0} == {1}
  {
  }

  /** Worker 3 claimed and stalled, then worker 1 claimed, listed nothing and stalled. */
  function Stalled(): State {
    Fresh().(op := Running(1), workers := Fresh().workers[3 := Read(None, false, false)][1 := NoUpload])
  }

  lemma ReachesStalled(c: Setting, d: Care)
    requires !c.fenced
    ensures Reaches(c, d, Start, Stalled())
  {
    hide From, AllCareful, Reaches;
    var s := Fresh();
    var mid := s.(op := Running(1), workers := s.workers[3 := Read(None, false, false)][1 := Claimed(None)]);
    ReachesFresh(c, d);
    Goes(c, d, Start, s, Claim(3), ReadSession(3), Claim(1), mid);
    Goes(c, d, Start, mid, ReadSession(1), List(1, {}), List(1, {}), Stalled());
  }

  /** Then worker 2 created upload 0 and handed it to the session, and worker 1 created upload 1. */
  function HandedOver(): State {
    State(Live, Some(0), Succeeded, Some(0), None, {0, 1}, 2, Stalled().workers[2 := Persisted(0)][1 := Found(1)])
  }

  lemma ReachesHandedOver(c: Setting, d: Care)
    requires !c.fenced
    ensures Reaches(c, d, Start, HandedOver())
  {
    hide From, AllCareful, Reaches;
    var created := State(Initializing, None, Running(2), None, None, {0}, 1, Stalled().workers[2 := Found(0)]);
    ReachesStalled(c, d);
    Opens(c, d, Start, Stalled(), 2, created);
    assert {0} + {1} == {0, 1};
    Goes(c, d, Start, created, Persist(2), Finish(2), Create(1), HandedOver());
  }

  /** Without the lease around provider calls worker 3, stalled since its claim, now lists both and
      aborts the older one, which the live session holds. */
  lemma UnfencedAborts(c: Setting) returns (bad: State)
    requires !c.fenced
    ensures Reaches(c, Careless, Start, bad) && !HeldIsOpen(bad)
  {
    hide From, AllCareful, Reaches;
    var s := HandedOver();
    ReachesHandedOver(c, Careless);
    NewestOfTwo();
    bad := s.(open := {1}, workers := s.workers[3 := Found(1)]);
    assert Next(c, s, List(3, {0, 1})) == s.(workers := s.workers[3 := Aborting(1, {0})]);
    Goes(c, Careless, Start, s, List(3, {0, 1}), AbortOther(3, 0), AbortOther(3, 0), bad);
  }

  /** With listings that miss uploads: worker 4 knows the saved upload 0, and worker 2, which does
      not, created upload 1 beside it. */
  function Doubled(): State {
    State(Initializing, None, Running(2), Some(0), None, {0, 1}, 2,
          Saved().workers[4 := Fetched(Some(0))][2 := Found(1)])
  }

  lemma ReachesDoubled(c: Setting, d: Care)
    requires !c.candid
    ensures Reaches(c, d, Start, Doubled())
  {
    hide From, AllCareful, Reaches;
    var s := Saved().(workers := Saved().workers[4 := Fetched(Some(0))]);
    ReachesSaved(c, d);
    Goes(c, d, Start, Saved(), Fetch(4), Fetch(4), Fetch(4), s);
    assert {0} + {1} == {0, 1};
    Opens(c, d, Start, s, 2, Doubled());
  }

  /** Worker 3, which knows nothing either, lists both and aborts the saved one. */
  function Lost(): State {
    var s := Doubled();
    s.(op := Running(3), open := {1}, workers := s.workers[3 := Found(1)])
  }

  lemma ReachesLost(c: Setting)
    requires !c.candid
    ensures Reaches(c, Careless, Start, Lost())
  {
    hide From, AllCareful, Reaches;
    var s := Doubled();
    var listed := s.(op := Running(3), workers := s.workers[3 := Aborting(1, {0})]);
    ReachesDoubled(c, Careless);
    NewestOfTwo();
    Goes(c, Careless, Start, s, Claim(3), ReadSession(3), List(3, {0, 1}), listed);
    Goes(c, Careless, Start, listed, AbortOther(3, 0), AbortOther(3, 0), AbortOther(3, 0), Lost());
  }

  /** The lease does not help here: the session goes live with an upload that is gone. */
  lemma MissingAborts(c: Setting) returns (bad: State)
    requires !c.candid
    ensures Reaches(c, Careless, Start, bad) && !HeldIsOpen(bad)
  {
    hide From, AllCareful, Reaches;
    var s := Lost();
    var known := s.(op := Running(4), workers := s.workers[4 := Found(0)]);
    bad := known.(session := Live, held := Some(0), op := Succeeded, workers := known.workers[4 := Persisted(0)]);
    ReachesLost(c);
    Goes(c, Careless, Start, s, Claim(4), ReadSession(4), UseKnown(4), known);
    Goes(c, Careless, Start, known, Persist(4), Finish(4), Finish(4), bad);
  }

  /** The upload a live session holds is open in every run exactly when no listing is
      empty while an upload is open and workers call the provider only under the lease. The first is
      the provider's to keep; the second the code does not see to. */
  lemma LiveUploadIsOpenExactly(c: Setting)
    ensures c.candid && c.fenced <==> forall trace :: HeldIsOpen(Run(c, trace))
  {
    if c.candid && c.fenced {
      forall trace
        ensures HeldIsOpen(Run(c, trace))
      {
        SingleFrom(c, Start, trace);
      }
    } else {
      var bad;
      if c.fenced {
        bad := MissingAborts(c);
      } else {
        bad := UnfencedAborts(c);
      }
      var trace :| From(c, Start, trace) == bad && AllCareful(c, Careless, Start, trace);
      assert !HeldIsOpen(Run(c, trace));
    }
  }

  // ---- an upload gets through ----

  /** A worker nobody disturbs creates an upload, records it and hands it to the session. */
  lemma UploadIsHandedOver(c: Setting) returns (trace: seq<Event>)
    ensures var s := Run(c, trace);
            && s.session.Live? && s.held == Some(0) && s.saved == Some(0) && s.op.Succeeded?
            && s.open == {0} && s.abort.None?
  {
    hide From, AllCareful, Reaches;
    var s := Start.(workers := map[1 := Fetched(None)]);
    var made := s.(op := Running(1), open := {0}, issued := 1, workers := map[1 := Found(0)]);
    var live := State(Live, Some(0), Succeeded, Some(0), None, {0}, 1, map[1 := Persisted(0)]);
    Here(c, Careless, Start);
    Goes(c, Careless, Start, Start, Fetch(1), Fetch(1), Fetch(1), s);
    Opens(c, Careless, Start, s, 1, made);
    Goes(c, Careless, Start, made, Persist(1), Finish(1), Finish(1), live);
    trace := Trace(c, Careless, Start, live);
  }

  lemma Trace(c: Setting, d: Care, s: State, next: State) returns (trace: seq<Event>)
    requires Reaches(c, d, s, next)
    ensures From(c, s, trace) == next
  {
    trace :| From(c, s, trace) == next && AllCareful(c, d, s, trace);
  }

  /** A session that is aborted or expires while it holds an upload has the provider drop it, and a
      session whose parts are all there completes it; then it can only be verified or fail. */
  lemma SessionsEnd(c: Setting, trace: seq<Event>)
    requires Run(c, trace).session.Live?
    ensures var s := Run(c, trace);
            && s.held.Some?
            && var aborted := Next(c, Next(c, Next(c, s, EndSession), ProviderAborts), AbortDone);
               && aborted.session.Terminal? && aborted.abort == s.held && aborted.held.None?
               && aborted.open == s.open - {s.held.value}
    ensures var s := Run(c, trace);
            var uploaded := Next(c, Next(c, Next(c, s, StartCompleting), ProviderCompletes), StartVerifying);
            && uploaded.session.Uploaded? && uploaded.held == s.held && uploaded.open == s.open - {s.held.value}
            && Next(c, uploaded, FailVerifying).session.Terminal? && Next(c, uploaded, EndSession) == uploaded
  {
    hide Next, From, Base;
    StartsAtBase();
    BaseFrom(c, Start, trace);
    LiveEnds(c, From(c, Start, trace));
  }

  lemma StartsAtBase()
    ensures Base(Start)
  {
  }

  lemma LiveEnds(c: Setting, s: State)
    requires Base(s) && s.session.Live?
    ensures s.held.Some?
            && var aborted := Next(c, Next(c, Next(c, s, EndSession), ProviderAborts), AbortDone);
               && aborted.session.Terminal? && aborted.abort == s.held && aborted.held.None?
               && aborted.open == s.open - {s.held.value}
    ensures var uploaded := Next(c, Next(c, Next(c, s, StartCompleting), ProviderCompletes), StartVerifying);
            && uploaded.session.Uploaded? && uploaded.held == s.held && uploaded.open == s.open - {s.held.value}
            && Next(c, uploaded, FailVerifying).session.Terminal? && Next(c, uploaded, EndSession) == uploaded
  {
    hide Work, AfterListing, WorkerBase;
  }

  /** A recorded upload no live session takes is aborted: the worker that finishes after the session
      ended leaves the abort, as does the retirement of a session whose operation is dead. */
  lemma LateUploadIsAborted(c: Setting, s: State, t: Token, id: UploadId)
    requires s.session.Terminal? && t in s.workers && s.workers[t] == Persisted(id) && Holds(s, t) && s.abort.None?
    ensures var done := Next(c, s, Finish(t));
            && done.op.Succeeded? && done.abort == Some(id) && done.session.Terminal?
            && id !in Next(c, done, ProviderAborts).open
  {
  }

  lemma DeadOperationsEnd(c: Setting, s: State)
    requires s.session.Initializing? && s.op.Waiting? && s.abort.None?
    ensures var ended := Next(c, Next(c, s, Exhaust), Retire);
            && ended.op.Dead? && ended.session.Terminal? && ended.abort == s.saved
            && (s.saved.Some? ==> s.saved.value !in Next(c, ended, ProviderAborts).open)
  {
  }

  /** A succeeded operation whose session still waits, and a session that waits for the provider too
      long, are settled by the scanners. */
  lemma ScannersSettle(c: Setting, s: State)
    ensures s.op.Succeeded? && s.session.Initializing? && s.saved.Some? ==>
              Next(c, s, Converge).session.Live? && Next(c, s, Converge).held == s.saved
    ensures s.session.Completing? && s.abort.None? ==>
              Next(c, s, Retire).session.Terminal? && Next(c, s, Retire).abort == s.held
  {
  }

  lemma {:induction false} BaseFrom(c: Setting, s: State, trace: seq<Event>)
    requires Base(s)
    ensures Base(From(c, s, trace))
    decreases |trace|
  {
    hide Base, Next;
    if trace != [] {
      BaseStep(c, s, trace[0]);
      BaseFrom(c, Next(c, s, trace[0]), trace[1..]);
    }
  }

  // ---- the abort calls of a single run ----

  predicate RowsBase(s: State) {
    && (s.held.Some? ==> s.held == s.saved)
    && (s.abort.Some? ==> s.session.Terminal?)
    && (s.session.Live? ==> s.op.Succeeded? && s.held.Some?)
    && (s.saved.Some? ==> s.saved.value < s.issued)
    && (forall id :: id in s.open ==> id < s.issued)
  }

  predicate WorkerBase(s: State, w: Worker) {
    match w
    case Fetched(known) => Recalls(s, known)
    case Claimed(known) => Recalls(s, known)
    case Read(known, _, _) => Recalls(s, known)
    case Aborting(pick, others) => pick < s.issued && forall id :: id in others ==> id < s.issued
    case Found(id) => id < s.issued
    case Persisted(id) => s.saved == Some(id)
    case _ => true
  }

  /** What holds in every run, whatever the listings leave out and whoever calls the provider. */
  predicate Base(s: State) {
    RowsBase(s) && forall t :: t in s.workers ==> WorkerBase(s, s.workers[t])
  }

  lemma BaseByWorker(c: Setting, s: State, token: Token, e: Event)
    requires Base(s) && token in s.workers
    ensures var next := Work(c, s, token, e); RowsBase(next) && WorkerBase(next, next.workers[token])
  {
    assert WorkerBase(s, s.workers[token]);
  }

  lemma BaseOfOthers(c: Setting, s: State, token: Token, e: Event, t: Token)
    requires Base(s) && token in s.workers && t in s.workers && t != token
    ensures var next := Work(c, s, token, e); t in next.workers && WorkerBase(next, next.workers[t])
  {
    hide AfterListing;
    assert WorkerBase(s, s.workers[t]) && WorkerBase(s, s.workers[token]);
  }

  lemma WorkersAreKept(c: Setting, s: State, token: Token, e: Event)
    requires token in s.workers
    ensures Work(c, s, token, e).workers.Keys == s.workers.Keys
  {
    hide AfterListing;
  }

  lemma BaseRowStep(c: Setting, s: State, e: Event)
    requires Base(s) && !ByWorker(e)
    ensures Base(Next(c, s, e))
  {
    hide AfterListing, Work;
    var next := Next(c, s, e);
    forall t | t in next.workers
      ensures WorkerBase(next, next.workers[t])
    {
      assert t in s.workers ==> WorkerBase(s, s.workers[t]);
    }
  }

  lemma BaseStep(c: Setting, s: State, e: Event)
    requires Base(s)
    ensures Base(Next(c, s, e))
  {
    hide Work, SessionStep, RowsBase, WorkerBase;
    if !ByWorker(e) {
      BaseRowStep(c, s, e);
    } else if e.token in s.workers {
      var next := Next(c, s, e);
      BaseByWorker(c, s, e.token, e);
      WorkersAreKept(c, s, e.token, e);
      forall t | t in next.workers && t != e.token
        ensures WorkerBase(next, next.workers[t])
      {
        BaseOfOthers(c, s, e.token, e, t);
      }
    }
  }

  predicate Growing(s: State) {
    s.session.Initializing? || s.session.Live?
  }

  /** Before the session completes or ends, the recorded upload is open, and so is the one a lease
      holder is about to record. */
  predicate Guarded(s: State) {
    Growing(s) ==>
      if s.saved.Some? then s.saved.value in s.open
      else
        s.op.Running? && s.op.token in s.workers ==>
          match s.workers[s.op.token]
          case Found(id) => id in s.open
          case Aborting(pick, others) => pick in s.open && pick !in others
          case _ => true
  }

  lemma GuardedStep(c: Setting, s: State, e: Event)
    requires Base(s) && Guarded(s) && Careful(c, Care(true, true), s, e)
    ensures Guarded(Next(c, s, e))
  {
    if ByWorker(e) && e.token in s.workers {
      assert WorkerBase(s, s.workers[e.token]);
    }
    if e.Claim? && e.token in s.workers {
      assert WorkerBase(s, s.workers[e.token]);
    }
  }

  lemma {:induction false} GuardedFrom(c: Setting, s: State, trace: seq<Event>)
    requires Base(s) && Guarded(s) && AllCareful(c, Care(true, true), s, trace)
    ensures Base(From(c, s, trace)) && Guarded(From(c, s, trace))
    decreases |trace|
  {
    hide Base, Guarded, Careful, Next;
    if trace != [] {
      BaseStep(c, s, trace[0]);
      GuardedStep(c, s, trace[0]);
      GuardedFrom(c, Next(c, s, trace[0]), trace[1..]);
    }
  }

  /** Worker 1 stalled once it had listed nothing, and worker 2 created upload 0. */
  function Parted(): State {
    Fresh().(op := Running(2), open := {0}, issued := 1,
             workers := Fresh().workers[1 := NoUpload][2 := Found(0)])
  }

  lemma ReachesParted(c: Setting, d: Care)
    ensures Reaches(c, d, Start, Parted())
  {
    hide From, AllCareful, Reaches;
    var s := Fresh();
    var stalled := s.(op := Running(1), workers := s.workers[1 := NoUpload]);
    ReachesFresh(c, d);
    Goes(c, d, Start, s, Claim(1), ReadSession(1), List(1, {}), stalled);
    Opens(c, d, Start, stalled, 2, Parted());
  }

  /** Then worker 2 recorded it, worker 1 created upload 1 after all, and worker 3, which read the
      operation row at the beginning, has the lease. */
  function Beside(): State {
    State(Initializing, None, Running(3), Some(0), None, {0, 1}, 2,
          Parted().workers[2 := Persisted(0)][1 := Found(1)][3 := Claimed(None)])
  }

  lemma ReachesBeside(c: Setting, d: Care)
    requires !c.fenced
    ensures Reaches(c, d, Start, Beside())
  {
    hide From, AllCareful, Reaches, AfterListing;
    ReachesParted(c, d);
    assert {0} + {1} == {0, 1};
    Goes(c, d, Start, Parted(), Persist(2), Create(1), Claim(3), Beside());
  }

  /** It takes the younger upload 1 for the one to keep and aborts the recorded one. */
  function Misled(): State {
    Beside().(open := {1}, workers := Beside().workers[3 := Found(1)])
  }

  lemma ReachesMisled(c: Setting)
    requires !c.fenced
    ensures Reaches(c, Care(true, false), Start, Misled())
  {
    hide From, AllCareful, Reaches;
    var d, s := Care(true, false), Beside();
    ReachesBeside(c, d);
    NewestOfTwo();
    Goes(c, d, Start, s, ReadSession(3), List(3, {0, 1}), AbortOther(3, 0), Misled());
  }

  /** Worker 4 reads the recorded upload. */
  function Believed(): State {
    Misled().(op := Running(4), workers := Misled().workers[4 := Read(Some(0), false, false)])
  }

  lemma ReachesBelieved(c: Setting)
    requires !c.fenced
    ensures Reaches(c, Care(true, false), Start, Believed())
  {
    hide From, AllCareful, Reaches, AfterListing;
    ReachesMisled(c);
    Goes(c, Care(true, false), Start, Misled(), Fetch(4), Claim(4), ReadSession(4), Believed());
  }

  /** A lease alone does not help an abort call: worker 4 hands the recorded upload to the session. */
  lemma LeaseIsNotEnough(c: Setting) returns (bad: State)
    requires !c.fenced
    ensures Reaches(c, Care(true, false), Start, bad) && !HeldIsOpen(bad)
  {
    hide From, AllCareful, Reaches, AfterListing;
    var s := Believed();
    bad := s.(session := Live, held := Some(0), op := Succeeded, workers := s.workers[4 := Persisted(0)]);
    ReachesBelieved(c);
    Goes(c, Care(true, false), Start, s, UseKnown(4), Persist(4), Finish(4), bad);
  }

  /** Worker 3, long without the lease, aborts the upload that its holder, worker 2, has just created
      and is about to record. */
  function Overtaken(): State {
    Stalled().(op := Running(2), open := {1}, issued := 2,
               workers := Stalled().workers[2 := Found(0)][1 := Found(1)][3 := Found(1)])
  }

  lemma ReachesOvertaken(c: Setting)
    requires !c.fenced
    ensures Reaches(c, Care(false, true), Start, Overtaken())
  {
    hide From, AllCareful, Reaches;
    var d, s := Care(false, true), Stalled();
    var made := s.(op := Running(2), open := {0}, issued := 1, workers := s.workers[2 := Found(0)]);
    ReachesStalled(c, d);
    Opens(c, d, Start, s, 2, made);
    assert {0} + {1} == {0, 1};
    NewestOfTwo();
    Goes(c, d, Start, made, Create(1), List(3, {0, 1}), AbortOther(3, 0), Overtaken());
  }

  /** Nor does an operation row without an upload. */
  lemma BlankRowIsNotEnough(c: Setting) returns (bad: State)
    requires !c.fenced
    ensures Reaches(c, Care(false, true), Start, bad) && !HeldIsOpen(bad)
  {
    hide From, AllCareful, Reaches, AfterListing;
    var d, s := Care(false, true), Overtaken();
    bad := s.(session := Live, held := Some(0), saved := Some(0), op := Succeeded,
              workers := s.workers[2 := Persisted(0)]);
    ReachesOvertaken(c);
    Goes(c, d, Start, s, Persist(2), Finish(2), Finish(2), bad);
  }

  /** On the code as it is, whatever the listings leave out: the upload a live session holds is open
      in every run whose abort calls are made with care exactly when care means both, the lease and
      an operation row that records nothing yet. */
  lemma CarefulAbortsExactly(c: Setting, d: Care)
    requires !c.fenced
    ensures d.lease && d.blank <==> forall trace | AllCareful(c, d, Start, trace) :: HeldIsOpen(Run(c, trace))
  {
    if d == Care(true, true) {
      forall trace | AllCareful(c, d, Start, trace)
        ensures HeldIsOpen(Run(c, trace))
      {
        GuardedFrom(c, Start, trace);
      }
    } else {
      var bad;
      if d.lease {
        bad := LeaseIsNotEnough(c);
      } else if d.blank {
        bad := BlankRowIsNotEnough(c);
      } else {
        bad := UnfencedAborts(c);
      }
      var trace :| From(c, Start, trace) == bad && AllCareful(c, d, Start, trace);
      assert !HeldIsOpen(Run(c, trace));
    }
  }

  /** The uploads the run's own abort calls closed. */
  function AbortedIn(c: Setting, s: State, trace: seq<Event>): set<UploadId>
    decreases |trace|
  {
    if trace == [] then {}
    else (if Aborts(c, s, trace[0]) then {trace[0].id} else {}) + AbortedIn(c, Next(c, s, trace[0]), trace[1..])
  }

  predicate Closed(s: State, id: UploadId) {
    id < s.issued && id !in s.open
  }

  lemma ClosedStep(c: Setting, s: State, e: Event, id: UploadId)
    requires Base(s) && Growing(Next(c, s, e))
    ensures Growing(s)
    ensures Closed(Next(c, s, e), id) <==> Closed(s, id) || (Aborts(c, s, e) && e.id == id)
  {
    if e.AbortOther? && e.token in s.workers {
      assert WorkerBase(s, s.workers[e.token]);
    }
  }

  lemma {:induction false} ClosedByAborts(c: Setting, s: State, trace: seq<Event>, id: UploadId)
    requires Base(s) && Growing(From(c, s, trace))
    ensures Growing(s) && Base(From(c, s, trace))
    ensures Closed(From(c, s, trace), id) <==> Closed(s, id) || id in AbortedIn(c, s, trace)
    decreases |trace|
  {
    hide Base, Next, Aborts;
    if trace != [] {
      BaseStep(c, s, trace[0]);
      ClosedByAborts(c, Next(c, s, trace[0]), trace[1..], id);
      ClosedStep(c, s, trace[0], id);
    }
  }

  /** In every single run the upload a live session holds is open if and only if none of the run's
      abort calls was for it: nothing else closes an upload before its session completes or ends. */
  lemma HeldIsOpenUnlessAborted(c: Setting, trace: seq<Event>)
    ensures var s := Run(c, trace);
            HeldIsOpen(s) <==> (s.session.Live? && s.held.Some? ==> s.held.value !in AbortedIn(c, Start, trace))
  {
    var s := Run(c, trace);
    if s.session.Live? && s.held.Some? {
      ClosedByAborts(c, Start, trace, s.held.value);
    }
  }
}
