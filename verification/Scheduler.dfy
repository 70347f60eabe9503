/** Smooth weighted round robin, as arithmetic on two vectors: `e` holds the weight of each
    backlogged queue (0 for an empty queue) and `c` the running credits. */
module RoundRobin {

  function Sum(s: seq<int>): int {
    if s == [] then 0 else Sum(s[..|s| - 1]) + s[|s| - 1]
  }

  lemma {:induction false} SumUpdate(s: seq<int>, i: nat, x: int)
    requires i < |s|
    ensures Sum(s[i := x]) == Sum(s) - s[i] + x
  {
    var n := |s| - 1;
    if i == n {
      assert s[i := x][..n] == s[..n];
    } else {
      assert s[i := x][..n] == s[..n][i := x];
      SumUpdate(s[..n], i, x);
    }
  }

  lemma {:induction false} SumLinear(s: seq<int>, a: seq<int>, b: seq<int>, k: int, m: int)
    requires |s| == |a| == |b|
    requires forall i :: 0 <= i < |s| ==> s[i] == k * a[i] + m * b[i]
    ensures Sum(s) == k * Sum(a) + m * Sum(b)
  {
    if s != [] {
      var n := |s| - 1;
      SumLinear(s[..n], a[..n], b[..n], k, m);
    }
  }

  /** Entries bounded by `hi` that sum to the sum of the bounds all meet their bound. */
  lemma {:induction false} SumBound(s: seq<int>, hi: seq<int>)
    requires |s| == |hi|
    requires forall i :: 0 <= i < |s| ==> s[i] <= hi[i]
    ensures Sum(s) <= Sum(hi)
    ensures Sum(s) == Sum(hi) ==> s == hi
  {
    if s != [] {
      var n := |s| - 1;
      SumBound(s[..n], hi[..n]);
      assert s == s[..n] + [s[n]] && hi == hi[..n] + [hi[n]];
    }
  }

  predicate Weights(e: seq<int>) {
    forall i :: 0 <= i < |e| ==> e[i] >= 0
  }

  ghost predicate Runnable(e: seq<int>) {
    exists i :: 0 <= i < |e| && e[i] > 0
  }

  function Charge(e: seq<int>, c: seq<int>): (r: seq<int>)
    requires |e| == |c|
  {
    seq(|e|, i requires 0 <= i < |e| => if e[i] == 0 then 0 else c[i] + e[i])
  }

  /** What a left-to-right scan of the first `n` queues has selected: -1, or the first queue
      of greatest credit among the backlogged ones. */
  function Pick(e: seq<int>, charged: seq<int>, n: nat): (p: int)
    requires |e| == |charged| && n <= |e|
    ensures -1 <= p < n
  {
    if n == 0 then -1 else
      var p := Pick(e, charged, n - 1);
      if e[n - 1] != 0 && (p < 0 || charged[n - 1] > charged[p]) then n - 1 else p
  }

  lemma {:induction false} PickIsFirstBest(e: seq<int>, charged: seq<int>, n: nat)
    requires |e| == |charged| && n <= |e|
    ensures var p := Pick(e, charged, n);
      && (p >= 0 ==> e[p] != 0)
      && (forall j :: 0 <= j < n && e[j] != 0 ==> p >= 0 && charged[j] <= charged[p])
      && (forall j :: 0 <= j < p && e[j] != 0 ==> charged[j] < charged[p])
  {
    if n > 0 {
      PickIsFirstBest(e, charged, n - 1);
    }
  }

  function Selected(e: seq<int>, c: seq<int>): (p: int)
    requires |e| == |c|
    ensures -1 <= p < |e|
  {
    Pick(e, Charge(e, c), |e|)
  }

  /** The credits after one take. */
  function Step(e: seq<int>, c: seq<int>): (r: seq<int>)
    requires |e| == |c|
    ensures |r| == |c|
  {
    var p := Selected(e, c);
    var charged := Charge(e, c);
    if p < 0 then charged else charged[p := charged[p] - Sum(e)]
  }

  ghost predicate Balanced(e: seq<int>, c: seq<int>) {
    && |e| == |c|
    && Sum(c) == 0
    && forall i :: 0 <= i < |e| ==> c[i] > -Sum(e) && (e[i] == 0 ==> c[i] == 0)
  }

  lemma RunnableTotal(e: seq<int>)
    requires Weights(e)
    ensures Sum(e) > 0 <==> Runnable(e)
  {
    var zero := seq(|e|, _ => 0);
    SumLinear(zero, zero, zero, 0, 0);
    SumBound(zero, e);
    if e != zero {
      var i :| 0 <= i < |e| && e[i] != 0;
      assert Runnable(e);
    }
  }

  lemma SelectedIsOwed(e: seq<int>, c: seq<int>)
    requires Weights(e) && Runnable(e) && |e| == |c| && Sum(c) == 0
    requires forall i :: 0 <= i < |e| && e[i] == 0 ==> c[i] == 0
    ensures Selected(e, c) >= 0 && e[Selected(e, c)] > 0 && Charge(e, c)[Selected(e, c)] > 0
    ensures Sum(Charge(e, c)) == Sum(e) > 0
  {
    var charged, p := Charge(e, c), Selected(e, c);
    PickIsFirstBest(e, charged, |e|);
    SumLinear(charged, c, e, 1, 1);
    RunnableTotal(e);
    if charged[p] <= 0 {
      var zero := seq(|e|, _ => 0);
      SumLinear(zero, zero, zero, 0, 0);
      SumBound(charged, zero);
    }
  }

  lemma StepBalanced(e: seq<int>, c: seq<int>)
    requires Weights(e) && Runnable(e) && Balanced(e, c)
    ensures Balanced(e, Step(e, c))
  {
    var charged, p := Charge(e, c), Selected(e, c);
    SelectedIsOwed(e, c);
    SumUpdate(charged, p, charged[p] - Sum(e));
  }

  function Iterate(e: seq<int>, c: seq<int>, t: nat): (r: seq<int>)
    requires |e| == |c|
    ensures |r| == |c|
    decreases t
  {
    if t == 0 then c else Iterate(e, Step(e, c), t - 1)
  }

  /** How often queue `i` is served by `t` consecutive takes. */
  function Served(e: seq<int>, c: seq<int>, t: nat, i: nat): nat
    requires |e| == |c|
    decreases t
  {
    if t == 0 then 0 else (if Selected(e, c) == i then 1 else 0) + Served(e, Step(e, c), t - 1, i)
  }

  lemma StepCredit(e: seq<int>, c: seq<int>, i: nat)
    requires Weights(e) && Balanced(e, c) && i < |e|
    ensures Step(e, c)[i] == c[i] + e[i] - (if Selected(e, c) == i then Sum(e) else 0)
  {
  }

  /** The service owed after `t` takes to a queue of weight `a` that was served `n` times. */
  function Owed(t: nat, a: int, n: nat, w: int): int {
    t * a - n * w
  }

  lemma OwedOneMore(t: nat, a: int, n: nat, w: int)
    requires t > 0
    ensures a + Owed(t - 1, a, n, w) == Owed(t, a, n, w)
    ensures a - w + Owed(t - 1, a, n, w) == Owed(t, a, n + 1, w)
  {
    assert (t - 1) * a + a == t * a;
    assert (n + 1) * w == n * w + w;
  }

  lemma {:induction false} StaysBalanced(e: seq<int>, c: seq<int>, t: nat)
    requires Weights(e) && Runnable(e) && Balanced(e, c)
    ensures Balanced(e, Iterate(e, c, t))
    decreases t
  {
    if t > 0 {
      StepBalanced(e, c);
      StaysBalanced(e, Step(e, c), t - 1);
    }
  }

  /** Credit is exactly the service a queue is owed, scaled by the total weight. */
  lemma {:induction false} CreditIsDebt(e: seq<int>, c: seq<int>, t: nat, i: nat)
    requires Weights(e) && Runnable(e) && Balanced(e, c) && i < |e|
    ensures Iterate(e, c, t)[i] == c[i] + Owed(t, e[i], Served(e, c, t, i), Sum(e))
    decreases t
  {
    if t > 0 {
      hide Step, Selected, Sum, Owed;
      var d := Step(e, c);
      StepBalanced(e, c);
      var n := Served(e, d, t - 1, i);
      calc {
        Iterate(e, c, t)[i];
        Iterate(e, d, t - 1)[i];
        { CreditIsDebt(e, d, t - 1, i); }
        d[i] + Owed(t - 1, e[i], n, Sum(e));
        { StepCredit(e, c, i); }
        c[i] + e[i] - (if Selected(e, c) == i then Sum(e) else 0) + Owed(t - 1, e[i], n, Sum(e));
        { OwedOneMore(t, e[i], n, Sum(e)); }
        c[i] + Owed(t, e[i], Served(e, c, t, i), Sum(e));
      }
    }
  }

  lemma {:induction false} IterateAdds(e: seq<int>, c: seq<int>, s: nat, t: nat)
    requires |e| == |c|
    ensures Iterate(e, c, s + t) == Iterate(e, Iterate(e, c, s), t)
    decreases s
  {
    if s > 0 {
      assert s + t - 1 == (s - 1) + t;
      IterateAdds(e, Step(e, c), s - 1, t);
    }
  }

  lemma Cancel(w: int, x: int)
    requires w > 0
    ensures w * x > -w ==> x >= 0
    ensures w * x == 0 ==> x == 0
  {
    if x < 0 {
      assert w * x <= w * -1;
    } else if x > 0 {
      assert w * x >= w;
    }
  }

  lemma RoundDebt(e: seq<int>, c: seq<int>, i: nat)
    requires Weights(e) && Runnable(e) && Balanced(e, c) && i < |e|
    requires c[i] == 0
    ensures Served(e, c, Sum(e), i) <= e[i]
    ensures Iterate(e, c, Sum(e))[i] == Sum(e) * e[i] + (-Sum(e)) * Served(e, c, Sum(e), i)
  {
    var w, n := Sum(e), Served(e, c, Sum(e), i);
    RunnableTotal(e);
    StaysBalanced(e, c, w);
    CreditIsDebt(e, c, w, i);
    ScaledDebt(w, e[i], n);
    Cancel(w, e[i] - n);
  }

  /** Counts bounded by the weights, whose debts sum to zero, are the weights. */
  lemma NoDebtLeft(e: seq<int>, n: seq<int>, end: seq<int>, w: int)
    requires |e| == |n| == |end| && w == Sum(e) > 0 && Sum(end) == 0
    requires forall i :: 0 <= i < |e| ==> n[i] <= e[i] && end[i] == w * e[i] + (-w) * n[i]
    ensures n == e
  {
    SumLinear(end, e, n, w, -w);
    ScaledDebt(w, w, Sum(n));
    Cancel(w, w - Sum(n));
    SumBound(n, e);
  }

  /** From zero credit, one full round serves every queue exactly its weight. */
  lemma RoundServes(e: seq<int>, c: seq<int>)
    requires Weights(e) && Runnable(e) && Balanced(e, c) && Sum(e) > 0
    requires forall i :: 0 <= i < |c| ==> c[i] == 0
    ensures forall i :: 0 <= i < |e| ==> Served(e, c, Sum(e), i) == e[i]
  {
    hide Iterate, Served, Sum;
    var w := Sum(e);
    var n := seq(|e|, i requires 0 <= i < |e| => Served(e, c, w, i));
    forall i | 0 <= i < |e|
      ensures n[i] <= e[i] && Iterate(e, c, w)[i] == w * e[i] + (-w) * n[i]
    {
      RoundDebt(e, c, i);
    }
    StaysBalanced(e, c, w);
    NoDebtLeft(e, n, Iterate(e, c, w), w);
    assert forall i :: 0 <= i < |e| ==> n[i] == Served(e, c, w, i);
  }

  /** ... and so clears every credit. */
  lemma RoundClears(e: seq<int>, c: seq<int>)
    requires Weights(e) && Runnable(e)
    requires |c| == |e| && forall i :: 0 <= i < |c| ==> c[i] == 0
    ensures Sum(e) > 0 && Iterate(e, c, Sum(e)) == c
  {
    hide Iterate, Served;
    SumLinear(c, c, c, 0, 0);
    RunnableTotal(e);
    var w := Sum(e);
    RoundServes(e, c);
    forall i | 0 <= i < |e|
      ensures Iterate(e, c, w)[i] == c[i]
    {
      RoundDebt(e, c, i);
      ScaledDebt(w, e[i], e[i]);
    }
  }

  lemma ScaledDebt(w: int, a: int, b: int)
    ensures w * (a - b) == w * a + (-w) * b == w * a - b * w
  {
  }

  /** The fairness theorem: after any number `s` of takes from zero credit, credits sum to
      zero, no queue is a full round ahead, and the next round serves each exactly its weight. */
  lemma Fairness(e: seq<int>, c: seq<int>, s: nat, i: nat)
    requires Weights(e) && Runnable(e) && i < |e|
    requires |c| == |e| && forall k :: 0 <= k < |c| ==> c[k] == 0
    ensures Balanced(e, Iterate(e, c, s))
    ensures Served(e, c, s, i) * Sum(e) < s * e[i] + Sum(e)
    ensures Sum(e) > 0 && Served(e, Iterate(e, c, s), Sum(e), i) == e[i]
  {
    SumLinear(c, c, c, 0, 0);
    RoundClears(e, c);
    var w, mid := Sum(e), Iterate(e, c, s);
    StaysBalanced(e, c, s);
    CreditIsDebt(e, c, s, i);
    assert Iterate(e, mid, w) == mid by {
      IterateAdds(e, c, w, s);
      IterateAdds(e, c, s, w);
      assert w + s == s + w;
    }
    CreditIsDebt(e, mid, w, i);
    var n := Served(e, mid, w, i);
    ScaledDebt(w, e[i], n);
    Cancel(w, e[i] - n);
  }

  // ---- when the backlog changes ----

  function Gains(c: seq<int>): (r: seq<int>)
    ensures |r| == |c|
  {
    seq(|c|, i requires 0 <= i < |c| => if c[i] < 0 then 0 else c[i])
  }

  lemma SumConstant(s: seq<int>, k: int)
    requires forall i :: 0 <= i < |s| ==> s[i] <= k
    ensures Sum(s) <= |s| * k
    decreases |s|
  {
    if s != [] {
      SumConstant(s[..|s| - 1], k);
      assert (|s| - 1) * k + k == |s| * k;
    }
  }

  lemma ChargeGains(e: seq<int>, c: seq<int>)
    requires |e| == |c| && Weights(e)
    ensures Sum(Gains(Charge(e, c))) <= Sum(Gains(c)) + Sum(e)
  {
    var most := seq(|e|, i requires 0 <= i < |e| => Gains(c)[i] + e[i]);
    SumLinear(most, Gains(c), e, 1, 1);
    SumBound(Gains(Charge(e, c)), most);
  }

  lemma ServiceCosts(charged: seq<int>, p: nat, w: int)
    requires p < |charged| && 0 <= w <= charged[p]
    ensures Sum(Gains(charged[p := charged[p] - w])) == Sum(Gains(charged)) - w
  {
    assert Gains(charged[p := charged[p] - w]) == Gains(charged)[p := charged[p] - w];
    SumUpdate(Gains(charged), p, charged[p] - w);
  }

  lemma AllSmall(c: seq<int>, w: int)
    requires w >= 0 && forall i :: 0 <= i < |c| ==> c[i] <= w
    ensures Sum(Gains(c)) <= |c| * w
  {
    SumConstant(Gains(c), w);
  }

  /** Whoever is backlogged, the positive credits never sum to more than they did, or than a full
      round of all weights for each queue. */
  lemma GainsAreBounded(e: seq<int>, full: seq<int>, c: seq<int>)
    requires |e| == |full| == |c| && Weights(e) && forall i :: 0 <= i < |e| ==> e[i] <= full[i]
    requires Sum(Gains(c)) <= |c| * Sum(full)
    ensures Sum(Gains(Step(e, c))) <= |c| * Sum(full)
  {
    hide Gains, Sum;
    var charged, p := Charge(e, c), Selected(e, c);
    SumNonNegative(e);
    SumBound(e, full);
    if p >= 0 && charged[p] >= Sum(e) {
      ChargeGains(e, c);
      ServiceCosts(charged, p, Sum(e));
    } else {
      PickIsFirstBest(e, charged, |e|);
      AllSmall(Step(e, c), Sum(full));
    }
  }

  lemma SumNonNegative(s: seq<int>)
    requires Weights(s)
    ensures Sum(s) >= 0
  {
    var zero := seq(|s|, _ => 0);
    SumLinear(zero, zero, zero, 0, 0);
    SumBound(zero, s);
  }

  lemma GainAtMostAll(c: seq<int>, i: nat)
    requires i < |c|
    ensures c[i] <= Sum(Gains(c))
  {
    var one := seq(|c|, _ => 0)[i := Gains(c)[i]];
    var zero := seq(|c|, _ => 0);
    SumLinear(zero, zero, zero, 0, 0);
    SumUpdate(zero, i, Gains(c)[i]);
    SumBound(one, Gains(c));
  }
}

/** deliveryScheduler: per-queue FIFO buffers served by smooth weighted round robin. */
module DeliveryScheduling {
  import opened RoundRobin

  datatype Queue<T> = Queue(name: string, weight: int, current: int, pending: seq<T>)

  datatype Taken<T> = Blocked | Delivery(queue: string, value: T)

  predicate ValidQueues<T>(qs: seq<Queue<T>>) {
    && (forall i :: 0 <= i < |qs| ==> qs[i].weight > 0)
    && (forall i, j :: 0 <= i < j < |qs| ==> qs[i].name != qs[j].name)
  }

  /** The weight vector of the backlogged queues. */
  function Load<T>(qs: seq<Queue<T>>): (e: seq<int>) {
    seq(|qs|, i requires 0 <= i < |qs| => if qs[i].pending == [] then 0 else qs[i].weight)
  }

  function Credits<T>(qs: seq<Queue<T>>): (c: seq<int>) {
    seq(|qs|, i requires 0 <= i < |qs| => qs[i].current)
  }

  function Position<T>(qs: seq<Queue<T>>, name: string): (i: int)
    ensures -1 <= i < |qs|
    ensures i >= 0 ==> qs[i].name == name
    ensures i < 0 ==> forall j :: 0 <= j < |qs| ==> qs[j].name != name
  {
    if qs == [] then -1
    else if qs[0].name == name then 0
    else
      var i := Position(qs[1..], name);
      if i < 0 then -1 else i + 1
  }

  function AfterPut<T>(qs: seq<Queue<T>>, name: string, value: T): (r: seq<Queue<T>>)
    ensures |r| == |qs|
  {
    var i := Position(qs, name);
    if i < 0 then qs else qs[i := qs[i].(pending := qs[i].pending + [value])]
  }

  /** The queue a take serves: its head leaves and only the credits move. */
  function AfterTake<T>(qs: seq<Queue<T>>): (r: seq<Queue<T>>)
    ensures |r| == |qs|
  {
    var c, p := Step(Load(qs), Credits(qs)), Selected(Load(qs), Credits(qs));
    seq(|qs|, i requires 0 <= i < |qs| =>
      qs[i].(current := c[i], pending := if i == p && qs[i].pending != [] then qs[i].pending[1..] else qs[i].pending))
  }

  /** The queues once the scan has charged the first `n` of them. */
  function Charged<T>(qs: seq<Queue<T>>, n: nat): (r: seq<Queue<T>>)
    requires n <= |qs|
  {
    var c := RoundRobin.Charge(Load(qs), Credits(qs));
    seq(|qs|, i requires 0 <= i < |qs| => if i < n then qs[i].(current := c[i]) else qs[i])
  }

  lemma ChargedOneMore<T>(qs: seq<Queue<T>>, i: nat)
    requires ValidQueues(qs) && i < |qs|
    ensures Charged(qs, i)[i] == qs[i]
    ensures Charged(qs, i + 1) ==
            Charged(qs, i)[i := qs[i].(current := if qs[i].pending == [] then 0 else qs[i].current + qs[i].weight)]
    ensures Load(qs)[i] == if qs[i].pending == [] then 0 else qs[i].weight
    ensures forall p :: 0 <= p <= i ==>
      Charged(qs, i + 1)[p].current == RoundRobin.Charge(Load(qs), Credits(qs))[p]
    ensures Sum(Load(qs)[..i + 1]) == Sum(Load(qs)[..i]) + Load(qs)[i]
    ensures var e, c := Load(qs), RoundRobin.Charge(Load(qs), Credits(qs)); var p := Pick(e, c, i);
      Pick(e, c, i + 1) == if e[i] != 0 && (p < 0 || c[i] > c[p]) then i else p
  {
    assert Load(qs)[..i + 1][..i] == Load(qs)[..i];
  }

  lemma ChargedNothing<T>(qs: seq<Queue<T>>)
    requires ValidQueues(qs)
    ensures |Load(qs)| == |Credits(qs)| == |RoundRobin.Charge(Load(qs), Credits(qs))| == |qs|
    ensures Charged(qs, 0) == qs && Sum(Load(qs)[..0]) == 0
    ensures Pick(Load(qs), RoundRobin.Charge(Load(qs), Credits(qs)), 0) == -1
  {
  }

  lemma EmptyLoad<T>(qs: seq<Queue<T>>)
    requires forall k :: 0 <= k < |qs| ==> qs[k].pending == []
    ensures Load(qs) == seq(|qs|, _ => 0)
  {
  }

  class DeliveryScheduler<T> {
    var queues: seq<Queue<T>>

    ghost predicate Valid()
      reads this
    {
      ValidQueues(queues)
    }

    /** `names` are the sorted keys of the weight table; a non-positive weight counts as 1. */
    constructor (names: seq<string>, weights: map<string, int>)
      requires forall i, j :: 0 <= i < j < |names| ==> names[i] != names[j]
      requires forall i :: 0 <= i < |names| ==> names[i] in weights
      ensures Valid()
      ensures |queues| == |names|
      ensures forall i :: 0 <= i < |names| ==>
        queues[i] == Queue(names[i], if weights[names[i]] <= 0 then 1 else weights[names[i]], 0, [])
    {
      var qs: seq<Queue<T>> := [];
      for k := 0 to |names|
        invariant |qs| == k
        invariant forall i :: 0 <= i < k ==>
          qs[i] == Queue(names[i], if weights[names[i]] <= 0 then 1 else weights[names[i]], 0, [])
      {
        var w := weights[names[k]];
        if w <= 0 {
          w := 1;
        }
        qs := qs + [Queue(names[k], w, 0, [])];
      }
      queues := qs;
    }

    method Put(name: string, value: T)
      requires Valid()
      modifies this
      ensures Valid()
      ensures queues == AfterPut(old(queues), name, value)
    {
      var i := 0;
      while i < |queues|
        invariant 0 <= i <= |queues| && queues == old(queues)
        invariant forall j :: 0 <= j < i ==> queues[j].name != name
      {
        if queues[i].name == name {
          queues := queues[i := queues[i].(pending := queues[i].pending + [value])];
          return;
        }
        i := i + 1;
      }
    }

    /** The scan of `Take`: charge the backlogged queues, clear the others, select one. */
    method Charge() returns (selected: int, total: int)
      requires Valid()
      modifies this
      ensures selected == Selected(Load(old(queues)), Credits(old(queues)))
      ensures total == Sum(Load(old(queues)))
      ensures |queues| == |old(queues)| && queues == Charged(old(queues), |queues|)
      ensures selected >= 0 ==> old(queues)[selected].pending != []
      ensures selected < 0 ==> Load(old(queues)) == seq(|queues|, _ => 0)
    {
      hide Charged, Load, Credits, RoundRobin.Charge, Sum, Pick;
      selected, total := -1, 0;
      var i := 0;
      ghost var was := queues;
      ghost var e, c := Load(was), Credits(was);
      ChargedNothing(was);
      while i < |queues|
        invariant 0 <= i <= |queues| == |was|
        invariant selected == Pick(e, RoundRobin.Charge(e, c), i)
        invariant selected >= 0 ==> was[selected].pending != []
        invariant selected < 0 ==> forall k :: 0 <= k < i ==> was[k].pending == []
        invariant total == Sum(e[..i])
        invariant queues == Charged(was, i)
      {
        ChargedOneMore(was, i);
        if queues[i].pending == [] {
          queues := queues[i := queues[i].(current := 0)];
        } else {
          queues := queues[i := queues[i].(current := queues[i].current + queues[i].weight)];
          total := total + queues[i].weight;
          if selected < 0 || queues[i].current > queues[selected].current {
            selected := i;
          }
        }
        i := i + 1;
      }
      assert e[..|e|] == e;
      if selected < 0 {
        EmptyLoad(was);
      }
    }

    /** One pass of the serving loop; `Blocked` stands for waiting on the changed channel. */
    method Take() returns (r: Taken<T>)
      requires Valid()
      modifies this
      ensures Valid()
      ensures queues == AfterTake(old(queues))
      ensures var p := Selected(Load(old(queues)), Credits(old(queues)));
        if p < 0 then r == Blocked && Load(old(queues)) == seq(|old(queues)|, _ => 0)
        else old(queues)[p].pending != [] && r == Delivery(old(queues)[p].name, old(queues)[p].pending[0])
    {
      var selected, total := Charge();
      if selected < 0 {
        return Blocked;
      }
      var q := queues[selected];
      r := Delivery(q.name, q.pending[0]);
      queues := queues[selected := q.(current := q.current - total, pending := q.pending[1..])];
    }
  }

  /** A history of the scheduler: arrivals and takes in the order the mutex admits them. */
  datatype Action<T> = Put(name: string, value: T) | Take

  function After<T>(qs: seq<Queue<T>>, a: Action<T>): (r: seq<Queue<T>>)
    ensures |r| == |qs|
  {
    match a
    case Put(name, value) => AfterPut(qs, name, value)
    case Take => AfterTake(qs)
  }

  function Run<T>(qs: seq<Queue<T>>, trace: seq<Action<T>>): (r: seq<Queue<T>>)
    ensures |r| == |qs|
    decreases |trace|
  {
    if trace == [] then qs else Run(After(qs, trace[0]), trace[1..])
  }

  function Takes<T>(trace: seq<Action<T>>): nat {
    if trace == [] then 0 else (if trace[0].Take? then 1 else 0) + Takes(trace[1..])
  }

  /** How often the trace's takes serve queue `i`. */
  function Served<T>(qs: seq<Queue<T>>, trace: seq<Action<T>>, i: nat): nat
    decreases |trace|
  {
    if trace == [] then 0 else
      (if trace[0].Take? && Selected(Load(qs), Credits(qs)) == i then 1 else 0)
      + Served(After(qs, trace[0]), trace[1..], i)
  }

  /** What queue `i` hands out, and what reaches it, in one action. */
  function HandedOut<T>(qs: seq<Queue<T>>, a: Action<T>, i: nat): seq<T>
    requires i < |qs|
  {
    if a.Take? && Selected(Load(qs), Credits(qs)) == i && qs[i].pending != [] then [qs[i].pending[0]] else []
  }

  function Reaching<T>(a: Action<T>, name: string): seq<T> {
    if a.Put? && a.name == name then [a.value] else []
  }

  /** The values queue `i` hands out during the trace, in order. */
  function Delivered<T>(qs: seq<Queue<T>>, trace: seq<Action<T>>, i: nat): seq<T>
    requires i < |qs|
    decreases |trace|
  {
    if trace == [] then [] else HandedOut(qs, trace[0], i) + Delivered(After(qs, trace[0]), trace[1..], i)
  }

  /** The values the trace puts on the queue of that name, in order. */
  function Arrived<T>(trace: seq<Action<T>>, name: string): seq<T> {
    if trace == [] then [] else Reaching(trace[0], name) + Arrived(trace[1..], name)
  }

  lemma AfterKeepsNames<T>(qs: seq<Queue<T>>, a: Action<T>)
    requires ValidQueues(qs)
    ensures ValidQueues(After(qs, a))
    ensures forall i :: 0 <= i < |qs| ==> After(qs, a)[i].name == qs[i].name && After(qs, a)[i].weight == qs[i].weight
  {
  }

  lemma ActionConserves<T>(qs: seq<Queue<T>>, a: Action<T>, i: nat)
    requires ValidQueues(qs) && i < |qs|
    ensures qs[i].pending + Reaching(a, qs[i].name) == HandedOut(qs, a, i) + After(qs, a)[i].pending
  {
    hide Step, Selected;
    if a.Put? && a.name == qs[i].name {
      assert Position(qs, a.name) == i;
    }
  }

  /** Nothing is lost, duplicated or reordered within a queue, whatever the interleaving. */
  lemma {:induction false} FifoConservation<T>(qs: seq<Queue<T>>, trace: seq<Action<T>>, i: nat)
    requires ValidQueues(qs) && i < |qs|
    ensures qs[i].pending + Arrived(trace, qs[i].name) == Delivered(qs, trace, i) + Run(qs, trace)[i].pending
    decreases |trace|
  {
    hide After, HandedOut, Reaching;
    if trace != [] {
      var a, next, name := trace[0], After(qs, trace[0]), qs[i].name;
      AfterKeepsNames(qs, a);
      ActionConserves(qs, a, i);
      FifoConservation(next, trace[1..], i);
      calc {
        qs[i].pending + (Reaching(a, name) + Arrived(trace[1..], name));
        (qs[i].pending + Reaching(a, name)) + Arrived(trace[1..], name);
        HandedOut(qs, a, i) + (next[i].pending + Arrived(trace[1..], name));
        HandedOut(qs, a, i) + (Delivered(next, trace[1..], i) + Run(qs, trace)[i].pending);
        Delivered(qs, trace, i) + Run(qs, trace)[i].pending;
      }
    }
  }

  /** At every take of the trace exactly the queues with `e[i] > 0` are backlogged. */
  predicate Steady<T>(qs: seq<Queue<T>>, trace: seq<Action<T>>, e: seq<int>)
    decreases |trace|
  {
    trace == [] || ((trace[0].Take? ==> Load(qs) == e) && Steady(After(qs, trace[0]), trace[1..], e))
  }

  lemma ActionIsStep<T>(qs: seq<Queue<T>>, a: Action<T>, e: seq<int>)
    requires a.Take? ==> Load(qs) == e
    ensures Credits(After(qs, a)) == if a.Take? then Step(Load(qs), Credits(qs)) else Credits(qs)
  {
  }

  /** Under a steady backlog the scheduler is the vector machine, whatever arrives between. */
  lemma {:induction false} SteadyIsVector<T>(qs: seq<Queue<T>>, trace: seq<Action<T>>, e: seq<int>, i: nat)
    requires |e| == |qs| && Steady(qs, trace, e)
    ensures Credits(Run(qs, trace)) == Iterate(e, Credits(qs), Takes(trace))
    ensures Served(qs, trace, i) == RoundRobin.Served(e, Credits(qs), Takes(trace), i)
    decreases |trace|
  {
    hide After, Selected, Step, Load;
    if trace != [] {
      ActionIsStep(qs, trace[0], e);
      SteadyIsVector(After(qs, trace[0]), trace[1..], e, i);
    }
  }

  /** Fairness of the real scheduler: start from zero credit, run any prefix, then any window
      with as many takes as the total backlogged weight: each queue is served its weight. */
  lemma SchedulerFairness<T>(qs: seq<Queue<T>>, prefix: seq<Action<T>>, window: seq<Action<T>>, e: seq<int>, i: nat)
    requires ValidQueues(qs) && |e| == |qs| && i < |qs| && Weights(e) && Runnable(e)
    requires forall k :: 0 <= k < |qs| ==> qs[k].current == 0
    requires Steady(qs, prefix, e) && Steady(Run(qs, prefix), window, e)
    ensures Sum(Credits(Run(qs, prefix))) == 0
    ensures forall k :: 0 <= k < |qs| ==> Run(qs, prefix)[k].current > -Sum(e)
    ensures Served(qs, prefix, i) * Sum(e) < Takes(prefix) * e[i] + Sum(e)
    ensures Takes(window) == Sum(e) ==> Served(Run(qs, prefix), window, i) == e[i]
  {
    SteadyIsVector(qs, prefix, e, i);
    SteadyIsVector(Run(qs, prefix), window, e, i);
    Fairness(e, Credits(qs), Takes(prefix), i);
    forall k | 0 <= k < |qs|
      ensures Run(qs, prefix)[k].current > -Sum(e)
    {
      assert Run(qs, prefix)[k].current == Credits(Run(qs, prefix))[k];
    }
  }

  // ---- waiting, whatever the other queues do ----

  function AllWeights<T>(qs: seq<Queue<T>>): seq<int> {
    seq(|qs|, i requires 0 <= i < |qs| => qs[i].weight)
  }

  /** A full round of all weights for each queue. */
  function Limit<T>(qs: seq<Queue<T>>): int {
    |qs| * Sum(AllWeights(qs))
  }

  lemma LimitKept<T>(qs: seq<Queue<T>>, a: Action<T>)
    requires ValidQueues(qs) && Sum(Gains(Credits(qs))) <= Limit(qs)
    ensures ValidQueues(After(qs, a)) && Limit(After(qs, a)) == Limit(qs)
    ensures Sum(Gains(Credits(After(qs, a)))) <= Limit(qs)
  {
    AfterKeepsNames(qs, a);
    assert AllWeights(After(qs, a)) == AllWeights(qs);
    ActionIsStep(qs, a, Load(qs));
    if a.Take? {
      GainsAreBounded(Load(qs), AllWeights(qs), Credits(qs));
    }
  }

  lemma {:induction false} LimitHolds<T>(qs: seq<Queue<T>>, trace: seq<Action<T>>)
    requires ValidQueues(qs) && Sum(Gains(Credits(qs))) <= Limit(qs)
    ensures ValidQueues(Run(qs, trace)) && Limit(Run(qs, trace)) == Limit(qs)
    ensures Sum(Gains(Credits(Run(qs, trace)))) <= Limit(qs)
    decreases |trace|
  {
    if trace != [] {
      hide After, Limit, Gains;
      LimitKept(qs, trace[0]);
      LimitHolds(After(qs, trace[0]), trace[1..]);
    }
  }

  /** Queue `i` has something to deliver at every take of the trace, and is never chosen. */
  predicate Waits<T>(qs: seq<Queue<T>>, trace: seq<Action<T>>, i: nat)
    requires i < |qs|
    decreases |trace|
  {
    trace == []
    || ((trace[0].Take? ==> qs[i].pending != [] && Selected(Load(qs), Credits(qs)) != i)
        && Waits(After(qs, trace[0]), trace[1..], i))
  }

  lemma {:induction false} WaitingEarns<T>(qs: seq<Queue<T>>, trace: seq<Action<T>>, i: nat)
    requires ValidQueues(qs) && i < |qs| && Waits(qs, trace, i)
    ensures Run(qs, trace)[i].current == qs[i].current + Takes(trace) * qs[i].weight
    decreases |trace|
  {
    if trace != [] {
      var next := After(qs, trace[0]);
      AfterKeepsNames(qs, trace[0]);
      WaitingEarns(next, trace[1..], i);
      assert (1 + Takes(trace[1..])) * qs[i].weight == qs[i].weight + Takes(trace[1..]) * qs[i].weight;
    }
  }

  /** No starvation: from zero credit and after any history, however the other queues fill and
      empty, a backlogged queue waits at most until its weight has made up a full round for each
      queue, less the credit it starts with. */
  lemma WaitIsBounded<T>(qs: seq<Queue<T>>, prefix: seq<Action<T>>, window: seq<Action<T>>, i: nat)
    requires ValidQueues(qs) && i < |qs| && forall k :: 0 <= k < |qs| ==> qs[k].current == 0
    requires Waits(Run(qs, prefix), window, i)
    ensures Run(qs, prefix)[i].weight > 0
    ensures Run(qs, prefix)[i].current + Takes(window) * Run(qs, prefix)[i].weight <= Limit(qs)
  {
    var zero := seq(|qs|, _ => 0);
    assert Gains(Credits(qs)) == zero;
    SumLinear(zero, zero, zero, 0, 0);
    SumNonNegative(AllWeights(qs));
    LimitHolds(qs, prefix);
    var mid := Run(qs, prefix);
    LimitHolds(mid, window);
    WaitingEarns(mid, window, i);
    GainAtMostAll(Credits(Run(mid, window)), i);
  }

  /** A queue found empty by a take starts its next wait from zero. */
  lemma IdleStartsAtZero<T>(qs: seq<Queue<T>>, i: nat)
    requires ValidQueues(qs) && i < |qs| && qs[i].pending == []
    ensures AfterTake(qs)[i].current == 0
  {
    PickIsFirstBest(Load(qs), RoundRobin.Charge(Load(qs), Credits(qs)), |qs|);
  }
}
