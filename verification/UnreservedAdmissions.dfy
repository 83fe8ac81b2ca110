/** Why the spend ceiling is what it is. Handlers that have passed the spend check and not yet
    written their row have all read the same spend, so calls admitted together all go through:
    the bound of `SpendCeiling` is reached, and bounding the pending rows alone, even by one,
    bounds no spend. */
module UnreservedAdmissions {
  import opened Collections
  import opened Tables
  import opened Machine
  import opened SpendCeiling
  import opened Steady

  /** Steps as `CeilingRun` asks for, at most n calls in flight, at most one row pending. */
  ghost predicate BurstRun(c: Ceiling, n: nat, s: State, es: seq<Event>)
    decreases |es|
  {
    es == [] ||
    (var front := es[..|es| - 1];
     BurstRun(c, n, s, front) && StepWithin(c, Run(s, front), es[|es| - 1]) && Narrow(c, n, Run(s, es)))
  }

  predicate Narrow(c: Ceiling, n: nat, s: State) {
    InFlight(s, c.merchant) <= n && |PendingRows(s.t, c.merchant)| <= 1
  }

  /** Some such run leads from the initial state here. */
  ghost predicate Reached(c: Ceiling, n: nat, s: State) {
    exists es :: BurstRun(c, n, Init(0), es) && Run(Init(0), es) == s
  }

  lemma Then(c: Ceiling, n: nat, s: State, e: Event)
    requires Reached(c, n, s) && StepWithin(c, s, e) && Narrow(c, n, Step(s, e))
    ensures Reached(c, n, Step(s, e))
  {
    hide StepWithin, Step, Narrow;
    var es :| BurstRun(c, n, Init(0), es) && Run(Init(0), es) == s;
    assert (es + [e])[..|es + [e]| - 1] == es;
    assert BurstRun(c, n, Init(0), es + [e]) && Run(Init(0), es + [e]) == Step(s, e);
  }

  /** Calls of one cost, made on day 0 after `calls` others that cost `spent` together. */
  datatype Burst = Burst(c: Ceiling, cost: nat, spent: nat, calls: nat)

  predicate SpendHolds(b: Burst, t: Tables, k: nat) {
    || t.spend == map[BucketKey(b.c.merchant, 0) := SpendBucket(b.spent + k * b.cost, b.calls + k)]
    || (b.calls + k == 0 && b.spent == 0 && t.spend == map[])
  }

  /** Handlers from k up to n have passed the check and not yet written their row. */
  ghost predicate Line(b: Burst, s: State, k: nat, n: nat) {
    && (forall h: Worker :: k <= h < n ==> AdmissionOf(s, h) == Admitted(b.c.merchant))
    && (forall h: Worker :: h < k || h >= n ==> AdmissionOf(s, h) == NotAdmitted)
  }

  /** k calls of the burst have run to completion, the others wait. */
  ghost predicate Between(b: Burst, s: State, k: nat, n: nat) {
    && k <= n && s.clock == 0 && AiPcOf(s, 0) == AiIdle
    && Line(b, s, k, n) && PendingRows(s.t, b.c.merchant) == {}
    && (forall m :: m in s.t.generations || m in s.past.issued ==> m < b.calls + k)
    && SpendHolds(b, s.t, k)
  }

  /** The next handler has written its row, and AI worker 0 stands somewhere in its call. */
  ghost predicate During(b: Burst, s: State, k: nat, n: nat, pc: AiPc) {
    && k < n && s.clock == 0 && AiPcOf(s, 0) == pc
    && Line(b, s, k + 1, n) && PendingRows(s.t, b.c.merchant) == {b.calls + k}
    && s.t.generations[b.calls + k].createdAt == 0
    && (forall m :: m in s.t.generations || m in s.past.issued ==> m <= b.calls + k)
    && SpendHolds(b, s.t, k)
  }

  lemma LineIsNarrow(b: Burst, s: State, k: nat, n: nat)
    ensures Between(b, s, k, n) ==> Narrow(b.c, n, s)
    ensures forall pc :: During(b, s, k, n, pc) ==> Narrow(b.c, n, s)
  {
    var waiting := Waiting(s, b.c.merchant);
    assert forall h :: h in waiting ==> AdmissionOf(s, h) == Admitted(b.c.merchant);
    if Between(b, s, k, n) {
      SizeBelow(waiting, n);
    }
    forall pc | During(b, s, k, n, pc)
      ensures Narrow(b.c, n, s)
    {
      SizeBelow(waiting + {k}, n);
    }
  }

  // -------------------------------------------------------------------- a call

  lemma SpendRead(b: Burst, t: Tables, k: nat, since: Day)
    requires SpendHolds(b, t, k) && since <= 0
    ensures SpendSince(t, b.c.merchant, since) == b.spent + k * b.cost
  {
    var key := BucketKey(b.c.merchant, 0);
    var q := map i | i in t.spend && i.merchant == b.c.merchant && i.day >= since :: t.spend[i].spentMicrocents;
    if t.spend != map[] {
      assert q == map[key := b.spent + k * b.cost];
      SumSplit(q, key);
      assert q - {key} == map[];
    } else {
      assert q == map[];
    }
  }

  lemma AdmitShape(b: Burst, s: State, n: nat)
    requires Between(b, s, 0, n) && b.spent + b.c.estimate <= b.c.cap && Calendar(b.c.monthStart)
    ensures var s1 := HandlerAt(s, n, Checking(b.c.merchant, 0));
            var s2 := HandlerAt(s1, n, Admitted(b.c.merchant));
            && Step(s, BeginCheck(n, b.c.merchant)) == s1
            && Step(s1, ReadSpend(n, b.c.monthStart(0), b.c.estimate, b.c.cap)) == s2
            && Waiting(s1, b.c.merchant) == Waiting(s, b.c.merchant)
            && Between(b, s2, 0, n + 1)
  {
    SpendRead(b, s.t, 0, b.c.monthStart(0));
    var s2 := HandlerAt(HandlerAt(s, n, Checking(b.c.merchant, 0)), n, Admitted(b.c.merchant));
    assert forall h :: h != n ==> AdmissionOf(s2, h) == AdmissionOf(s, h);
  }

  /** One more handler passes the check, before any call of the burst is made. */
  lemma AdmitOne(b: Burst, p: nat, s: State, n: nat) returns (s': State)
    requires Reached(b.c, p, s) && Between(b, s, 0, n) && n < p
    requires b.spent + b.c.estimate <= b.c.cap && Calendar(b.c.monthStart)
    ensures Reached(b.c, p, s') && Between(b, s', 0, n + 1)
  {
    var s1 := HandlerAt(s, n, Checking(b.c.merchant, 0));
    s' := HandlerAt(s1, n, Admitted(b.c.merchant));
    AdmitShape(b, s, n);
    LineIsNarrow(b, s, 0, n);
    LineIsNarrow(b, s', 0, n + 1);
    hide Reached, Between, Step;
    Then(b.c, p, s, BeginCheck(n, b.c.merchant));
    Then(b.c, p, s1, ReadSpend(n, b.c.monthStart(0), b.c.estimate, b.c.cap));
  }

  lemma DraftOne(b: Burst, s: State, k: nat, n: nat)
    requires k < n && Between(b, s, k, n)
    ensures During(b, Step(s, Create(k, b.calls + k, 0)), k, n, AiIdle)
  {
    var s1 := Step(s, Create(k, b.calls + k, 0));
    forall m
      ensures m in PendingRows(s1.t, b.c.merchant) <==> m == b.calls + k
    {
      assert m !in PendingRows(s.t, b.c.merchant);
    }
    assert PendingRows(s1.t, b.c.merchant) == {b.calls + k};
    assert forall h :: h != k ==> AdmissionOf(s1, h) == AdmissionOf(s, h);
  }

  lemma CallProceeds(b: Burst, s: State, k: nat, n: nat)
    ensures var m := b.calls + k;
            && (During(b, s, k, n, AiIdle) ==> During(b, Step(s, Write(0, AiPickup(m))), k, n, Generating(m)))
            && (During(b, s, k, n, Generating(m)) ==>
                  During(b, Step(s, Write(0, AiReply(Content("", b.cost)))), k, n, Finishing(m, "", b.cost)))
  {
    var m := b.calls + k;
    if During(b, s, k, n, AiIdle) || During(b, s, k, n, Generating(m)) {
      assert m in PendingRows(s.t, b.c.merchant);
      var s1, s2 := Step(s, Write(0, AiPickup(m))), Step(s, Write(0, AiReply(Content("", b.cost))));
      assert forall h :: AdmissionOf(s1, h) == AdmissionOf(s, h);
      assert forall h :: AdmissionOf(s2, h) == AdmissionOf(s, h);
    }
  }

  lemma FinishShape(b: Burst, s: State, k: nat, n: nat)
    requires During(b, s, k, n, Finishing(b.calls + k, "", b.cost))
    ensures var s' := Step(s, Write(0, AiFinish));
            && s' == FinishStep(s, 0, b.calls + k, "", b.cost)
            && s'.admissions == s.admissions && s'.clock == 0 && AiPcOf(s', 0) == AiIdle
            && s'.past.issued == s.past.issued
            && s'.t.generations == Completed(s.t.generations, b.calls + k, b.cost)
            && s'.t.spend == s.t.spend[BucketKey(b.c.merchant, 0) :=
                               SpendBucket(b.spent + k * b.cost + b.cost, b.calls + k + 1)]
  {
    assert b.calls + k in PendingRows(s.t, b.c.merchant);
  }

  function Completed(generations: map<MessageId, Generation>, m: MessageId, cost: nat): map<MessageId, Generation>
    requires m in generations
  {
    generations[m := generations[m].(status := GenerationCompleted, text := Some(""), costMicrocents := cost)]
  }

  lemma NonePending(t: Tables, t': Tables, m: MessageId, cost: nat, merchant: MerchantId)
    requires PendingRows(t, merchant) == {m} && m in t.generations
             && t'.generations == Completed(t.generations, m, cost)
    ensures PendingRows(t', merchant) == {}
  {
    forall i
      ensures i !in PendingRows(t', merchant)
    {
      assert i in PendingRows(t, merchant) ==> i == m;
    }
  }

  lemma CallFinishes(b: Burst, s: State, k: nat, n: nat)
    requires During(b, s, k, n, Finishing(b.calls + k, "", b.cost))
    ensures Between(b, Step(s, Write(0, AiFinish)), k + 1, n)
  {
    var m := b.calls + k;
    var s' := Step(s, Write(0, AiFinish));
    assert m in PendingRows(s.t, b.c.merchant);
    FinishShape(b, s, k, n);
    NonePending(s.t, s'.t, m, b.cost, b.c.merchant);
    FinishedBetween(b, s, s', k, n);
  }

  lemma FinishedBetween(b: Burst, s: State, s': State, k: nat, n: nat)
    requires k < n && Line(b, s, k + 1, n) && s'.admissions == s.admissions && s'.clock == 0 && AiPcOf(s', 0) == AiIdle
    requires forall m :: m in s.t.generations || m in s.past.issued ==> m <= b.calls + k
    requires s'.past.issued == s.past.issued && s'.t.generations.Keys == s.t.generations.Keys
    requires PendingRows(s'.t, b.c.merchant) == {} && SpendHolds(b, s.t, k)
    requires s'.t.spend == s.t.spend[BucketKey(b.c.merchant, 0) :=
                             SpendBucket(b.spent + k * b.cost + b.cost, b.calls + k + 1)]
    ensures Between(b, s', k + 1, n)
  {
    assert forall h :: AdmissionOf(s', h) == AdmissionOf(s, h);
    assert (k + 1) * b.cost == k * b.cost + b.cost;
  }

  /** The next handler in line writes its row and the AI worker completes it. */
  lemma CallOne(b: Burst, p: nat, s: State, k: nat, n: nat) returns (s': State)
    requires Reached(b.c, p, s) && Between(b, s, k, n) && k < n <= p && b.cost <= b.c.estimate
    ensures Reached(b.c, p, s') && Between(b, s', k + 1, n)
  {
    hide Reached, Step, Between, During;
    DraftOne(b, s, k, n);
    s' := NextStep(b, p, s, k, n, Create(k, b.calls + k, 0));
    CallProceeds(b, s', k, n);
    s' := NextStep(b, p, s', k, n, Write(0, AiPickup(b.calls + k)));
    CallProceeds(b, s', k, n);
    s' := NextStep(b, p, s', k, n, Write(0, AiReply(Content("", b.cost))));
    CallFinishes(b, s', k, n);
    LineIsNarrow(b, Step(s', Write(0, AiFinish)), k + 1, n);
    Then(b.c, p, s', Write(0, AiFinish));
    s' := Step(s', Write(0, AiFinish));
  }

  lemma NextStep(b: Burst, p: nat, s: State, k: nat, n: nat, e: Event) returns (s': State)
    requires Reached(b.c, p, s) && n <= p && StepWithin(b.c, s, e)
    requires exists pc :: During(b, Step(s, e), k, n, pc)
    ensures s' == Step(s, e) && Reached(b.c, p, s')
  {
    hide Reached, Step, During;
    s' := Step(s, e);
    LineIsNarrow(b, s', k, n);
    Then(b.c, p, s, e);
  }

  // ------------------------------------------------------------------- a burst

  lemma {:induction false} AdmitMany(b: Burst, p: nat, s: State, n: nat) returns (s': State)
    requires Reached(b.c, p, s) && Between(b, s, 0, 0) && n <= p
    requires b.spent + b.c.estimate <= b.c.cap && Calendar(b.c.monthStart)
    ensures Reached(b.c, p, s') && Between(b, s', 0, n)
    decreases n
  {
    hide Reached, Between;
    if n == 0 {
      s' := s;
    } else {
      s' := AdmitMany(b, p, s, n - 1);
      s' := AdmitOne(b, p, s', n - 1);
    }
  }

  /** n handlers pass the check together, and then k of them make their call. */
  lemma {:induction false} CallMany(b: Burst, p: nat, s: State, k: nat, n: nat) returns (s': State)
    requires Reached(b.c, p, s) && Between(b, s, 0, 0) && k <= n <= p && b.cost <= b.c.estimate
    requires b.spent + b.c.estimate <= b.c.cap && Calendar(b.c.monthStart)
    ensures Reached(b.c, p, s') && Between(b, s', k, n)
    decreases k
  {
    hide Reached, Between;
    if k == 0 {
      s' := AdmitMany(b, p, s, n);
    } else {
      s' := CallMany(b, p, s, k - 1, n);
      s' := CallOne(b, p, s', k - 1, n);
    }
  }

  /** A burst that is over is what the next one starts from. */
  lemma Over(b: Burst, s: State, n: nat, cost: nat) returns (b': Burst)
    requires Between(b, s, n, n)
    ensures b' == Burst(b.c, cost, b.spent + n * b.cost, b.calls + n) && Between(b', s, 0, 0)
  {
    b' := Burst(b.c, cost, b.spent + n * b.cost, b.calls + n);
    assert 0 * cost == 0;
  }

  /** Calls one after the other, n of them at the full estimate. */
  lemma {:induction false} CallInTurn(c: Ceiling, p: nat, n: nat, cost: nat) returns (s: State, b: Burst)
    requires c.estimate * n <= c.cap && p >= 1 && Calendar(c.monthStart)
    ensures Reached(c, p, s) && Between(b, s, 0, 0) && b == Burst(c, cost, c.estimate * n, n)
  {
    if n == 0 {
      s, b := Init(0), Burst(c, cost, 0, 0);
      assert BurstRun(c, p, Init(0), []) && Run(Init(0), []) == s;
      assert PendingRows(s.t, c.merchant) == {} && 0 * cost == 0;
    } else {
      assert c.estimate * (n - 1) + c.estimate == c.estimate * n;
      s, b := CallInTurn(c, p, n - 1, c.estimate);
      s := CallMany(b, p, s, 1, 1);
      assert 1 * b.cost == b.cost;
      b := Over(b, s, 1, cost);
    }
  }

  /** The whole month up to one estimate below the cap, then n calls admitted together. */
  lemma FullMonth(c: Ceiling, p: nat, n: nat) returns (s: State)
    requires 1 <= c.estimate <= c.cap && n <= p && p >= 1 && Calendar(c.monthStart)
    ensures Reached(c, p, s)
    ensures MonthSpend(c, s.t, c.monthStart(0)) == SpendOn(s.t, c.merchant, 0).spentMicrocents
            == c.cap + (n - 1) * c.estimate
  {
    hide Reached;
    var room := c.cap - c.estimate;
    var whole, rest := room / c.estimate, room % c.estimate;
    assert c.estimate * whole + rest == room;
    var b;
    s, b := CallInTurn(c, p, whole, rest);
    s := CallMany(b, p, s, 1, 1);
    assert 1 * b.cost == rest;
    b := Over(b, s, 1, c.estimate);
    s := CallMany(b, p, s, n, n);
    assert room + n * c.estimate == c.cap + (n - 1) * c.estimate;
    MonthRead(b, s.t, n);
  }

  lemma MonthRead(b: Burst, t: Tables, k: nat)
    requires SpendHolds(b, t, k)
    ensures MonthSpend(b.c, t, b.c.monthStart(0)) == SpendOn(t, b.c.merchant, 0).spentMicrocents == b.spent + k * b.cost
  {
    var key := BucketKey(b.c.merchant, 0);
    var q := map i | i in t.spend && i.merchant == b.c.merchant && b.c.monthStart(i.day) == b.c.monthStart(0)
      :: t.spend[i].spentMicrocents;
    if t.spend != map[] {
      assert q == map[key := b.spent + k * b.cost];
      SumSplit(q, key);
      assert q - {key} == map[];
    } else {
      assert q == map[];
    }
  }

  // ------------------------------------------------------------------ theorems

  /** `CeilingRun` with only the pending rows bounded. */
  ghost predicate PendingRun(c: Ceiling, s: State, es: seq<Event>)
    decreases |es|
  {
    es == [] ||
    (var front := es[..|es| - 1];
     && PendingRun(c, s, front)
     && StepWithin(c, Run(s, front), es[|es| - 1])
     && |PendingRows(Run(s, es).t, c.merchant)| <= c.parallel)
  }

  lemma {:induction false} BurstIsBoth(c: Ceiling, n: nat, s: State, es: seq<Event>)
    requires BurstRun(c, n, s, es) && c.parallel >= 1
    ensures PendingRun(c, s, es)
    ensures n <= c.parallel ==> CeilingRun(c, s, es)
    decreases |es|
  {
    if es != [] {
      hide StepWithin, Run;
      BurstIsBoth(c, n, s, es[..|es| - 1]);
    }
  }

  /** The bound of `SpendCeiling.CeilingHolds` is reached: P calls in flight take a month to
      exactly P - 1 estimates above its cap. */
  lemma CeilingIsReached(c: Ceiling) returns (es: seq<Event>)
    requires Calendar(c.monthStart) && 1 <= c.estimate <= c.cap && c.parallel >= 1
    ensures CeilingRun(c, Init(0), es)
    ensures MonthSpend(c, Run(Init(0), es).t, c.monthStart(0)) == c.cap + (c.parallel - 1) * c.estimate
  {
    var s := FullMonth(c, c.parallel, c.parallel);
    es :| BurstRun(c, c.parallel, Init(0), es) && Run(Init(0), es) == s;
    BurstIsBoth(c, c.parallel, Init(0), es);
  }

  /** So the cap itself is kept in every run if and only if at most one call is in flight, a
      call costs nothing, or not even one fits. */
  lemma CapKeptIff(c: Ceiling)
    requires Calendar(c.monthStart)
    ensures (forall clock, es, month :: CeilingRun(c, Init(clock), es) ==>
               WithinCap(MonthSpend(c, Run(Init(clock), es).t, month), c.cap))
            <==> c.parallel <= 1 || c.estimate == 0 || c.estimate > c.cap
  {
    hide Run, MonthSpend, CeilingRun;
    if c.parallel <= 1 || c.estimate == 0 || c.estimate > c.cap {
      forall clock, es, month | CeilingRun(c, Init(clock), es)
        ensures WithinCap(MonthSpend(c, Run(Init(clock), es).t, month), c.cap)
      {
        CeilingHolds(c, clock, es, month);
        assert c.parallel <= 1 || c.estimate == 0 ==> (c.parallel - 1) * c.estimate <= 0;
      }
    } else {
      var es := CeilingIsReached(c);
      assert (c.parallel - 1) * c.estimate > 0;
      assert !WithinCap(MonthSpend(c, Run(Init(0), es).t, c.monthStart(0)), c.cap);
    }
  }

  /** Bounding the pending rows alone bounds no spend: with never more than one of them, a day
      comes to any number of estimates above the cap, because admissions that have not yet
      written their row all read the same spend. */
  lemma PendingRowsAreNotEnough(c: Ceiling, n: nat)
    requires Calendar(c.monthStart) && 1 <= c.estimate <= c.cap && c.parallel >= 1
    ensures exists es :: PendingRun(c, Init(0), es)
                         && SpendOn(Run(Init(0), es).t, c.merchant, 0).spentMicrocents == c.cap + n * c.estimate
  {
    hide Run;
    var s := FullMonth(c, n + 1, n + 1);
    var es :| BurstRun(c, n + 1, Init(0), es) && Run(Init(0), es) == s;
    BurstIsBoth(c, n + 1, Init(0), es);
  }
}
