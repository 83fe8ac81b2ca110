/** The AI spend ceiling is checked before the call and spent after it, and the check
    reserves nothing. If at most P generations of a merchant are in flight at any moment
    and each call stays within its worst-case estimate, a month's spend still exceeds the
    cap by at most P - 1 estimates, in every month and across month ends.

    In flight is more than the pending rows: a handler that has passed the check but not
    yet written its row counts too. `UnreservedAdmissions` shows why. */
module SpendCeiling {
  import opened Collections
  import opened Tables
  import opened Machine
  import opened SendOnce
  import opened AiLedger
  import opened Steady
  import CostRates

  datatype Ceiling = Ceiling(merchant: MerchantId, monthStart: Day -> Day, estimate: nat, cap: int, parallel: nat)

  /** The merchant's pending generations. */
  function PendingRows(t: Tables, merchant: MerchantId): set<MessageId> {
    set m | m in t.generations && t.generations[m].status == GenerationPending && t.generations[m].merchant == merchant
  }

  /** Handlers that have passed the spend check and not yet written their row. */
  function Waiting(s: State, merchant: MerchantId): set<Worker> {
    set h | h in s.admissions && s.admissions[h] == Admitted(merchant)
  }

  function InFlight(s: State, merchant: MerchantId): nat {
    |PendingRows(s.t, merchant)| + |Waiting(s, merchant)|
  }

  /** Fixed cap and estimate, a clock that does not run back, month reads from the month of
      the check's own clock, and calls that stay within the estimate. */
  predicate StepWithin(c: Ceiling, s: State, e: Event) {
    match e
    case Tick(now) => s.clock <= now
    case ReadSpend(h, monthStart, estimate, cap) =>
      AdmissionOf(s, h).Checking? && AdmissionOf(s, h).merchant == c.merchant ==>
        monthStart == c.monthStart(DayOf(AdmissionOf(s, h).asOf)) && estimate == c.estimate && cap == c.cap
    case Write(w, move) => move.AiReply? && move.reply.Content? ==> move.reply.cost <= c.estimate
    case _ => true
  }

  ghost predicate CeilingRun(c: Ceiling, s: State, es: seq<Event>)
    decreases |es|
  {
    es == [] ||
    (var front := es[..|es| - 1];
     && CeilingRun(c, s, front)
     && StepWithin(c, Run(s, front), es[|es| - 1])
     && InFlight(Run(s, es), c.merchant) <= c.parallel)
  }

  /** The merchant's recorded costs in a month, named by its first day. */
  function MonthCosts(c: Ceiling, log: map<MessageId, SpendRecord>, month: Day): map<MessageId, int> {
    map m | m in log && log[m].merchant == c.merchant && c.monthStart(DayOf(log[m].at)) == month :: log[m].cost
  }

  ghost function Spent(c: Ceiling, s: State, month: Day): int {
    Sum(MonthCosts(c, s.past.spendLog, month))
  }

  /** What a month may still come to: what is spent, and one estimate for each call in flight. */
  ghost function Exposure(c: Ceiling, s: State, month: Day): int {
    Spent(c, s, month)
    + (if month >= c.monthStart(DayOf(s.clock)) then c.estimate * InFlight(s, c.merchant) else 0)
  }

  function Limit(c: Ceiling): int {
    c.cap + c.estimate * c.parallel - c.estimate
  }

  ghost predicate Within(c: Ceiling, s: State, month: Day) {
    Spent(c, s, month) == 0 || (c.estimate <= c.cap && Exposure(c, s, month) <= Limit(c))
  }

  predicate TimelyCheck(s: State, h: Worker) {
    AdmissionOf(s, h).Checking? ==> AdmissionOf(s, h).asOf <= s.clock
  }

  predicate CheapCall(c: Ceiling, s: State, w: Worker) {
    AiPcOf(s, w).Finishing? ==> AiPcOf(s, w).cost <= c.estimate
  }

  ghost predicate CeilingInv(c: Ceiling, s: State) {
    && (forall h :: TimelyCheck(s, h))
    && (forall w :: CheapCall(c, s, w))
    && (forall m :: m in s.past.spendLog ==> s.past.spendLog[m].at <= s.clock)
    && InFlight(s, c.merchant) <= c.parallel
    && (InFlight(s, c.merchant) > 0 ==> c.estimate <= c.cap)
    && (forall month :: Within(c, s, month))
  }

  lemma Scaled(e: nat, n: nat, k: nat)
    requires n <= k
    ensures 0 <= e * n <= e * k
    ensures e * (n + 1) == e * n + e
  {
  }

  lemma SpentIsNonNegative(c: Ceiling, s: State, month: Day)
    ensures Spent(c, s, month) >= 0
  {
    SumNonNegative(MonthCosts(c, s.past.spendLog, month));
  }

  // ------------------------------------------------------------------ steps

  /** Nothing newly in flight, nothing spent, the clock no earlier. */
  ghost predicate Calms(c: Ceiling, s: State, s': State) {
    && s'.past.spendLog == s.past.spendLog && s.clock <= s'.clock
    && PendingRows(s'.t, c.merchant) <= PendingRows(s.t, c.merchant)
    && Waiting(s', c.merchant) <= Waiting(s, c.merchant)
  }

  lemma CalmKeepsWithin(c: Ceiling, s: State, s': State)
    requires CeilingInv(c, s) && Calendar(c.monthStart) && Calms(c, s, s')
    ensures InFlight(s', c.merchant) <= InFlight(s, c.merchant)
    ensures forall month :: Within(c, s', month)
  {
    SubsetSize(PendingRows(s'.t, c.merchant), PendingRows(s.t, c.merchant));
    SubsetSize(Waiting(s', c.merchant), Waiting(s, c.merchant));
    assert c.monthStart(DayOf(s.clock)) <= c.monthStart(DayOf(s'.clock));
    Scaled(c.estimate, InFlight(s', c.merchant), InFlight(s, c.merchant));
    forall month
      ensures Within(c, s', month)
    {
      assert Within(c, s, month);
    }
  }

  /** A completion turns one call in flight into at most one estimate of spend. */
  lemma FinishKeepsWithin(c: Ceiling, s: State, w: Worker, m: MessageId, text: string, cost: nat)
    requires CeilingInv(c, s) && SpendInv(s) && Calendar(c.monthStart)
    requires cost <= c.estimate
    ensures InFlight(FinishStep(s, w, m, text, cost), c.merchant) <= InFlight(s, c.merchant)
    ensures forall month :: Within(c, FinishStep(s, w, m, text, cost), month)
  {
    var s' := FinishStep(s, w, m, text, cost);
    var pending, pending' := PendingRows(s.t, c.merchant), PendingRows(s'.t, c.merchant);
    if m in pending {
      assert SpendRow(s, m);
      assert pending == pending' + {m};
      hide PendingRows, MonthCosts;
      Scaled(c.estimate, InFlight(s', c.merchant), InFlight(s, c.merchant));
      forall month
        ensures Within(c, s', month)
      {
        assert Within(c, s, month);
        CompletionSpends(c, s, s', m, month);
      }
    } else {
      assert pending' == pending;
      forall month
        ensures Within(c, s', month)
      {
        assert Within(c, s, month);
        ForeignCompletion(c, s, w, m, text, cost, month);
      }
    }
  }

  lemma ForeignCompletion(c: Ceiling, s: State, w: Worker, m: MessageId, text: string, cost: nat, month: Day)
    requires SpendInv(s) && m !in PendingRows(s.t, c.merchant)
    ensures Spent(c, FinishStep(s, w, m, text, cost), month) == Spent(c, s, month)
  {
    assert SpendRow(s, m);
    assert MonthCosts(c, FinishStep(s, w, m, text, cost).past.spendLog, month) == MonthCosts(c, s.past.spendLog, month);
  }

  lemma MonthGrows(c: Ceiling, log: map<MessageId, SpendRecord>, m: MessageId, r: SpendRecord, month: Day)
    requires m !in log && r.merchant == c.merchant
    ensures Sum(MonthCosts(c, log[m := r], month))
            == Sum(MonthCosts(c, log, month)) + (if c.monthStart(DayOf(r.at)) == month then r.cost else 0)
  {
    if c.monthStart(DayOf(r.at)) == month {
      assert MonthCosts(c, log[m := r], month) == MonthCosts(c, log, month)[m := r.cost];
      SumUpdate(MonthCosts(c, log, month), m, r.cost);
    } else {
      assert MonthCosts(c, log[m := r], month) == MonthCosts(c, log, month);
    }
  }

  lemma CompletionSpends(c: Ceiling, s: State, s': State, m: MessageId, month: Day)
    requires Within(c, s, month) && c.estimate <= c.cap && InFlight(s, c.merchant) <= c.parallel
    requires m !in s.past.spendLog && m in s'.past.spendLog && s'.clock == s.clock
    requires s'.past.spendLog == s.past.spendLog[m := s'.past.spendLog[m]]
    requires var r := s'.past.spendLog[m]; r.merchant == c.merchant && r.at == s.clock && r.cost <= c.estimate
    requires InFlight(s', c.merchant) + 1 == InFlight(s, c.merchant)
    ensures Within(c, s', month)
  {
    MonthGrows(c, s.past.spendLog, m, s'.past.spendLog[m], month);
    Scaled(c.estimate, InFlight(s', c.merchant), InFlight(s, c.merchant));
    Scaled(c.estimate, InFlight(s, c.merchant), c.parallel);
  }

  /** What the check reads is at least what the month has come to. */
  lemma CheckSeesMonth(c: Ceiling, s: State, since: Day, month: Day)
    requires SpendInv(s) && Calendar(c.monthStart) && c.monthStart(since) == since && since <= month
    ensures SpendSince(s.t, c.merchant, since) >= Spent(c, s, month)
  {
    var q := map k | k in s.t.spend && k.merchant == c.merchant && k.day >= since :: s.t.spend[k].spentMicrocents;
    forall k | k in q
      ensures q[k] == Sum(CostsOn(s.past.spendLog, k))
    {
      assert SpendBucketOk(s, k);
    }
    SumOfSpend(q, s.past.spendLog);
    forall m | m in MonthCosts(c, s.past.spendLog, month)
      ensures m in CostsCovered(q, s.past.spendLog)
    {
      RecordHasBucket(s, m);
    }
    SumMonotone(MonthCosts(c, s.past.spendLog, month), CostsCovered(q, s.past.spendLog));
  }

  /** Passing the check leaves room for this call and the P - 1 others. */
  lemma AdmitKeepsWithin(c: Ceiling, s: State, h: Worker, asOf: Millis)
    requires CeilingInv(c, s) && SpendInv(s) && Calendar(c.monthStart)
    requires AdmissionOf(s, h) == Checking(c.merchant, asOf)
    requires SpendSince(s.t, c.merchant, c.monthStart(DayOf(asOf))) + c.estimate <= c.cap
    requires InFlight(HandlerAt(s, h, Admitted(c.merchant)), c.merchant) <= c.parallel
    ensures c.estimate <= c.cap
    ensures forall month :: Within(c, HandlerAt(s, h, Admitted(c.merchant)), month)
  {
    var s' := HandlerAt(s, h, Admitted(c.merchant));
    var since := c.monthStart(DayOf(asOf));
    assert TimelyCheck(s, h);
    assert since <= c.monthStart(DayOf(s.clock));
    Scaled(c.estimate, InFlight(s', c.merchant), c.parallel);
    forall month
      ensures Within(c, s', month)
      ensures c.estimate <= c.cap
    {
      assert Within(c, s, month);
      CheckSeesMonth(c, s, since, if since <= month then month else since);
      SpentIsNonNegative(c, s, since);
    }
    CheckSeesMonth(c, s, since, since);
    SpentIsNonNegative(c, s, since);
  }

  lemma DraftIsPending(t: Tables, m: MessageId, owner: MerchantId, customer: CustomerId, now: Millis,
                       merchant: MerchantId)
    requires m !in t.generations
    ensures |PendingRows(CreateDraft(t, m, owner, customer, now), merchant)|
            == |PendingRows(t, merchant)| + (if owner == merchant then 1 else 0)
  {
    assert PendingRows(CreateDraft(t, m, owner, customer, now), merchant)
           == PendingRows(t, merchant) + (if owner == merchant then {m} else {});
  }

  lemma HandlerLeaves(s: State, h: Worker, merchant: MerchantId)
    requires AdmissionOf(s, h).Admitted?
    ensures |Waiting(HandlerAt(s, h, NotAdmitted), merchant)|
            + (if AdmissionOf(s, h).merchant == merchant then 1 else 0)
            == |Waiting(s, merchant)|
  {
    var after := Waiting(HandlerAt(s, h, NotAdmitted), merchant);
    assert Waiting(s, merchant) == after + (if AdmissionOf(s, h).merchant == merchant then {h} else {});
    assert h !in after;
  }

  /** Writing the pending row moves a call from one kind of in flight to the other. */
  lemma CreateKeepsInFlight(merchant: MerchantId, s: State, h: Worker, m: MessageId, customer: CustomerId)
    requires Inv(s)
    ensures InFlight(CreateStep(s, h, m, customer), merchant) == InFlight(s, merchant)
  {
    var s' := CreateStep(s, h, m, customer);
    assert LogAgrees(s, m) && RowsAgree(s.t, m);
    if AdmissionOf(s, h).Admitted? && m !in s.past.issued {
      DraftIsPending(s.t, m, AdmissionOf(s, h).merchant, customer, s.clock, merchant);
      HandlerLeaves(s, h, merchant);
      assert Waiting(s', merchant) == Waiting(HandlerAt(s, h, NotAdmitted), merchant);
    }
  }

  lemma CreateKeepsWithin(c: Ceiling, s: State, h: Worker, m: MessageId, customer: CustomerId)
    requires CeilingInv(c, s) && Inv(s)
    ensures InFlight(CreateStep(s, h, m, customer), c.merchant) == InFlight(s, c.merchant)
    ensures forall month :: Within(c, CreateStep(s, h, m, customer), month)
  {
    CreateKeepsInFlight(c.merchant, s, h, m, customer);
    forall month
      ensures Within(c, CreateStep(s, h, m, customer), month)
    {
      assert Within(c, s, month);
    }
  }

  // ------------------------------------------------- the other invariants

  lemma ReadShape(s: State, h: Worker, monthStart: Day, estimate: nat, cap: int)
    ensures var s' := ReadSpendStep(s, h, monthStart, estimate, cap);
            var a := AdmissionOf(s, h);
            if !a.Checking? then s' == s
            else if SpendSince(s.t, a.merchant, monthStart) + estimate > cap then s' == HandlerAt(s, h, NotAdmitted)
            else s' == HandlerAt(s, h, Admitted(a.merchant))
  {
  }

  /** Who is checking and who is finishing changes only through their own events. */
  lemma ReadStepKeeps(c: Ceiling, s: State, h: Worker, monthStart: Day, estimate: nat, cap: int)
    requires CeilingInv(c, s) && SpendInv(s) && Calendar(c.monthStart)
    requires StepWithin(c, s, ReadSpend(h, monthStart, estimate, cap))
    requires InFlight(ReadSpendStep(s, h, monthStart, estimate, cap), c.merchant) <= c.parallel
    ensures CeilingInv(c, ReadSpendStep(s, h, monthStart, estimate, cap))
  {
    var s' := ReadSpendStep(s, h, monthStart, estimate, cap);
    var a := AdmissionOf(s, h);
    ReadShape(s, h, monthStart, estimate, cap);
    if a.Checking? && a.merchant == c.merchant && SpendSince(s.t, c.merchant, monthStart) + estimate <= cap {
      AdmitKeepsWithin(c, s, h, a.asOf);
    } else {
      assert Calms(c, s, s');
      CalmKeepsWithin(c, s, s');
    }
    PlacesKept(c, s, s', h);
  }

  /** Steps that start no check and no call. */
  lemma PlacesKept(c: Ceiling, s: State, s': State, h: Worker)
    requires CeilingInv(c, s) && s.clock <= s'.clock
    requires s'.past.spendLog == s.past.spendLog
    requires forall g :: AdmissionOf(s', g) == AdmissionOf(s, g) || !AdmissionOf(s', g).Checking? || TimelyCheck(s', g)
    requires forall w :: AiPcOf(s', w) == AiPcOf(s, w) || CheapCall(c, s', w)
    ensures (forall g :: TimelyCheck(s', g)) && (forall w :: CheapCall(c, s', w))
    ensures forall m :: m in s'.past.spendLog ==> s'.past.spendLog[m].at <= s'.clock
  {
    forall g
      ensures TimelyCheck(s', g)
    {
      assert TimelyCheck(s, g);
    }
    forall w
      ensures CheapCall(c, s', w)
    {
      assert CheapCall(c, s, w);
    }
  }

  lemma WriteStepKeeps(c: Ceiling, s: State, w: Worker, move: AiMove)
    requires CeilingInv(c, s) && SpendInv(s) && Calendar(c.monthStart)
    requires StepWithin(c, s, Write(w, move))
    ensures CeilingInv(c, WriteStep(s, w, move))
  {
    var s' := WriteStep(s, w, move);
    var pc := AiPcOf(s, w);
    assert CheapCall(c, s, w);
    if pc.Finishing? && move.AiFinish? {
      FinishKeepsWithin(c, s, w, pc.message, pc.text, pc.cost);
      FinishPlaces(c, s, w, pc.message, pc.text, pc.cost);
    } else {
      WriteCalms(c, s, w, move);
      CalmKeepsWithin(c, s, s');
      PlacesKept(c, s, s', 0);
    }
  }

  lemma FinishPlaces(c: Ceiling, s: State, w: Worker, m: MessageId, text: string, cost: nat)
    requires CeilingInv(c, s)
    ensures var s' := FinishStep(s, w, m, text, cost);
            && (forall h :: TimelyCheck(s', h)) && (forall v :: CheapCall(c, s', v))
            && (forall k :: k in s'.past.spendLog ==> s'.past.spendLog[k].at <= s'.clock)
  {
    var s' := FinishStep(s, w, m, text, cost);
    forall h
      ensures TimelyCheck(s', h)
    {
      assert TimelyCheck(s, h);
    }
    forall v
      ensures CheapCall(c, s', v)
    {
      assert CheapCall(c, s, v);
    }
  }

  lemma WriteCalms(c: Ceiling, s: State, w: Worker, move: AiMove)
    requires StepWithin(c, s, Write(w, move)) && CheapCall(c, s, w)
    requires !(AiPcOf(s, w).Finishing? && move.AiFinish?)
    ensures var s' := WriteStep(s, w, move);
            && Calms(c, s, s') && s'.admissions == s.admissions && s'.clock == s.clock
            && (forall v :: v != w ==> AiPcOf(s', v) == AiPcOf(s, v))
            && CheapCall(c, s', w)
  {
  }

  /** Everything but the spend check, the row and the AI workers. */
  lemma OtherStepsCalm(c: Ceiling, s: State, e: Event)
    requires !e.ReadSpend? && !e.Create? && !e.Write?
    requires StepWithin(c, s, e)
    ensures var s' := Step(s, e);
            && Calms(c, s, s')
            && (e.BeginCheck? || e.CrashHandler? || s'.admissions == s.admissions)
            && (e.CrashWriter? || s'.writers == s.writers)
  {
    if e.Dispatch? {
      DispatchWrites(s, e.w, e.move);
    } else if e.SweepFresh? || e.SweepDeferred? || e.SweepResolve? || e.Pick? || e.Crash? {
      GenerationsUntouched(s, e);
      assert Step(s, e).admissions == s.admissions && Step(s, e).clock == s.clock;
    }
  }

  lemma OtherStepsKeep(c: Ceiling, s: State, e: Event)
    requires CeilingInv(c, s) && Calendar(c.monthStart)
    requires !e.ReadSpend? && !e.Create? && !e.Write?
    requires StepWithin(c, s, e)
    ensures CeilingInv(c, Step(s, e))
  {
    OtherStepsCalm(c, s, e);
    CalmKeepsWithin(c, s, Step(s, e));
    PlacesKept(c, s, Step(s, e), 0);
  }

  lemma CreateStepKeeps(c: Ceiling, s: State, h: Worker, m: MessageId, customer: CustomerId)
    requires CeilingInv(c, s) && Inv(s)
    ensures CeilingInv(c, CreateStep(s, h, m, customer))
  {
    CreateKeepsWithin(c, s, h, m, customer);
    PlacesKept(c, s, CreateStep(s, h, m, customer), h);
  }

  lemma StepKeepsCeiling(c: Ceiling, s: State, e: Event)
    requires CeilingInv(c, s) && Inv(s) && SpendInv(s) && Calendar(c.monthStart)
    requires StepWithin(c, s, e) && InFlight(Step(s, e), c.merchant) <= c.parallel
    ensures CeilingInv(c, Step(s, e))
  {
    match e
    case ReadSpend(h, monthStart, estimate, cap) => ReadStepKeeps(c, s, h, monthStart, estimate, cap);
    case Create(h, m, customer) => CreateStepKeeps(c, s, h, m, customer);
    case Write(w, move) => WriteStepKeeps(c, s, w, move);
    case _ => OtherStepsKeep(c, s, e);
  }

  lemma {:induction false} RunKeepsCeiling(c: Ceiling, clock: Millis, es: seq<Event>)
    requires Calendar(c.monthStart) && CeilingRun(c, Init(clock), es)
    ensures CeilingInv(c, Run(Init(clock), es))
    decreases |es|
  {
    if es == [] {
      assert PendingRows(Init(clock).t, c.merchant) == {} && Waiting(Init(clock), c.merchant) == {};
      forall month
        ensures Within(c, Init(clock), month)
      {
        assert MonthCosts(c, map[], month) == map[];
      }
    } else {
      RunKeepsCeiling(c, clock, es[..|es| - 1]);
      RunKeepsSpend(clock, es[..|es| - 1]);
      StepKeepsCeiling(c, Run(Init(clock), es[..|es| - 1]), es[|es| - 1]);
    }
  }

  // ------------------------------------------------------------------ theorem

  /** The buckets of one month of the merchant. */
  ghost function MonthSpend(c: Ceiling, t: Tables, month: Day): int {
    Sum(map k | k in t.spend && k.merchant == c.merchant && c.monthStart(k.day) == month :: t.spend[k].spentMicrocents)
  }

  lemma MonthSpendIsSpent(c: Ceiling, s: State, month: Day)
    requires SpendInv(s)
    ensures MonthSpend(c, s.t, month) == Spent(c, s, month)
  {
    var q := map k | k in s.t.spend && k.merchant == c.merchant && c.monthStart(k.day) == month
      :: s.t.spend[k].spentMicrocents;
    forall k | k in q
      ensures q[k] == Sum(CostsOn(s.past.spendLog, k))
    {
      assert SpendBucketOk(s, k);
    }
    SumOfSpend(q, s.past.spendLog);
    forall m | m in MonthCosts(c, s.past.spendLog, month)
      ensures m in CostsCovered(q, s.past.spendLog)
    {
      RecordHasBucket(s, m);
    }
    assert CostsCovered(q, s.past.spendLog) == MonthCosts(c, s.past.spendLog, month);
  }

  lemma WithinTheLimit(c: Ceiling, s: State, month: Day)
    requires Within(c, s, month)
    ensures Spent(c, s, month) == 0
            || (c.estimate <= c.cap && Spent(c, s, month) <= c.cap + (c.parallel - 1) * c.estimate)
  {
    Scaled(c.estimate, 0, InFlight(s, c.merchant));
    assert (c.parallel - 1) * c.estimate == c.estimate * c.parallel - c.estimate;
  }

  /** With at most P calls in flight, no month's spend exceeds the cap by more than P - 1
      worst-case estimates; and while one estimate does not fit under the cap, nothing is spent. */
  lemma CeilingHolds(c: Ceiling, clock: Millis, es: seq<Event>, month: Day)
    requires Calendar(c.monthStart) && CeilingRun(c, Init(clock), es)
    ensures var spent := MonthSpend(c, Run(Init(clock), es).t, month);
            spent == 0 || (c.estimate <= c.cap && spent <= c.cap + (c.parallel - 1) * c.estimate)
  {
    RunKeepsCeiling(c, clock, es);
    RunKeepsSpend(clock, es);
    MonthSpendIsSpent(c, Run(Init(clock), es), month);
    WithinTheLimit(c, Run(Init(clock), es), month);
  }

  /** A call within the token bounds meets what `CeilingRun` asks of each reply. */
  lemma BoundedCallsAreCheap(c: Ceiling, provider: CostRates.Provider, model: string, maxTokens: nat, i: nat, o: nat)
    requires CostRates.EstimateCost(provider, model, CostRates.ESTIMATED_INPUT_TOKENS_FOR_CEILING_CHECK, maxTokens)
             == Some(c.estimate)
    requires i <= CostRates.ESTIMATED_INPUT_TOKENS_FOR_CEILING_CHECK && o <= maxTokens
    ensures CostRates.EstimateCost(provider, model, i, o).Some?
    ensures forall s: State, w: Worker, text: string ::
              StepWithin(c, s, Write(w, AiReply(Content(text, CostRates.EstimateCost(provider, model, i, o).value))))
  {
    CostRates.CostMonotone(provider, model, i, o, CostRates.ESTIMATED_INPUT_TOKENS_FOR_CEILING_CHECK, maxTokens);
  }
}
