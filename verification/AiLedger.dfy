/** The AI spend ledger tells the truth about completions: every merchant-day bucket is
    exactly the cost and the number of the generations completed then, under racing and
    replayed workers, crashes and erasure. */
module AiLedger {
  import opened Collections
  import opened Tables
  import opened Machine
  import opened SendOnce
  import opened FrozenText

  function SpendKeyOf(r: SpendRecord): BucketKey {
    BucketKey(r.merchant, DayOf(r.at))
  }

  /** The costs recorded under one bucket, by message. */
  function CostsOn(log: map<MessageId, SpendRecord>, k: BucketKey): map<MessageId, int> {
    map m | m in log && SpendKeyOf(log[m]) == k :: log[m].cost
  }

  /** A generation is on record exactly if it is completed, at the row's own cost. */
  predicate SpendRow(s: State, m: MessageId) {
    && (m in s.t.generations ==> (Completed(s.t, m) <==> m in s.past.spendLog))
    && (m in s.past.spendLog ==>
          && m in s.past.issued && (m in s.t.generations || m in s.past.redacted)
          && (m in s.t.generations ==>
                && s.t.generations[m].merchant == s.past.spendLog[m].merchant
                && s.t.generations[m].costMicrocents == s.past.spendLog[m].cost))
  }

  ghost predicate SpendBucketOk(s: State, k: BucketKey) {
    SpendOn(s.t, k.merchant, k.day)
    == SpendBucket(Sum(CostsOn(s.past.spendLog, k)), |CostsOn(s.past.spendLog, k)|)
  }

  ghost predicate SpendInv(s: State) {
    && (forall m :: SpendRow(s, m))
    && (forall k :: SpendBucketOk(s, k))
  }

  /** Recording a completion adds its cost, and one, to its own bucket and to no other. */
  lemma CostsGrow(log: map<MessageId, SpendRecord>, m: MessageId, r: SpendRecord, k: BucketKey)
    requires m !in log
    ensures var grows := k == SpendKeyOf(r);
            && Sum(CostsOn(log[m := r], k)) == Sum(CostsOn(log, k)) + (if grows then r.cost else 0)
            && |CostsOn(log[m := r], k)| == |CostsOn(log, k)| + (if grows then 1 else 0)
  {
    if k == SpendKeyOf(r) {
      assert CostsOn(log[m := r], k) == CostsOn(log, k)[m := r.cost];
      SumUpdate(CostsOn(log, k), m, r.cost);
    } else {
      assert CostsOn(log[m := r], k) == CostsOn(log, k);
    }
  }

  lemma FinishKeepsSpend(s: State, w: Worker, m: MessageId, text: string, cost: nat)
    requires Inv(s) && SpendInv(s)
    ensures SpendInv(FinishStep(s, w, m, text, cost))
  {
    var s' := FinishStep(s, w, m, text, cost);
    assert SpendRow(s, m) && RowsAgree(s.t, m) && LogAgrees(s, m);
    forall k
      ensures SpendRow(s', k)
    {
      assert SpendRow(s, k);
    }
    forall k
      ensures SpendBucketOk(s', k)
    {
      assert SpendBucketOk(s, k);
      if m in s.t.generations && s.t.generations[m].status == GenerationPending {
        CostsGrow(s.past.spendLog, m, s'.past.spendLog[m], k);
      }
    }
  }

  /** Steps that complete nothing: rows may fail, appear or be erased. */
  lemma BystanderKeepsSpend(s: State, s': State)
    requires SpendInv(s)
    requires s'.t.spend == s.t.spend && s'.past.spendLog == s.past.spendLog
    requires s.past.issued <= s'.past.issued && s.past.redacted <= s'.past.redacted
    requires forall m :: m in s.t.generations && m !in s'.t.generations ==> m in s'.past.redacted
    requires forall m :: m in s'.t.generations && m in s.t.generations ==>
               || s'.t.generations[m] == s.t.generations[m]
               || (!Completed(s.t, m) && !Completed(s'.t, m))
    requires forall m :: m in s'.t.generations && m !in s.t.generations ==> !Completed(s'.t, m) && m !in s.past.issued
    ensures SpendInv(s')
  {
    forall m
      ensures SpendRow(s', m)
    {
      assert SpendRow(s, m);
    }
    forall k
      ensures SpendBucketOk(s', k)
    {
      assert SpendBucketOk(s, k);
    }
  }

  lemma WriteKeepsSpend(s: State, w: Worker, move: AiMove)
    requires Inv(s) && SpendInv(s)
    ensures SpendInv(WriteStep(s, w, move))
  {
    WriteShape(s, w, move);
    var s', pc := WriteStep(s, w, move), AiPcOf(s, w);
    if pc.Finishing? && s' == FinishStep(s, w, pc.message, pc.text, pc.cost) {
      FinishKeepsSpend(s, w, pc.message, pc.text, pc.cost);
    } else {
      BystanderKeepsSpend(s, s');
    }
  }

  lemma CreateKeepsSpend(s: State, h: Worker, m: MessageId, customer: CustomerId)
    requires Inv(s) && SpendInv(s)
    ensures SpendInv(CreateStep(s, h, m, customer))
  {
    assert LogAgrees(s, m) && RowsAgree(s.t, m);
    BystanderKeepsSpend(s, CreateStep(s, h, m, customer));
  }

  lemma RedactKeepsSpend(s: State, merchant: MerchantId, customer: CustomerId)
    requires Inv(s) && SpendInv(s)
    ensures SpendInv(RedactStep(s, merchant, customer))
  {
    var s' := RedactStep(s, merchant, customer);
    forall m | m in s.t.generations && m !in s'.t.generations
      ensures m in s'.past.redacted
    {
      assert RowsAgree(s.t, m);
    }
    BystanderKeepsSpend(s, s');
  }

  lemma DispatchKeepsSpend(s: State, w: Worker, move: Move)
    requires SpendInv(s)
    ensures SpendInv(DispatchStep(s, w, move))
  {
    DispatchWrites(s, w, move);
    BystanderKeepsSpend(s, DispatchStep(s, w, move));
  }

  lemma QueueKeepsSpend(s: State, e: Event)
    requires SpendInv(s)
    requires Quiet(e) || e.SweepFresh? || e.SweepDeferred? || e.SweepResolve? || e.Pick? || e.Crash?
    ensures SpendInv(Step(s, e))
  {
    GenerationsUntouched(s, e);
    BystanderKeepsSpend(s, Step(s, e));
  }

  lemma GenerationsUntouched(s: State, e: Event)
    requires Quiet(e) || e.SweepFresh? || e.SweepDeferred? || e.SweepResolve? || e.Pick? || e.Crash?
    ensures var s' := Step(s, e);
            && s'.t.generations == s.t.generations && s'.t.spend == s.t.spend
            && s'.past == s.past.(seenDeferred := s'.past.seenDeferred)
  {
    if e.SweepResolve? {
      ResolveShape(s, e.message, e.reason);
    } else if !Quiet(e) {
      QueueShape(s, e);
    }
  }

  lemma StepKeepsSpend(s: State, e: Event)
    requires Inv(s) && SpendInv(s)
    ensures SpendInv(Step(s, e))
  {
    match e
    case Write(w, move) => WriteKeepsSpend(s, w, move);
    case Create(h, m, customer) => CreateKeepsSpend(s, h, m, customer);
    case Redact(merchant, customer) => RedactKeepsSpend(s, merchant, customer);
    case Dispatch(w, move) => DispatchKeepsSpend(s, w, move);
    case _ => QueueKeepsSpend(s, e);
  }

  lemma {:induction false} RunKeepsSpend(clock: Millis, es: seq<Event>)
    ensures Inv(Run(Init(clock), es)) && SpendInv(Run(Init(clock), es))
    decreases |es|
  {
    if es == [] {
      InitInv(clock);
      forall k
        ensures SpendBucketOk(Init(clock), k)
      {
        assert CostsOn(map[], k) == map[];
      }
    } else {
      RunKeepsSpend(clock, es[..|es| - 1]);
      StepKeeps(Run(Init(clock), es[..|es| - 1]), es[|es| - 1]);
      StepKeepsSpend(Run(Init(clock), es[..|es| - 1]), es[|es| - 1]);
    }
  }

  // ---------------------------------------------------------- sums of buckets

  /** The costs that a family of buckets covers. */
  function CostsCovered(q: map<BucketKey, int>, log: map<MessageId, SpendRecord>): map<MessageId, int> {
    map m | m in log && SpendKeyOf(log[m]) in q :: log[m].cost
  }

  lemma CoveredMember(q: map<BucketKey, int>, log: map<MessageId, SpendRecord>, k: BucketKey, m: MessageId)
    requires k in q
    ensures m in CostsCovered(q, log) <==> m in CostsCovered(q - {k}, log) || m in CostsOn(log, k)
    ensures !(m in CostsCovered(q - {k}, log) && m in CostsOn(log, k))
    ensures m in CostsCovered(q - {k}, log) ==> CostsCovered(q, log)[m] == CostsCovered(q - {k}, log)[m]
    ensures m in CostsOn(log, k) ==> CostsCovered(q, log)[m] == CostsOn(log, k)[m]
  {
  }

  lemma CoveredSplit(q: map<BucketKey, int>, log: map<MessageId, SpendRecord>, k: BucketKey)
    requires k in q
    ensures CostsCovered(q, log) == CostsCovered(q - {k}, log) + CostsOn(log, k)
    ensures CostsCovered(q - {k}, log).Keys !! CostsOn(log, k).Keys
    ensures |CostsCovered(q, log)| == |CostsCovered(q - {k}, log)| + |CostsOn(log, k)|
  {
    forall m
      ensures m in CostsCovered(q, log) <==> m in CostsCovered(q - {k}, log) || m in CostsOn(log, k)
      ensures !(m in CostsCovered(q - {k}, log) && m in CostsOn(log, k))
      ensures m in CostsCovered(q - {k}, log) ==> CostsCovered(q, log)[m] == CostsCovered(q - {k}, log)[m]
      ensures m in CostsOn(log, k) ==> CostsCovered(q, log)[m] == CostsOn(log, k)[m]
    {
      CoveredMember(q, log, k, m);
    }
    hide CostsCovered, CostsOn;
    assert CostsCovered(q, log) == CostsCovered(q - {k}, log) + CostsOn(log, k);
    UnionSize(CostsCovered(q - {k}, log), CostsOn(log, k));
  }

  /** Any family of buckets adds up to the costs it covers, and their counters to how many. */
  lemma {:induction false} SumOfSpend(q: map<BucketKey, int>, log: map<MessageId, SpendRecord>)
    requires forall k :: k in q ==> q[k] == Sum(CostsOn(log, k))
    ensures Sum(q) == Sum(CostsCovered(q, log))
    decreases q.Keys
  {
    if q == map[] {
      assert CostsCovered(q, log) == map[];
    } else {
      hide CostsCovered, CostsOn, Sum;
      var k :| k in q;
      SumSplit(q, k);
      SumOfSpend(q - {k}, log);
      CoveredSplit(q, log, k);
      SumUnion(CostsCovered(q - {k}, log), CostsOn(log, k));
    }
  }

  lemma {:induction false} SumOfCounts(q: map<BucketKey, int>, log: map<MessageId, SpendRecord>)
    requires forall k :: k in q ==> q[k] == |CostsOn(log, k)|
    ensures Sum(q) == |CostsCovered(q, log)|
    decreases q.Keys
  {
    if q == map[] {
      assert CostsCovered(q, log) == map[];
    } else {
      var k :| k in q;
      SumSplit(q, k);
      SumOfCounts(q - {k}, log);
      CoveredSplit(q, log, k);
    }
  }

  // ------------------------------------------------------------------ theorems

  /** Every bucket is the sum of the costs, and the number, of the generations ever
      completed under it; a completion is on record exactly once. */
  lemma SpendCountsCompletions(clock: Millis, es: seq<Event>, merchant: MerchantId, day: Day)
    ensures var s := Run(Init(clock), es);
            var costs := CostsOn(s.past.spendLog, BucketKey(merchant, day));
            && SpendOn(s.t, merchant, day) == SpendBucket(Sum(costs), |costs|)
            && forall m :: m in s.t.generations ==>
                 && (s.t.generations[m].status == GenerationCompleted <==> m in s.past.spendLog)
                 && (m in s.past.spendLog ==> s.past.spendLog[m].cost == s.t.generations[m].costMicrocents)
  {
    RunKeepsSpend(clock, es);
    var s := Run(Init(clock), es);
    assert SpendBucketOk(s, BucketKey(merchant, day));
    forall m | m in s.t.generations
      ensures (s.t.generations[m].status == GenerationCompleted <==> m in s.past.spendLog)
      ensures m in s.past.spendLog ==> s.past.spendLog[m].cost == s.t.generations[m].costMicrocents
    {
      assert SpendRow(s, m);
    }
  }

  /** The costs of a merchant's completed generations. */
  function CompletedCosts(t: Tables, merchant: MerchantId): map<MessageId, int> {
    map m | m in t.generations && Completed(t, m) && t.generations[m].merchant == merchant
      :: t.generations[m].costMicrocents
  }

  ghost function TotalSpend(t: Tables, merchant: MerchantId): int {
    Sum(map k | k in t.spend && k.merchant == merchant :: t.spend[k].spentMicrocents)
  }

  ghost function TotalGenerations(t: Tables, merchant: MerchantId): int {
    Sum(map k | k in t.spend && k.merchant == merchant :: t.spend[k].generationCount)
  }

  /** Without erasure: a merchant's buckets add up to the costs of its completed
      generation rows, and their counters to the number of those rows. */
  lemma SpendIsConserved(clock: Millis, es: seq<Event>, merchant: MerchantId)
    requires Run(Init(clock), es).past.redacted == {}
    ensures var t := Run(Init(clock), es).t;
            && TotalSpend(t, merchant) == Sum(CompletedCosts(t, merchant))
            && TotalGenerations(t, merchant) == |CompletedCosts(t, merchant)|
  {
    var s := Run(Init(clock), es);
    RunKeepsSpend(clock, es);
    var q := map k | k in s.t.spend && k.merchant == merchant :: s.t.spend[k].spentMicrocents;
    var c := map k | k in s.t.spend && k.merchant == merchant :: s.t.spend[k].generationCount;
    forall k | k in q
      ensures q[k] == Sum(CostsOn(s.past.spendLog, k)) && c[k] == |CostsOn(s.past.spendLog, k)|
    {
      assert SpendBucketOk(s, k);
    }
    SumOfSpend(q, s.past.spendLog);
    SumOfCounts(c, s.past.spendLog);
    RecordsAreRows(s, q, merchant);
    RecordsAreRows(s, c, merchant);
  }

  lemma RecordsAreRows(s: State, q: map<BucketKey, int>, merchant: MerchantId)
    requires Inv(s) && SpendInv(s) && s.past.redacted == {}
    requires forall k :: k in q <==> k in s.t.spend && k.merchant == merchant
    ensures CostsCovered(q, s.past.spendLog) == CompletedCosts(s.t, merchant)
  {
    var log := s.past.spendLog;
    forall m
      ensures m in CostsCovered(q, log) <==> m in CompletedCosts(s.t, merchant)
      ensures m in CostsCovered(q, log) ==> CostsCovered(q, log)[m] == CompletedCosts(s.t, merchant)[m]
    {
      assert SpendRow(s, m);
      if m in log && log[m].merchant == merchant {
        RecordHasBucket(s, m);
      }
    }
  }

  /** Every completion on record has its bucket row. */
  lemma RecordHasBucket(s: State, m: MessageId)
    requires SpendInv(s) && m in s.past.spendLog
    ensures SpendKeyOf(s.past.spendLog[m]) in s.t.spend
  {
    var k := SpendKeyOf(s.past.spendLog[m]);
    assert SpendBucketOk(s, k);
    assert m in CostsOn(s.past.spendLog, k);
    assert |CostsOn(s.past.spendLog, k)| > 0;
  }

  /** The merchant's recorded costs from a day on. */
  function CostsSince(log: map<MessageId, SpendRecord>, merchant: MerchantId, since: Day): map<MessageId, int> {
    map m | m in log && log[m].merchant == merchant && log[m].at / 86_400_000 >= since :: log[m].cost
  }

  lemma CoveredSince(s: State, q: map<BucketKey, int>, merchant: MerchantId, since: Day)
    requires SpendInv(s)
    requires forall k :: k in q <==> k in s.t.spend && k.merchant == merchant && k.day >= since
    ensures CostsCovered(q, s.past.spendLog) == CostsSince(s.past.spendLog, merchant, since)
  {
    forall m | m in CostsSince(s.past.spendLog, merchant, since)
      ensures m in CostsCovered(q, s.past.spendLog)
    {
      RecordHasBucket(s, m);
    }
  }

  lemma ReadCountsRecords(s: State, merchant: MerchantId, since: Day)
    requires SpendInv(s)
    ensures SpendSince(s.t, merchant, since) == Sum(CostsSince(s.past.spendLog, merchant, since))
  {
    var q := map k | k in s.t.spend && k.merchant == merchant && k.day >= since :: s.t.spend[k].spentMicrocents;
    forall k | k in q
      ensures q[k] == Sum(CostsOn(s.past.spendLog, k))
    {
      assert SpendBucketOk(s, k);
    }
    CoveredSince(s, q, merchant, since);
    hide CostsOn, CostsCovered, CostsSince, SpendInv, Sum;
    SumOfSpend(q, s.past.spendLog);
  }

  /** What the month read of the spend check returns, over every run: the costs of exactly the
      merchant's own completions since that day, whether or not their rows are still there. */
  lemma ReadIsExact(clock: Millis, es: seq<Event>, merchant: MerchantId, since: Day)
    ensures var s := Run(Init(clock), es);
            SpendSince(s.t, merchant, since) == Sum(CostsSince(s.past.spendLog, merchant, since))
  {
    RunKeepsSpend(clock, es);
    ReadCountsRecords(Run(Init(clock), es), merchant, since);
  }

  /** A draft shows text only once its generation is completed, and then that text. */
  lemma TextMeansCompleted(clock: Millis, es: seq<Event>, m: MessageId)
    requires m in Run(Init(clock), es).t.messages
    ensures var t := Run(Init(clock), es).t;
            && (t.messages[m].generatedText != "" ==>
                  m in t.generations && t.generations[m].status == GenerationCompleted)
            && (m in t.generations && t.generations[m].status == GenerationCompleted ==>
                  t.generations[m].text == Some(t.messages[m].generatedText))
  {
    InitInv(clock);
    RunKeepsText(Init(clock), es);
    assert TextOk(Run(Init(clock), es), m) && RowsAgree(Run(Init(clock), es).t, m);
  }
}
