/** The quota gate only reads the buckets; the authoritative increment comes after the mail
    has gone. With N single-job workers the day count still ends at most N - 1 above the
    daily cap and the month count at most N - 1 above the monthly cap, wherever midnight
    or the month's end falls between the gate's clock, its reads and the send. */
module QuotaBound {
  import opened Collections
  import opened Tables
  import opened GateChain
  import opened Machine
  import opened SendOnce
  import opened SendLedger
  import opened Steady

  /** The two caps are one argument over two periods. A period is named by its first day. */
  datatype Limit = Daily | Monthly

  function Period(cfg: Config, limit: Limit, day: Day): Day {
    if limit == Daily then day else cfg.monthStart(day)
  }

  function Cap(settings: Settings, limit: Limit): int {
    if limit == Daily then settings.dailySendCap else settings.monthlySendsCap
  }

  function UsageRead(seen: Reads, limit: Limit): Option<int> {
    if limit == Daily then seen.quotaDay else seen.quotaMonth
  }

  /** The recorded sends of a merchant in one period. */
  function Counted(cfg: Config, limit: Limit, log: map<MessageId, SendRecord>, merchant: MerchantId,
                   p: Day): set<MessageId> {
    set m | m in log && log[m].merchant == merchant && Period(cfg, limit, DayOf(log[m].at)) == p
  }

  /** The worker may still add a send to period p: it has passed the usage read of p, or
      its gates' clock was taken in an earlier period and it may yet pass that one. */
  predicate Threat(cfg: Config, limit: Limit, s: State, merchant: MerchantId, p: Day, pc: Pc) {
    match pc
    case Gating(job, ctx, gateNow, seen) =>
      var now := Period(cfg, limit, DayOf(gateNow));
      && job.merchant == merchant
      && (now < p
          || (now == p && UsageRead(seen, limit).Some? && UsageRead(seen, limit).value < Cap(ctx.settings, limit)))
    case Starting(pass) => pass.job.merchant == merchant && Period(cfg, limit, DayOf(pass.sendNow)) == p
    case InSend(pass) => pass.job.merchant == merchant && Period(cfg, limit, DayOf(pass.sendNow)) == p
    case Completing(pass, _) =>
      && pass.job.merchant == merchant && Period(cfg, limit, DayOf(pass.sendNow)) == p
      && pass.job.message !in s.past.sentLog
    case _ => false
  }

  function Threats(cfg: Config, limit: Limit, s: State, merchant: MerchantId, p: Day): set<Worker> {
    set w | w in s.dispatchers && Threat(cfg, limit, s, merchant, p, s.dispatchers[w])
  }

  predicate Cleared(cfg: Config, limit: Limit, pc: Pc) {
    pc.Starting? || pc.InSend? || pc.Completing? ==> Cap(cfg.settings(pc.pass.job.merchant), limit) > 0
  }

  /** Sends in the period plus workers that may still add one. */
  ghost predicate Bounded(cfg: Config, limit: Limit, s: State, merchant: MerchantId, p: Day) {
    var count := |Counted(cfg, limit, s.past.sentLog, merchant, p)|;
    var cap := Cap(cfg.settings(merchant), limit);
    count == 0 || (cap > 0 && count + |Threats(cfg, limit, s, merchant, p)| <= cap + cfg.workers - 1)
  }

  ghost predicate QuotaInv(cfg: Config, limit: Limit, s: State) {
    && (forall w :: Cleared(cfg, limit, PcOf(s, w)))
    && (forall merchant, p :: Bounded(cfg, limit, s, merchant, p))
  }

  // ------------------------------------------------------- buckets as counts

  /** The recorded sends that a family of buckets covers. */
  function Covered(q: map<BucketKey, int>, log: map<MessageId, SendRecord>): set<MessageId> {
    set m | m in log && KeyOf(log[m]) in q
  }

  /** Any family of buckets that each count their sends adds up to the sends it covers. */
  lemma {:induction false} SumOfBuckets(q: map<BucketKey, int>, log: map<MessageId, SendRecord>)
    requires forall k :: k in q ==> q[k] == |Recorded(log, k)|
    ensures Sum(q) == |Covered(q, log)|
    decreases |q|
  {
    if q == map[] {
      assert Covered(q, log) == {};
    } else {
      var k :| k in q;
      SumSplit(q, k);
      SumOfBuckets(q - {k}, log);
      assert Covered(q, log) == Recorded(log, k) + Covered(q - {k}, log);
    }
  }

  function SentFrom(log: map<MessageId, SendRecord>, merchant: MerchantId, since: Day): set<MessageId> {
    set m | m in log && log[m].merchant == merchant && DayOf(log[m].at) >= since
  }

  /** The month read counts every send of the merchant from that day on. */
  lemma QuotaSinceCounts(s: State, merchant: MerchantId, since: Day)
    requires LedgerInv(s)
    ensures QuotaSince(s.t, merchant, since)
            == |SentFrom(s.past.sentLog, merchant, since)|
  {
    var q := map k | k in s.t.quota && k.merchant == merchant && k.day >= since :: s.t.quota[k];
    assert forall k :: k in q ==> BucketOk(s, k);
    SumOfBuckets(q, s.past.sentLog);
    var meant := SentFrom(s.past.sentLog, merchant, since);
    forall m | m in meant
      ensures m in Covered(q, s.past.sentLog)
    {
      var k := KeyOf(s.past.sentLog[m]);
      assert BucketOk(s, k) && m in Recorded(s.past.sentLog, k);
    }
    assert Covered(q, s.past.sentLog) == meant;
  }

  /** Each usage read is at least the count of the period its clock is in. */
  lemma DayReadCounts(cfg: Config, s: State, merchant: MerchantId, day: Day)
    requires LedgerInv(s)
    ensures QuotaOn(s.t, merchant, day) == |Counted(cfg, Daily, s.past.sentLog, merchant, day)|
  {
    assert BucketOk(s, BucketKey(merchant, day));
    assert Recorded(s.past.sentLog, BucketKey(merchant, day)) == Counted(cfg, Daily, s.past.sentLog, merchant, day);
  }

  lemma MonthReadCounts(cfg: Config, s: State, merchant: MerchantId, day: Day)
    requires LedgerInv(s) && Calendar(cfg.monthStart)
    ensures QuotaSince(s.t, merchant, cfg.monthStart(day))
            >= |Counted(cfg, Monthly, s.past.sentLog, merchant, cfg.monthStart(day))|
  {
    var since := cfg.monthStart(day);
    QuotaSinceCounts(s, merchant, since);
    SubsetSize(Counted(cfg, Monthly, s.past.sentLog, merchant, since), SentFrom(s.past.sentLog, merchant, since));
  }

  // ------------------------------------------------------------------- steps

  lemma ThreatsFit(cfg: Config, limit: Limit, s: State, merchant: MerchantId, p: Day)
    requires ClockInv(cfg, s)
    ensures |Threats(cfg, limit, s, merchant, p)| <= cfg.workers
  {
    SizeBelow(Threats(cfg, limit, s, merchant, p), cfg.workers);
  }

  /** Nothing is recorded in a period that has not begun. */
  lemma FutureIsEmpty(cfg: Config, limit: Limit, s: State, merchant: MerchantId, p: Day)
    requires ClockInv(cfg, s) && Calendar(cfg.monthStart)
    requires Period(cfg, limit, DayOf(s.clock)) < p
    ensures Counted(cfg, limit, s.past.sentLog, merchant, p) == {}
  {
    forall m | m in s.past.sentLog
      ensures Period(cfg, limit, DayOf(s.past.sentLog[m].at)) < p
    {
      assert DayOf(s.past.sentLog[m].at) <= DayOf(s.clock);
    }
  }

  /** A worker that moves without recording a send keeps the bound if it threatens only
      periods it threatened before, periods not begun, or a period with room for it. */
  lemma MoveKeepsBound(cfg: Config, limit: Limit, s: State, s': State, w: Worker, merchant: MerchantId, p: Day)
    requires Bounded(cfg, limit, s, merchant, p) && ClockInv(cfg, s')
    requires s'.past.sentLog == s.past.sentLog
    requires forall v :: v != w ==> PcOf(s', v) == PcOf(s, v)
    requires Threat(cfg, limit, s', merchant, p, PcOf(s', w)) ==>
               || Threat(cfg, limit, s, merchant, p, PcOf(s, w))
               || |Counted(cfg, limit, s.past.sentLog, merchant, p)| == 0
               || |Counted(cfg, limit, s.past.sentLog, merchant, p)| < Cap(cfg.settings(merchant), limit)
    ensures Bounded(cfg, limit, s', merchant, p)
  {
    ThreatsFit(cfg, limit, s', merchant, p);
    if Threat(cfg, limit, s', merchant, p, PcOf(s', w)) ==> Threat(cfg, limit, s, merchant, p, PcOf(s, w)) {
      forall v | v in Threats(cfg, limit, s', merchant, p)
        ensures v in Threats(cfg, limit, s, merchant, p)
      {
        assert PcOf(s', v) == s'.dispatchers[v];
        assert v != w ==> PcOf(s', v) == PcOf(s, v);
      }
      SubsetSize(Threats(cfg, limit, s', merchant, p), Threats(cfg, limit, s, merchant, p));
    }
  }

  /** The gate that lets a worker through has read less than the cap, and the cap is positive. */
  lemma GateOpens(cfg: Config, limit: Limit, s: State, w: Worker, merchant: MerchantId, p: Day)
    requires ClockInv(cfg, s) && Calendar(cfg.monthStart)
    requires PcOf(s, w).Gating? && RunGateChain(PcOf(s, w).ctx, PcOf(s, w).seen) == Passed
    requires PcOf(s, w).job.merchant == merchant && Period(cfg, limit, DayOf(s.clock)) == p
    ensures Threat(cfg, limit, s, merchant, p, PcOf(s, w))
  {
    assert TimesOk(cfg, s, PcOf(s, w));
    assert DayOf(PcOf(s, w).gateNow) <= DayOf(s.clock);
  }

  /** Outside the gate reads, whatever a worker newly threatens is a period not begun or
      the one it has just been cleared for. */
  lemma NewThreat(cfg: Config, limit: Limit, s: State, s': State, pc: Pc, move: Move, pc': Pc,
                  merchant: MerchantId, p: Day)
    requires Follows(s, pc, move, pc') && s'.past.sentLog == s.past.sentLog
    requires Threat(cfg, limit, s', merchant, p, pc') && !Threat(cfg, limit, s, merchant, p, pc)
    requires !pc.Gating? || pc'.Starting?
    ensures || (pc'.Gating? && pc.Loading? && Period(cfg, limit, DayOf(s.clock)) < p)
            || (pc'.Starting? && pc.Gating? && RunGateChain(pc.ctx, pc.seen) == Passed
                && pc.job.merchant == merchant && Period(cfg, limit, DayOf(s.clock)) == p)
  {
  }

  /** Steps of a dispatch worker other than gate reads and the recording itself. */
  lemma AdvanceKeepsBound(cfg: Config, limit: Limit, s: State, w: Worker, move: Move, merchant: MerchantId, p: Day)
    requires Sound(cfg, s) && QuotaInv(cfg, limit, s) && Calendar(cfg.monthStart)
    requires StepOk(cfg, s, Dispatch(w, move))
    requires DispatchStep(s, w, move).past.sentLog == s.past.sentLog
    requires !PcOf(s, w).Gating? || PcOf(DispatchStep(s, w, move), w).Starting?
    ensures Bounded(cfg, limit, DispatchStep(s, w, move), merchant, p)
  {
    var s' := DispatchStep(s, w, move);
    var pc, pc' := PcOf(s, w), PcOf(s', w);
    DispatchAdvances(s, w, move);
    DispatchKeepsClock(cfg, s, w, move);
    assert Bounded(cfg, limit, s, merchant, p);
    if Threat(cfg, limit, s', merchant, p, pc') && !Threat(cfg, limit, s, merchant, p, pc) {
      NewThreat(cfg, limit, s, s', pc, move, pc', merchant, p);
      if pc.Gating? { GateOpens(cfg, limit, s, w, merchant, p); } else { FutureIsEmpty(cfg, limit, s, merchant, p); }
    }
    MoveKeepsBound(cfg, limit, s, s', w, merchant, p);
  }

  /** A usage read never understates the period it is about. */
  lemma UsageReadCounts(cfg: Config, limit: Limit, s: State, w: Worker, move: Move)
    requires LedgerInv(s) && Calendar(cfg.monthStart) && StepOk(cfg, s, Dispatch(w, move))
    requires PcOf(s, w).Gating? && PcOf(DispatchStep(s, w, move), w).Gating?
    ensures var pc, pc' := PcOf(s, w), PcOf(DispatchStep(s, w, move), w);
            || UsageRead(pc'.seen, limit) == UsageRead(pc.seen, limit)
            || (UsageRead(pc'.seen, limit).Some?
                && UsageRead(pc'.seen, limit).value
                   >= |Counted(cfg, limit, s.past.sentLog, pc.job.merchant, Period(cfg, limit, DayOf(pc.gateNow)))|)
  {
    var pc := PcOf(s, w);
    DayReadCounts(cfg, s, pc.job.merchant, DayOf(pc.gateNow));
    MonthReadCounts(cfg, s, pc.job.merchant, DayOf(pc.gateNow));
  }

  lemma ReadKeepsBound(cfg: Config, limit: Limit, s: State, w: Worker, move: Move, merchant: MerchantId, p: Day)
    requires Sound(cfg, s) && QuotaInv(cfg, limit, s) && Calendar(cfg.monthStart)
    requires StepOk(cfg, s, Dispatch(w, move))
    requires PcOf(s, w).Gating? && PcOf(DispatchStep(s, w, move), w).Gating?
    ensures Bounded(cfg, limit, DispatchStep(s, w, move), merchant, p)
  {
    var s' := DispatchStep(s, w, move);
    GateShape(s, w, move);
    UsageReadCounts(cfg, limit, s, w, move);
    DispatchKeepsClock(cfg, s, w, move);
    assert Bounded(cfg, limit, s, merchant, p) && TimesOk(cfg, s, PcOf(s, w));
    MoveKeepsBound(cfg, limit, s, s', w, merchant, p);
  }

  /** Whether a recorded send falls in the merchant's period. */
  predicate FallsIn(cfg: Config, limit: Limit, r: SendRecord, merchant: MerchantId, p: Day) {
    r.merchant == merchant && Period(cfg, limit, DayOf(r.at)) == p
  }

  lemma CountedGrows(cfg: Config, limit: Limit, log: map<MessageId, SendRecord>, m: MessageId, r: SendRecord,
                     merchant: MerchantId, p: Day)
    requires m !in log
    ensures |Counted(cfg, limit, log[m := r], merchant, p)|
            == |Counted(cfg, limit, log, merchant, p)| + (if FallsIn(cfg, limit, r, merchant, p) then 1 else 0)
  {
    assert Counted(cfg, limit, log[m := r], merchant, p)
           == Counted(cfg, limit, log, merchant, p) + (if FallsIn(cfg, limit, r, merchant, p) then {m} else {});
  }

  /** The worker that records a send no longer threatens its period, and no other worker starts to. */
  lemma RecordingEndsThreat(cfg: Config, limit: Limit, s: State, s': State, w: Worker, merchant: MerchantId, p: Day)
    requires PcOf(s, w).Completing? && PcOf(s, w).pass.job.message !in s.past.sentLog
    requires s'.past.sentLog == s.past.sentLog[PcOf(s, w).pass.job.message := RecordOf(PcOf(s, w).pass)]
    requires PcOf(s', w).Idle? || (PcOf(s', w).Completing? && PcOf(s', w).pass == PcOf(s, w).pass)
    requires s'.dispatchers == s.dispatchers[w := PcOf(s', w)]
    ensures |Threats(cfg, limit, s', merchant, p)|
            + (if FallsIn(cfg, limit, RecordOf(PcOf(s, w).pass), merchant, p) then 1 else 0)
            <= |Threats(cfg, limit, s, merchant, p)|
  {
    var before, after := Threats(cfg, limit, s, merchant, p), Threats(cfg, limit, s', merchant, p);
    assert w !in after;
    assert FallsIn(cfg, limit, RecordOf(PcOf(s, w).pass), merchant, p) ==> w in before;
    forall v | v in after
      ensures v in before
    {
      assert s'.dispatchers[v] == s.dispatchers[v];
    }
    SubsetSize(after, before - {w});
  }

  /** Recording a send adds one to its period and takes its worker off the threats. */
  lemma RecordKeepsBound(cfg: Config, limit: Limit, s: State, s': State, w: Worker, merchant: MerchantId, p: Day)
    requires ClockInv(cfg, s) && Bounded(cfg, limit, s, merchant, p) && Cleared(cfg, limit, PcOf(s, w))
    requires PcOf(s, w).Completing? && PcOf(s, w).pass.job.message !in s.past.sentLog
    requires s'.past.sentLog == s.past.sentLog[PcOf(s, w).pass.job.message := RecordOf(PcOf(s, w).pass)]
    requires PcOf(s', w).Idle? || (PcOf(s', w).Completing? && PcOf(s', w).pass == PcOf(s, w).pass)
    requires s'.dispatchers == s.dispatchers[w := PcOf(s', w)]
    ensures Bounded(cfg, limit, s', merchant, p)
  {
    var pass := PcOf(s, w).pass;
    CountedGrows(cfg, limit, s.past.sentLog, pass.job.message, RecordOf(pass), merchant, p);
    RecordingEndsThreat(cfg, limit, s, s', w, merchant, p);
    ThreatsFit(cfg, limit, s, merchant, p);
  }

  /** The one step that records a send, as the two lemmas above see it. */
  lemma RecordingShape(s: State, w: Worker, move: Move)
    requires LedgerInv(s) && DispatchStep(s, w, move).past.sentLog != s.past.sentLog
    ensures var s' := DispatchStep(s, w, move);
            var pc, pc' := PcOf(s, w), PcOf(DispatchStep(s, w, move), w);
            && pc.Completing? && pc.pass.job.message !in s.past.sentLog
            && s'.past.sentLog == s.past.sentLog[pc.pass.job.message := RecordOf(pc.pass)]
            && (pc'.Idle? || (pc'.Completing? && pc'.pass == pc.pass))
            && s'.dispatchers == s.dispatchers[w := pc']
  {
    DispatchRecords(s, w, move);
    DispatchAdvances(s, w, move);
    assert LedgerRow(s, PcOf(s, w).pass.job.message);
  }

  lemma DispatchKeepsBound(cfg: Config, limit: Limit, s: State, w: Worker, move: Move, merchant: MerchantId, p: Day)
    requires Sound(cfg, s) && QuotaInv(cfg, limit, s) && Calendar(cfg.monthStart)
    requires StepOk(cfg, s, Dispatch(w, move))
    ensures Bounded(cfg, limit, DispatchStep(s, w, move), merchant, p)
  {
    var s' := DispatchStep(s, w, move);
    DispatchRecords(s, w, move);
    if s'.past.sentLog != s.past.sentLog {
      RecordingShape(s, w, move);
      assert Cleared(cfg, limit, PcOf(s, w)) && Bounded(cfg, limit, s, merchant, p);
      RecordKeepsBound(cfg, limit, s, s', w, merchant, p);
    } else if PcOf(s, w).Gating? && PcOf(s', w).Gating? {
      ReadKeepsBound(cfg, limit, s, w, move, merchant, p);
    } else if PcOf(s, w).Gating? && !PcOf(s', w).Starting? {
      GateShape(s, w, move);
      DispatchKeepsClock(cfg, s, w, move);
      assert Bounded(cfg, limit, s, merchant, p);
      MoveKeepsBound(cfg, limit, s, s', w, merchant, p);
    } else {
      AdvanceKeepsBound(cfg, limit, s, w, move, merchant, p);
    }
  }

  /** Whoever is through the gates has read a usage below the cap, so the cap is positive. */
  lemma DispatchKeepsCleared(cfg: Config, limit: Limit, s: State, w: Worker, move: Move)
    requires Sound(cfg, s) && QuotaInv(cfg, limit, s) && UsageNonNegative(s)
    requires StepOk(cfg, s, Dispatch(w, move))
    ensures forall v :: Cleared(cfg, limit, PcOf(DispatchStep(s, w, move), v))
  {
    hide Inv, LedgerInv, DispatchStep;
    DispatchAdvances(s, w, move);
    assert Cleared(cfg, limit, PcOf(s, w)) && TimesOk(cfg, s, PcOf(s, w)) && SaneReads(PcOf(s, w));
    forall v
      ensures Cleared(cfg, limit, PcOf(DispatchStep(s, w, move), v))
    {
      assert Cleared(cfg, limit, PcOf(s, v));
    }
  }

  /** Usage reads are counts. */
  predicate SaneReads(pc: Pc) {
    pc.Gating? ==>
      && (pc.seen.quotaDay.Some? ==> pc.seen.quotaDay.value >= 0)
      && (pc.seen.quotaMonth.Some? ==> pc.seen.quotaMonth.value >= 0)
  }

  ghost predicate UsageNonNegative(s: State) {
    forall w :: SaneReads(PcOf(s, w))
  }

  lemma ReadKeepsSane(cfg: Config, s: State, w: Worker, move: Move)
    requires LedgerInv(s) && Calendar(cfg.monthStart) && StepOk(cfg, s, Dispatch(w, move))
    requires PcOf(s, w).Gating? && SaneReads(PcOf(s, w)) && PcOf(DispatchStep(s, w, move), w).Gating?
    ensures SaneReads(PcOf(DispatchStep(s, w, move), w))
  {
    UsageReadCounts(cfg, Daily, s, w, move);
    UsageReadCounts(cfg, Monthly, s, w, move);
  }

  lemma DispatchKeepsSane(cfg: Config, s: State, w: Worker, move: Move)
    requires LedgerInv(s) && Calendar(cfg.monthStart) && UsageNonNegative(s) && StepOk(cfg, s, Dispatch(w, move))
    ensures UsageNonNegative(DispatchStep(s, w, move))
  {
    var s' := DispatchStep(s, w, move);
    assert SaneReads(PcOf(s, w));
    if PcOf(s, w).Gating? && PcOf(s', w).Gating? { ReadKeepsSane(cfg, s, w, move); }
    DispatchAdvances(s, w, move);
    OthersStaySane(s, w, move, s');
  }

  lemma OthersStaySane(s: State, w: Worker, move: Move, s': State)
    requires UsageNonNegative(s) && Advances(s, w, move, s')
    requires PcOf(s, w).Gating? && PcOf(s', w).Gating? ==> SaneReads(PcOf(s', w))
    ensures UsageNonNegative(s')
  {
    forall v
      ensures SaneReads(PcOf(s', v))
    {
      assert SaneReads(PcOf(s, v));
    }
  }

  /** Everybody else records nothing and moves a dispatch worker at most to idle or a fresh job. */
  lemma OthersKeepQuota(cfg: Config, limit: Limit, s: State, e: Event)
    requires Sound(cfg, s) && QuotaInv(cfg, limit, s) && UsageNonNegative(s)
    requires StepOk(cfg, s, e) && !e.Dispatch?
    ensures QuotaInv(cfg, limit, Step(s, e)) && UsageNonNegative(Step(s, e))
  {
    hide Inv, LedgerInv;
    var s' := Step(s, e);
    OthersRecordNothing(s, e);
    StepKeepsClock(cfg, s, e);
    hide Step, ClockInv;
    var w := if e.Pick? || e.Crash? then e.w else 0;
    forall merchant, p
      ensures Bounded(cfg, limit, s', merchant, p)
    {
      assert Bounded(cfg, limit, s, merchant, p);
      MoveKeepsBound(cfg, limit, s, s', w, merchant, p);
    }
    forall v
      ensures Cleared(cfg, limit, PcOf(s', v)) && SaneReads(PcOf(s', v))
    {
      assert Cleared(cfg, limit, PcOf(s, v)) && SaneReads(PcOf(s, v));
    }
  }

  lemma StepKeepsQuota(cfg: Config, limit: Limit, s: State, e: Event)
    requires Sound(cfg, s) && QuotaInv(cfg, limit, s) && UsageNonNegative(s)
    requires Calendar(cfg.monthStart) && StepOk(cfg, s, e)
    ensures QuotaInv(cfg, limit, Step(s, e)) && UsageNonNegative(Step(s, e))
  {
    if e.Dispatch? {
      hide Inv, LedgerInv, DispatchStep;
      forall merchant, p
        ensures Bounded(cfg, limit, Step(s, e), merchant, p)
      {
        DispatchKeepsBound(cfg, limit, s, e.w, e.move, merchant, p);
      }
      DispatchKeepsCleared(cfg, limit, s, e.w, e.move);
      DispatchKeepsSane(cfg, s, e.w, e.move);
    } else {
      OthersKeepQuota(cfg, limit, s, e);
    }
  }

  lemma {:induction false} RunKeepsQuota(cfg: Config, limit: Limit, clock: Millis, es: seq<Event>)
    requires Calendar(cfg.monthStart) && SteadyRun(cfg, Init(clock), es)
    ensures var s := Run(Init(clock), es);
            Sound(cfg, s) && QuotaInv(cfg, limit, s) && UsageNonNegative(s)
    decreases |es|
  {
    if es == [] {
      InitSound(cfg, clock);
      forall merchant, p
        ensures Bounded(cfg, limit, Init(clock), merchant, p)
      {
        assert Counted(cfg, limit, Init(clock).past.sentLog, merchant, p) == {};
      }
    } else {
      RunKeepsQuota(cfg, limit, clock, es[..|es| - 1]);
      StepKeepsSound(cfg, Run(Init(clock), es[..|es| - 1]), es[|es| - 1]);
      StepKeepsQuota(cfg, limit, Run(Init(clock), es[..|es| - 1]), es[|es| - 1]);
    }
  }

  /** A merchant's day bucket never exceeds the daily cap by more than the number of
      workers less one; with one worker the cap is exact, and a cap of zero sends nothing. */
  lemma DailyCapHolds(cfg: Config, clock: Millis, es: seq<Event>, merchant: MerchantId, day: Day)
    requires Calendar(cfg.monthStart) && SteadyRun(cfg, Init(clock), es)
    ensures var sent := QuotaOn(Run(Init(clock), es).t, merchant, day);
            var cap := cfg.settings(merchant).dailySendCap;
            sent == 0 || (cap > 0 && sent <= cap + cfg.workers - 1)
  {
    RunKeepsQuota(cfg, Daily, clock, es);
    DayReadCounts(cfg, Run(Init(clock), es), merchant, day);
    assert Bounded(cfg, Daily, Run(Init(clock), es), merchant, day);
  }

  /** The buckets of one month, from its first day on. */
  ghost function MonthTotal(cfg: Config, t: Tables, merchant: MerchantId, monthStart: Day): int {
    Sum(map k | k in t.quota && k.merchant == merchant && cfg.monthStart(k.day) == monthStart :: t.quota[k])
  }

  lemma MonthTotalCounts(cfg: Config, s: State, merchant: MerchantId, monthStart: Day)
    requires LedgerInv(s)
    ensures MonthTotal(cfg, s.t, merchant, monthStart) == |Counted(cfg, Monthly, s.past.sentLog, merchant, monthStart)|
  {
    var q := map k | k in s.t.quota && k.merchant == merchant && cfg.monthStart(k.day) == monthStart :: s.t.quota[k];
    assert forall k :: k in q ==> BucketOk(s, k);
    SumOfBuckets(q, s.past.sentLog);
    forall m | m in Counted(cfg, Monthly, s.past.sentLog, merchant, monthStart)
      ensures m in Covered(q, s.past.sentLog)
    {
      assert BucketOk(s, KeyOf(s.past.sentLog[m])) && m in Recorded(s.past.sentLog, KeyOf(s.past.sentLog[m]));
    }
    assert Covered(q, s.past.sentLog) == Counted(cfg, Monthly, s.past.sentLog, merchant, monthStart);
  }

  /** The same for a calendar month's buckets and the monthly cap. */
  lemma MonthlyCapHolds(cfg: Config, clock: Millis, es: seq<Event>, merchant: MerchantId, monthStart: Day)
    requires Calendar(cfg.monthStart) && SteadyRun(cfg, Init(clock), es)
    ensures var sent := MonthTotal(cfg, Run(Init(clock), es).t, merchant, monthStart);
            var cap := cfg.settings(merchant).monthlySendsCap;
            sent == 0 || (cap > 0 && sent <= cap + cfg.workers - 1)
  {
    hide Inv, LedgerInv, ClockInv, MonthTotal, Counted;
    RunKeepsQuota(cfg, Monthly, clock, es);
    MonthTotalCounts(cfg, Run(Init(clock), es), merchant, monthStart);
    assert Bounded(cfg, Monthly, Run(Init(clock), es), merchant, monthStart);
  }
}
