/** The runs for which the quota and frequency limits are promised: a fixed number of
    single-job dispatch workers, settings that do not change, a clock that does not run
    backwards, and month reads that start at the UTC month of the gates' clock. */
module Steady {
  import opened Collections
  import opened Tables
  import opened GateChain
  import opened Machine
  import opened SendOnce
  import opened SendLedger

  datatype Config = Config(workers: nat, settings: MerchantId -> Settings, monthStart: Day -> Day)

  /** `monthStart` takes a day to the first day of its month: all that is used of the calendar. */
  ghost predicate Calendar(monthStart: Day -> Day) {
    && (forall d :: monthStart(d) <= d)
    && (forall d :: monthStart(monthStart(d)) == monthStart(d))
    && (forall d, e :: d <= e ==> monthStart(d) <= monthStart(e))
  }

  /** What a cap asks of a period's total; a period in which nothing happened keeps any cap. */
  predicate WithinCap(total: int, cap: int) {
    total == 0 || total <= cap
  }

  predicate StepOk(cfg: Config, s: State, e: Event) {
    match e
    case Tick(now) => s.clock <= now
    case Pick(w, _) => w < cfg.workers
    case Crash(w) => w < cfg.workers
    case Dispatch(w, move) =>
      && w < cfg.workers
      && (PcOf(s, w).Loading? && move.Load? && move.settings.Some? ==>
            move.settings.value == cfg.settings(PcOf(s, w).job.merchant))
      && (PcOf(s, w).Gating? && move.ReadQuotaMonth? ==>
            move.monthStart == cfg.monthStart(DayOf(PcOf(s, w).gateNow)))
    case _ => true
  }

  ghost predicate SteadyRun(cfg: Config, s: State, es: seq<Event>)
    decreases |es|
  {
    es == [] || (SteadyRun(cfg, s, es[..|es| - 1]) && StepOk(cfg, Run(s, es[..|es| - 1]), es[|es| - 1]))
  }

  predicate TimesOk(cfg: Config, s: State, pc: Pc) {
    && (pc.Gating? ==> pc.gateNow <= s.clock && pc.ctx.settings == cfg.settings(pc.job.merchant))
    && (pc.Starting? || pc.InSend? || pc.Completing? ==>
          && pc.pass.gateNow <= pc.pass.sendNow <= s.clock
          && pc.pass.ctx.settings == cfg.settings(pc.pass.job.merchant))
  }

  ghost predicate ClockInv(cfg: Config, s: State) {
    && (forall w :: w in s.dispatchers ==> w < cfg.workers)
    && (forall w :: TimesOk(cfg, s, PcOf(s, w)))
    && (forall m :: m in s.past.sentLog ==> s.past.sentLog[m].at <= s.clock)
  }

  /** Everything the limits build on. */
  ghost predicate Sound(cfg: Config, s: State) {
    Inv(s) && LedgerInv(s) && ClockInv(cfg, s)
  }

  function RecordOf(pass: Pass): SendRecord {
    SendRecord(pass.job.merchant, pass.job.customer, pass.sendNow)
  }

  /** What a dispatch step does to the record of sends. */
  lemma DispatchRecords(s: State, w: Worker, move: Move)
    ensures var s' := DispatchStep(s, w, move);
            var pc := PcOf(s, w);
            || s'.past.sentLog == s.past.sentLog
            || (&& pc.Completing? && StatusOf(s.t, pc.pass.job.message) == Some(Sending)
                && s'.past.sentLog == s.past.sentLog[pc.pass.job.message := RecordOf(pc.pass)])
  {
    DispatchWrites(s, w, move);
    match PcOf(s, w)
    case Completing(pass, attempt) =>
    case Loading(job) =>
      if move.Load? { LoadShape(s, w, job, move.settings, move.subscribed, move.hasEmail); }
    case Gating(_, _, _, _) => GateShape(s, w, move);
    case _ =>
  }

  lemma DispatchKeepsClock(cfg: Config, s: State, w: Worker, move: Move)
    requires ClockInv(cfg, s) && StepOk(cfg, s, Dispatch(w, move))
    ensures ClockInv(cfg, DispatchStep(s, w, move))
  {
    var s' := DispatchStep(s, w, move);
    DispatchAdvances(s, w, move);
    DispatchWrites(s, w, move);
    DispatchRecords(s, w, move);
    assert TimesOk(cfg, s, PcOf(s, w));
    hide DispatchStep;
    forall v
      ensures TimesOk(cfg, s', PcOf(s', v))
    {
      assert v != w ==> PcOf(s', v) == PcOf(s, v) && TimesOk(cfg, s, PcOf(s, v));
    }
  }

  /** Every other event leaves the record of sends alone, and moves a dispatch worker only
      to idle or to a fresh job. */
  predicate RecordsNothing(s: State, e: Event, s': State) {
    && s'.past.sentLog == s.past.sentLog && s'.t.quota == s.t.quota
    && (e.Tick? || s'.clock == s.clock)
    && (s'.dispatchers == s.dispatchers
        || ((e.Pick? || e.Crash?) && s'.dispatchers == s.dispatchers[e.w := PcOf(s', e.w)]
            && (PcOf(s', e.w).Idle? || PcOf(s', e.w).Claiming?)))
  }

  lemma RowsRecordNothing(s: State, e: Event)
    requires e.Write? || e.Create? || e.Redact?
    ensures RecordsNothing(s, e, Step(s, e))
  {
    if e.Write? { WriteShape(s, e.w, e.aiMove); }
  }

  lemma SweepRecordsNothing(s: State, e: Event)
    requires e.SweepResolve? || e.SweepFresh? || e.SweepDeferred?
    ensures RecordsNothing(s, e, Step(s, e))
  {
    if e.SweepResolve? { ResolveShape(s, e.message, e.reason); } else { QueueShape(s, e); }
  }

  lemma OthersRecordNothing(s: State, e: Event)
    requires !e.Dispatch?
    ensures RecordsNothing(s, e, Step(s, e))
  {
    if e.Write? || e.Create? || e.Redact? {
      RowsRecordNothing(s, e);
    } else if e.SweepResolve? || e.SweepFresh? || e.SweepDeferred? {
      SweepRecordsNothing(s, e);
    } else if Quiet(e) {
      QuietChangesNoRow(s, e);
    }
  }

  lemma StepKeepsSound(cfg: Config, s: State, e: Event)
    requires Sound(cfg, s) && StepOk(cfg, s, e)
    ensures Sound(cfg, Step(s, e))
  {
    StepKeeps(s, e);
    StepKeepsLedger(s, e);
    StepKeepsClock(cfg, s, e);
  }

  lemma StepKeepsClock(cfg: Config, s: State, e: Event)
    requires ClockInv(cfg, s) && StepOk(cfg, s, e)
    ensures ClockInv(cfg, Step(s, e))
  {
    var s' := Step(s, e);
    if e.Dispatch? {
      DispatchKeepsClock(cfg, s, e.w, e.move);
    } else {
      OthersRecordNothing(s, e);
      forall v
        ensures TimesOk(cfg, s', PcOf(s', v))
      {
        assert TimesOk(cfg, s, PcOf(s, v));
      }
    }
  }

  lemma InitSound(cfg: Config, clock: Millis)
    ensures Sound(cfg, Init(clock))
  {
    SendLedger.Reachable(clock, []);
  }
}
