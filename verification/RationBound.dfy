/** How much N dispatch workers can send one customer. The frequency reads come before the send
    and the record after it, so a day holds up to N - 1 more than its ration, and any stretch of
    time no longer than the cooldown up to N. Both are one argument about a span of time. */
module RationBound {
  import opened Collections
  import opened Tables
  import opened GateChain
  import opened Machine
  import opened SendOnce
  import opened SendLedger
  import opened Steady
  import opened Frequency
  import opened CapPeaks

  /** A UTC day, or a stretch of the cooldown's length. */
  datatype Span = WholeDay(day: Day) | Stretch(from: Millis)

  datatype Scope = Scope(merchant: MerchantId, customer: CustomerId, span: Span)

  function From(x: Scope): Millis {
    match x.span
    case WholeDay(day) => day * MS_PER_DAY
    case Stretch(from) => from
  }

  function To(cfg: Config, x: Scope): Millis {
    match x.span
    case WholeDay(day) => day * MS_PER_DAY + MS_PER_DAY - 1
    case Stretch(from) => from + CooldownMs(cfg, x.merchant)
  }

  /** What one worker alone could send in the span. */
  function Ration(cfg: Config, x: Scope): int {
    if x.span.WholeDay? then cfg.settings(x.merchant).maxDailySendsPerCustomer else 1
  }

  predicate Falls(cfg: Config, x: Scope, at: Millis) {
    From(x) <= at <= To(cfg, x)
  }

  /** The customer's messages sent in the span. */
  function SentIn(cfg: Config, t: Tables, x: Scope): set<MessageId> {
    set m | m in t.messages && SentTo(t, m, x.merchant, x.customer) && Falls(cfg, x, t.messages[m].sentAt.value)
  }

  predicate IsFor(x: Scope, job: Job) {
    job.merchant == x.merchant && job.customer == x.customer
  }

  /** The worker may still add a send to the span: the read that could have stopped it is made
      and has not, or it was loaded on an earlier day and will be asked about that one. */
  predicate Threat(cfg: Config, s: State, x: Scope, pc: Pc) {
    match pc
    case Gating(job, _, gateNow, seen) =>
      && IsFor(x, job)
      && (match x.span
          case WholeDay(day) =>
            || DayOf(gateNow) < day
            || (DayOf(gateNow) == day && seen.sentToday.Some? && seen.sentToday.value < Ration(cfg, x))
          case Stretch(_) => gateNow <= To(cfg, x) && seen.sentInCooldown == Some(0))
    case Starting(pass) => IsFor(x, pass.job) && Falls(cfg, x, pass.sendNow)
    case InSend(pass) => IsFor(x, pass.job) && Falls(cfg, x, pass.sendNow)
    case Completing(pass, _) =>
      IsFor(x, pass.job) && Falls(cfg, x, pass.sendNow) && pass.job.message !in s.past.sentLog
    case _ => false
  }

  function Threats(cfg: Config, s: State, x: Scope): set<Worker> {
    set w | w in s.dispatchers && Threat(cfg, s, x, s.dispatchers[w])
  }

  /** Messages sent in the span, and workers that may still add one. */
  ghost predicate Bounded(cfg: Config, s: State, x: Scope) {
    var sent := |SentIn(cfg, s.t, x)|;
    sent == 0 || (Ration(cfg, x) >= 1 && sent + |Threats(cfg, s, x)| <= Ration(cfg, x) + cfg.workers - 1)
  }

  lemma ThreatsFit(cfg: Config, s: State, x: Scope)
    requires ClockInv(cfg, s)
    ensures |Threats(cfg, s, x)| <= cfg.workers
  {
    SizeBelow(Threats(cfg, s, x), cfg.workers);
  }

  // ------------------------------------------------- steps that send nothing new

  lemma FewerIn(cfg: Config, t: Tables, t': Tables, x: Scope)
    requires SentShrinks(t, t')
    ensures |SentIn(cfg, t', x)| <= |SentIn(cfg, t, x)|
  {
    forall m | m in SentIn(cfg, t', x)
      ensures m in SentIn(cfg, t, x)
    {
      assert SameSend(t, t', m);
    }
    SubsetSize(SentIn(cfg, t', x), SentIn(cfg, t, x));
  }

  /** A worker that moves without recording a send keeps the bound if it threatens only what
      it threatened before, or a span with room for it. */
  lemma MoveKeepsBound(cfg: Config, s: State, s': State, w: Worker, x: Scope)
    requires Bounded(cfg, s, x) && ClockInv(cfg, s')
    requires SentShrinks(s.t, s'.t) && s'.past.sentLog == s.past.sentLog
    requires forall v :: v != w ==> PcOf(s', v) == PcOf(s, v)
    requires Threat(cfg, s', x, PcOf(s', w)) ==>
               || Threat(cfg, s, x, PcOf(s, w))
               || |SentIn(cfg, s.t, x)| == 0
               || |SentIn(cfg, s.t, x)| < Ration(cfg, x)
    ensures Bounded(cfg, s', x)
  {
    FewerIn(cfg, s.t, s'.t, x);
    ThreatsFit(cfg, s', x);
    if Threat(cfg, s', x, PcOf(s', w)) ==> Threat(cfg, s, x, PcOf(s, w)) {
      forall v | v in Threats(cfg, s', x)
        ensures v in Threats(cfg, s, x)
      {
        assert PcOf(s', v) == s'.dispatchers[v];
        assert v != w ==> PcOf(s', v) == PcOf(s, v);
      }
      SubsetSize(Threats(cfg, s', x), Threats(cfg, s, x));
    }
  }

  /** Nothing was sent on a day that has not begun. */
  lemma FutureIsEmpty(cfg: Config, s: State, x: Scope)
    requires Sound(cfg, s) && x.span.WholeDay? && DayOf(s.clock) < x.span.day
    ensures SentIn(cfg, s.t, x) == {}
  {
    forall m | m in s.t.messages && SentTo(s.t, m, x.merchant, x.customer)
      ensures s.t.messages[m].sentAt.value <= s.clock
    {
      assert RowsAgree(s.t, m) && LedgerRow(s, m);
    }
  }

  /** What a frequency read found is at least what the span holds. */
  lemma ReadCounts(cfg: Config, t: Tables, x: Scope, gateNow: Millis)
    ensures x.span.WholeDay? && DayOf(gateNow) == x.span.day ==>
              |SentIn(cfg, t, x)| <= |SentSince(t, x.merchant, x.customer, DayOf(gateNow) * MS_PER_DAY)|
    ensures x.span.Stretch? && gateNow <= To(cfg, x) ==>
              |SentIn(cfg, t, x)| <= |SentSince(t, x.merchant, x.customer, gateNow - CooldownMs(cfg, x.merchant))|
  {
    if x.span.WholeDay? && DayOf(gateNow) == x.span.day {
      SubsetSize(SentIn(cfg, t, x), SentSince(t, x.merchant, x.customer, DayOf(gateNow) * MS_PER_DAY));
    } else if x.span.Stretch? && gateNow <= To(cfg, x) {
      SubsetSize(SentIn(cfg, t, x), SentSince(t, x.merchant, x.customer, gateNow - CooldownMs(cfg, x.merchant)));
    }
  }

  /** A frequency answer that is new is what the rows said. */
  lemma NewAnswers(s: State, w: Worker, move: Move)
    requires PcOf(s, w).Gating? && PcOf(DispatchStep(s, w, move), w).Gating?
    ensures var pc, seen := PcOf(s, w), PcOf(DispatchStep(s, w, move), w).seen;
            var merchant, customer := pc.job.merchant, pc.job.customer;
            && (seen.sentToday == pc.seen.sentToday
                || seen.sentToday == Some(|SentSince(s.t, merchant, customer, DayOf(pc.gateNow) * MS_PER_DAY)|))
            && (seen.sentInCooldown == pc.seen.sentInCooldown
                || (var since := pc.gateNow - pc.ctx.settings.cooldownHours * MS_PER_HOUR;
                    seen.sentInCooldown == Some(|SentSince(s.t, merchant, customer, since)|)))
  {
    hide SentSince, QuotaSince, RunGateChain;
  }

  /** A gate read makes a threat only of a span with room. */
  lemma ReadThreat(cfg: Config, s: State, w: Worker, move: Move, x: Scope)
    requires PcOf(s, w).Gating? && PcOf(DispatchStep(s, w, move), w).Gating? && TimesOk(cfg, s, PcOf(s, w))
    requires Threat(cfg, DispatchStep(s, w, move), x, PcOf(DispatchStep(s, w, move), w))
             && !Threat(cfg, s, x, PcOf(s, w))
    ensures |SentIn(cfg, s.t, x)| < Ration(cfg, x)
  {
    GateShape(s, w, move);
    ReadCounts(cfg, s.t, x, PcOf(s, w).gateNow);
    NewAnswers(s, w, move);
    hide SentIn, SentSince, DispatchStep;
  }

  /** Past the gates it is no new threat: the reads have been made, and were within the ration. */
  lemma PassedIsThreat(cfg: Config, s: State, w: Worker, x: Scope)
    requires PcOf(s, w).Gating? && RunGateChain(PcOf(s, w).ctx, PcOf(s, w).seen) == Passed
    requires TimesOk(cfg, s, PcOf(s, w)) && IsFor(x, PcOf(s, w).job) && Falls(cfg, x, s.clock)
    ensures Threat(cfg, s, x, PcOf(s, w))
  {
    assert DayOf(PcOf(s, w).gateNow) <= DayOf(s.clock);
  }

  /** Outside the gate reads a worker newly threatens only a day that has not begun. */
  lemma NewThreat(cfg: Config, s: State, w: Worker, move: Move, x: Scope)
    requires TimesOk(cfg, s, PcOf(s, w)) && DispatchStep(s, w, move).past.sentLog == s.past.sentLog
    requires Threat(cfg, DispatchStep(s, w, move), x, PcOf(DispatchStep(s, w, move), w))
             && !Threat(cfg, s, x, PcOf(s, w))
    requires !(PcOf(s, w).Gating? && PcOf(DispatchStep(s, w, move), w).Gating?)
    ensures x.span.WholeDay? && DayOf(s.clock) < x.span.day
  {
    var s' := DispatchStep(s, w, move);
    DispatchAdvances(s, w, move);
    hide DispatchStep;
    if PcOf(s', w).Starting? && PcOf(s, w).Gating? { PassedIsThreat(cfg, s, w, x); }
  }

  lemma QuietDispatchKeepsBound(cfg: Config, s: State, w: Worker, move: Move, x: Scope)
    requires Sound(cfg, s) && Bounded(cfg, s, x) && StepOk(cfg, s, Dispatch(w, move))
    requires DispatchStep(s, w, move).past.sentLog == s.past.sentLog
    ensures Bounded(cfg, DispatchStep(s, w, move), x)
  {
    var s' := DispatchStep(s, w, move);
    DispatchKeepsClock(cfg, s, w, move);
    DispatchAdvances(s, w, move);
    DispatchShrinks(s, w, move);
    assert TimesOk(cfg, s, PcOf(s, w));
    if Threat(cfg, s', x, PcOf(s', w)) && !Threat(cfg, s, x, PcOf(s, w)) {
      if PcOf(s, w).Gating? && PcOf(s', w).Gating? {
        ReadThreat(cfg, s, w, move, x);
      } else {
        NewThreat(cfg, s, w, move, x);
        FutureIsEmpty(cfg, s, x);
      }
    }
    hide DispatchStep, Sound, Threat;
    MoveKeepsBound(cfg, s, s', w, x);
  }

  lemma OthersKeepBound(cfg: Config, s: State, e: Event, x: Scope)
    requires Sound(cfg, s) && Bounded(cfg, s, x) && StepOk(cfg, s, e) && !e.Dispatch?
    ensures Bounded(cfg, Step(s, e), x)
  {
    OthersShrink(s, e);
    OthersRecordNothing(s, e);
    StepKeepsClock(cfg, s, e);
    hide Step, Sound;
    var w := if e.Pick? || e.Crash? then e.w else 0;
    MoveKeepsBound(cfg, s, Step(s, e), w, x);
  }

  // ------------------------------------------------------------------ recording

  /** Recording a send adds it to the spans it falls in. */
  lemma RecordingAdds(cfg: Config, t: Tables, pass: Pass, x: Scope)
    requires MarkSent(t, pass.job, pass.sendNow).1
    requires t.messages[pass.job.message].merchant == pass.job.merchant
             && t.messages[pass.job.message].customer == pass.job.customer
    ensures |SentIn(cfg, MarkSent(t, pass.job, pass.sendNow).0, x)|
            == |SentIn(cfg, t, x)| + (if IsFor(x, pass.job) && Falls(cfg, x, pass.sendNow) then 1 else 0)
  {
    var t' := MarkSent(t, pass.job, pass.sendNow).0;
    var here := IsFor(x, pass.job) && Falls(cfg, x, pass.sendNow);
    assert SentIn(cfg, t', x) == SentIn(cfg, t, x) + (if here then {pass.job.message} else {});
  }

  /** And its worker no longer threatens them. */
  lemma RecordingEndsThreat(cfg: Config, s: State, s': State, w: Worker, x: Scope)
    requires PcOf(s, w).Completing? && PcOf(s, w).pass.job.message !in s.past.sentLog
    requires s'.past.sentLog == s.past.sentLog[PcOf(s, w).pass.job.message := RecordOf(PcOf(s, w).pass)]
    requires PcOf(s', w).Idle? || (PcOf(s', w).Completing? && PcOf(s', w).pass == PcOf(s, w).pass)
    requires s'.dispatchers == s.dispatchers[w := PcOf(s', w)]
    ensures var pass := PcOf(s, w).pass;
            |Threats(cfg, s', x)| + (if IsFor(x, pass.job) && Falls(cfg, x, pass.sendNow) then 1 else 0)
            <= |Threats(cfg, s, x)|
  {
    var before, after, pass := Threats(cfg, s, x), Threats(cfg, s', x), PcOf(s, w).pass;
    assert w !in after;
    assert IsFor(x, pass.job) && Falls(cfg, x, pass.sendNow) ==> w in before;
    forall v | v in after
      ensures v in before
    {
      assert s'.dispatchers[v] == s.dispatchers[v];
    }
    SubsetSize(after, before - {w});
  }

  lemma RecordKeepsBound(cfg: Config, s: State, w: Worker, move: Move, x: Scope)
    requires Sound(cfg, s) && Bounded(cfg, s, x) && RationInv(cfg, s)
    requires DispatchStep(s, w, move).past.sentLog != s.past.sentLog
    ensures Bounded(cfg, DispatchStep(s, w, move), x)
  {
    var s' := DispatchStep(s, w, move);
    QuotaBound.RecordingShape(s, w, move);
    var pass := PcOf(s, w).pass;
    HereLedger(s, w, pass.job.message);
    MarkSentMoves(s.t, pass.job, pass.sendNow);
    RecordingRows(s, w, move);
    assert PassedRation(cfg, PcOf(s, w));
    hide DispatchStep, Inv, LedgerInv;
    RecordingAdds(cfg, s.t, pass, x);
    RecordingEndsThreat(cfg, s, s', w, x);
    ThreatsFit(cfg, s, x);
  }

  lemma RecordingRows(s: State, w: Worker, move: Move)
    requires PcOf(s, w).Completing? && DispatchStep(s, w, move).past.sentLog != s.past.sentLog
    ensures var pass := PcOf(s, w).pass;
            && MarkSent(s.t, pass.job, pass.sendNow).1
            && DispatchStep(s, w, move).t == MarkSent(s.t, pass.job, pass.sendNow).0
  {
  }

  // ------------------------------------------------------------------ whole runs

  lemma StepKeepsBound(cfg: Config, s: State, e: Event, x: Scope)
    requires Sound(cfg, s) && RationInv(cfg, s) && Bounded(cfg, s, x) && StepOk(cfg, s, e)
    ensures Bounded(cfg, Step(s, e), x)
  {
    if !e.Dispatch? {
      OthersKeepBound(cfg, s, e, x);
    } else if DispatchStep(s, e.w, e.move).past.sentLog == s.past.sentLog {
      QuietDispatchKeepsBound(cfg, s, e.w, e.move, x);
    } else {
      RecordKeepsBound(cfg, s, e.w, e.move, x);
    }
  }

  lemma {:induction false} RunKeepsBound(cfg: Config, clock: Millis, es: seq<Event>, x: Scope)
    requires SteadyRun(cfg, Init(clock), es)
    ensures Bounded(cfg, Run(Init(clock), es), x)
    decreases |es|
  {
    if es == [] {
      assert SentIn(cfg, Init(clock).t, x) == {};
    } else {
      hide Sound, RationInv, Bounded, StepOk, Step;
      RunKeepsBound(cfg, clock, es[..|es| - 1], x);
      RunKeepsRation(cfg, clock, es[..|es| - 1]);
      StepKeepsBound(cfg, Run(Init(clock), es[..|es| - 1]), es[|es| - 1], x);
    }
  }

  /** With N workers a day holds at most the ration and N - 1 more of a customer's messages. */
  lemma DayHolds(cfg: Config, clock: Millis, es: seq<Event>, merchant: MerchantId, customer: CustomerId, day: Day)
    requires SteadyRun(cfg, Init(clock), es)
    ensures var sent := |SentOn(Run(Init(clock), es).t, merchant, customer, day)|;
            var ration := cfg.settings(merchant).maxDailySendsPerCustomer;
            sent == 0 || (ration >= 1 && sent <= ration + cfg.workers - 1)
  {
    var x := Scope(merchant, customer, WholeDay(day));
    RunKeepsBound(cfg, clock, es, x);
    assert SentIn(cfg, Run(Init(clock), es).t, x) == SentOn(Run(Init(clock), es).t, merchant, customer, day);
  }

  /** And any stretch of the cooldown's length at most N of them. */
  lemma StretchHolds(cfg: Config, clock: Millis, es: seq<Event>, merchant: MerchantId, customer: CustomerId,
                     from: Millis)
    requires SteadyRun(cfg, Init(clock), es)
    ensures |SentIn(cfg, Run(Init(clock), es).t, Scope(merchant, customer, Stretch(from)))| <= cfg.workers
  {
    RunKeepsBound(cfg, clock, es, Scope(merchant, customer, Stretch(from)));
  }
}
