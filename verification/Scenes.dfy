/** Runs put together piece by piece, to show what the bounds on all runs leave possible: a
    stock of messages ready for dispatch, a worker brought up to its send, a send made. Every
    run is steady, so what it reaches is reached with fixed settings and workers and a clock
    that does not run back. */
module Scenes {
  import opened Collections
  import opened Tables
  import opened GateChain
  import opened Machine
  import opened Steady

  /** Some steady run leads from one state to the other. */
  ghost predicate Reaches(cfg: Config, s: State, s': State) {
    exists es :: SteadyRun(cfg, s, es) && Run(s, es) == s'
  }

  lemma Stays(cfg: Config, s: State)
    ensures Reaches(cfg, s, s)
  {
    assert SteadyRun(cfg, s, []) && Run(s, []) == s;
  }

  lemma Then(cfg: Config, s0: State, s: State, e: Event)
    requires Reaches(cfg, s0, s) && StepOk(cfg, s, e)
    ensures Reaches(cfg, s0, Step(s, e))
  {
    hide StepOk, Step;
    var es :| SteadyRun(cfg, s0, es) && Run(s0, es) == s;
    assert (es + [e])[..|es + [e]| - 1] == es;
    assert SteadyRun(cfg, s0, es + [e]) && Run(s0, es + [e]) == Step(s, e);
  }

  // ------------------------------------------------------------------ messages

  const TEXT: string := "x"

  /** A draft that the sweep has queued and nobody has claimed. */
  predicate Ready(s: State, job: Job) {
    && job in s.jobs && job.message !in s.t.targets
    && s.t.messages.Keys >= {job.message}
    && s.t.messages[job.message] == Message(job.merchant, job.customer, Draft, TEXT, None)
  }

  /** Handler 0 and AI worker 0 are free. */
  predicate Free(s: State) {
    AdmissionOf(s, 0) == NotAdmitted && AiPcOf(s, 0) == AiIdle
  }

  function Drafted(s: State, m: MessageId, merchant: MerchantId, customer: CustomerId): State {
    HandlerAt(s.(t := CreateDraft(s.t, m, merchant, customer, s.clock), past := s.past.(issued := s.past.issued + {m})),
              0, NotAdmitted)
  }

  /** The admission of one more message, up to its draft. */
  lemma Admit(cfg: Config, s0: State, s: State, m: MessageId, merchant: MerchantId, customer: CustomerId)
    requires Reaches(cfg, s0, s) && Free(s) && m !in s.past.issued
    ensures Reaches(cfg, s0, Drafted(s, m, merchant, customer))
  {
    hide Reaches;
    var s1 := HandlerAt(s, 0, Checking(merchant, s.clock));
    var s2 := HandlerAt(s, 0, Admitted(merchant));
    var read := ReadSpend(0, 0, 0, SpendSince(s.t, merchant, 0));
    assert Step(s, BeginCheck(0, merchant)) == s1;
    Then(cfg, s0, s, BeginCheck(0, merchant));
    assert s1.admissions[0 := Admitted(merchant)] == s2.admissions;
    assert Step(s1, read) == s2;
    Then(cfg, s0, s1, read);
    assert s2.admissions[0 := NotAdmitted] == s.admissions[0 := NotAdmitted];
    assert Step(s2, Create(0, m, customer)) == Drafted(s, m, merchant, customer);
    Then(cfg, s0, s2, Create(0, m, customer));
  }

  /** The generation of a draft, at no cost. */
  lemma Generate(cfg: Config, s0: State, s: State, m: MessageId)
    requires Reaches(cfg, s0, s) && AiPcOf(s, 0) == AiIdle
    requires m in s.t.generations && s.t.generations[m].status == GenerationPending
             && s.t.generations[m].createdAt == s.clock
    ensures Reaches(cfg, s0, FinishStep(WriterAt(s, 0, Finishing(m, TEXT, 0)), 0, m, TEXT, 0))
  {
    hide Reaches, FinishStep;
    var s1, s2 := WriterAt(s, 0, Generating(m)), WriterAt(s, 0, Finishing(m, TEXT, 0));
    assert Step(s, Write(0, AiPickup(m))) == s1;
    Then(cfg, s0, s, Write(0, AiPickup(m)));
    assert s1.writers[0 := Finishing(m, TEXT, 0)] == s2.writers;
    assert Step(s1, Write(0, AiReply(Content(TEXT, 0)))) == s2;
    Then(cfg, s0, s1, Write(0, AiReply(Content(TEXT, 0))));
    assert Step(s2, Write(0, AiFinish)) == FinishStep(s2, 0, m, TEXT, 0);
    Then(cfg, s0, s2, Write(0, AiFinish));
  }

  /** The state once a draft's generation is completed and queued. */
  function Queued(s: State, m: MessageId, merchant: MerchantId, customer: CustomerId): State {
    var s1 := FinishStep(WriterAt(Drafted(s, m, merchant, customer), 0, Finishing(m, TEXT, 0)), 0, m, TEXT, 0);
    s1.(jobs := s1.jobs + {Job(merchant, m, 0, customer)})
  }

  /** Of dispatch, only the one message and its job are new. */
  lemma QueuedShape(s: State, m: MessageId, merchant: MerchantId, customer: CustomerId)
    requires Free(s) && m !in s.past.issued && m !in s.t.targets
    ensures var s' := Queued(s, m, merchant, customer);
            && Free(s') && Ready(s', Job(merchant, m, 0, customer))
            && s'.past.issued == s.past.issued + {m} && s'.jobs == s.jobs + {Job(merchant, m, 0, customer)}
            && s' == s.(t := s'.t, jobs := s'.jobs, writers := s'.writers, admissions := s'.admissions, past := s'.past)
            && s'.t.targets == s.t.targets && s'.t.quota == s.t.quota
            && s'.t.messages == s.t.messages[m := Message(merchant, customer, Draft, TEXT, None)]
  {
    var s1 := Drafted(s, m, merchant, customer);
    var text := s1.t.messages[m].(generatedText := TEXT);
    assert s.t.messages[m := s1.t.messages[m]][m := text] == s.t.messages[m := text];
  }

  /** One more message, admitted, generated and queued. */
  lemma Produce(cfg: Config, s0: State, s: State, m: MessageId, merchant: MerchantId, customer: CustomerId)
    requires Reaches(cfg, s0, s) && Free(s) && m !in s.past.issued && m !in s.t.targets
    ensures Reaches(cfg, s0, Queued(s, m, merchant, customer))
  {
    hide Reaches;
    Admit(cfg, s0, s, m, merchant, customer);
    var s1 := Drafted(s, m, merchant, customer);
    Generate(cfg, s0, s1, m);
    var s2 := FinishStep(WriterAt(s1, 0, Finishing(m, TEXT, 0)), 0, m, TEXT, 0);
    Then(cfg, s0, s2, SweepFresh(m, 0));
  }

  // ------------------------------------------------------------------- workers

  function CtxOf(cfg: Config, job: Job): Context {
    Context(cfg.settings(job.merchant), true, true, TEXT)
  }

  /** The row a claim makes. */
  function ClaimedRow(s: State, job: Job): Target {
    Target(job.merchant, job.customer, job.campaign, s.clock, Pending, None, None, None)
  }

  /** The claim's row is there, and the worker is at a place. */
  function ClaimedAt(s: State, w: Worker, job: Job, pc: Pc): State {
    At(s.(t := s.t.(targets := s.t.targets[job.message := ClaimedRow(s, job)])), w, pc)
  }

  lemma MovesOn(s: State, w: Worker, pc: Pc, pc': Pc)
    ensures At(At(s, w, pc), w, pc') == At(s, w, pc') && PcOf(At(s, w, pc), w) == pc
  {
    assert s.dispatchers[w := pc][w := pc'] == s.dispatchers[w := pc'];
  }

  /** A free worker picks up the job of a message it finds ready, and loads it. */
  lemma LoadReady(cfg: Config, s0: State, s: State, w: Worker, job: Job)
    requires Reaches(cfg, s0, s) && w < cfg.workers && PcOf(s, w) == Idle && Ready(s, job)
    ensures Reaches(cfg, s0, ClaimedAt(s, w, job, Gating(job, CtxOf(cfg, job), s.clock, NO_READS)))
  {
    hide Reaches;
    var s1 := At(s, w, Claiming(job));
    var b := s.(t := s.t.(targets := s.t.targets[job.message := ClaimedRow(s, job)]));
    assert Step(s, Pick(w, job)) == s1;
    Then(cfg, s0, s, Pick(w, job));
    MovesOn(b, w, Claiming(job), Loading(job));
    assert Step(s1, Dispatch(w, Claim)) == ClaimedAt(s, w, job, Loading(job));
    Then(cfg, s0, s1, Dispatch(w, Claim));
    LoadAgain(cfg, s0, b, w, job);
  }

  /** A worker about to load a pending or deferred target goes on to the gates. */
  lemma LoadAgain(cfg: Config, s0: State, b: State, w: Worker, job: Job)
    requires Reaches(cfg, s0, At(b, w, Loading(job))) && w < cfg.workers
    requires job.message in b.t.targets && b.t.targets[job.message].status in {Pending, Deferred}
    requires job.message in b.t.messages && b.t.messages[job.message].generatedText == TEXT
    ensures Reaches(cfg, s0, At(b, w, Gating(job, CtxOf(cfg, job), b.clock, NO_READS)))
  {
    hide Reaches;
    var load := Load(Some(cfg.settings(job.merchant)), true, true);
    var pc := Gating(job, CtxOf(cfg, job), b.clock, NO_READS);
    MovesOn(b, w, Loading(job), pc);
    assert Step(At(b, w, Loading(job)), Dispatch(w, load)) == At(b, w, pc);
    Then(cfg, s0, At(b, w, Loading(job)), Dispatch(w, load));
  }

  /** A free worker picks up the job of a message that has a target already. */
  lemma LoadClaimed(cfg: Config, s0: State, s: State, w: Worker, job: Job)
    requires Reaches(cfg, s0, s) && w < cfg.workers && PcOf(s, w) == Idle && job in s.jobs
    requires job.message in s.t.targets && s.t.targets[job.message].status in {Pending, Deferred}
    requires job.message in s.t.messages && s.t.messages[job.message].generatedText == TEXT
    ensures Reaches(cfg, s0, At(s, w, Gating(job, CtxOf(cfg, job), s.clock, NO_READS)))
  {
    hide Reaches;
    var s1 := At(s, w, Claiming(job));
    assert Step(s, Pick(w, job)) == s1;
    Then(cfg, s0, s, Pick(w, job));
    MovesOn(s, w, Claiming(job), Loading(job));
    assert Step(s1, Dispatch(w, Claim)) == At(s, w, Loading(job));
    Then(cfg, s0, s1, Dispatch(w, Claim));
    LoadAgain(cfg, s0, s, w, job);
  }

  /** One gate read. */
  lemma ReadOne(cfg: Config, s0: State, b: State, w: Worker, pc: Pc, move: Move, seen: Reads)
    requires pc.Gating? && Reaches(cfg, s0, At(b, w, pc)) && w < cfg.workers
    requires !move.Decide? && PcOf(ReadStep(At(b, w, pc), w, move), w).seen == seen
    requires move.ReadQuotaMonth? ==> move.monthStart == cfg.monthStart(DayOf(pc.gateNow))
    ensures Reaches(cfg, s0, At(b, w, pc.(seen := seen)))
  {
    hide Reaches;
    MovesOn(b, w, pc, pc.(seen := seen));
    assert DispatchStep(At(b, w, pc), w, move) == ReadStep(At(b, w, pc), w, move);
    assert Step(At(b, w, pc), Dispatch(w, move)) == At(b, w, pc.(seen := seen));
    Then(cfg, s0, At(b, w, pc), Dispatch(w, move));
  }

  /** Nothing stands in the way of a send now: nothing sent to the customer within the
      cooldown, and room in the day's ration and under both caps. */
  predicate Open(cfg: Config, b: State, job: Job) {
    var settings, day := cfg.settings(job.merchant), DayOf(b.clock);
    && SentSince(b.t, job.merchant, job.customer, b.clock - settings.cooldownHours * MS_PER_HOUR) == {}
    && SentToday(b, job) < settings.maxDailySendsPerCustomer
    && QuotaOn(b.t, job.merchant, day) < settings.dailySendCap
    && QuotaSince(b.t, job.merchant, cfg.monthStart(day)) < settings.monthlySendsCap
  }

  function SentToday(b: State, job: Job): nat {
    |SentSince(b.t, job.merchant, job.customer, DayOf(b.clock) * MS_PER_DAY)|
  }

  function TerminalReads(b: State, job: Job): Reads {
    Reads(Some(false), Some(false), Some(0), Some(SentToday(b, job)), None, None, None)
  }

  function AllReads(cfg: Config, b: State, job: Job): Reads {
    Reads(Some(false), Some(false), Some(0), Some(SentToday(b, job)), Some(true),
          Some(QuotaOn(b.t, job.merchant, DayOf(b.clock))),
          Some(QuotaSince(b.t, job.merchant, cfg.monthStart(DayOf(b.clock)))))
  }

  /** The terminal gates' reads: nothing objects. */
  lemma ReadTerminal(cfg: Config, s0: State, b: State, w: Worker, job: Job)
    requires Reaches(cfg, s0, At(b, w, Gating(job, CtxOf(cfg, job), b.clock, NO_READS)))
    requires w < cfg.workers && Open(cfg, b, job)
    ensures Reaches(cfg, s0, At(b, w, Gating(job, CtxOf(cfg, job), b.clock, TerminalReads(b, job))))
  {
    hide Reaches, QuotaSince;
    var pc := Gating(job, CtxOf(cfg, job), b.clock, NO_READS);
    var r1 := NO_READS.(suppressed := Some(false));
    var r2 := r1.(orderedSince := Some(false));
    var r3 := r2.(sentInCooldown := Some(0));
    var since := b.clock - cfg.settings(job.merchant).cooldownHours * MS_PER_HOUR;
    assert |SentSince(b.t, job.merchant, job.customer, since)| == 0;
    hide Open, SentSince;
    ReadOne(cfg, s0, b, w, pc, ReadSuppression(false), r1);
    ReadOne(cfg, s0, b, w, pc.(seen := r1), ReadOrders(false), r2);
    ReadOne(cfg, s0, b, w, pc.(seen := r2), ReadCooldown, r3);
    ReadOne(cfg, s0, b, w, pc.(seen := r3), ReadDaySends, r3.(sentToday := Some(SentToday(b, job))));
  }

  /** All seven reads of an open gate chain. */
  lemma ReadAll(cfg: Config, s0: State, b: State, w: Worker, job: Job)
    requires Reaches(cfg, s0, At(b, w, Gating(job, CtxOf(cfg, job), b.clock, NO_READS)))
    requires w < cfg.workers && Open(cfg, b, job)
    ensures Reaches(cfg, s0, At(b, w, Gating(job, CtxOf(cfg, job), b.clock, AllReads(cfg, b, job))))
  {
    hide Reaches, QuotaSince, Open, SentToday;
    ReadTerminal(cfg, s0, b, w, job);
    var r4 := TerminalReads(b, job);
    var pc, month := Gating(job, CtxOf(cfg, job), b.clock, r4), cfg.monthStart(DayOf(b.clock));
    var r5 := r4.(inWindow := Some(true));
    var r6 := r5.(quotaDay := Some(QuotaOn(b.t, job.merchant, DayOf(b.clock))));
    ReadOne(cfg, s0, b, w, pc, ReadWindow(true), r5);
    ReadOne(cfg, s0, b, w, pc.(seen := r5), ReadQuotaDay, r6);
    ReadOne(cfg, s0, b, w, pc.(seen := r6), ReadQuotaMonth(month), AllReads(cfg, b, job));
  }

  function PassNow(cfg: Config, s: State, job: Job): Pass {
    Pass(job, CtxOf(cfg, job), s.clock, s.clock)
  }

  lemma DecideOpen(cfg: Config, s0: State, b: State, w: Worker, job: Job)
    requires Reaches(cfg, s0, At(b, w, Gating(job, CtxOf(cfg, job), b.clock, AllReads(cfg, b, job))))
    requires w < cfg.workers && Open(cfg, b, job)
    ensures Reaches(cfg, s0, At(b, w, Starting(PassNow(cfg, b, job))))
  {
    hide Reaches, QuotaSince, SentToday, SentSince;
    var pc := Gating(job, CtxOf(cfg, job), b.clock, AllReads(cfg, b, job));
    MovesOn(b, w, pc, Starting(PassNow(cfg, b, job)));
    assert Step(At(b, w, pc), Dispatch(w, Decide)) == At(b, w, Starting(PassNow(cfg, b, job)));
    Then(cfg, s0, At(b, w, pc), Dispatch(w, Decide));
  }

  /** A free worker comes up to the send of a ready message whose gates are open. */
  lemma Approach(cfg: Config, s0: State, s: State, w: Worker, job: Job)
    requires Reaches(cfg, s0, s) && w < cfg.workers && PcOf(s, w) == Idle && Ready(s, job) && Open(cfg, s, job)
    ensures Reaches(cfg, s0, ClaimedAt(s, w, job, Starting(PassNow(cfg, s, job))))
  {
    var b := s.(t := s.t.(targets := s.t.targets[job.message := ClaimedRow(s, job)]));
    var since := cfg.monthStart(DayOf(s.clock));
    assert QuotaSince(b.t, job.merchant, since) == QuotaSince(s.t, job.merchant, since);
    assert forall from ::
        SentSince(b.t, job.merchant, job.customer, from) == SentSince(s.t, job.merchant, job.customer, from);
    hide Reaches, QuotaSince, SentSince;
    LoadReady(cfg, s0, s, w, job);
    assert Open(cfg, b, job);
    hide Open;
    ReadAll(cfg, s0, b, w, job);
    DecideOpen(cfg, s0, b, w, job);
  }

  function AfterSend(s: State, w: Worker, pass: Pass): State {
    SendStep(StartStep(s, w, pass), w, pass, Accepted)
  }

  /** The send is started and accepted. */
  lemma SendNow(cfg: Config, s0: State, s: State, w: Worker, pass: Pass)
    requires Reaches(cfg, s0, s) && w < cfg.workers && PcOf(s, w) == Starting(pass)
    requires pass.job.message in s.t.targets && s.t.targets[pass.job.message].status == Pending
    ensures Reaches(cfg, s0, AfterSend(s, w, pass)) && PcOf(AfterSend(s, w, pass), w) == Completing(pass, 1)
    ensures var s' := AfterSend(s, w, pass);
            && s'.t == StartSending(s.t, pass.job.message, pass.sendNow).0
            && s' == s.(t := s'.t, dispatchers := s.dispatchers[w := Completing(pass, 1)], deliveries := s'.deliveries)
            && Bodies(s', pass.job.message) == Bodies(s, pass.job.message) + [pass.ctx.body]
  {
    hide Reaches;
    var s1 := StartStep(s, w, pass);
    assert Step(s, Dispatch(w, Start)) == s1;
    Then(cfg, s0, s, Dispatch(w, Start));
    assert Step(s1, Dispatch(w, Send(Accepted))) == AfterSend(s, w, pass);
    Then(cfg, s0, s1, Dispatch(w, Send(Accepted)));
    assert s1.dispatchers[w := Completing(pass, 1)] == s.dispatchers[w := Completing(pass, 1)];
  }

  function SentBy(s: State, w: Worker, pass: Pass): State {
    CompleteStep(AfterSend(s, w, pass), w, pass, 1, Acked)
  }

  /** And recorded, at the first attempt. */
  lemma Record(cfg: Config, s0: State, s: State, w: Worker, pass: Pass)
    requires Reaches(cfg, s0, s) && w < cfg.workers && PcOf(s, w) == Starting(pass)
    requires pass.job.message in s.t.targets && s.t.targets[pass.job.message].status == Pending
    ensures Reaches(cfg, s0, SentBy(s, w, pass))
  {
    SendNow(cfg, s0, s, w, pass);
    hide Reaches, CompleteStep, AfterSend;
    Then(cfg, s0, AfterSend(s, w, pass), Dispatch(w, CompleteSend(Acked)));
  }

  lemma SentByShape(s: State, w: Worker, pass: Pass)
    requires pass.job.message in s.t.targets && s.t.targets[pass.job.message].status == Pending
    requires pass.job.message in s.t.messages && s.t.messages[pass.job.message].status == Draft
    ensures var s', m := SentBy(s, w, pass), pass.job.message;
            var k := BucketKey(pass.job.merchant, DayOf(pass.sendNow));
            && s'.dispatchers == s.dispatchers[w := Idle] && s'.jobs == s.jobs && s'.clock == s.clock
            && s'.t.quota == s.t.quota[k := QuotaOn(s.t, k.merchant, k.day) + 1]
            && s'.t.messages == s.t.messages[m := s.t.messages[m].(status := MessageSent, sentAt := Some(pass.sendNow))]
            && s'.t.targets.Keys == s.t.targets.Keys
            && (forall i :: i != m && i in s.t.targets ==> s'.t.targets[i] == s.t.targets[i])
  {
    var s1 := StartStep(s, w, pass);
    var s2 := AfterSend(s, w, pass);
    assert s2.t == s1.t && s1.t.targets == s.t.targets[pass.job.message := s1.t.targets[pass.job.message]];
    assert s2.dispatchers[w := Idle] == s.dispatchers[w := Idle];
  }
}
