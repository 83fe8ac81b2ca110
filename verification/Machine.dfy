/** The pipeline as a machine: dispatch workers, AI workers, admission handlers, sweeps
    and erasures interleave over the tables, one database transaction or external call
    at a time. A step is a function of the state and an event; whatever the code does not
    control (which worker runs, clocks, provider outcomes, lost acknowledgements,
    crashes) is in the event. An event that does not fit the state changes nothing, so
    every sequence of events is a run. */
module Machine {
  import opened Collections
  import opened Tables
  import opened GateChain

  type Worker = nat

  /** A send in flight: what was loaded, the gates' clock, and the clock stamped just
      before `startSending` and written as `sentAt`. */
  datatype Pass = Pass(job: Job, ctx: Context, gateNow: Millis, sendNow: Millis)

  /** Where a dispatch worker stands between two awaits of `processCampaignDispatchJob`. */
  datatype Pc =
    | Idle
    | Claiming(job: Job)
    | Loading(job: Job)
    | Gating(job: Job, ctx: Context, gateNow: Millis, seen: Reads)
    | Suppressing(job: Job, reason: Reason)
    | Deferring(job: Job)
    | Starting(pass: Pass)
    | InSend(pass: Pass)
    | Completing(pass: Pass, attempt: nat)
    | Reverting(job: Job)
    | Burning(job: Job, reason: Reason, status: TargetStatus)

  const COMPLETION_TX_RETRIES: nat := 3

  /** What `emailProvider.send` does. A throw means the provider did not accept. */
  datatype SendOutcome = Accepted | Retryable | RecipientSuppressed | NonRetryable(code: string) | UnknownError

  /** How a completion transaction ends for the caller: acknowledged, committed but
      reported as an error, or rolled back. */
  datatype CommitOutcome = Acked | AckLost | RolledBack

  /** One await of a dispatch worker. */
  datatype Move =
    | Claim
    | Load(settings: Option<Settings>, subscribed: bool, hasEmail: bool)
    | ReadSuppression(suppressed: bool)
    | ReadOrders(orderedSince: bool)
    | ReadCooldown
    | ReadDaySends
    | ReadWindow(inWindow: bool)
    | ReadQuotaDay
    | ReadQuotaMonth(monthStart: Day)
    | Decide
    | ApplySuppress
    | ApplyDefer
    | Start
    | Send(outcome: SendOutcome)
    | CompleteSend(commit: CommitOutcome)
    | Revert
    | Burn

  /** Where an AI worker stands in `processAiGenerateJob`. */
  datatype AiPc =
    | AiIdle
    | Generating(message: MessageId)
    | Finishing(message: MessageId, text: string, cost: nat)
    | Failing(message: MessageId)

  const GENERATION_STALENESS_MS: int := 24 * 60 * 60 * 1000

  /** What the provider call (and the discount mint after it) comes to: text to store, a
      throw the queue retries, or a reason to fail the row (provider refusal, or the
      customer was erased and must not be sent a code). */
  datatype Reply = Content(text: string, cost: nat) | ReplyRetryable | ReplyFatal

  datatype AiMove = AiPickup(message: MessageId) | AiReply(reply: Reply) | AiFinish | AiFail

  /** Where a `customer.state_changed` handler stands between the spend check and the
      transaction that writes the pending generation. */
  datatype Admission = NotAdmitted | Checking(merchant: MerchantId, asOf: Millis) | Admitted(merchant: MerchantId)

  /** Proof-only record of one completed send. */
  datatype SendRecord = SendRecord(merchant: MerchantId, customer: CustomerId, at: Millis)

  /** Proof-only record of one completed generation. */
  datatype SpendRecord = SpendRecord(merchant: MerchantId, at: Millis, cost: nat)

  /** What happened: sends and completions on record, the rows a sweep has seen deferred and
      may yet resolve, the ids ever handed out, the ids ever erased. */
  datatype Past = Past(
    sentLog: map<MessageId, SendRecord>,
    spendLog: map<MessageId, SpendRecord>,
    seenDeferred: set<MessageId>,
    issued: set<MessageId>,
    redacted: set<MessageId>
  )

  /** `t` is the database. `jobs` holds every job ever enqueued: a queue may deliver any
      of them at any time, any number of times. `deliveries` is the provider's log. */
  datatype State = State(
    t: Tables,
    jobs: set<Job>,
    dispatchers: map<Worker, Pc>,
    writers: map<Worker, AiPc>,
    admissions: map<Worker, Admission>,
    clock: Millis,
    deliveries: map<MessageId, seq<string>>,
    past: Past
  )

  datatype Event =
    | Tick(now: Millis)
    | BeginCheck(h: Worker, merchant: MerchantId)
    | ReadSpend(h: Worker, monthStart: Day, estimate: nat, cap: int)
    | Create(h: Worker, message: MessageId, customer: CustomerId)
    | SweepFresh(message: MessageId, campaign: CampaignId)
    | SweepDeferred(message: MessageId)
    | SweepSee(message: MessageId)
    | SweepResolve(message: MessageId, reason: Reason)
    | Redact(merchant: MerchantId, customer: CustomerId)
    | Pick(w: Worker, job: Job)
    | Dispatch(w: Worker, move: Move)
    | Write(w: Worker, aiMove: AiMove)
    | Crash(w: Worker)
    | CrashWriter(w: Worker)
    | CrashHandler(h: Worker)

  // ------------------------------------------------------------------ lookups

  function PcOf(s: State, w: Worker): Pc {
    if w in s.dispatchers then s.dispatchers[w] else Idle
  }

  function AiPcOf(s: State, w: Worker): AiPc {
    if w in s.writers then s.writers[w] else AiIdle
  }

  function AdmissionOf(s: State, h: Worker): Admission {
    if h in s.admissions then s.admissions[h] else NotAdmitted
  }

  /** The bodies the provider accepted for a message. */
  function Bodies(s: State, m: MessageId): seq<string> {
    if m in s.deliveries then s.deliveries[m] else []
  }

  function Init(clock: Millis): State {
    State(Tables(map[], map[], map[], map[], map[], multiset{}), {}, map[], map[], map[], clock,
          map[], Past(map[], map[], {}, {}, {}))
  }

  function At(s: State, w: Worker, pc: Pc): State {
    s.(dispatchers := s.dispatchers[w := pc])
  }

  function WriterAt(s: State, w: Worker, pc: AiPc): State {
    s.(writers := s.writers[w := pc])
  }

  function HandlerAt(s: State, h: Worker, a: Admission): State {
    s.(admissions := s.admissions[h := a])
  }

  // --------------------------------------------------------- dispatch workers

  function ClaimStep(s: State, w: Worker, job: Job): State {
    var (t, r) := ClaimTarget(s.t, job, s.clock);
    At(s.(t := t), w, if r == ClaimError then Idle else Loading(job))
  }

  /** `loadDispatchContext` and the replay guard: only pending and deferred targets go on. */
  function LoadStep(s: State, w: Worker, job: Job, settings: Option<Settings>, subscribed: bool,
                    hasEmail: bool): State {
    var m := job.message;
    if m !in s.t.targets || m !in s.t.messages || settings.None? then At(s, w, Idle)
    else if s.t.targets[m].status in {Suppressed, Sent, Failed, Sending} then At(s, w, Idle)
    else
      var ctx := Context(settings.value, subscribed, hasEmail, s.t.messages[m].generatedText);
      At(s, w, Gating(job, ctx, s.clock, NO_READS))
  }

  function ReadStep(s: State, w: Worker, move: Move): State
    requires PcOf(s, w).Gating?
  {
    var pc := PcOf(s, w);
    var r := pc.seen;
    var merchant, customer := pc.job.merchant, pc.job.customer;
    var r' := match move
      case ReadSuppression(b) => r.(suppressed := Some(b))
      case ReadOrders(b) => r.(orderedSince := Some(b))
      case ReadCooldown =>
        var since := pc.gateNow - pc.ctx.settings.cooldownHours * MS_PER_HOUR;
        r.(sentInCooldown := Some(|SentSince(s.t, merchant, customer, since)|))
      case ReadDaySends =>
        r.(sentToday := Some(|SentSince(s.t, merchant, customer, DayOf(pc.gateNow) * MS_PER_DAY)|))
      case ReadWindow(b) => r.(inWindow := Some(b))
      case ReadQuotaDay => r.(quotaDay := Some(QuotaOn(s.t, merchant, DayOf(pc.gateNow))))
      case ReadQuotaMonth(monthStart) => r.(quotaMonth := Some(QuotaSince(s.t, merchant, monthStart)))
      case _ => r;
    At(s, w, pc.(seen := r'))
  }

  function DecideStep(s: State, w: Worker): State
    requires PcOf(s, w).Gating?
  {
    var pc := PcOf(s, w);
    match RunGateChain(pc.ctx, pc.seen)
    case Undecided => s
    case Suppress(gate) => At(s, w, Suppressing(pc.job, gate))
    case Defer(_) => At(s, w, Deferring(pc.job))
    case Passed =>
      if !pc.ctx.hasEmail then At(s, w, Deferring(pc.job))
      else At(s, w, Starting(Pass(pc.job, pc.ctx, pc.gateNow, s.clock)))
  }

  function StartStep(s: State, w: Worker, pass: Pass): State {
    var (t, started) := StartSending(s.t, pass.job.message, pass.sendNow);
    At(s.(t := t), w, if started then InSend(pass) else Idle)
  }

  function SendStep(s: State, w: Worker, pass: Pass, outcome: SendOutcome): State {
    match outcome
    case Accepted =>
      var m := pass.job.message;
      At(s.(deliveries := s.deliveries[m := Bodies(s, m) + [pass.ctx.body]]), w, Completing(pass, 1))
    case Retryable => At(s, w, Reverting(pass.job))
    case UnknownError => At(s, w, Reverting(pass.job))
    case RecipientSuppressed => At(s, w, Burning(pass.job, SesSuppressed, Suppressed))
    case NonRetryable(code) => At(s, w, Burning(pass.job, SesError(code), Failed))
  }

  /** One attempt of the completion retry loop. An exhausted budget leaves the row sending. */
  function CompleteStep(s: State, w: Worker, pass: Pass, attempt: nat, commit: CommitOutcome): State {
    var again := if attempt < COMPLETION_TX_RETRIES then Completing(pass, attempt + 1) else Idle;
    if commit == RolledBack then At(s, w, again)
    else
      var (t, sent) := MarkSent(s.t, pass.job, pass.sendNow);
      var record := SendRecord(pass.job.merchant, pass.job.customer, pass.sendNow);
      var log := if sent then s.past.sentLog[pass.job.message := record] else s.past.sentLog;
      At(s.(t := t, past := s.past.(sentLog := log)), w, if commit == AckLost then again else Idle)
  }

  function BurnStep(s: State, w: Worker, job: Job, reason: Reason, status: TargetStatus): State {
    if status == Suppressed || status == Failed then
      At(s.(t := ResolveTerminal(s.t, job.message, reason, status).0), w, Idle)
    else s
  }

  function DispatchStep(s: State, w: Worker, move: Move): State {
    match PcOf(s, w)
    case Claiming(job) => if move.Claim? then ClaimStep(s, w, job) else s
    case Loading(job) =>
      if move.Load? then LoadStep(s, w, job, move.settings, move.subscribed, move.hasEmail) else s
    case Gating(_, _, _, _) => if move.Decide? then DecideStep(s, w) else ReadStep(s, w, move)
    case Suppressing(job, reason) => if move.ApplySuppress? then BurnStep(s, w, job, reason, Suppressed) else s
    case Deferring(job) => if move.ApplyDefer? then At(s.(t := DeferTarget(s.t, job.message).0), w, Idle) else s
    case Starting(pass) => if move.Start? then StartStep(s, w, pass) else s
    case InSend(pass) => if move.Send? then SendStep(s, w, pass, move.outcome) else s
    case Completing(pass, attempt) => if move.CompleteSend? then CompleteStep(s, w, pass, attempt, move.commit) else s
    case Reverting(job) => if move.Revert? then At(s.(t := RevertToPending(s.t, job.message).0), w, Idle) else s
    case Burning(job, reason, status) => if move.Burn? then BurnStep(s, w, job, reason, status) else s
    case Idle => s
  }

  // --------------------------------------------------------------- AI workers

  function FinishStep(s: State, w: Worker, m: MessageId, text: string, cost: nat): State {
    var (t, completed) := Complete(s.t, m, text, cost, s.clock);
    var log := if completed then s.past.spendLog[m := SpendRecord(s.t.generations[m].merchant, s.clock, cost)]
               else s.past.spendLog;
    WriterAt(s.(t := t, past := s.past.(spendLog := log)), w, AiIdle)
  }

  function WriteStep(s: State, w: Worker, move: AiMove): State {
    match AiPcOf(s, w)
    case AiIdle =>
      if move.AiPickup? && move.message in s.t.generations
         && s.t.generations[move.message].status == GenerationPending then
        if s.clock - s.t.generations[move.message].createdAt > GENERATION_STALENESS_MS then
          WriterAt(s, w, Failing(move.message))
        else WriterAt(s, w, Generating(move.message))
      else s
    case Generating(m) =>
      if !move.AiReply? then s
      else (
        match move.reply
        case Content(text, cost) => WriterAt(s, w, Finishing(m, text, cost))
        case ReplyRetryable => WriterAt(s, w, AiIdle)
        case ReplyFatal => WriterAt(s, w, Failing(m)))
    case Finishing(m, text, cost) =>
      if move.AiFinish? then FinishStep(s, w, m, text, cost) else s
    case Failing(m) =>
      if move.AiFail? then WriterAt(s.(t := MarkFailed(s.t, m).0), w, AiIdle) else s
  }

  // ---------------------------------------------------- admission, sweep, erasure

  function ReadSpendStep(s: State, h: Worker, monthStart: Day, estimate: nat, cap: int): State {
    match AdmissionOf(s, h)
    case Checking(merchant, asOf) =>
      if SpendSince(s.t, merchant, monthStart) + estimate > cap then HandlerAt(s, h, NotAdmitted)
      else HandlerAt(s, h, Admitted(merchant))
    case _ => s
  }

  function CreateStep(s: State, h: Worker, m: MessageId, customer: CustomerId): State {
    match AdmissionOf(s, h)
    case Admitted(merchant) =>
      if m in s.past.issued then s
      else
        HandlerAt(s.(t := CreateDraft(s.t, m, merchant, customer, s.clock),
                     past := s.past.(issued := s.past.issued + {m})),
                  h, NotAdmitted)
    case _ => s
  }

  /** `findDispatchableDrafts`: a draft with a completed, non-empty generation and no target. */
  predicate Dispatchable(t: Tables, m: MessageId) {
    && m in t.messages && t.messages[m].status == Draft && t.messages[m].generatedText != ""
    && m in t.generations && t.generations[m].status == GenerationCompleted
    && m !in t.targets
  }

  predicate IsDeferred(t: Tables, m: MessageId) {
    m in t.targets && t.targets[m].status == Deferred
  }

  function SweepFreshStep(s: State, m: MessageId, campaign: CampaignId): State {
    if Dispatchable(s.t, m) then
      var row := s.t.messages[m];
      s.(jobs := s.jobs + {Job(row.merchant, m, campaign, row.customer)})
    else s
  }

  function SweepDeferredStep(s: State, m: MessageId): State {
    if IsDeferred(s.t, m) then
      var row := s.t.targets[m];
      s.(jobs := s.jobs + {Job(row.merchant, m, row.campaign, row.customer)})
    else s
  }

  function RedactStep(s: State, merchant: MerchantId, customer: CustomerId): State {
    var t := RedactCustomer(s.t, merchant, customer);
    s.(t := t, past := s.past.(redacted := s.past.redacted + (s.t.messages.Keys - t.messages.Keys)))
  }

  // ------------------------------------------------------------ shapes of steps

  /** The job a dispatch worker is on, if any. */
  function JobOf(pc: Pc): Option<Job> {
    match pc
    case Idle => None
    case Starting(p) => Some(p.job)
    case InSend(p) => Some(p.job)
    case Completing(p, _) => Some(p.job)
    case _ => Some(pc.job)
  }

  /** Loading moves nothing but the worker, and past the replay guard only on a target
      that is pending or deferred. */
  lemma LoadShape(s: State, w: Worker, job: Job, settings: Option<Settings>, subscribed: bool, hasEmail: bool)
    ensures var s' := LoadStep(s, w, job, settings, subscribed, hasEmail);
            var pc := PcOf(s', w);
            && s' == At(s, w, pc)
            && (pc == Idle || pc.Gating?)
            && (pc.Gating? ==>
                  && pc.job == job && pc.gateNow == s.clock && pc.seen == NO_READS
                  && settings == Some(pc.ctx.settings)
                  && job.message in s.t.messages && pc.ctx.body == s.t.messages[job.message].generatedText
                  && job.message in s.t.targets && s.t.targets[job.message].status in {Pending, Deferred})
  {
    if job.message in s.t.targets {
      match s.t.targets[job.message].status {
        case Pending => case Deferred => case _ =>
      }
    }
  }

  /** Gate reads and the decision move nothing but the worker, which stays on its job. */
  lemma GateShape(s: State, w: Worker, move: Move)
    requires PcOf(s, w).Gating?
    ensures var s' := DispatchStep(s, w, move);
            var pc := PcOf(s', w);
            && s' == At(s, w, pc)
            && JobOf(pc) == Some(PcOf(s, w).job)
            && (pc.Gating? || pc.Suppressing? || pc.Deferring? || pc.Starting?)
            && (pc.Gating? ==> pc.ctx == PcOf(s, w).ctx && pc.gateNow == PcOf(s, w).gateNow)
            && (pc.Starting? ==>
                  && pc.pass == Pass(PcOf(s, w).job, PcOf(s, w).ctx, PcOf(s, w).gateNow, s.clock)
                  && RunGateChain(PcOf(s, w).ctx, PcOf(s, w).seen) == Passed)
  {
    var stay := PcOf(s, w);
    assert w in s.dispatchers && s.dispatchers[w := stay] == s.dispatchers;
    if move.Decide? {
      assert DispatchStep(s, w, move) == DecideStep(s, w);
    } else {
      assert DispatchStep(s, w, move) == ReadStep(s, w, move);
    }
  }

  /** Where one step can take a dispatch worker. */
  predicate Follows(s: State, pc: Pc, move: Move, pc': Pc) {
    || pc' == pc
    || match pc'
       case Idle => true
       case Claiming(_) => false
       case Loading(job) => pc == Claiming(job)
       case Gating(job, ctx, gateNow, seen) =>
         || (pc == Loading(job) && gateNow == s.clock && seen == NO_READS
             && move.Load? && move.settings == Some(ctx.settings))
         || (pc.Gating? && pc.job == job && pc.ctx == ctx && pc.gateNow == gateNow)
       case Starting(p) =>
         && pc.Gating? && p == Pass(pc.job, pc.ctx, pc.gateNow, s.clock)
         && RunGateChain(pc.ctx, pc.seen) == Passed
       case InSend(p) => pc == Starting(p)
       case Completing(p, _) => pc == InSend(p) || (pc.Completing? && pc.pass == p)
       case Reverting(job) => pc.InSend? && pc.pass.job == job
       case Burning(job, _, _) => pc.InSend? && pc.pass.job == job
       case _ => JobOf(pc) == Some(pc'.job)
  }

  /** The worker moves along `Follows`, and nobody else moves. */
  ghost predicate Advances(s: State, w: Worker, move: Move, s': State) {
    && Follows(s, PcOf(s, w), move, PcOf(s', w))
    && s'.dispatchers == (if w in s.dispatchers then s.dispatchers[w := PcOf(s', w)] else s.dispatchers)
  }

  /** The columns and proof fields no dispatch worker writes. */
  predicate DispatchFrame(s: State, s': State) {
    && s'.t.generations == s.t.generations && s'.t.spend == s.t.spend
    && s' == s.(t := s'.t, dispatchers := s'.dispatchers, deliveries := s'.deliveries, past := s'.past)
    && s'.past == s.past.(sentLog := s'.past.sentLog)
  }

  lemma GateAdvances(s: State, w: Worker, move: Move)
    requires PcOf(s, w).Idle? || PcOf(s, w).Claiming? || PcOf(s, w).Loading? || PcOf(s, w).Gating?
    ensures Advances(s, w, move, DispatchStep(s, w, move)) && DispatchFrame(s, DispatchStep(s, w, move))
  {
    match PcOf(s, w)
    case Loading(job) =>
      if move.Load? { LoadShape(s, w, job, move.settings, move.subscribed, move.hasEmail); }
    case Gating(_, _, _, _) => GateShape(s, w, move);
    case _ =>
  }

  lemma StartAdvances(s: State, w: Worker, pass: Pass, move: Move)
    requires PcOf(s, w) == Starting(pass)
    ensures Advances(s, w, move, StartStep(s, w, pass)) && DispatchFrame(s, StartStep(s, w, pass))
  {
  }

  lemma SendAdvances(s: State, w: Worker, pass: Pass, outcome: SendOutcome, move: Move)
    requires PcOf(s, w) == InSend(pass)
    ensures Advances(s, w, move, SendStep(s, w, pass, outcome)) && DispatchFrame(s, SendStep(s, w, pass, outcome))
  {
  }

  lemma CompleteAdvances(s: State, w: Worker, pass: Pass, attempt: nat, commit: CommitOutcome, move: Move)
    requires PcOf(s, w) == Completing(pass, attempt)
    ensures Advances(s, w, move, CompleteStep(s, w, pass, attempt, commit))
    ensures DispatchFrame(s, CompleteStep(s, w, pass, attempt, commit))
  {
  }

  lemma BurnAdvances(s: State, w: Worker, move: Move)
    requires PcOf(s, w).Suppressing? || PcOf(s, w).Burning?
    ensures Advances(s, w, move, DispatchStep(s, w, move)) && DispatchFrame(s, DispatchStep(s, w, move))
  {
  }

  lemma EndAdvances(s: State, w: Worker, move: Move)
    requires PcOf(s, w).Deferring? || PcOf(s, w).Reverting?
    ensures Advances(s, w, move, DispatchStep(s, w, move)) && DispatchFrame(s, DispatchStep(s, w, move))
  {
  }

  /** Every dispatch step moves its own worker along `Follows` and stays in its columns. */
  lemma DispatchShape(s: State, w: Worker, move: Move)
    ensures Advances(s, w, move, DispatchStep(s, w, move)) && DispatchFrame(s, DispatchStep(s, w, move))
  {
    var pc := PcOf(s, w);
    if pc.Starting? { if move.Start? { StartAdvances(s, w, pc.pass, move); } }
    else if pc.InSend? { if move.Send? { SendAdvances(s, w, pc.pass, move.outcome, move); } }
    else if pc.Completing? { if move.CompleteSend? { CompleteAdvances(s, w, pc.pass, pc.attempt, move.commit, move); } }
    else if pc.Suppressing? || pc.Burning? { BurnAdvances(s, w, move); }
    else if pc.Deferring? || pc.Reverting? { EndAdvances(s, w, move); }
    else { GateAdvances(s, w, move); }
  }

  lemma DispatchAdvances(s: State, w: Worker, move: Move)
    ensures Advances(s, w, move, DispatchStep(s, w, move))
  {
    DispatchShape(s, w, move);
  }

  lemma DispatchWrites(s: State, w: Worker, move: Move)
    ensures DispatchFrame(s, DispatchStep(s, w, move))
  {
    DispatchShape(s, w, move);
  }

  /** An AI worker's step moves the worker and, at most, runs one of the two generation
      transactions on the row it holds. */
  lemma WriteShape(s: State, w: Worker, move: AiMove)
    ensures var s' := WriteStep(s, w, move);
            var pc := AiPcOf(s, w);
            && s' == s.(t := s'.t, writers := s'.writers, past := s'.past)
            && s'.past == s.past.(spendLog := s'.past.spendLog)
            && ((s'.t == s.t && s'.past.spendLog == s.past.spendLog)
                || (pc.Finishing? && s' == FinishStep(s, w, pc.message, pc.text, pc.cost))
                || (pc.Failing? && s'.t == MarkFailed(s.t, pc.message).0 && s'.past.spendLog == s.past.spendLog))
  {
  }

  // --------------------------------------------------------------------- runs

  function Step(s: State, e: Event): State {
    match e
    case Tick(now) => s.(clock := now)
    case BeginCheck(h, merchant) =>
      if AdmissionOf(s, h) == NotAdmitted then HandlerAt(s, h, Checking(merchant, s.clock)) else s
    case ReadSpend(h, monthStart, estimate, cap) => ReadSpendStep(s, h, monthStart, estimate, cap)
    case Create(h, m, customer) => CreateStep(s, h, m, customer)
    case SweepFresh(m, campaign) => SweepFreshStep(s, m, campaign)
    case SweepDeferred(m) => SweepDeferredStep(s, m)
    case SweepSee(m) => if IsDeferred(s.t, m) then s.(past := s.past.(seenDeferred := s.past.seenDeferred + {m})) else s
    case SweepResolve(m, reason) =>
      if m in s.past.seenDeferred then s.(t := ResolveTerminal(s.t, m, reason, Suppressed).0) else s
    case Redact(merchant, customer) => RedactStep(s, merchant, customer)
    case Pick(w, job) => if PcOf(s, w).Idle? && job in s.jobs then At(s, w, Claiming(job)) else s
    case Dispatch(w, move) => DispatchStep(s, w, move)
    case Write(w, move) => WriteStep(s, w, move)
    case Crash(w) => At(s, w, Idle)
    case CrashWriter(w) => WriterAt(s, w, AiIdle)
    case CrashHandler(h) => HandlerAt(s, h, NotAdmitted)
  }

  /** What the sweep's writes and the queue's moves touch. */
  lemma ResolveShape(s: State, m: MessageId, reason: Reason)
    ensures var t := Step(s, SweepResolve(m, reason)).t;
            && Step(s, SweepResolve(m, reason)) == s.(t := t)
            && t == s.t.(targets := t.targets, messages := t.messages)
  {
  }

  lemma QueueShape(s: State, e: Event)
    requires e.SweepFresh? || e.SweepDeferred? || e.Pick? || e.Crash?
    ensures var s' := Step(s, e);
            && s' == s.(jobs := s'.jobs, dispatchers := s'.dispatchers)
            && s.jobs <= s'.jobs
            && (e.SweepFresh? || e.SweepDeferred? ==> s'.dispatchers == s.dispatchers)
            && (e.Pick? || e.Crash? ==>
                  && s'.jobs == s.jobs
                  && (s' == s || s' == At(s, e.w, if e.Pick? then Claiming(e.job) else Idle)))
  {
  }

  /** The state after a run. */
  function Run(s: State, es: seq<Event>): State
    decreases |es|
  {
    if es == [] then s else Step(Run(s, es[..|es| - 1]), es[|es| - 1])
  }

  lemma {:induction false} RunConcat(s: State, es: seq<Event>, fs: seq<Event>)
    ensures Run(s, es + fs) == Run(Run(s, es), fs)
    decreases |fs|
  {
    if fs == [] {
      assert es + fs == es;
    } else {
      var front := fs[..|fs| - 1];
      assert (es + fs)[..|es + fs| - 1] == es + front;
      RunConcat(s, es, front);
    }
  }
}
