/** The text a customer gets is settled before dispatch begins: a target exists only for a
    completed generation, and from then on the Message text is that generation's text,
    never changes, and is what the provider is handed, however AI workers, sweeps and
    dispatch workers interleave. */
module FrozenText {
  import opened Collections
  import opened Tables
  import opened GateChain
  import opened Machine
  import opened SendOnce

  predicate Completed(t: Tables, m: MessageId) {
    m in t.generations && t.generations[m].status == GenerationCompleted
  }

  /** Completed with something to say. */
  predicate Settled(t: Tables, m: MessageId) {
    Completed(t, m) && m in t.messages && t.messages[m].generatedText != ""
  }

  /** The echo on the Message row, and everything delivered, is the completed text. */
  ghost predicate TextOk(s: State, m: MessageId) {
    && (m in s.t.messages && Completed(s.t, m) ==> s.t.generations[m].text == Some(s.t.messages[m].generatedText))
    && (m in s.t.messages && !Completed(s.t, m) ==> s.t.messages[m].generatedText == "")
    && (m in s.t.targets ==> Settled(s.t, m))
    && (forall b :: b in Bodies(s, m) && m in s.t.messages ==> Settled(s.t, m) && b == s.t.messages[m].generatedText)
  }

  predicate ReadyJob(s: State, job: Job) {
    job.message in s.t.messages ==> Settled(s.t, job.message)
  }

  /** A worker past the load holds the settled text. */
  predicate HoldsText(s: State, pc: Pc) {
    (pc.Gating? ==> pc.job.message in s.t.messages ==>
       Settled(s.t, pc.job.message) && pc.ctx.body == s.t.messages[pc.job.message].generatedText) &&
    (pc.Starting? || pc.InSend? || pc.Completing? ==> pc.pass.job.message in s.t.messages ==>
       Settled(s.t, pc.pass.job.message) && pc.pass.ctx.body == s.t.messages[pc.pass.job.message].generatedText)
  }

  ghost predicate TextInv(s: State) {
    && (forall m :: TextOk(s, m))
    && (forall job :: job in s.jobs ==> ReadyJob(s, job))
    && (forall w :: HoldsText(s, PcOf(s, w)))
  }

  /** Transactions that move a status leave the text alone. */
  lemma MovesKeepText(s: State, s': State, w: Worker, m: MessageId)
    requires TextInv(s)
    requires Moves(s.t, s'.t, m) && s'.jobs == s.jobs
    requires forall k :: Bodies(s', k) == Bodies(s, k)
    requires m in s'.t.targets ==> Settled(s.t, m)
    requires forall v :: v != w ==> PcOf(s', v) == PcOf(s, v)
    requires HoldsText(s, PcOf(s', w))
    ensures TextInv(s')
  {
    forall k
      ensures TextOk(s', k)
    {
      assert TextOk(s, k);
    }
    forall job | job in s'.jobs
      ensures ReadyJob(s', job)
    {
      assert ReadyJob(s, job);
    }
    forall v
      ensures HoldsText(s', PcOf(s', v))
    {
      assert v != w ==> HoldsText(s, PcOf(s, v));
    }
  }

  lemma ClaimKeepsText(s: State, w: Worker, job: Job)
    requires Inv(s) && TextInv(s) && PcOf(s, w) == Claiming(job)
    ensures TextInv(ClaimStep(s, w, job))
  {
    Here(s, w, job.message);
    ClaimMoves(s.t, job, s.clock);
    assert ReadyJob(s, job) && TextOk(s, job.message);
    MovesKeepText(s, ClaimStep(s, w, job), w, job.message);
  }

  lemma LoadKeepsText(s: State, w: Worker, job: Job, settings: Option<Settings>, subscribed: bool, hasEmail: bool)
    requires TextInv(s) && PcOf(s, w) == Loading(job)
    ensures TextInv(LoadStep(s, w, job, settings, subscribed, hasEmail))
  {
    LoadShape(s, w, job, settings, subscribed, hasEmail);
    assert TextOk(s, job.message);
    MovesKeepText(s, LoadStep(s, w, job, settings, subscribed, hasEmail), w, job.message);
  }

  lemma GateKeepsText(s: State, w: Worker, move: Move)
    requires TextInv(s) && PcOf(s, w).Gating?
    ensures TextInv(DispatchStep(s, w, move))
  {
    GateShape(s, w, move);
    assert HoldsText(s, PcOf(s, w)) && TextOk(s, PcOf(s, w).job.message);
    MovesKeepText(s, DispatchStep(s, w, move), w, PcOf(s, w).job.message);
  }

  lemma StartKeepsText(s: State, w: Worker, pass: Pass)
    requires Inv(s) && TextInv(s) && PcOf(s, w) == Starting(pass)
    ensures TextInv(StartStep(s, w, pass))
  {
    Here(s, w, pass.job.message);
    StartMoves(s.t, pass.job.message, pass.sendNow);
    assert TextOk(s, pass.job.message) && HoldsText(s, PcOf(s, w));
    MovesKeepText(s, StartStep(s, w, pass), w, pass.job.message);
  }

  /** The one delivery of a message is its settled text. */
  lemma SendKeepsText(s: State, w: Worker, pass: Pass, outcome: SendOutcome)
    requires TextInv(s) && PcOf(s, w) == InSend(pass)
    ensures TextInv(SendStep(s, w, pass, outcome))
  {
    var s' := SendStep(s, w, pass, outcome);
    assert HoldsText(s, PcOf(s, w));
    forall k
      ensures TextOk(s', k)
    {
      assert TextOk(s, k);
      var sent := outcome == Accepted && k == pass.job.message;
      assert Bodies(s', k) == if sent then Bodies(s, k) + [pass.ctx.body] else Bodies(s, k);
    }
    forall v
      ensures HoldsText(s', PcOf(s', v))
    {
      assert HoldsText(s, PcOf(s, v));
    }
    forall job | job in s'.jobs
      ensures ReadyJob(s', job)
    {
      assert ReadyJob(s, job);
    }
  }

  lemma CompleteKeepsText(s: State, w: Worker, pass: Pass, attempt: nat, commit: CommitOutcome)
    requires Inv(s) && TextInv(s) && PcOf(s, w) == Completing(pass, attempt)
    ensures TextInv(CompleteStep(s, w, pass, attempt, commit))
  {
    Here(s, w, pass.job.message);
    MarkSentMoves(s.t, pass.job, pass.sendNow);
    assert TextOk(s, pass.job.message) && HoldsText(s, PcOf(s, w));
    MovesKeepText(s, CompleteStep(s, w, pass, attempt, commit), w, pass.job.message);
  }

  lemma ResolveKeepsText(s: State, w: Worker, job: Job, reason: Reason, status: TargetStatus)
    requires Inv(s) && TextInv(s)
    ensures TextInv(BurnStep(s, w, job, reason, status))
  {
    if status == Suppressed || status == Failed {
      Here(s, w, job.message);
      ResolveMoves(s.t, job.message, reason, status);
      assert TextOk(s, job.message);
      MovesKeepText(s, BurnStep(s, w, job, reason, status), w, job.message);
    }
  }

  lemma DeferRevertKeepText(s: State, w: Worker, m: MessageId)
    requires Inv(s) && TextInv(s)
    ensures TextInv(At(s.(t := DeferTarget(s.t, m).0), w, Idle))
    ensures TextInv(At(s.(t := RevertToPending(s.t, m).0), w, Idle))
  {
    Here(s, w, m);
    DeferMoves(s.t, m);
    RevertMoves(s.t, m);
    assert TextOk(s, m);
    MovesKeepText(s, At(s.(t := DeferTarget(s.t, m).0), w, Idle), w, m);
    MovesKeepText(s, At(s.(t := RevertToPending(s.t, m).0), w, Idle), w, m);
  }

  lemma SendPathKeepsText(s: State, w: Worker, move: Move)
    requires Inv(s) && TextInv(s)
    requires PcOf(s, w).Starting? || PcOf(s, w).InSend? || PcOf(s, w).Completing?
    ensures TextInv(DispatchStep(s, w, move))
  {
    match PcOf(s, w)
    case Starting(pass) => StartKeepsText(s, w, pass);
    case InSend(pass) => if move.Send? { SendKeepsText(s, w, pass, move.outcome); }
    case Completing(pass, attempt) => if move.CompleteSend? { CompleteKeepsText(s, w, pass, attempt, move.commit); }
  }

  lemma DispatchKeepsText(s: State, w: Worker, move: Move)
    requires Inv(s) && TextInv(s)
    ensures TextInv(DispatchStep(s, w, move))
  {
    hide Inv, TextInv, ClaimStep, LoadStep, StartStep, SendStep, CompleteStep, ReadStep, DecideStep;
    match PcOf(s, w)
    case Claiming(job) => ClaimKeepsText(s, w, job);
    case Loading(job) => if move.Load? { LoadKeepsText(s, w, job, move.settings, move.subscribed, move.hasEmail); }
    case Gating(_, _, _, _) => GateKeepsText(s, w, move);
    case Suppressing(job, reason) => ResolveKeepsText(s, w, job, reason, Suppressed);
    case Deferring(job) => DeferRevertKeepText(s, w, job.message);
    case Reverting(job) => DeferRevertKeepText(s, w, job.message);
    case Burning(job, reason, status) => ResolveKeepsText(s, w, job, reason, status);
    case Idle =>
    case _ => SendPathKeepsText(s, w, move);
  }

  lemma SweepResolveKeepsText(s: State, m: MessageId, reason: Reason)
    requires Inv(s) && TextInv(s)
    ensures TextInv(s.(t := ResolveTerminal(s.t, m, reason, Suppressed).0))
  {
    Here(s, 0, m);
    ResolveMoves(s.t, m, reason, Suppressed);
    assert TextOk(s, m) && HoldsText(s, PcOf(s, 0));
    MovesKeepText(s, s.(t := ResolveTerminal(s.t, m, reason, Suppressed).0), 0, m);
  }

  /** A completion reaches only a generation that nobody has dispatched, loaded or queued. */
  lemma WriteKeepsText(s: State, w: Worker, move: AiMove)
    requires Inv(s) && TextInv(s)
    ensures TextInv(WriteStep(s, w, move))
  {
    var s' := WriteStep(s, w, move);
    WriteShape(s, w, move);
    forall k
      ensures TextOk(s', k)
      ensures k in s'.t.messages <==> k in s.t.messages
      ensures Completed(s.t, k) && k in s.t.messages ==>
                Completed(s'.t, k) && s'.t.messages[k].generatedText == s.t.messages[k].generatedText
    {
      assert TextOk(s, k) && RowsAgree(s.t, k) && Bodies(s', k) == Bodies(s, k);
    }
    forall job | job in s'.jobs
      ensures ReadyJob(s', job)
    {
      assert ReadyJob(s, job);
    }
    forall v
      ensures HoldsText(s', PcOf(s', v))
    {
      assert PcOf(s', v) == PcOf(s, v) && HoldsText(s, PcOf(s, v));
    }
  }

  lemma CreateKeepsText(s: State, h: Worker, m: MessageId, customer: CustomerId)
    requires Inv(s) && TextInv(s)
    ensures TextInv(CreateStep(s, h, m, customer))
  {
    var s' := CreateStep(s, h, m, customer);
    assert LogAgrees(s, m) && RowsAgree(s.t, m);
    forall k
      ensures TextOk(s', k)
    {
      assert TextOk(s, k) && Bodies(s', k) == Bodies(s, k) && (k == m ==> LogAgrees(s, m));
    }
    forall job | job in s'.jobs
      ensures ReadyJob(s', job)
    {
      assert ReadyJob(s, job) && JobOk(s, job);
    }
    forall v
      ensures HoldsText(s', PcOf(s', v))
    {
      assert PcOf(s', v) == PcOf(s, v) && HoldsText(s, PcOf(s, v));
      assert JobOf(PcOf(s, v)).Some? ==> JobOk(s, JobOf(PcOf(s, v)).value);
    }
  }

  /** Steps that write no message, generation or delivery, and queue only completed messages. */
  lemma QueueKeepsText(s: State, s': State)
    requires Inv(s) && TextInv(s)
    requires s'.t == s.t && s'.deliveries == s.deliveries && s'.dispatchers == s.dispatchers
    requires forall job :: job in s'.jobs && job !in s.jobs ==> Settled(s.t, job.message)
    ensures TextInv(s')
  {
    forall k
      ensures TextOk(s', k)
    {
      assert TextOk(s, k) && Bodies(s', k) == Bodies(s, k);
    }
    forall v
      ensures HoldsText(s', PcOf(s', v))
    {
      assert PcOf(s', v) == PcOf(s, v) && HoldsText(s, PcOf(s, v));
    }
    forall job | job in s'.jobs
      ensures ReadyJob(s', job)
    {
      assert job in s.jobs ==> ReadyJob(s, job);
    }
  }

  lemma RedactKeepsText(s: State, merchant: MerchantId, customer: CustomerId)
    requires Inv(s) && TextInv(s)
    ensures TextInv(RedactStep(s, merchant, customer))
  {
    var s' := RedactStep(s, merchant, customer);
    forall k
      ensures TextOk(s', k)
    {
      assert TextOk(s, k) && RowsAgree(s.t, k) && Bodies(s', k) == Bodies(s, k);
    }
    forall job | job in s'.jobs
      ensures ReadyJob(s', job)
    {
      assert ReadyJob(s, job) && RowsAgree(s.t, job.message);
    }
    forall v
      ensures HoldsText(s', PcOf(s', v))
    {
      assert PcOf(s', v) == PcOf(s, v) && HoldsText(s, PcOf(s, v));
      assert JobOf(PcOf(s, v)).Some? ==> RowsAgree(s.t, JobOf(PcOf(s, v)).value.message);
    }
  }

  lemma PlaceKeepsText(s: State, w: Worker, pc: Pc)
    requires TextInv(s) && (pc.Idle? || pc.Claiming?)
    ensures TextInv(At(s, w, pc))
  {
    assert TextOk(s, 0);
    MovesKeepText(s, At(s, w, pc), w, 0);
  }

  lemma QuietKeepsText(s: State, e: Event)
    requires Inv(s) && TextInv(s) && (Quiet(e) || e.SweepFresh? || e.SweepDeferred?)
    ensures TextInv(Step(s, e))
  {
    if Quiet(e) {
      QuietChangesNoRow(s, e);
    } else {
      assert TextOk(s, e.message);
    }
    QueueKeepsText(s, Step(s, e));
  }

  lemma StepKeepsText(s: State, e: Event)
    requires Inv(s) && TextInv(s)
    ensures TextInv(Step(s, e))
  {
    match e
    case Create(h, m, customer) => CreateKeepsText(s, h, m, customer);
    case SweepResolve(m, reason) => SweepResolveKeepsText(s, m, reason);
    case Redact(merchant, customer) => RedactKeepsText(s, merchant, customer);
    case Pick(w, job) => PlaceKeepsText(s, w, Claiming(job));
    case Dispatch(w, move) => DispatchKeepsText(s, w, move);
    case Write(w, move) => WriteKeepsText(s, w, move);
    case Crash(w) => PlaceKeepsText(s, w, Idle);
    case _ => QuietKeepsText(s, e);
  }

  // ----------------------------------------------------------------- whole runs

  /** A generation row out of pending is final: it is only ever erased, and never reissued. */
  predicate Final(s: State, m: MessageId, g: Generation) {
    && g.status != GenerationPending
    && m in s.past.issued
    && (m in s.t.generations ==> s.t.generations[m] == g)
  }

  lemma StepKeepsFinal(s: State, e: Event, m: MessageId, g: Generation)
    requires Final(s, m, g)
    ensures Final(Step(s, e), m, g)
  {
    match e
    case Dispatch(w, move) => DispatchWrites(s, w, move);
    case Write(w, move) => WriteShape(s, w, move);
    case Create(_, _, _) =>
    case Redact(_, _) =>
    case SweepFresh(_, _) =>
    case SweepDeferred(_) =>
    case SweepResolve(_, _) =>
    case Pick(_, _) =>
    case Crash(_) =>
    case _ => QuietChangesNoRow(s, e);
  }

  lemma {:induction false} RunKeepsText(s: State, es: seq<Event>)
    requires Inv(s) && TextInv(s)
    ensures Inv(Run(s, es)) && TextInv(Run(s, es))
    decreases |es|
  {
    if es != [] {
      RunKeepsText(s, es[..|es| - 1]);
      StepKeeps(Run(s, es[..|es| - 1]), es[|es| - 1]);
      StepKeepsText(Run(s, es[..|es| - 1]), es[|es| - 1]);
    }
  }

  lemma {:induction false} RunKeepsFinal(s: State, es: seq<Event>, m: MessageId, g: Generation)
    requires Final(s, m, g)
    ensures Final(Run(s, es), m, g)
    decreases |es|
  {
    if es != [] {
      RunKeepsFinal(s, es[..|es| - 1], m, g);
      StepKeepsFinal(Run(s, es[..|es| - 1]), es[|es| - 1], m, g);
    }
  }

  /** A generation leaves pending at most once: completed or failed, the row never changes
      again, whatever duplicate or stalled workers still hold it. */
  lemma LeavesPendingOnce(clock: Millis, es: seq<Event>, fs: seq<Event>, m: MessageId)
    requires m in Run(Init(clock), es).t.generations
    requires Run(Init(clock), es).t.generations[m].status != GenerationPending
    ensures var s' := Run(Init(clock), es + fs);
            m in s'.t.generations ==> s'.t.generations[m] == Run(Init(clock), es).t.generations[m]
  {
    var s := Run(Init(clock), es);
    InitInv(clock);
    RunKeeps(Init(clock), es);
    assert RowsAgree(s.t, m) && LogAgrees(s, m);
    RunKeepsFinal(s, fs, m, s.t.generations[m]);
    RunConcat(Init(clock), es, fs);
  }

  /** Once a message has a target, its generation is completed and its text is settled, and not empty:
      after any further run the message, if it is still there, carries that text, and
      everything the provider accepted for it is that text. */
  lemma TextIsFrozen(clock: Millis, es: seq<Event>, fs: seq<Event>, m: MessageId)
    requires m in Run(Init(clock), es).t.targets
    ensures var s := Run(Init(clock), es);
            var s' := Run(s, fs);
            && m in s.t.messages && Completed(s.t, m) && s.t.messages[m].generatedText != ""
            && s.t.generations[m].text == Some(s.t.messages[m].generatedText)
            && (m in s'.t.messages ==>
                  && s'.t.messages[m].generatedText == s.t.messages[m].generatedText
                  && forall b :: b in Bodies(s', m) ==> b == s.t.messages[m].generatedText)
  {
    var s := Run(Init(clock), es);
    var s' := Run(s, fs);
    InitInv(clock);
    assert TextInv(Init(clock));
    RunKeepsText(Init(clock), es);
    RunKeepsText(s, fs);
    assert TextOk(s, m) && RowsAgree(s.t, m) && LogAgrees(s, m);
    RunKeepsFinal(s, fs, m, s.t.generations[m]);
    assert TextOk(s', m) && RowsAgree(s'.t, m);
  }

  // ------------------------------------------------------------------- erasure

  /** No step brings a message row back: a draft gets an id of its own, and everything else
      writes rows that are there. */
  lemma NoMessageReturns(s: State, e: Event, m: MessageId)
    requires m in s.past.issued && m !in s.t.messages
    ensures m in Step(s, e).past.issued && m !in Step(s, e).t.messages
  {
    if e.Dispatch? {
      DispatchWrites(s, e.w, e.move);
      DispatchKeepsKeys(s, e.w, e.move);
    } else if e.Write? {
      WriteShape(s, e.w, e.aiMove);
    } else if e.Redact? {
      RedactErases(s.t, e.merchant, e.customer);
    } else if Quiet(e) {
      QuietChangesNoRow(s, e);
    } else if e.SweepResolve? {
      ResolveShape(s, e.message, e.reason);
    } else if !e.Create? {
      QueueShape(s, e);
    }
  }

  lemma DispatchKeepsKeys(s: State, w: Worker, move: Move)
    ensures DispatchStep(s, w, move).t.messages.Keys == s.t.messages.Keys
  {
    var pc := PcOf(s, w);
    if pc.Loading? {
      if move.Load? { LoadShape(s, w, pc.job, move.settings, move.subscribed, move.hasEmail); }
    } else if pc.Gating? {
      GateShape(s, w, move);
    } else if pc.Claiming? || pc.Starting? || pc.InSend? || pc.Completing? {
      SendKeepsKeys(s, w, move);
    } else {
      EndKeepsKeys(s, w, move);
    }
  }

  lemma SendKeepsKeys(s: State, w: Worker, move: Move)
    requires PcOf(s, w).Claiming? || PcOf(s, w).Starting? || PcOf(s, w).InSend? || PcOf(s, w).Completing?
    ensures DispatchStep(s, w, move).t.messages.Keys == s.t.messages.Keys
  {
  }

  lemma EndKeepsKeys(s: State, w: Worker, move: Move)
    requires PcOf(s, w).Idle? || PcOf(s, w).Suppressing? || PcOf(s, w).Deferring? || PcOf(s, w).Reverting?
             || PcOf(s, w).Burning?
    ensures DispatchStep(s, w, move).t.messages.Keys == s.t.messages.Keys
  {
  }

  lemma {:induction false} RunKeepsGone(s: State, es: seq<Event>, m: MessageId)
    requires m in s.past.issued && m !in s.t.messages
    ensures m in Run(s, es).past.issued && m !in Run(s, es).t.messages
    decreases |es|
  {
    if es != [] {
      RunKeepsGone(s, es[..|es| - 1], m);
      NoMessageReturns(Run(s, es[..|es| - 1]), es[|es| - 1], m);
    }
  }

  /** Erasing a customer leaves none of its messages, and none of them, nor its target or its
      generation, ever comes back, whatever jobs and workers still hold it. */
  lemma ErasureIsFinal(clock: Millis, es: seq<Event>, merchant: MerchantId, customer: CustomerId, fs: seq<Event>,
                       m: MessageId)
    requires var t := Run(Init(clock), es).t;
             m in t.messages && t.messages[m].merchant == merchant && t.messages[m].customer == customer
    ensures var s := Run(Init(clock), es + [Redact(merchant, customer)]);
            var s' := Run(s, fs);
            && (forall k :: k in s.t.messages ==>
                  !(s.t.messages[k].merchant == merchant && s.t.messages[k].customer == customer))
            && m !in s'.t.messages && m !in s'.t.targets && m !in s'.t.generations
  {
    var s0 := Run(Init(clock), es);
    var s := Run(Init(clock), es + [Redact(merchant, customer)]);
    assert (es + [Redact(merchant, customer)])[..|es|] == es;
    assert s == Step(s0, Redact(merchant, customer));
    InitInv(clock);
    RunKeeps(Init(clock), es);
    assert LogAgrees(s0, m);
    RedactErases(s0.t, merchant, customer);
    RunKeepsGone(s, fs, m);
    StepKeeps(s0, Redact(merchant, customer));
    RunKeeps(s, fs);
    assert RowsAgree(Run(s, fs).t, m);
  }
}
