/** At most one accepted send per message, over every run: replicas, duplicate and
    replayed jobs, crashes at every await, lost acknowledgements, stale sweeps, erasure.
    Assumes of the provider only that a throw means the mail was not accepted. */
module SendOnce {
  import opened Collections
  import opened Tables
  import opened GateChain
  import opened Machine

  /** The worker moved the target to sending and has not yet written what came of it. */
  predicate Owns(pc: Pc, m: MessageId) {
    match pc
    case InSend(p) => p.job.message == m
    case Completing(p, _) => p.job.message == m
    case Reverting(j) => j.message == m
    case Burning(j, _, _) => j.message == m
    case _ => false
  }

  /** The status of m's target, if it has one. */
  function StatusOf(t: Tables, m: MessageId): Option<TargetStatus> {
    if m in t.targets then Some(t.targets[m].status) else None
  }

  /** The three tables agree about a message: same owner, matching statuses. */
  predicate RowsAgree(t: Tables, m: MessageId) {
    && (m in t.messages <==> m in t.generations)
    && (m in t.messages ==>
          t.generations[m].merchant == t.messages[m].merchant && t.generations[m].customer == t.messages[m].customer)
    && (m in t.targets ==>
          && m in t.messages
          && t.targets[m].merchant == t.messages[m].merchant && t.targets[m].customer == t.messages[m].customer
          && t.messages[m].status == MessageStatusFor(t.targets[m].status))
    && (m in t.messages && m !in t.targets ==> t.messages[m].status == Draft)
  }

  /** What the target's status says about the provider's log. */
  predicate LogAgrees(s: State, m: MessageId) {
    && |Bodies(s, m)| <= 1
    && (m in s.t.messages ==> m in s.past.issued)
    && (m !in s.past.issued ==> Bodies(s, m) == [])
    && (m in s.t.messages && m !in s.t.targets ==> Bodies(s, m) == [])
    && (m in s.t.targets && s.t.targets[m].status in {Pending, Deferred, Failed} ==> Bodies(s, m) == [])
    && (m in s.t.targets && s.t.targets[m].status == Sent ==> |Bodies(s, m)| == 1)
  }

  /** While a worker owns a message nobody else can start it. */
  predicate OwnerOk(s: State, pc: Pc, m: MessageId) {
    Owns(pc, m) ==>
      && m in s.past.issued
      && (m in s.t.messages ==>
            StatusOf(s.t, m) in {Some(Sending), Some(Suppressed)} || (pc.Completing? && StatusOf(s.t, m) == Some(Sent)))
      && |Bodies(s, m)| == (if pc.Completing? then 1 else 0)
      && (pc.Burning? ==> pc.status == Suppressed || pc.status == Failed)
  }

  predicate JobOk(s: State, job: Job) {
    && job.message in s.past.issued
    && (job.message in s.t.messages ==>
          s.t.messages[job.message].merchant == job.merchant && s.t.messages[job.message].customer == job.customer)
  }

  ghost predicate Inv(s: State) {
    && (forall m :: RowsAgree(s.t, m))
    && (forall m :: LogAgrees(s, m))
    && (forall w, m :: OwnerOk(s, PcOf(s, w), m))
    && (forall v, w, m :: v != w && Owns(PcOf(s, v), m) ==> !Owns(PcOf(s, w), m))
    && (forall job :: job in s.jobs ==> JobOk(s, job))
    && (forall w :: JobOf(PcOf(s, w)).Some? ==> JobOf(PcOf(s, w)).value in s.jobs)
  }

  lemma InitInv(clock: Millis)
    ensures Inv(Init(clock))
  {
  }

  /** A transaction that writes no row but m's target and message, and keeps their owner. */
  ghost predicate Moves(t: Tables, t': Tables, m: MessageId) {
    && t'.generations == t.generations
    && (forall k :: k != m ==>
         (k in t'.targets <==> k in t.targets) && (k in t.targets ==> t'.targets[k] == t.targets[k]))
    && (forall k :: k != m ==>
         (k in t'.messages <==> k in t.messages) && (k in t.messages ==> t'.messages[k] == t.messages[k]))
    && (m in t'.messages <==> m in t.messages)
    && (m in t.messages ==>
          && t'.messages[m].merchant == t.messages[m].merchant && t'.messages[m].customer == t.messages[m].customer
          && t'.messages[m].generatedText == t.messages[m].generatedText)
  }

  lemma ClaimMoves(t: Tables, job: Job, now: Millis)
    requires RowsAgree(t, job.message)
    requires job.message in t.messages ==>
               t.messages[job.message].merchant == job.merchant && t.messages[job.message].customer == job.customer
    ensures var (t', r) := ClaimTarget(t, job, now);
            && Moves(t, t', job.message) && RowsAgree(t', job.message)
            && (r != Claimed ==> t' == t)
            && (r == Claimed ==> StatusOf(t, job.message) == None && job.message in t.messages
                                 && StatusOf(t', job.message) == Some(Pending))
  {
  }

  lemma StartMoves(t: Tables, m: MessageId, now: Millis)
    requires RowsAgree(t, m)
    ensures var (t', started) := StartSending(t, m, now);
            && Moves(t, t', m) && RowsAgree(t', m)
            && started == (StatusOf(t, m) == Some(Pending))
            && StatusOf(t', m) == (if started then Some(Sending) else StatusOf(t, m))
  {
  }

  lemma RevertMoves(t: Tables, m: MessageId)
    requires RowsAgree(t, m)
    ensures var (t', reverted) := RevertToPending(t, m);
            && Moves(t, t', m) && RowsAgree(t', m)
            && StatusOf(t', m) == (if StatusOf(t, m) == Some(Sending) then Some(Pending) else StatusOf(t, m))
  {
  }

  lemma DeferMoves(t: Tables, m: MessageId)
    requires RowsAgree(t, m)
    ensures var (t', deferred) := DeferTarget(t, m);
            && Moves(t, t', m) && RowsAgree(t', m)
            && StatusOf(t', m) == (if StatusOf(t, m) == Some(Pending) then Some(Deferred) else StatusOf(t, m))
  {
  }

  lemma ResolveMoves(t: Tables, m: MessageId, reason: Reason, status: TargetStatus)
    requires status == Suppressed || status == Failed
    requires RowsAgree(t, m)
    ensures var (t', resolved) := ResolveTerminal(t, m, reason, status);
            && Moves(t, t', m) && RowsAgree(t', m)
            && resolved == (StatusOf(t, m) in {Some(Pending), Some(Deferred), Some(Sending)})
            && StatusOf(t', m) == (if resolved then Some(status) else StatusOf(t, m))
  {
  }

  /** A sending target always has a draft message, so the second compare-and-set of the
      completion transaction never misses once the first has hit. */
  lemma MarkSentMoves(t: Tables, job: Job, now: Millis)
    requires RowsAgree(t, job.message)
    ensures var (t', sent) := MarkSent(t, job, now);
            && Moves(t, t', job.message) && RowsAgree(t', job.message)
            && sent == (StatusOf(t, job.message) == Some(Sending))
            && StatusOf(t', job.message) == (if sent then Some(Sent) else StatusOf(t, job.message))
  {
  }

  /** The shape of a step of one dispatch worker (or a sweep): only worker w's place,
      and only the rows and deliveries of message m. */
  ghost predicate Local(s: State, s': State, w: Worker, m: MessageId) {
    && s'.past.issued == s.past.issued && s'.jobs == s.jobs
    && Moves(s.t, s'.t, m)
    && (forall k :: k != m ==> Bodies(s', k) == Bodies(s, k))
    && (forall v :: v != w ==> PcOf(s', v) == PcOf(s, v))
  }

  /** Another worker's hold on m survives if nothing more is delivered and the target
      does not move except to suppressed, or from a state nobody can hold. */
  predicate OthersSafe(s: State, s': State, m: MessageId) {
    && Bodies(s', m) == Bodies(s, m)
    && (StatusOf(s'.t, m) in {StatusOf(s.t, m), Some(Suppressed)}
        || StatusOf(s.t, m) in {None, Some(Pending), Some(Deferred)})
  }

  lemma LocalKeeps(s: State, s': State, w: Worker, m: MessageId)
    requires Inv(s) && Local(s, s', w, m)
    requires RowsAgree(s'.t, m) && LogAgrees(s', m)
    requires OwnerOk(s', PcOf(s', w), m)
    requires forall k :: Owns(PcOf(s', w), k) ==> k == m
    requires Owns(PcOf(s', w), m) && !Owns(PcOf(s, w), m) ==> StatusOf(s.t, m) in {Some(Pending), Some(Deferred)}
    requires Owns(PcOf(s, w), m) || OthersSafe(s, s', m)
    requires JobOf(PcOf(s', w)).Some? ==> JobOf(PcOf(s', w)).value in s.jobs
    ensures Inv(s')
  {
    forall k
      ensures RowsAgree(s'.t, k) && LogAgrees(s', k)
    {
      assert RowsAgree(s.t, k) && LogAgrees(s, k);
    }
    forall v, k
      ensures OwnerOk(s', PcOf(s', v), k)
    {
      assert OwnerOk(s, PcOf(s, v), k);
      assert RowsAgree(s.t, k);
    }
    forall v, u, k | v != u && Owns(PcOf(s', v), k)
      ensures !Owns(PcOf(s', u), k)
    {
      assert OwnerOk(s, PcOf(s, v), k) && OwnerOk(s, PcOf(s, u), k);
      assert RowsAgree(s.t, k);
    }
    forall job | job in s'.jobs
      ensures JobOk(s', job)
    {
      assert JobOk(s, job);
    }
    forall v | JobOf(PcOf(s', v)).Some?
      ensures JobOf(PcOf(s', v)).value in s'.jobs
    {
      assert v != w ==> PcOf(s', v) == PcOf(s, v);
    }
  }

  /** What the invariant says about one worker and the message it is on. */
  lemma Here(s: State, w: Worker, m: MessageId)
    requires Inv(s)
    ensures RowsAgree(s.t, m) && LogAgrees(s, m) && OwnerOk(s, PcOf(s, w), m)
    ensures JobOf(PcOf(s, w)).Some? ==> JobOf(PcOf(s, w)).value in s.jobs && JobOk(s, JobOf(PcOf(s, w)).value)
  {
  }

  lemma ClaimKeeps(s: State, w: Worker, job: Job)
    requires Inv(s) && PcOf(s, w) == Claiming(job)
    ensures Inv(ClaimStep(s, w, job))
  {
    Here(s, w, job.message);
    ClaimMoves(s.t, job, s.clock);
    LocalKeeps(s, ClaimStep(s, w, job), w, job.message);
  }

  lemma StartKeeps(s: State, w: Worker, pass: Pass)
    requires Inv(s) && PcOf(s, w) == Starting(pass)
    ensures Inv(StartStep(s, w, pass))
  {
    Here(s, w, pass.job.message);
    StartMoves(s.t, pass.job.message, pass.sendNow);
    LocalKeeps(s, StartStep(s, w, pass), w, pass.job.message);
  }

  lemma SendKeeps(s: State, w: Worker, pass: Pass, outcome: SendOutcome)
    requires Inv(s) && PcOf(s, w) == InSend(pass)
    ensures Inv(SendStep(s, w, pass, outcome))
  {
    Here(s, w, pass.job.message);
    LocalKeeps(s, SendStep(s, w, pass, outcome), w, pass.job.message);
  }

  lemma CompleteKeeps(s: State, w: Worker, pass: Pass, attempt: nat, commit: CommitOutcome)
    requires Inv(s) && PcOf(s, w) == Completing(pass, attempt)
    ensures Inv(CompleteStep(s, w, pass, attempt, commit))
  {
    Here(s, w, pass.job.message);
    MarkSentMoves(s.t, pass.job, pass.sendNow);
    LocalKeeps(s, CompleteStep(s, w, pass, attempt, commit), w, pass.job.message);
  }

  lemma ResolveKeeps(s: State, w: Worker, job: Job, reason: Reason, status: TargetStatus)
    requires Inv(s)
    requires (PcOf(s, w) == Suppressing(job, reason) && status == Suppressed)
             || PcOf(s, w) == Burning(job, reason, status)
    ensures Inv(BurnStep(s, w, job, reason, status))
  {
    Here(s, w, job.message);
    if status == Suppressed || status == Failed {
      ResolveMoves(s.t, job.message, reason, status);
    }
    LocalKeeps(s, BurnStep(s, w, job, reason, status), w, job.message);
  }

  lemma DeferKeeps(s: State, w: Worker, job: Job)
    requires Inv(s) && PcOf(s, w) == Deferring(job)
    ensures Inv(DispatchStep(s, w, ApplyDefer))
  {
    Here(s, w, job.message);
    DeferMoves(s.t, job.message);
    LocalKeeps(s, DispatchStep(s, w, ApplyDefer), w, job.message);
  }

  lemma RevertKeeps(s: State, w: Worker, job: Job)
    requires Inv(s) && PcOf(s, w) == Reverting(job)
    ensures Inv(DispatchStep(s, w, Revert))
  {
    Here(s, w, job.message);
    RevertMoves(s.t, job.message);
    LocalKeeps(s, DispatchStep(s, w, Revert), w, job.message);
  }

  /** Steps that only move a worker: picking up a job, loading, gate reads, deciding, crashing. */
  lemma MoveKeeps(s: State, w: Worker, pc: Pc)
    requires Inv(s)
    requires JobOf(pc).Some? ==> JobOf(pc).value in s.jobs
    requires forall m :: !Owns(pc, m)
    ensures Inv(At(s, w, pc))
  {
    Here(s, w, 0);
    LocalKeeps(s, At(s, w, pc), w, 0);
  }

  lemma LoadKeeps(s: State, w: Worker, job: Job, settings: Option<Settings>, subscribed: bool, hasEmail: bool)
    requires Inv(s) && PcOf(s, w) == Loading(job)
    ensures Inv(LoadStep(s, w, job, settings, subscribed, hasEmail))
  {
    MoveKeeps(s, w, PcOf(LoadStep(s, w, job, settings, subscribed, hasEmail), w));
  }

  lemma GateKeeps(s: State, w: Worker, move: Move)
    requires Inv(s) && PcOf(s, w).Gating?
    ensures Inv(DispatchStep(s, w, move))
  {
    GateShape(s, w, move);
    MoveKeeps(s, w, PcOf(DispatchStep(s, w, move), w));
  }

  lemma DispatchKeeps(s: State, w: Worker, move: Move)
    requires Inv(s)
    ensures Inv(DispatchStep(s, w, move))
  {
    hide Inv, ClaimStep, LoadStep, StartStep, SendStep, CompleteStep, BurnStep, ReadStep, DecideStep;
    match PcOf(s, w)
    case Claiming(job) => ClaimKeeps(s, w, job);
    case Loading(job) => if move.Load? { LoadKeeps(s, w, job, move.settings, move.subscribed, move.hasEmail); }
    case Gating(_, _, _, _) => GateKeeps(s, w, move);
    case Suppressing(job, reason) => ResolveKeeps(s, w, job, reason, Suppressed);
    case Deferring(job) => if move.ApplyDefer? { DeferKeeps(s, w, job); }
    case Starting(pass) => StartKeeps(s, w, pass);
    case InSend(pass) => if move.Send? { SendKeeps(s, w, pass, move.outcome); }
    case Completing(pass, attempt) => if move.CompleteSend? { CompleteKeeps(s, w, pass, attempt, move.commit); }
    case Reverting(job) => if move.Revert? { RevertKeeps(s, w, job); }
    case Burning(job, reason, status) => ResolveKeeps(s, w, job, reason, status);
    case Idle =>
  }

  // ----------------------------------------------- steps of everybody else

  /** Steps that move no dispatch worker, take no job away, and move targets at most to suppressed. */
  lemma BystanderKeeps(s: State, s': State)
    requires Inv(s)
    requires s'.dispatchers == s.dispatchers && s'.deliveries == s.deliveries
    requires s.jobs <= s'.jobs && s.past.issued <= s'.past.issued
    requires forall m :: RowsAgree(s'.t, m)
    requires forall m :: m in s'.t.messages && m in s.t.messages ==>
               && StatusOf(s'.t, m) in {StatusOf(s.t, m), Some(Suppressed)}
               && s'.t.messages[m].merchant == s.t.messages[m].merchant
               && s'.t.messages[m].customer == s.t.messages[m].customer
    requires forall m :: m in s'.t.messages && m !in s.t.messages ==>
             m in s'.past.issued && m !in s.past.issued && m !in s'.t.targets
    requires forall job :: job in s'.jobs && job !in s.jobs ==> JobOk(s, job)
    ensures Inv(s')
  {
    forall m
      ensures LogAgrees(s', m)
    {
      assert LogAgrees(s, m) && RowsAgree(s.t, m) && RowsAgree(s'.t, m);
    }
    forall v, m
      ensures OwnerOk(s', PcOf(s', v), m)
    {
      assert PcOf(s', v) == PcOf(s, v) && OwnerOk(s, PcOf(s, v), m);
    }
    forall v, w, m | v != w && Owns(PcOf(s', v), m)
      ensures !Owns(PcOf(s', w), m)
    {
      assert PcOf(s', v) == PcOf(s, v) && PcOf(s', w) == PcOf(s, w);
    }
    forall job | job in s'.jobs
      ensures JobOk(s', job)
    {
      assert JobOk(s, job);
    }
    forall v | JobOf(PcOf(s', v)).Some?
      ensures JobOf(PcOf(s', v)).value in s'.jobs
    {
      assert PcOf(s', v) == PcOf(s, v);
    }
  }

  lemma CreateKeeps(s: State, h: Worker, m: MessageId, customer: CustomerId)
    requires Inv(s)
    ensures Inv(CreateStep(s, h, m, customer))
  {
    if AdmissionOf(s, h).Admitted? && m !in s.past.issued {
      var s' := CreateStep(s, h, m, customer);
      forall k
        ensures RowsAgree(s'.t, k)
      {
        assert RowsAgree(s.t, k) && LogAgrees(s, m);
      }
      assert RowsAgree(s.t, m) && LogAgrees(s, m);
      BystanderKeeps(s, s');
    }
  }

  /** AI completion and failure touch no status and no owner. */
  lemma GenerationTxAgrees(t: Tables, m: MessageId, text: string, cost: nat, now: Millis, k: MessageId)
    requires RowsAgree(t, k)
    ensures RowsAgree(Complete(t, m, text, cost, now).0, k)
    ensures RowsAgree(MarkFailed(t, m).0, k)
  {
  }

  lemma WriteKeeps(s: State, w: Worker, move: AiMove)
    requires Inv(s)
    ensures Inv(WriteStep(s, w, move))
  {
    var s' := WriteStep(s, w, move);
    WriteShape(s, w, move);
    forall k
      ensures RowsAgree(s'.t, k)
    {
      var pc := AiPcOf(s, w);
      if pc.Finishing? {
        GenerationTxAgrees(s.t, pc.message, pc.text, pc.cost, s.clock, k);
      } else if pc.Failing? {
        GenerationTxAgrees(s.t, pc.message, "", 0, s.clock, k);
      }
    }
    BystanderKeeps(s, s');
  }

  lemma RedactKeeps(s: State, merchant: MerchantId, customer: CustomerId)
    requires Inv(s)
    ensures Inv(RedactStep(s, merchant, customer))
  {
    var s' := RedactStep(s, merchant, customer);
    forall k
      ensures RowsAgree(s'.t, k)
      ensures k in s'.t.messages ==> k in s.t.messages && StatusOf(s'.t, k) == StatusOf(s.t, k)
    {
      assert RowsAgree(s.t, k);
    }
    BystanderKeeps(s, s');
  }

  lemma SweepFreshKeeps(s: State, m: MessageId, campaign: CampaignId)
    requires Inv(s)
    ensures Inv(SweepFreshStep(s, m, campaign))
  {
    assert LogAgrees(s, m);
    BystanderKeeps(s, SweepFreshStep(s, m, campaign));
  }

  lemma SweepDeferredKeeps(s: State, m: MessageId)
    requires Inv(s)
    ensures Inv(SweepDeferredStep(s, m))
  {
    assert RowsAgree(s.t, m) && LogAgrees(s, m);
    BystanderKeeps(s, SweepDeferredStep(s, m));
  }

  lemma SweepResolveKeeps(s: State, m: MessageId, reason: Reason)
    requires Inv(s)
    ensures Inv(s.(t := ResolveTerminal(s.t, m, reason, Suppressed).0))
  {
    var s' := s.(t := ResolveTerminal(s.t, m, reason, Suppressed).0);
    ResolveMoves(s.t, m, reason, Suppressed);
    forall k
      ensures RowsAgree(s'.t, k)
    {
      assert RowsAgree(s.t, k);
    }
    BystanderKeeps(s, s');
  }

  /** Clock ticks, admission checks, sightings and crashes of other processes. */
  predicate Quiet(e: Event) {
    e.Tick? || e.BeginCheck? || e.ReadSpend? || e.SweepSee? || e.CrashWriter? || e.CrashHandler?
  }

  lemma QuietChangesNoRow(s: State, e: Event)
    requires Quiet(e)
    ensures var s' := Step(s, e);
            && s'.t == s.t && s'.dispatchers == s.dispatchers && s'.deliveries == s.deliveries
            && s'.jobs == s.jobs && s'.past == s.past.(seenDeferred := s'.past.seenDeferred)
  {
  }

  lemma StepKeeps(s: State, e: Event)
    requires Inv(s)
    ensures Inv(Step(s, e))
  {
    match e
    case Create(h, m, customer) => CreateKeeps(s, h, m, customer);
    case SweepFresh(m, campaign) => SweepFreshKeeps(s, m, campaign);
    case SweepDeferred(m) => SweepDeferredKeeps(s, m);
    case SweepResolve(m, reason) => SweepResolveKeeps(s, m, reason);
    case Redact(merchant, customer) => RedactKeeps(s, merchant, customer);
    case Pick(w, job) => if job in s.jobs { MoveKeeps(s, w, Claiming(job)); }
    case Dispatch(w, move) => DispatchKeeps(s, w, move);
    case Write(w, move) => WriteKeeps(s, w, move);
    case Crash(w) => MoveKeeps(s, w, Idle);
    case _ =>
      QuietChangesNoRow(s, e);
      BystanderKeeps(s, Step(s, e));
  }

  lemma {:induction false} RunKeeps(s: State, es: seq<Event>)
    requires Inv(s)
    ensures Inv(Run(s, es))
    decreases |es|
  {
    if es != [] {
      RunKeeps(s, es[..|es| - 1]);
      StepKeeps(Run(s, es[..|es| - 1]), es[|es| - 1]);
    }
  }

  /** At most one accepted send per message, over every run. The target's status tells
      how many: none while pending, deferred or failed, exactly one once sent. */
  lemma AtMostOneSend(clock: Millis, es: seq<Event>, m: MessageId)
    ensures var s := Run(Init(clock), es);
            && |Bodies(s, m)| <= 1
            && (StatusOf(s.t, m) in {Some(Pending), Some(Deferred), Some(Failed)} ==> Bodies(s, m) == [])
            && (StatusOf(s.t, m) == Some(Sent) ==> |Bodies(s, m)| == 1)
  {
    InitInv(clock);
    RunKeeps(Init(clock), es);
    assert LogAgrees(Run(Init(clock), es), m);
  }

  /** In every reachable state a message and its target show one status, and the Message
      compare-and-set inside the completion transaction cannot be the one that misses. */
  lemma StatusesMatch(clock: Millis, es: seq<Event>, m: MessageId, job: Job, now: Millis)
    ensures var t := Run(Init(clock), es).t;
            && (m in t.targets ==> m in t.messages && t.messages[m].status == MessageStatusFor(t.targets[m].status))
            && (m in t.messages && m !in t.targets ==> t.messages[m].status == Draft)
            && (StatusOf(t, job.message) == Some(Sending) ==> MarkSent(t, job, now).1)
  {
    InitInv(clock);
    RunKeeps(Init(clock), es);
    assert RowsAgree(Run(Init(clock), es).t, m) && RowsAgree(Run(Init(clock), es).t, job.message);
  }

  /** Suppressed is the one terminal that may stand over an accepted send: a second worker whose
      gates object suppresses the row while the first one's accepted send awaits its completion,
      which then misses. `RacingWorkers` leads a run here, and says when none does. */
  lemma SuppressedAfterAcceptance(s: State, w: Worker, job: Job, reason: Reason)
    requires Inv(s) && PcOf(s, w) == Suppressing(job, reason)
    requires StatusOf(s.t, job.message) == Some(Sending) && |Bodies(s, job.message)| == 1
    ensures var s' := Step(s, Dispatch(w, ApplySuppress));
            && StatusOf(s'.t, job.message) == Some(Suppressed) && |Bodies(s', job.message)| == 1
            && forall now :: !MarkSent(s'.t, job, now).1
  {
    assert RowsAgree(s.t, job.message);
    ResolveMoves(s.t, job.message, reason, Suppressed);
  }
}
