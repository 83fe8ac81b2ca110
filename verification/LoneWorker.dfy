/** What `suppressed` says about acceptance. With one dispatch worker, everything: a suppressed
    message was never accepted by the provider. The gates and the provider's refusal are its
    own, and whatever a sweep has seen deferred is never sent. `RacingWorkers` shows that a
    second worker ends this. */
module LoneWorker {
  import opened Collections
  import opened Tables
  import opened Machine
  import opened SendOnce
  import opened Deferral

  predicate WorkerBelow(n: nat, e: Event) {
    match e
    case Pick(w, _) => w < n
    case Dispatch(w, _) => w < n
    case _ => true
  }

  /** Only dispatch workers below n take part in the run. */
  predicate ByWorkers(n: nat, es: seq<Event>) {
    forall i :: 0 <= i < |es| ==> WorkerBelow(n, es[i])
  }

  /** A suppressed message was never accepted. */
  predicate Unsent(s: State, m: MessageId) {
    StatusOf(s.t, m) == Some(Suppressed) ==> Bodies(s, m) == []
  }

  /** At the gates nothing is delivered yet, and what the worker owns is not suppressed. */
  predicate Alone(s: State, pc: Pc) {
    && (pc.Gating? || pc.Suppressing? ==> Bodies(s, pc.job.message) == [])
    && (JobOf(pc).Some? && Owns(pc, JobOf(pc).value.message) ==>
          StatusOf(s.t, JobOf(pc).value.message) != Some(Suppressed))
  }

  ghost predicate OnlyOne(s: State) {
    && (forall w :: w != 0 ==> PcOf(s, w) == Idle)
    && (forall m :: Unsent(s, m))
    && Alone(s, PcOf(s, 0))
  }

  ghost predicate LoneInv(s: State) {
    OnlyOne(s) && forall m :: m in s.past.seenDeferred ==> Parked(s, m)
  }

  // ------------------------------------------------------ steps of the worker

  lemma LocalKeepsLone(s: State, s': State, m: MessageId)
    requires OnlyOne(s) && Local(s, s', 0, m)
    requires Unsent(s', m) && Alone(s', PcOf(s', 0))
    ensures OnlyOne(s')
  {
    forall k
      ensures Unsent(s', k)
    {
      assert Unsent(s, k);
    }
    forall w | w != 0
      ensures PcOf(s', w) == Idle
    {
      assert PcOf(s', w) == PcOf(s, w);
    }
  }

  lemma ClaimKeepsLone(s: State, job: Job)
    requires Inv(s) && OnlyOne(s) && PcOf(s, 0) == Claiming(job)
    ensures OnlyOne(ClaimStep(s, 0, job))
  {
    Here(s, 0, job.message);
    ClaimMoves(s.t, job, s.clock);
    assert Unsent(s, job.message);
    LocalKeepsLone(s, ClaimStep(s, 0, job), job.message);
  }

  /** Past the replay guard nothing has been delivered. */
  lemma LoadKeepsLone(s: State, job: Job, move: Move)
    requires Inv(s) && OnlyOne(s) && PcOf(s, 0) == Loading(job)
    ensures OnlyOne(DispatchStep(s, 0, move))
  {
    Here(s, 0, job.message);
    if move.Load? { LoadShape(s, 0, job, move.settings, move.subscribed, move.hasEmail); }
    assert Unsent(s, job.message);
    LocalKeepsLone(s, DispatchStep(s, 0, move), job.message);
  }

  lemma GateKeepsLone(s: State, move: Move)
    requires Inv(s) && OnlyOne(s) && PcOf(s, 0).Gating?
    ensures OnlyOne(DispatchStep(s, 0, move))
  {
    GateShape(s, 0, move);
    assert Unsent(s, PcOf(s, 0).job.message);
    LocalKeepsLone(s, DispatchStep(s, 0, move), PcOf(s, 0).job.message);
  }

  lemma StartKeepsLone(s: State, pass: Pass)
    requires Inv(s) && OnlyOne(s) && PcOf(s, 0) == Starting(pass)
    ensures OnlyOne(StartStep(s, 0, pass))
  {
    Here(s, 0, pass.job.message);
    StartMoves(s.t, pass.job.message, pass.sendNow);
    assert Unsent(s, pass.job.message);
    LocalKeepsLone(s, StartStep(s, 0, pass), pass.job.message);
  }

  lemma SendKeepsLone(s: State, pass: Pass, outcome: SendOutcome)
    requires Inv(s) && OnlyOne(s) && PcOf(s, 0) == InSend(pass)
    ensures OnlyOne(SendStep(s, 0, pass, outcome))
  {
    Here(s, 0, pass.job.message);
    assert Unsent(s, pass.job.message);
    LocalKeepsLone(s, SendStep(s, 0, pass, outcome), pass.job.message);
  }

  lemma CompleteKeepsLone(s: State, pass: Pass, attempt: nat, commit: CommitOutcome)
    requires Inv(s) && OnlyOne(s) && PcOf(s, 0) == Completing(pass, attempt)
    ensures OnlyOne(CompleteStep(s, 0, pass, attempt, commit))
  {
    Here(s, 0, pass.job.message);
    MarkSentMoves(s.t, pass.job, pass.sendNow);
    assert Unsent(s, pass.job.message);
    LocalKeepsLone(s, CompleteStep(s, 0, pass, attempt, commit), pass.job.message);
  }

  /** What a gate or the provider refuses was not accepted. */
  lemma ResolveKeepsLone(s: State, job: Job, reason: Reason, status: TargetStatus)
    requires Inv(s) && OnlyOne(s)
    requires (PcOf(s, 0) == Suppressing(job, reason) && status == Suppressed)
             || PcOf(s, 0) == Burning(job, reason, status)
    ensures OnlyOne(BurnStep(s, 0, job, reason, status))
  {
    Here(s, 0, job.message);
    assert Unsent(s, job.message);
    if status == Suppressed || status == Failed {
      ResolveMoves(s.t, job.message, reason, status);
    }
    LocalKeepsLone(s, BurnStep(s, 0, job, reason, status), job.message);
  }

  lemma DeferRevertKeepLone(s: State, move: Move)
    requires Inv(s) && OnlyOne(s) && (PcOf(s, 0).Deferring? || PcOf(s, 0).Reverting?)
    ensures OnlyOne(DispatchStep(s, 0, move))
  {
    var m := PcOf(s, 0).job.message;
    Here(s, 0, m);
    assert Unsent(s, m);
    DeferMoves(s.t, m);
    RevertMoves(s.t, m);
    LocalKeepsLone(s, DispatchStep(s, 0, move), m);
  }

  lemma DispatchKeepsLone(s: State, move: Move)
    requires Inv(s) && OnlyOne(s)
    ensures OnlyOne(DispatchStep(s, 0, move))
  {
    hide Inv, OnlyOne, ClaimStep, LoadStep, StartStep, SendStep, CompleteStep, BurnStep, ReadStep, DecideStep;
    match PcOf(s, 0)
    case Idle =>
    case Claiming(job) => if move.Claim? { ClaimKeepsLone(s, job); }
    case Loading(job) => LoadKeepsLone(s, job, move);
    case Gating(_, _, _, _) => GateKeepsLone(s, move);
    case Starting(pass) => if move.Start? { StartKeepsLone(s, pass); }
    case InSend(pass) => if move.Send? { SendKeepsLone(s, pass, move.outcome); }
    case Completing(pass, attempt) => if move.CompleteSend? { CompleteKeepsLone(s, pass, attempt, move.commit); }
    case Suppressing(job, reason) => if move.ApplySuppress? { ResolveKeepsLone(s, job, reason, Suppressed); }
    case Burning(job, reason, status) => if move.Burn? { ResolveKeepsLone(s, job, reason, status); }
    case Deferring(_) => DeferRevertKeepLone(s, move);
    case Reverting(_) => DeferRevertKeepLone(s, move);
  }

  // ------------------------------------------------------ everybody else

  /** Steps that deliver nothing, suppress at most what is parked, and move the worker at
      most to idle or to a fresh job. */
  lemma BystanderKeepsLone(s: State, s': State)
    requires Inv(s) && LoneInv(s) && s'.deliveries == s.deliveries
    requires forall m :: StatusOf(s'.t, m) in {StatusOf(s.t, m), None} || m in s.past.seenDeferred
    requires forall w :: PcOf(s', w) == PcOf(s, w) || PcOf(s', w) == Idle || (w == 0 && PcOf(s', w).Claiming?)
    ensures OnlyOne(s')
  {
    forall m
      ensures Unsent(s', m)
    {
      assert Unsent(s, m);
    }
    forall w | w != 0
      ensures PcOf(s', w) == Idle
    {
      assert PcOf(s, w) == Idle;
    }
    var pc := PcOf(s, 0);
    if JobOf(pc).Some? && Owns(pc, JobOf(pc).value.message) {
      assert JobOf(pc).value.message !in s.past.seenDeferred;
    }
  }

  lemma SeenStaysParked(s: State, e: Event, k: MessageId)
    requires Inv(s) && (k in s.past.seenDeferred ==> Parked(s, k))
    requires k in Step(s, e).past.seenDeferred
    ensures Parked(Step(s, e), k)
  {
    if k in s.past.seenDeferred {
      StepKeepsParked(s, e, k);
    } else {
      if e.Dispatch? { DispatchWrites(s, e.w, e.move); } else if e.Write? { WriteShape(s, e.w, e.aiMove); }
      assert e == SweepSee(k) && IsDeferred(s.t, k);
      DeferredIsParked(s, k);
      StepKeepsParked(s, e, k);
    }
  }

  lemma OthersKeepLone(s: State, e: Event)
    requires Inv(s) && LoneInv(s) && !e.Dispatch? && WorkerBelow(1, e)
    ensures OnlyOne(Step(s, e))
  {
    var s' := Step(s, e);
    if e.Write? {
      WriteShape(s, e.w, e.aiMove);
    } else if e.SweepResolve? {
      ResolveShape(s, e.message, e.reason);
      assert RowsAgree(s.t, e.message);
      ResolveMoves(s.t, e.message, e.reason, Suppressed);
    } else if Quiet(e) {
      QuietChangesNoRow(s, e);
    } else if e.SweepFresh? || e.SweepDeferred? || e.Pick? || e.Crash? {
      QueueShape(s, e);
    }
    BystanderKeepsLone(s, s');
  }

  lemma StepKeepsLone(s: State, e: Event)
    requires Inv(s) && LoneInv(s) && WorkerBelow(1, e)
    ensures Inv(Step(s, e)) && LoneInv(Step(s, e))
  {
    hide Inv, OnlyOne, Parked, DispatchStep;
    StepKeeps(s, e);
    if e.Dispatch? {
      DispatchKeepsLone(s, e.move);
    } else {
      OthersKeepLone(s, e);
    }
    forall k | k in Step(s, e).past.seenDeferred
      ensures Parked(Step(s, e), k)
    {
      SeenStaysParked(s, e, k);
    }
  }

  lemma {:induction false} RunKeepsLone(clock: Millis, es: seq<Event>)
    requires ByWorkers(1, es)
    ensures Inv(Run(Init(clock), es)) && LoneInv(Run(Init(clock), es))
    decreases |es|
  {
    if es == [] {
      InitInv(clock);
    } else {
      var front, e := es[..|es| - 1], es[|es| - 1];
      assert WorkerBelow(1, e);
      assert forall i :: 0 <= i < |front| ==> front[i] == es[i];
      RunKeepsLone(clock, front);
      StepKeepsLone(Run(Init(clock), front), e);
    }
  }

  /** With one worker, in every reachable state a suppressed message was never accepted. */
  lemma SuppressedMeansUnsent(clock: Millis, es: seq<Event>, m: MessageId)
    requires ByWorkers(1, es) && StatusOf(Run(Init(clock), es).t, m) == Some(Suppressed)
    ensures Bodies(Run(Init(clock), es), m) == []
  {
    RunKeepsLone(clock, es);
    assert Unsent(Run(Init(clock), es), m);
  }
}
