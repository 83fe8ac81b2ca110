/** No write takes a deferred target back to pending, and `startSending` accepts only
    pending. So a target that was ever deferred is never sent: the sweep can re-queue it
    and the gates can pass it, but every send attempt stops at the compare-and-set. */
module Deferral {
  import opened Collections
  import opened Tables
  import opened Machine
  import opened SendOnce

  /** Where a deferral leads: nobody holds the message, nothing was or will be delivered,
      and the target is deferred, suppressed or erased. */
  ghost predicate Parked(s: State, m: MessageId) {
    && m in s.past.issued
    && Bodies(s, m) == []
    && (m in s.t.messages ==> StatusOf(s.t, m) in {Some(Deferred), Some(Suppressed)})
    && forall w :: !Owns(PcOf(s, w), m)
  }

  lemma DeferredIsParked(s: State, m: MessageId)
    requires Inv(s) && IsDeferred(s.t, m)
    ensures Parked(s, m)
  {
    assert RowsAgree(s.t, m) && LogAgrees(s, m);
    forall w
      ensures !Owns(PcOf(s, w), m)
    {
      assert OwnerOk(s, PcOf(s, w), m);
    }
  }

  /** A step of a dispatch worker parks what it found parked: checked at its own message,
      framed everywhere else. */
  lemma LocalKeepsParked(s: State, s': State, w: Worker, at: MessageId, m: MessageId)
    requires Local(s, s', w, at) && Parked(s, m)
    requires m != at ==> !Owns(PcOf(s', w), m)
    requires m == at ==>
               && Bodies(s', m) == [] && !Owns(PcOf(s', w), m)
               && (m in s.t.messages ==> StatusOf(s'.t, m) in {Some(Deferred), Some(Suppressed)})
    ensures Parked(s', m)
  {
    forall v
      ensures !Owns(PcOf(s', v), m)
    {
      assert v != w ==> PcOf(s', v) == PcOf(s, v);
    }
  }

  lemma ClaimKeepsParked(s: State, w: Worker, job: Job, m: MessageId)
    requires Inv(s) && Parked(s, m) && PcOf(s, w) == Claiming(job)
    ensures Parked(ClaimStep(s, w, job), m)
  {
    Here(s, w, job.message);
    ClaimMoves(s.t, job, s.clock);
    LocalKeepsParked(s, ClaimStep(s, w, job), w, job.message, m);
  }

  /** Steps that only move the worker, outside the send. */
  lemma PlaceKeepsParked(s: State, w: Worker, pc: Pc, m: MessageId)
    requires Parked(s, m) && !Owns(pc, m)
    ensures Parked(At(s, w, pc), m)
  {
    LocalKeepsParked(s, At(s, w, pc), w, m, m);
  }

  /** The send path never reaches a parked message: the compare-and-set on pending misses. */
  lemma StartKeepsParked(s: State, w: Worker, pass: Pass, m: MessageId)
    requires Inv(s) && Parked(s, m) && PcOf(s, w) == Starting(pass)
    ensures Parked(StartStep(s, w, pass), m)
  {
    Here(s, w, pass.job.message);
    StartMoves(s.t, pass.job.message, pass.sendNow);
    LocalKeepsParked(s, StartStep(s, w, pass), w, pass.job.message, m);
  }

  lemma SendKeepsParked(s: State, w: Worker, pass: Pass, outcome: SendOutcome, m: MessageId)
    requires Parked(s, m) && PcOf(s, w) == InSend(pass)
    ensures Parked(SendStep(s, w, pass, outcome), m)
  {
    assert Owns(PcOf(s, w), pass.job.message);
    LocalKeepsParked(s, SendStep(s, w, pass, outcome), w, pass.job.message, m);
  }

  lemma CompleteKeepsParked(s: State, w: Worker, pass: Pass, attempt: nat, commit: CommitOutcome, m: MessageId)
    requires Inv(s) && Parked(s, m) && PcOf(s, w) == Completing(pass, attempt)
    ensures Parked(CompleteStep(s, w, pass, attempt, commit), m)
  {
    assert Owns(PcOf(s, w), pass.job.message);
    Here(s, w, pass.job.message);
    MarkSentMoves(s.t, pass.job, pass.sendNow);
    LocalKeepsParked(s, CompleteStep(s, w, pass, attempt, commit), w, pass.job.message, m);
  }

  lemma ResolveKeepsParked(s: State, w: Worker, job: Job, reason: Reason, status: TargetStatus, m: MessageId)
    requires Inv(s) && Parked(s, m)
    requires (PcOf(s, w) == Suppressing(job, reason) && status == Suppressed)
             || PcOf(s, w) == Burning(job, reason, status)
    ensures Parked(BurnStep(s, w, job, reason, status), m)
  {
    Here(s, w, job.message);
    if status == Suppressed || status == Failed {
      ResolveMoves(s.t, job.message, reason, status);
      LocalKeepsParked(s, BurnStep(s, w, job, reason, status), w, job.message, m);
    }
  }

  lemma DeferRevertKeepParked(s: State, w: Worker, move: Move, m: MessageId)
    requires Inv(s) && Parked(s, m)
    requires PcOf(s, w).Deferring? || PcOf(s, w).Reverting?
    ensures Parked(DispatchStep(s, w, move), m)
  {
    var at := PcOf(s, w).job.message;
    Here(s, w, at);
    RevertMoves(s.t, at);
    DeferMoves(s.t, at);
    LocalKeepsParked(s, DispatchStep(s, w, move), w, at, m);
  }

  lemma DispatchKeepsParked(s: State, w: Worker, move: Move, m: MessageId)
    requires Inv(s) && Parked(s, m)
    ensures Parked(DispatchStep(s, w, move), m)
  {
    match PcOf(s, w)
    case Idle =>
    case Claiming(job) => if move.Claim? { ClaimKeepsParked(s, w, job, m); }
    case Loading(job) =>
      if move.Load? {
        LoadShape(s, w, job, move.settings, move.subscribed, move.hasEmail);
        PlaceKeepsParked(s, w, PcOf(DispatchStep(s, w, move), w), m);
      }
    case Gating(_, _, _, _) =>
      GateShape(s, w, move);
      PlaceKeepsParked(s, w, PcOf(DispatchStep(s, w, move), w), m);
    case Starting(pass) => if move.Start? { StartKeepsParked(s, w, pass, m); }
    case InSend(pass) => if move.Send? { SendKeepsParked(s, w, pass, move.outcome, m); }
    case Completing(pass, attempt) =>
      if move.CompleteSend? { CompleteKeepsParked(s, w, pass, attempt, move.commit, m); }
    case Suppressing(job, reason) => if move.ApplySuppress? { ResolveKeepsParked(s, w, job, reason, Suppressed, m); }
    case Burning(job, reason, status) => if move.Burn? { ResolveKeepsParked(s, w, job, reason, status, m); }
    case Deferring(_) => DeferRevertKeepParked(s, w, move, m);
    case Reverting(_) => DeferRevertKeepParked(s, w, move, m);
  }

  /** Steps that move no dispatch worker into a send and leave m's status parked. */
  lemma BystanderKeepsParked(s: State, s': State, m: MessageId)
    requires Parked(s, m)
    requires s.past.issued <= s'.past.issued && s'.deliveries == s.deliveries
    requires m in s'.t.messages ==> m in s.t.messages && StatusOf(s'.t, m) in {StatusOf(s.t, m), Some(Suppressed)}
    requires forall v :: PcOf(s', v) == PcOf(s, v) || PcOf(s', v).Idle? || PcOf(s', v).Claiming?
    ensures Parked(s', m)
  {
    forall v
      ensures !Owns(PcOf(s', v), m)
    {
      assert !Owns(PcOf(s, v), m);
    }
  }

  lemma SweepResolveKeepsParked(s: State, k: MessageId, reason: Reason, m: MessageId)
    requires Inv(s) && Parked(s, m)
    ensures Parked(s.(t := ResolveTerminal(s.t, k, reason, Suppressed).0), m)
  {
    assert RowsAgree(s.t, k);
    ResolveMoves(s.t, k, reason, Suppressed);
    BystanderKeepsParked(s, s.(t := ResolveTerminal(s.t, k, reason, Suppressed).0), m);
  }

  lemma RowsKeepParked(s: State, e: Event, m: MessageId)
    requires Inv(s) && Parked(s, m)
    requires e.Redact? || e.Create?
    ensures Parked(Step(s, e), m)
  {
    assert RowsAgree(s.t, m);
    BystanderKeepsParked(s, Step(s, e), m);
  }

  lemma WriteKeepsParked(s: State, w: Worker, move: AiMove, m: MessageId)
    requires Parked(s, m)
    ensures Parked(WriteStep(s, w, move), m)
  {
    WriteShape(s, w, move);
    BystanderKeepsParked(s, WriteStep(s, w, move), m);
  }

  lemma QuietKeepsParked(s: State, e: Event, m: MessageId)
    requires Parked(s, m) && Quiet(e)
    ensures Parked(Step(s, e), m)
  {
    QuietChangesNoRow(s, e);
    BystanderKeepsParked(s, Step(s, e), m);
  }

  lemma StepKeepsParked(s: State, e: Event, m: MessageId)
    requires Inv(s) && Parked(s, m)
    ensures Parked(Step(s, e), m)
  {
    match e
    case Dispatch(w, move) => DispatchKeepsParked(s, w, move, m);
    case Write(w, move) => WriteKeepsParked(s, w, move, m);
    case SweepResolve(k, reason) => SweepResolveKeepsParked(s, k, reason, m);
    case Redact(_, _) => RowsKeepParked(s, e, m);
    case Create(_, _, _) => RowsKeepParked(s, e, m);
    case Pick(w, job) => PlaceKeepsParked(s, w, Claiming(job), m);
    case Crash(w) => PlaceKeepsParked(s, w, Idle, m);
    case SweepFresh(k, campaign) => BystanderKeepsParked(s, SweepFreshStep(s, k, campaign), m);
    case SweepDeferred(k) => BystanderKeepsParked(s, SweepDeferredStep(s, k), m);
    case _ => QuietKeepsParked(s, e, m);
  }

  lemma {:induction false} RunKeepsParked(s: State, es: seq<Event>, m: MessageId)
    requires Inv(s) && Parked(s, m)
    ensures Parked(Run(s, es), m)
    decreases |es|
  {
    if es != [] {
      RunKeepsParked(s, es[..|es| - 1], m);
      RunKeeps(s, es[..|es| - 1]);
      StepKeepsParked(Run(s, es[..|es| - 1]), es[|es| - 1], m);
    }
  }

  /** A target deferred at any moment of a run is never sending or sent afterwards, leaves
      deferred only for suppressed or erasure, and its message is never delivered. */
  lemma DeferredIsNeverSent(clock: Millis, es: seq<Event>, fs: seq<Event>, m: MessageId)
    requires IsDeferred(Run(Init(clock), es).t, m)
    ensures var s := Run(Init(clock), es + fs);
            && (m in s.t.targets ==> s.t.targets[m].status in {Deferred, Suppressed})
            && Bodies(s, m) == []
  {
    var s := Run(Init(clock), es);
    InitInv(clock);
    RunKeeps(Init(clock), es);
    DeferredIsParked(s, m);
    RunKeepsParked(s, fs, m);
    RunKeeps(s, fs);
    RunConcat(Init(clock), es, fs);
    assert RowsAgree(Run(s, fs).t, m);
  }
}
