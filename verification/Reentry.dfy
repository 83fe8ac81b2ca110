/** A deferral in action, and its end: outside the send window a target is deferred; queued
    again it passes every gate, and still is not sent, because only a pending target starts. */
module Reentry {
  import opened Collections
  import opened Tables
  import opened GateChain
  import opened Machine
  import opened Steady
  import opened Scenes
  import opened Races
  import opened CapPeaks

  /** Outside the send window. */
  lemma Delayed(cfg: Config, s0: State, s: State, w: Worker, job: Job)
    requires Reaches(cfg, s0, At(s, w, Gating(job, CtxOf(cfg, job), s.clock, NO_READS)))
    requires w < cfg.workers && Open(cfg, s, job)
    ensures Reaches(cfg, s0, At(s.(t := DeferTarget(s.t, job.message).0), w, Idle))
  {
    hide Reaches, SentToday, SentSince;
    ReadTerminal(cfg, s0, s, w, job);
    var pc := Gating(job, CtxOf(cfg, job), s.clock, TerminalReads(s, job));
    var seen := pc.seen.(inWindow := Some(false));
    ReadOne(cfg, s0, s, w, pc, ReadWindow(false), seen);
    MovesOn(s, w, pc.(seen := seen), Deferring(job));
    assert Step(At(s, w, pc.(seen := seen)), Dispatch(w, Decide)) == At(s, w, Deferring(job));
    Then(cfg, s0, At(s, w, pc.(seen := seen)), Dispatch(w, Decide));
    var s' := s.(t := DeferTarget(s.t, job.message).0);
    MovesOn(s', w, Deferring(job), Idle);
    assert Step(At(s, w, Deferring(job)), Dispatch(w, ApplyDefer)) == At(s', w, Idle);
    Then(cfg, s0, At(s, w, Deferring(job)), Dispatch(w, ApplyDefer));
  }

  /** The gates' reads do not depend on the target. */
  lemma StaysOpen(cfg: Config, s: State, s': State, job: Job)
    requires Open(cfg, s, job) && s'.clock == s.clock
    requires s'.t.messages == s.t.messages && s'.t.quota == s.t.quota
    ensures Open(cfg, s', job)
  {
    var since := cfg.monthStart(DayOf(s.clock));
    assert QuotaSince(s'.t, job.merchant, since) == QuotaSince(s.t, job.merchant, since);
    assert forall from ::
        SentSince(s'.t, job.merchant, job.customer, from) == SentSince(s.t, job.merchant, job.customer, from);
  }

  /** A deferred message that nothing stands in the way of. */
  predicate Retriable(cfg: Config, s: State, job: Job) {
    && IsDeferred(s.t, job.message) && job in s.jobs && PcOf(s, 0) == Idle && Open(cfg, s, job)
    && job.message in s.t.messages && s.t.messages[job.message].generatedText == TEXT
  }

  lemma DeferOne(cfg: Config, s0: State, s: State, job: Job) returns (s': State)
    requires Reaches(cfg, s0, s) && cfg.workers >= 1 && PcOf(s, 0) == Idle && Ready(s, job) && Open(cfg, s, job)
    ensures Reaches(cfg, s0, s') && Retriable(cfg, s', job)
  {
    hide Reaches, Open;
    var b := s.(t := s.t.(targets := s.t.targets[job.message := ClaimedRow(s, job)]));
    LoadReady(cfg, s0, s, 0, job);
    StaysOpen(cfg, s, b, job);
    Delayed(cfg, s0, b, 0, job);
    s' := At(b.(t := DeferTarget(b.t, job.message).0), 0, Idle);
    StaysOpen(cfg, s, s', job);
  }

  /** Queued again it comes up to its send, and no further. */
  lemma Retry(cfg: Config, s: State, job: Job) returns (s': State)
    requires cfg.workers >= 1 && Retriable(cfg, s, job)
    ensures Reaches(cfg, s, s') && PcOf(s', 0).Starting? && PcOf(s', 0).pass.job == job
    ensures var s'' := Step(s', Dispatch(0, Start));
            PcOf(s'', 0) == Idle && s''.t == s.t && s''.deliveries == s.deliveries
  {
    hide Step;
    Stays(cfg, s);
    s' := At(s, 0, Starting(PassNow(cfg, s, job)));
    hide Reaches, Open;
    LoadClaimed(cfg, s, s, 0, job);
    ReadAll(cfg, s, s, 0, job);
    DecideOpen(cfg, s, s, 0, job);
    StartMisses(s, s', PassNow(cfg, s, job));
  }

  lemma StartMisses(s: State, s': State, pass: Pass)
    requires s' == At(s, 0, Starting(pass)) && IsDeferred(s.t, pass.job.message)
    ensures PcOf(s', 0) == Starting(pass)
    ensures Step(s', Dispatch(0, Start)) == At(s', 0, Idle)
  {
  }

  /** For every merchant that can send at all: a steady run to a deferred target, and one on from
      there on which it is gated again and passes, reaches its send, and stays deferred. */
  lemma DeferredReentersInVain(cfg: Config, merchant: MerchantId) returns (s1: State, s2: State)
    requires Calendar(cfg.monthStart) && CanSend(cfg, merchant)
    ensures Reaches(cfg, Init(0), s1) && IsDeferred(s1.t, 0)
    ensures Reaches(cfg, s1, s2) && PcOf(s2, 0).Starting? && PcOf(s2, 0).pass.job.message == 0
    ensures var s3 := Step(s2, Dispatch(0, Start));
            PcOf(s3, 0) == Idle && IsDeferred(s3.t, 0) && s3.deliveries == s1.deliveries
  {
    var k := First(merchant, (m: MessageId) => m, 1, 0);
    var s := Opening(cfg, k);
    SceneIsOpen(cfg, k, s, 0, 0);
    SceneIsReady(cfg, k, s, 0, 0);
    hide Reaches, Open, Ready, Scene;
    s1 := DeferOne(cfg, Init(0), s, JobFor(k, 0));
    s2 := Retry(cfg, s1, JobFor(k, 0));
  }
}
