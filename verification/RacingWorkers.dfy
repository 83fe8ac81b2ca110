/** What two dispatch workers can do to one message or one customer, and so when the cooldown
    holds and what `suppressed` means. Both workers find nothing sent and both send; or one
    loads a message, the other's mail for it is accepted, and the first then suppresses it.
    One worker does neither. */
module RacingWorkers {
  import opened Collections
  import opened Tables
  import opened GateChain
  import opened Machine
  import opened SendOnce
  import opened SendLedger
  import opened Steady
  import opened Scenes
  import opened Races
  import opened CapPeaks
  import Frequency
  import LoneWorker

  // ------------------------------------------------------------- the cooldown

  predicate KeptApart(cfg: Config, t: Tables, merchant: MerchantId, m: MessageId, n: MessageId) {
    m in t.messages && t.messages[m].merchant == merchant ==> Frequency.Apart(cfg, t, m, n)
  }

  /** A merchant's messages to one customer are kept apart in every steady run if and only if
      there is one worker at most, nothing can be sent at all, or there is no cooldown: two
      workers both find nothing sent. */
  lemma CooldownKeptIff(cfg: Config, merchant: MerchantId)
    requires Calendar(cfg.monthStart)
    ensures (forall clock, es, m, n :: SteadyRun(cfg, Init(clock), es) ==>
               KeptApart(cfg, Run(Init(clock), es).t, merchant, m, n))
            <==> cfg.workers <= 1 || !CanSend(cfg, merchant) || cfg.settings(merchant).cooldownHours < 0
  {
    if cfg.workers <= 1 || !CanSend(cfg, merchant) || cfg.settings(merchant).cooldownHours < 0 {
      forall clock, es, m, n | SteadyRun(cfg, Init(clock), es)
        ensures KeptApart(cfg, Run(Init(clock), es).t, merchant, m, n)
      {
        CooldownKept(cfg, clock, es, merchant, m, n);
      }
    } else {
      var k := First(merchant, (m: MessageId) => 0, 2, 0);
      var s := Opening(cfg, k);
      s := LetGo(cfg, Init(0), k, s, 2, 2);
      assert MessageIs(k, s, 0, 2, 2) && MessageIs(k, s, 1, 2, 2);
      var es :| SteadyRun(cfg, Init(0), es) && Run(Init(0), es) == s;
      assert !KeptApart(cfg, Run(Init(0), es).t, merchant, 0, 1);
    }
  }

  lemma CooldownKept(cfg: Config, clock: Millis, es: seq<Event>, merchant: MerchantId, m: MessageId, n: MessageId)
    requires Calendar(cfg.monthStart) && SteadyRun(cfg, Init(clock), es)
    requires cfg.workers <= 1 || !CanSend(cfg, merchant) || cfg.settings(merchant).cooldownHours < 0
    ensures KeptApart(cfg, Run(Init(clock), es).t, merchant, m, n)
  {
    var s := Run(Init(clock), es);
    RunKeepsRation(cfg, clock, es);
    assert RowsAgree(s.t, m) && LedgerRow(s, m);
    if cfg.workers <= 1 {
      Frequency.RunKeepsFrequency(cfg, clock, es);
    } else if m in s.past.sentLog {
      SendersCanSend(cfg, clock, es, m);
    }
  }

  // ---------------------------------------------------- accepted and suppressed

  /** A second worker loads a claimed message and finds its recipient on the suppression list. */
  lemma SecondWorkerObjects(cfg: Config, s0: State, s: State, job: Job)
    requires Reaches(cfg, s0, s) && cfg.workers >= 2 && PcOf(s, 1) == Idle && job in s.jobs
    requires job.message in s.t.targets && s.t.targets[job.message].status == Pending
    requires job.message in s.t.messages && s.t.messages[job.message].generatedText == TEXT
    ensures Reaches(cfg, s0, At(s, 1, Suppressing(job, Suppression)))
  {
    hide Reaches;
    LoadClaimed(cfg, s0, s, 1, job);
    SuppressionReads(cfg, s0, s, job);
  }

  lemma SuppressionReads(cfg: Config, s0: State, s: State, job: Job)
    requires Reaches(cfg, s0, At(s, 1, Gating(job, CtxOf(cfg, job), s.clock, NO_READS))) && cfg.workers >= 2
    ensures Reaches(cfg, s0, At(s, 1, Suppressing(job, Suppression)))
  {
    hide Reaches;
    var pc := Gating(job, CtxOf(cfg, job), s.clock, NO_READS);
    var seen := NO_READS.(suppressed := Some(true));
    ReadOne(cfg, s0, s, 1, pc, ReadSuppression(true), seen);
    MovesOn(s, 1, pc.(seen := seen), Suppressing(job, Suppression));
    assert Step(At(s, 1, pc.(seen := seen)), Dispatch(1, Decide)) == At(s, 1, Suppressing(job, Suppression));
    Then(cfg, s0, At(s, 1, pc.(seen := seen)), Dispatch(1, Decide));
  }

  lemma ReachedIsSound(cfg: Config, clock: Millis, s: State)
    requires Reaches(cfg, Init(clock), s)
    ensures Inv(s)
  {
    var es :| SteadyRun(cfg, Init(clock), es) && Run(Init(clock), es) == s;
    InitInv(clock);
    RunKeeps(Init(clock), es);
  }

  /** The first worker's mail is accepted, and then the second one suppresses the message. */
  lemma AcceptedThenSuppressed(cfg: Config) returns (s: State)
    requires cfg.workers == 2 && CanSend(cfg, 0) && Calendar(cfg.monthStart)
    ensures Reaches(cfg, Init(0), s)
    ensures StatusOf(s.t, 0) == Some(Suppressed) && |Bodies(s, 0)| == 1
  {
    var k := First(0, (m: MessageId) => 0, 1, 0);
    var s1 := Opening(cfg, k);
    s1 := LineUp(cfg, Init(0), k, s1, 1);
    var job := JobFor(k, 0);
    assert PlaceIs(cfg, k, s1, 0, 0, 1) && PlaceIs(cfg, k, s1, 1, 0, 1) && MessageIs(k, s1, 0, 0, 1);
    ReachedIsSound(cfg, 0, s1);
    assert job in s1.jobs;
    hide Reaches, PlaceIs, MessageIs;
    SecondWorkerObjects(cfg, Init(0), s1, job);
    s := SendThenSuppress(cfg, At(s1, 1, Suppressing(job, Suppression)), PassNow(cfg, s1, job));
  }

  lemma SendThenSuppress(cfg: Config, s: State, pass: Pass) returns (s': State)
    requires Reaches(cfg, Init(0), s) && cfg.workers == 2
    requires PcOf(s, 0) == Starting(pass) && PcOf(s, 1) == Suppressing(pass.job, Suppression)
    requires StatusOf(s.t, pass.job.message) == Some(Pending)
    ensures Reaches(cfg, Init(0), s')
    ensures StatusOf(s'.t, pass.job.message) == Some(Suppressed) && |Bodies(s', pass.job.message)| == 1
  {
    ReachedIsSound(cfg, 0, s);
    assert LogAgrees(s, pass.job.message);
    SendNow(cfg, Init(0), s, 0, pass);
    var s1 := AfterSend(s, 0, pass);
    ReachedIsSound(cfg, 0, s1);
    hide Reaches, AfterSend, Inv;
    SuppressedAfterAcceptance(s1, 1, pass.job, Suppression);
    s' := Step(s1, Dispatch(1, ApplySuppress));
    Then(cfg, Init(0), s1, Dispatch(1, ApplySuppress));
  }

  lemma {:induction false} SteadyByWorkers(cfg: Config, s: State, es: seq<Event>)
    requires SteadyRun(cfg, s, es)
    ensures LoneWorker.ByWorkers(cfg.workers, es)
    decreases |es|
  {
    if es != [] {
      var front := es[..|es| - 1];
      SteadyByWorkers(cfg, s, front);
      forall i | 0 <= i < |es|
        ensures LoneWorker.WorkerBelow(cfg.workers, es[i])
      {
        assert i < |front| ==> es[i] == front[i] && LoneWorker.WorkerBelow(cfg.workers, front[i]);
      }
    }
  }

  lemma MoreWorkers(n: nat, k: nat, es: seq<Event>)
    requires n <= k && LoneWorker.ByWorkers(n, es)
    ensures LoneWorker.ByWorkers(k, es)
  {
    forall i | 0 <= i < |es|
      ensures LoneWorker.WorkerBelow(k, es[i])
    {
      assert LoneWorker.WorkerBelow(n, es[i]);
    }
  }

  lemma SuppressedThoughSent(n: nat) returns (es: seq<Event>)
    requires n >= 2
    ensures LoneWorker.ByWorkers(n, es)
    ensures StatusOf(Run(Init(0), es).t, 0) == Some(Suppressed) && Bodies(Run(Init(0), es), 0) != []
  {
    var cfg := Config(2, (m: MerchantId) => Settings(0, 1, 1, 1), (d: Day) => d);
    var s := AcceptedThenSuppressed(cfg);
    es :| SteadyRun(cfg, Init(0), es) && Run(Init(0), es) == s;
    SteadyByWorkers(cfg, Init(0), es);
    MoreWorkers(2, n, es);
  }

  /** In all runs of n dispatch workers a suppressed message was never accepted, if and only
      if n is at most one. */
  lemma SuppressedMeansUnsentIff(n: nat)
    ensures (forall clock, es, m ::
            LoneWorker.ByWorkers(n, es) && StatusOf(Run(Init(clock), es).t, m) == Some(Suppressed) ==>
               Bodies(Run(Init(clock), es), m) == [])
            <==> n <= 1
  {
    if n <= 1 {
      forall clock, es, m | LoneWorker.ByWorkers(n, es) && StatusOf(Run(Init(clock), es).t, m) == Some(Suppressed)
        ensures Bodies(Run(Init(clock), es), m) == []
      {
        MoreWorkers(n, 1, es);
        LoneWorker.SuppressedMeansUnsent(clock, es, m);
      }
    } else {
      var es := SuppressedThoughSent(n);
      assert LoneWorker.ByWorkers(n, es) && StatusOf(Run(Init(0), es).t, 0) == Some(Suppressed)
             && Bodies(Run(Init(0), es), 0) != [];
    }
  }
}
