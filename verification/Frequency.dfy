/** Frequency limits over whole runs: with one dispatch worker, two sent messages to one
    customer lie more than the cooldown apart, and no UTC day holds more of them than the
    daily maximum. The gates read before the send and the send is recorded after it, so
    the proof carries what the gates saw up to the completion transaction, across midnight
    and across every retry of that transaction. */
module Frequency {
  import opened Collections
  import opened Tables
  import opened GateChain
  import opened Machine
  import opened SendOnce
  import opened SendLedger
  import opened Steady

  predicate IsSent(t: Tables, m: MessageId) {
    m in t.messages && t.messages[m].status == MessageSent && t.messages[m].sentAt.Some?
  }

  predicate SentTo(t: Tables, m: MessageId, merchant: MerchantId, customer: CustomerId) {
    IsSent(t, m) && t.messages[m].merchant == merchant && t.messages[m].customer == customer
  }

  /** A customer's sent messages of one UTC day. */
  function SentOn(t: Tables, merchant: MerchantId, customer: CustomerId, day: Day): set<MessageId> {
    set m | m in t.messages && SentTo(t, m, merchant, customer) && DayOf(t.messages[m].sentAt.value) == day
  }

  function CooldownMs(cfg: Config, merchant: MerchantId): int {
    cfg.settings(merchant).cooldownHours * MS_PER_HOUR
  }

  /** Two different sent messages of one customer are more than the cooldown apart. */
  predicate Apart(cfg: Config, t: Tables, m: MessageId, n: MessageId) {
    m != n && IsSent(t, m) && IsSent(t, n)
    && t.messages[m].merchant == t.messages[n].merchant && t.messages[m].customer == t.messages[n].customer ==>
      var gap := t.messages[m].sentAt.value - t.messages[n].sentAt.value;
      gap > CooldownMs(cfg, t.messages[m].merchant) || -gap > CooldownMs(cfg, t.messages[m].merchant)
  }

  ghost predicate Rationed(cfg: Config, t: Tables, merchant: MerchantId, customer: CustomerId, day: Day) {
    var sent := |SentOn(t, merchant, customer, day)|;
    sent == 0 || sent <= cfg.settings(merchant).maxDailySendsPerCustomer
  }

  /** What the frequency gate has established for one more send. */
  predicate Clear(cfg: Config, t: Tables, pass: Pass) {
    var merchant, customer := pass.job.merchant, pass.job.customer;
    && SentSince(t, merchant, customer, pass.gateNow - CooldownMs(cfg, merchant)) == {}
    && |SentSince(t, merchant, customer, DayOf(pass.gateNow) * MS_PER_DAY)|
       < cfg.settings(merchant).maxDailySendsPerCustomer
  }

  /** The worker's reads still hold of the tables, and a worker past the gates is clear
      until its send is recorded. */
  predicate Careful(cfg: Config, s: State, pc: Pc) {
    match pc
    case Gating(job, _, gateNow, seen) =>
      && (seen.sentInCooldown == Some(0) ==>
            SentSince(s.t, job.merchant, job.customer, gateNow - CooldownMs(cfg, job.merchant)) == {})
      && (seen.sentToday.Some? ==>
            |SentSince(s.t, job.merchant, job.customer, DayOf(gateNow) * MS_PER_DAY)| <= seen.sentToday.value)
    case Starting(pass) => Clear(cfg, s.t, pass)
    case InSend(pass) => Clear(cfg, s.t, pass)
    case Completing(pass, _) => pass.job.message !in s.past.sentLog ==> Clear(cfg, s.t, pass)
    case _ => true
  }

  ghost predicate FrequencyInv(cfg: Config, s: State) {
    && (forall w :: Careful(cfg, s, PcOf(s, w)))
    && (forall m, n :: Apart(cfg, s.t, m, n))
    && (forall merchant, customer, day :: Rationed(cfg, s.t, merchant, customer, day))
  }

  // -------------------------------------------------- steps that send nothing new

  predicate SameSend(t: Tables, t': Tables, m: MessageId) {
    IsSent(t', m) ==>
      && IsSent(t, m) && t'.messages[m].sentAt == t.messages[m].sentAt
      && t'.messages[m].merchant == t.messages[m].merchant && t'.messages[m].customer == t.messages[m].customer
  }

  /** Every sent message was sent before. */
  ghost predicate SentShrinks(t: Tables, t': Tables) {
    forall m :: SameSend(t, t', m)
  }

  lemma FewerSince(t: Tables, t': Tables, merchant: MerchantId, customer: CustomerId, since: Millis)
    requires SentShrinks(t, t')
    ensures SentSince(t', merchant, customer, since) <= SentSince(t, merchant, customer, since)
    ensures |SentSince(t', merchant, customer, since)| <= |SentSince(t, merchant, customer, since)|
  {
    forall m | m in SentSince(t', merchant, customer, since)
      ensures m in SentSince(t, merchant, customer, since)
    {
      assert SameSend(t, t', m) && IsSent(t', m);
    }
    SubsetSize(SentSince(t', merchant, customer, since), SentSince(t, merchant, customer, since));
  }

  lemma FewerOn(t: Tables, t': Tables, merchant: MerchantId, customer: CustomerId, day: Day)
    requires SentShrinks(t, t')
    ensures |SentOn(t', merchant, customer, day)| <= |SentOn(t, merchant, customer, day)|
  {
    forall m | m in SentOn(t', merchant, customer, day)
      ensures m in SentOn(t, merchant, customer, day)
    {
      assert SameSend(t, t', m);
    }
    SubsetSize(SentOn(t', merchant, customer, day), SentOn(t, merchant, customer, day));
  }

  /** A worker that does not move stays careful. */
  lemma StaysCareful(cfg: Config, s: State, s': State, pc: Pc)
    requires SentShrinks(s.t, s'.t) && s'.past.sentLog == s.past.sentLog && Careful(cfg, s, pc)
    ensures Careful(cfg, s', pc)
  {
    if pc.Gating? {
      FewerSince(s.t, s'.t, pc.job.merchant, pc.job.customer, pc.gateNow - CooldownMs(cfg, pc.job.merchant));
      FewerSince(s.t, s'.t, pc.job.merchant, pc.job.customer, DayOf(pc.gateNow) * MS_PER_DAY);
    } else if pc.Starting? || pc.InSend? || pc.Completing? {
      var job := pc.pass.job;
      FewerSince(s.t, s'.t, job.merchant, job.customer, pc.pass.gateNow - CooldownMs(cfg, job.merchant));
      FewerSince(s.t, s'.t, job.merchant, job.customer, DayOf(pc.pass.gateNow) * MS_PER_DAY);
    }
  }

  lemma ShrinkKeeps(cfg: Config, s: State, s': State, w: Worker)
    requires FrequencyInv(cfg, s)
    requires SentShrinks(s.t, s'.t) && s'.past.sentLog == s.past.sentLog
    requires forall v :: v != w ==> PcOf(s', v) == PcOf(s, v)
    requires Careful(cfg, s', PcOf(s', w))
    ensures FrequencyInv(cfg, s')
  {
    forall v
      ensures Careful(cfg, s', PcOf(s', v))
    {
      if v != w {
        assert Careful(cfg, s, PcOf(s, v));
        StaysCareful(cfg, s, s', PcOf(s, v));
      }
    }
    forall m, n
      ensures Apart(cfg, s'.t, m, n)
    {
      assert SameSend(s.t, s'.t, m) && SameSend(s.t, s'.t, n) && Apart(cfg, s.t, m, n);
    }
    forall merchant, customer, day
      ensures Rationed(cfg, s'.t, merchant, customer, day)
    {
      assert Rationed(cfg, s.t, merchant, customer, day);
      FewerOn(s.t, s'.t, merchant, customer, day);
    }
  }

  /** A dispatch step that records no send marks no message sent. */
  lemma DispatchShrinks(s: State, w: Worker, move: Move)
    requires LedgerInv(s) && DispatchStep(s, w, move).past.sentLog == s.past.sentLog
    ensures SentShrinks(s.t, DispatchStep(s, w, move).t)
  {
    match PcOf(s, w)
    case Completing(pass, attempt) =>
      assert LedgerRow(s, pass.job.message);
      if move.CompleteSend? { CompleteShrinks(s, w, pass, attempt, move.commit); }
    case Loading(job) =>
      if move.Load? { LoadShape(s, w, job, move.settings, move.subscribed, move.hasEmail); }
    case Gating(_, _, _, _) => GateShape(s, w, move);
    case Suppressing(_, _) => EndShrinks(s, w, move);
    case Burning(_, _, _) => EndShrinks(s, w, move);
    case Deferring(_) => EndShrinks(s, w, move);
    case Reverting(_) => EndShrinks(s, w, move);
    case _ =>
  }

  lemma EndShrinks(s: State, w: Worker, move: Move)
    requires PcOf(s, w).Suppressing? || PcOf(s, w).Deferring? || PcOf(s, w).Reverting? || PcOf(s, w).Burning?
    ensures SentShrinks(s.t, DispatchStep(s, w, move).t)
  {
  }

  lemma CompleteShrinks(s: State, w: Worker, pass: Pass, attempt: nat, commit: CommitOutcome)
    requires LedgerRow(s, pass.job.message)
    requires CompleteStep(s, w, pass, attempt, commit).past.sentLog == s.past.sentLog
    ensures CompleteStep(s, w, pass, attempt, commit).t == s.t
  {
    if commit != RolledBack && MarkSent(s.t, pass.job, pass.sendNow).1 {
      assert pass.job.message in CompleteStep(s, w, pass, attempt, commit).past.sentLog;
    }
  }

  /** Steps of everybody else: erasure removes messages, the others send none. */
  lemma OthersShrink(s: State, e: Event)
    requires !e.Dispatch?
    ensures SentShrinks(s.t, Step(s, e).t)
  {
    if Quiet(e) {
      QuietChangesNoRow(s, e);
    } else if e.Write? {
      WriteShape(s, e.w, e.aiMove);
    }
  }

  // -------------------------------------------------------------- worker steps

  /** Clearance is what two frequency reads and a passed chain come to. */
  lemma PassedIsClear(cfg: Config, s: State, w: Worker)
    requires PcOf(s, w).Gating? && RunGateChain(PcOf(s, w).ctx, PcOf(s, w).seen) == Passed
    requires Careful(cfg, s, PcOf(s, w)) && TimesOk(cfg, s, PcOf(s, w))
    ensures Clear(cfg, s.t, Pass(PcOf(s, w).job, PcOf(s, w).ctx, PcOf(s, w).gateNow, s.clock))
  {
  }

  lemma ReadIsCareful(cfg: Config, s: State, w: Worker, move: Move)
    requires PcOf(s, w).Gating? && PcOf(DispatchStep(s, w, move), w).Gating?
    requires Careful(cfg, s, PcOf(s, w)) && TimesOk(cfg, s, PcOf(s, w))
    ensures Careful(cfg, DispatchStep(s, w, move), PcOf(DispatchStep(s, w, move), w))
  {
    GateShape(s, w, move);
    if move.Decide? {
      assert DispatchStep(s, w, move) == DecideStep(s, w);
    } else {
      assert DispatchStep(s, w, move) == ReadStep(s, w, move);
    }
  }

  /** Outside the gates a worker carries its clearance along unchanged. */
  lemma CarriesClearance(cfg: Config, s: State, s': State, pc: Pc, move: Move, pc': Pc)
    requires Follows(s, pc, move, pc') && !pc.Gating? && s'.past.sentLog == s.past.sentLog
    requires Careful(cfg, s', pc)
    ensures Careful(cfg, s', pc')
  {
  }

  /** A worker's own place stays careful while it records nothing. */
  lemma MoverIsCareful(cfg: Config, s: State, w: Worker, move: Move)
    requires LedgerInv(s) && Careful(cfg, s, PcOf(s, w)) && TimesOk(cfg, s, PcOf(s, w))
    requires DispatchStep(s, w, move).past.sentLog == s.past.sentLog
    ensures Careful(cfg, DispatchStep(s, w, move), PcOf(DispatchStep(s, w, move), w))
  {
    var s' := DispatchStep(s, w, move);
    if PcOf(s, w).Gating? {
      GateShape(s, w, move);
      if PcOf(s', w).Gating? {
        ReadIsCareful(cfg, s, w, move);
      } else if PcOf(s', w).Starting? {
        PassedIsClear(cfg, s, w);
      }
    } else {
      DispatchAdvances(s, w, move);
      DispatchShrinks(s, w, move);
      StaysCareful(cfg, s, s', PcOf(s, w));
      CarriesClearance(cfg, s, s', PcOf(s, w), move, PcOf(s', w));
    }
  }

  /** A cleared send, recorded, is apart from every other and within its day's ration. */
  lemma RecordKeeps(cfg: Config, s: State, s': State, pass: Pass, m: MessageId)
    requires Sound(cfg, s) && FrequencyInv(cfg, s)
    requires m == pass.job.message && Clear(cfg, s.t, pass) && pass.gateNow <= pass.sendNow
    requires RowsAgree(s.t, m) && JobOk(s, pass.job)
    requires s'.t == MarkSent(s.t, pass.job, pass.sendNow).0 && MarkSent(s.t, pass.job, pass.sendNow).1
    ensures forall k, n :: Apart(cfg, s'.t, k, n)
    ensures forall merchant, customer, day :: Rationed(cfg, s'.t, merchant, customer, day)
  {
    forall k, n
      ensures Apart(cfg, s'.t, k, n)
    {
      assert Apart(cfg, s.t, k, n);
      if k == m { BeforeTheGates(cfg, s, pass, n); } else if n == m { BeforeTheGates(cfg, s, pass, k); }
    }
    forall merchant, customer, day
      ensures Rationed(cfg, s'.t, merchant, customer, day)
    {
      assert Rationed(cfg, s.t, merchant, customer, day);
      RecordRations(cfg, s, s', pass, merchant, customer, day);
    }
  }

  /** Everything sent to the customer before is older than the cooldown at the gates' clock. */
  lemma BeforeTheGates(cfg: Config, s: State, pass: Pass, n: MessageId)
    requires Clear(cfg, s.t, pass) && pass.gateNow <= pass.sendNow
    ensures SentTo(s.t, n, pass.job.merchant, pass.job.customer) ==>
              pass.sendNow - s.t.messages[n].sentAt.value > CooldownMs(cfg, pass.job.merchant)
  {
    if SentTo(s.t, n, pass.job.merchant, pass.job.customer) {
      assert n !in SentSince(s.t, pass.job.merchant, pass.job.customer,
                             pass.gateNow - CooldownMs(cfg, pass.job.merchant));
    }
  }

  lemma RecordRations(cfg: Config, s: State, s': State, pass: Pass, merchant: MerchantId, customer: CustomerId,
                      day: Day)
    requires Clear(cfg, s.t, pass) && pass.gateNow <= pass.sendNow && JobOk(s, pass.job)
    requires s'.t == MarkSent(s.t, pass.job, pass.sendNow).0 && MarkSent(s.t, pass.job, pass.sendNow).1
    requires Rationed(cfg, s.t, merchant, customer, day)
    ensures Rationed(cfg, s'.t, merchant, customer, day)
  {
    var here := merchant == pass.job.merchant && customer == pass.job.customer && day == DayOf(pass.sendNow);
    RecordingAdds(s.t, pass, merchant, customer, day);
    if here {
      DaySendsSinceGates(s.t, pass);
    }
  }

  /** Recording a send adds it to its own customer and day. */
  lemma RecordingAdds(t: Tables, pass: Pass, merchant: MerchantId, customer: CustomerId, day: Day)
    requires MarkSent(t, pass.job, pass.sendNow).1
    requires pass.job.message in t.messages
             && t.messages[pass.job.message].merchant == pass.job.merchant
             && t.messages[pass.job.message].customer == pass.job.customer
    ensures var t' := MarkSent(t, pass.job, pass.sendNow).0;
            var here := merchant == pass.job.merchant && customer == pass.job.customer && day == DayOf(pass.sendNow);
            |SentOn(t', merchant, customer, day)| == |SentOn(t, merchant, customer, day)| + (if here then 1 else 0)
  {
    var t' := MarkSent(t, pass.job, pass.sendNow).0;
    var here := merchant == pass.job.merchant && customer == pass.job.customer && day == DayOf(pass.sendNow);
    assert SentOn(t', merchant, customer, day)
           == SentOn(t, merchant, customer, day) + (if here then {pass.job.message} else {});
  }

  /** What was sent on the day of the send was sent since the start of the gates' day. */
  lemma DaySendsSinceGates(t: Tables, pass: Pass)
    requires pass.gateNow <= pass.sendNow
    ensures |SentOn(t, pass.job.merchant, pass.job.customer, DayOf(pass.sendNow))|
            <= |SentSince(t, pass.job.merchant, pass.job.customer, DayOf(pass.gateNow) * MS_PER_DAY)|
  {
    var on := SentOn(t, pass.job.merchant, pass.job.customer, DayOf(pass.sendNow));
    var since := SentSince(t, pass.job.merchant, pass.job.customer, DayOf(pass.gateNow) * MS_PER_DAY);
    assert DayOf(pass.gateNow) <= DayOf(pass.sendNow);
    forall k | k in on
      ensures k in since
    {
      assert DayOf(t.messages[k].sentAt.value) == DayOf(pass.sendNow);
    }
    SubsetSize(on, since);
  }

  lemma RecordingStep(cfg: Config, s: State, w: Worker, move: Move)
    requires Sound(cfg, s) && FrequencyInv(cfg, s)
    requires DispatchStep(s, w, move).past.sentLog != s.past.sentLog
    ensures var s' := DispatchStep(s, w, move);
            && PcOf(s, w).Completing? && Careful(cfg, s', PcOf(s', w))
            && (forall k, n :: Apart(cfg, s'.t, k, n))
            && (forall merchant, customer, day :: Rationed(cfg, s'.t, merchant, customer, day))
  {
    hide Inv, LedgerInv;
    var s' := DispatchStep(s, w, move);
    DispatchRecords(s, w, move);
    var pass := PcOf(s, w).pass;
    var m := pass.job.message;
    HereLedger(s, w, m);
    MarkSentMoves(s.t, pass.job, pass.sendNow);
    assert Careful(cfg, s, PcOf(s, w)) && TimesOk(cfg, s, PcOf(s, w));
    RecordKeeps(cfg, s, s', pass, m);
  }

  lemma DispatchKeepsFrequency(cfg: Config, s: State, w: Worker, move: Move)
    requires cfg.workers <= 1
    requires Sound(cfg, s) && FrequencyInv(cfg, s) && StepOk(cfg, s, Dispatch(w, move))
    ensures FrequencyInv(cfg, DispatchStep(s, w, move))
  {
    var s' := DispatchStep(s, w, move);
    DispatchAdvances(s, w, move);
    assert Careful(cfg, s, PcOf(s, w)) && TimesOk(cfg, s, PcOf(s, w));
    if s'.past.sentLog == s.past.sentLog {
      DispatchShrinks(s, w, move);
      MoverIsCareful(cfg, s, w, move);
      ShrinkKeeps(cfg, s, s', w);
    } else {
      RecordingStep(cfg, s, w, move);
      forall v
        ensures Careful(cfg, s', PcOf(s', v))
      {
        assert v != w ==> PcOf(s', v) == Idle;
      }
    }
  }

  lemma StepKeepsFrequency(cfg: Config, s: State, e: Event)
    requires cfg.workers <= 1
    requires Sound(cfg, s) && FrequencyInv(cfg, s) && StepOk(cfg, s, e)
    ensures FrequencyInv(cfg, Step(s, e))
  {
    if e.Dispatch? {
      DispatchKeepsFrequency(cfg, s, e.w, e.move);
    } else {
      OthersShrink(s, e);
      OthersRecordNothing(s, e);
      var w := if e.Pick? || e.Crash? then e.w else 0;
      assert Careful(cfg, s, PcOf(s, w));
      StaysCareful(cfg, s, Step(s, e), PcOf(s, w));
      ShrinkKeeps(cfg, s, Step(s, e), w);
    }
  }

  lemma {:induction false} RunKeepsFrequency(cfg: Config, clock: Millis, es: seq<Event>)
    requires cfg.workers <= 1 && SteadyRun(cfg, Init(clock), es)
    ensures Sound(cfg, Run(Init(clock), es)) && FrequencyInv(cfg, Run(Init(clock), es))
    decreases |es|
  {
    if es == [] {
      InitSound(cfg, clock);
      forall merchant, customer, day
        ensures Rationed(cfg, Init(clock).t, merchant, customer, day)
      {
        assert SentOn(Init(clock).t, merchant, customer, day) == {};
      }
    } else {
      RunKeepsFrequency(cfg, clock, es[..|es| - 1]);
      StepKeepsSound(cfg, Run(Init(clock), es[..|es| - 1]), es[|es| - 1]);
      StepKeepsFrequency(cfg, Run(Init(clock), es[..|es| - 1]), es[|es| - 1]);
    }
  }

  /** With one worker, any two sent messages of a customer are more than the cooldown
      apart, and a UTC day holds at most the daily maximum of them. */
  lemma FrequencyHolds(cfg: Config, clock: Millis, es: seq<Event>, m: MessageId, n: MessageId, day: Day)
    requires cfg.workers <= 1 && SteadyRun(cfg, Init(clock), es)
    requires var t := Run(Init(clock), es).t;
             && m in t.messages && t.messages[m].status == MessageSent
             && n in t.messages && t.messages[n].status == MessageSent
             && t.messages[m].merchant == t.messages[n].merchant && t.messages[m].customer == t.messages[n].customer
    ensures var t := Run(Init(clock), es).t;
            var settings := cfg.settings(t.messages[m].merchant);
            && t.messages[m].sentAt.Some? && t.messages[n].sentAt.Some?
            && (m != n ==>
                  var gap := t.messages[m].sentAt.value - t.messages[n].sentAt.value;
                  gap > settings.cooldownHours * MS_PER_HOUR || -gap > settings.cooldownHours * MS_PER_HOUR)
            && var sent := |SentOn(t, t.messages[m].merchant, t.messages[m].customer, day)|;
               (sent == 0 || sent <= settings.maxDailySendsPerCustomer)
  {
    var s := Run(Init(clock), es);
    RunKeepsFrequency(cfg, clock, es);
    assert RowsAgree(s.t, m) && LedgerRow(s, m) && RowsAgree(s.t, n) && LedgerRow(s, n);
    assert Apart(cfg, s.t, m, n);
    assert Rationed(cfg, s.t, s.t.messages[m].merchant, s.t.messages[m].customer, day);
  }
}
