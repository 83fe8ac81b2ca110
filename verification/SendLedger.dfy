/** The daily send quota is the truth about sends: in every reachable state a merchant's
    day bucket counts exactly the sends recorded for that day, each recorded send has one
    audit row and one accepted delivery, and a retry after a lost acknowledgement counts
    nothing twice. */
module SendLedger {
  import opened Collections
  import opened Tables
  import opened Machine
  import opened SendOnce

  function KeyOf(r: SendRecord): BucketKey {
    BucketKey(r.merchant, DayOf(r.at))
  }

  /** The messages recorded as sent under one bucket. */
  function Recorded(log: map<MessageId, SendRecord>, k: BucketKey): set<MessageId> {
    set m | m in log && KeyOf(log[m]) == k
  }

  function Times(m: MessageId, log: map<MessageId, SendRecord>): nat {
    if m in log then 1 else 0
  }

  predicate LedgerRow(s: State, m: MessageId) {
    && s.t.sentAudits[m] == Times(m, s.past.sentLog)
    && (m in s.t.targets ==> (s.t.targets[m].status == Sent <==> m in s.past.sentLog))
    && (m in s.t.messages && m !in s.t.targets ==> m !in s.past.sentLog)
    && (m in s.past.sentLog ==>
          && m in s.past.issued && |Bodies(s, m)| == 1
          && (m in s.t.targets || m in s.past.redacted)
          && (m in s.t.targets && m in s.t.messages ==>
                && s.t.targets[m].sentAt == s.t.messages[m].sentAt == Some(s.past.sentLog[m].at)
                && s.t.targets[m].merchant == s.past.sentLog[m].merchant
                && s.t.targets[m].customer == s.past.sentLog[m].customer))
  }

  ghost predicate BucketOk(s: State, k: BucketKey) {
    QuotaOn(s.t, k.merchant, k.day) == |Recorded(s.past.sentLog, k)|
  }

  ghost predicate LedgerInv(s: State) {
    && (forall m :: LedgerRow(s, m))
    && (forall k :: BucketOk(s, k))
  }

  /** Steps that record no send: at most one message's rows move, and not to or from sent. */
  lemma MovesKeepLedger(s: State, s': State, m: MessageId)
    requires LedgerInv(s)
    requires Moves(s.t, s'.t, m)
    requires s'.t.quota == s.t.quota && s'.t.sentAudits == s.t.sentAudits && s'.past.sentLog == s.past.sentLog
    requires s'.past.issued == s.past.issued && s'.past.redacted == s.past.redacted
    requires forall k :: k != m ==> Bodies(s', k) == Bodies(s, k)
    requires LedgerRow(s', m)
    ensures LedgerInv(s')
  {
    forall k
      ensures LedgerRow(s', k)
    {
      assert LedgerRow(s, k);
    }
    forall k
      ensures BucketOk(s', k)
    {
      assert BucketOk(s, k);
    }
  }

  /** What is known about a worker's own message. */
  lemma HereLedger(s: State, w: Worker, m: MessageId)
    requires Inv(s) && LedgerInv(s)
    ensures RowsAgree(s.t, m) && LogAgrees(s, m) && OwnerOk(s, PcOf(s, w), m) && LedgerRow(s, m)
    ensures JobOf(PcOf(s, w)).Some? ==> JobOk(s, JobOf(PcOf(s, w)).value)
  {
    Here(s, w, m);
  }

  lemma GateKeepsLedger(s: State, w: Worker, move: Move)
    requires Inv(s) && LedgerInv(s)
    requires PcOf(s, w).Idle? || PcOf(s, w).Claiming? || PcOf(s, w).Loading? || PcOf(s, w).Gating?
    ensures LedgerInv(DispatchStep(s, w, move))
  {
    var s' := DispatchStep(s, w, move);
    match PcOf(s, w)
    case Claiming(job) =>
      HereLedger(s, w, job.message);
      ClaimMoves(s.t, job, s.clock);
      MovesKeepLedger(s, s', job.message);
    case Loading(job) =>
      if move.Load? { LoadShape(s, w, job, move.settings, move.subscribed, move.hasEmail); }
      assert LedgerRow(s, job.message);
      MovesKeepLedger(s, s', job.message);
    case Gating(job, _, _, _) =>
      GateShape(s, w, move);
      assert LedgerRow(s, job.message);
      MovesKeepLedger(s, s', job.message);
    case Idle =>
  }

  lemma ResolveKeepsLedger(s: State, s': State, m: MessageId, reason: Reason, status: TargetStatus)
    requires LedgerInv(s) && RowsAgree(s.t, m) && (status == Suppressed || status == Failed)
    requires s' == s.(t := ResolveTerminal(s.t, m, reason, status).0, dispatchers := s'.dispatchers)
    ensures LedgerInv(s')
  {
    ResolveMoves(s.t, m, reason, status);
    assert LedgerRow(s, m);
    MovesKeepLedger(s, s', m);
  }

  lemma DeferRevertKeepLedger(s: State, s': State, m: MessageId)
    requires LedgerInv(s) && RowsAgree(s.t, m)
    requires s' == s.(t := s'.t, dispatchers := s'.dispatchers)
    requires s'.t == DeferTarget(s.t, m).0 || s'.t == RevertToPending(s.t, m).0
    ensures LedgerInv(s')
  {
    DeferMoves(s.t, m);
    RevertMoves(s.t, m);
    assert LedgerRow(s, m);
    MovesKeepLedger(s, s', m);
  }

  lemma StartKeepsLedger(s: State, w: Worker, pass: Pass)
    requires Inv(s) && LedgerInv(s) && PcOf(s, w) == Starting(pass)
    ensures LedgerInv(StartStep(s, w, pass))
  {
    HereLedger(s, w, pass.job.message);
    StartMoves(s.t, pass.job.message, pass.sendNow);
    MovesKeepLedger(s, StartStep(s, w, pass), pass.job.message);
  }

  /** A message that is already recorded is never handed to the provider again. */
  lemma SendKeepsLedger(s: State, w: Worker, pass: Pass, outcome: SendOutcome)
    requires Inv(s) && LedgerInv(s) && PcOf(s, w) == InSend(pass)
    ensures LedgerInv(SendStep(s, w, pass, outcome))
  {
    HereLedger(s, w, pass.job.message);
    MovesKeepLedger(s, SendStep(s, w, pass, outcome), pass.job.message);
  }

  /** Recording a new send raises exactly its own bucket, by one. */
  lemma RecordedGrows(log: map<MessageId, SendRecord>, m: MessageId, r: SendRecord, k: BucketKey)
    requires m !in log
    ensures |Recorded(log[m := r], k)| == |Recorded(log, k)| + (if k == KeyOf(r) then 1 else 0)
  {
    assert Recorded(log[m := r], k) == Recorded(log, k) + (if k == KeyOf(r) then {m} else {});
  }

  lemma CompleteKeepsLedger(s: State, w: Worker, pass: Pass, attempt: nat, commit: CommitOutcome)
    requires Inv(s) && LedgerInv(s) && PcOf(s, w) == Completing(pass, attempt)
    ensures LedgerInv(CompleteStep(s, w, pass, attempt, commit))
  {
    var s' := CompleteStep(s, w, pass, attempt, commit);
    var m := pass.job.message;
    HereLedger(s, w, m);
    MarkSentMoves(s.t, pass.job, pass.sendNow);
    if s'.past.sentLog == s.past.sentLog {
      MovesKeepLedger(s, s', m);
    } else {
      forall k
        ensures LedgerRow(s', k)
      {
        assert LedgerRow(s, k) && Bodies(s', k) == Bodies(s, k);
      }
      forall k
        ensures BucketOk(s', k)
      {
        assert BucketOk(s, k);
        RecordedGrows(s.past.sentLog, m, s'.past.sentLog[m], k);
      }
    }
  }

  lemma EndKeepsLedger(s: State, w: Worker, move: Move)
    requires Inv(s) && LedgerInv(s)
    requires PcOf(s, w).Suppressing? || PcOf(s, w).Deferring? || PcOf(s, w).Reverting? || PcOf(s, w).Burning?
    ensures LedgerInv(DispatchStep(s, w, move))
  {
    var s' := DispatchStep(s, w, move);
    Here(s, w, PcOf(s, w).job.message);
    match PcOf(s, w)
    case Suppressing(job, reason) =>
      if move.ApplySuppress? { ResolveKeepsLedger(s, s', job.message, reason, Suppressed); }
    case Burning(job, reason, status) =>
      if move.Burn? && (status == Suppressed || status == Failed) {
        ResolveKeepsLedger(s, s', job.message, reason, status);
      }
    case Deferring(job) => if move.ApplyDefer? { DeferRevertKeepLedger(s, s', job.message); }
    case Reverting(job) => if move.Revert? { DeferRevertKeepLedger(s, s', job.message); }
  }

  lemma DispatchKeepsLedger(s: State, w: Worker, move: Move)
    requires Inv(s) && LedgerInv(s)
    ensures LedgerInv(DispatchStep(s, w, move))
  {
    match PcOf(s, w)
    case Starting(pass) => StartKeepsLedger(s, w, pass);
    case InSend(pass) => if move.Send? { SendKeepsLedger(s, w, pass, move.outcome); }
    case Completing(pass, attempt) => if move.CompleteSend? { CompleteKeepsLedger(s, w, pass, attempt, move.commit); }
    case Suppressing(_, _) => EndKeepsLedger(s, w, move);
    case Burning(_, _, _) => EndKeepsLedger(s, w, move);
    case Deferring(_) => EndKeepsLedger(s, w, move);
    case Reverting(_) => EndKeepsLedger(s, w, move);
    case _ => GateKeepsLedger(s, w, move);
  }

  /** Steps that leave targets, deliveries and both ledgers alone. */
  lemma BystanderKeepsLedger(s: State, s': State)
    requires LedgerInv(s)
    requires s'.t.quota == s.t.quota && s'.t.sentAudits == s.t.sentAudits && s'.t.targets == s.t.targets
    requires s'.past.sentLog == s.past.sentLog && s'.deliveries == s.deliveries && s'.past.redacted == s.past.redacted
    requires s.past.issued <= s'.past.issued
    requires forall m :: m in s'.t.messages && m in s.t.messages ==> s'.t.messages[m].sentAt == s.t.messages[m].sentAt
    requires forall m :: m in s'.t.messages && m !in s.t.messages ==> m !in s.past.issued && m !in s.t.targets
    ensures LedgerInv(s')
  {
    forall m
      ensures LedgerRow(s', m)
    {
      assert LedgerRow(s, m) && Bodies(s', m) == Bodies(s, m);
    }
    forall k
      ensures BucketOk(s', k)
    {
      assert BucketOk(s, k);
    }
  }

  lemma RedactKeepsLedger(s: State, merchant: MerchantId, customer: CustomerId)
    requires Inv(s) && LedgerInv(s)
    ensures LedgerInv(RedactStep(s, merchant, customer))
  {
    var s' := RedactStep(s, merchant, customer);
    forall m
      ensures LedgerRow(s', m)
    {
      assert LedgerRow(s, m) && RowsAgree(s.t, m) && Bodies(s', m) == Bodies(s, m);
    }
    forall k
      ensures BucketOk(s', k)
    {
      assert BucketOk(s, k);
    }
  }

  lemma GenerationsKeepLedger(s: State, e: Event)
    requires Inv(s) && LedgerInv(s) && (e.Create? || e.Write?)
    ensures LedgerInv(Step(s, e))
  {
    if e.Create? {
      assert LogAgrees(s, e.message) && RowsAgree(s.t, e.message);
    } else {
      WriteShape(s, e.w, e.aiMove);
    }
    BystanderKeepsLedger(s, Step(s, e));
  }

  lemma QuietKeepsLedger(s: State, e: Event)
    requires LedgerInv(s) && Quiet(e)
    ensures LedgerInv(Step(s, e))
  {
    QuietChangesNoRow(s, e);
    BystanderKeepsLedger(s, Step(s, e));
  }

  lemma QueueKeepsLedger(s: State, e: Event)
    requires LedgerInv(s)
    requires e.SweepFresh? || e.SweepDeferred? || e.Pick? || e.Crash?
    ensures LedgerInv(Step(s, e))
  {
    QueueShape(s, e);
    BystanderKeepsLedger(s, Step(s, e));
  }

  lemma StepKeepsLedger(s: State, e: Event)
    requires Inv(s) && LedgerInv(s)
    ensures LedgerInv(Step(s, e))
  {
    match e
    case Dispatch(w, move) => DispatchKeepsLedger(s, w, move);
    case Redact(merchant, customer) => RedactKeepsLedger(s, merchant, customer);
    case SweepResolve(m, reason) =>
      assert RowsAgree(s.t, m);
      if m in s.past.seenDeferred { ResolveKeepsLedger(s, Step(s, e), m, reason, Suppressed); }
    case Create(_, _, _) => GenerationsKeepLedger(s, e);
    case Write(_, _) => GenerationsKeepLedger(s, e);
    case _ => if Quiet(e) { QuietKeepsLedger(s, e); } else { QueueKeepsLedger(s, e); }
  }

  lemma {:induction false} RunKeepsLedger(s: State, es: seq<Event>)
    requires Inv(s) && LedgerInv(s)
    ensures Inv(Run(s, es)) && LedgerInv(Run(s, es))
    decreases |es|
  {
    if es != [] {
      RunKeepsLedger(s, es[..|es| - 1]);
      StepKeeps(Run(s, es[..|es| - 1]), es[|es| - 1]);
      StepKeepsLedger(Run(s, es[..|es| - 1]), es[|es| - 1]);
    }
  }

  lemma Reachable(clock: Millis, es: seq<Event>)
    ensures Inv(Run(Init(clock), es)) && LedgerInv(Run(Init(clock), es))
  {
    InitInv(clock);
    assert forall k :: Recorded(Init(clock).past.sentLog, k) == {};
    RunKeepsLedger(Init(clock), es);
  }

  /** The sent targets of a merchant whose `sentAt` falls on a UTC day. */
  function SentTargets(t: Tables, merchant: MerchantId, day: Day): set<MessageId> {
    set m | m in t.targets && t.targets[m].status == Sent && t.targets[m].merchant == merchant
            && t.targets[m].sentAt.Some? && DayOf(t.targets[m].sentAt.value) == day
  }

  /** Over every run, a bucket counts exactly the sends ever recorded for its merchant and
      day; each of them has one audit row and one accepted delivery, and erasing a
      customer takes nothing off the count. */
  lemma QuotaCountsRecordedSends(clock: Millis, es: seq<Event>, merchant: MerchantId, day: Day)
    ensures var s := Run(Init(clock), es);
            && QuotaOn(s.t, merchant, day) == |Recorded(s.past.sentLog, BucketKey(merchant, day))|
            && forall m :: m in s.past.sentLog ==> s.t.sentAudits[m] == 1 && |Bodies(s, m)| == 1
  {
    Reachable(clock, es);
    assert BucketOk(Run(Init(clock), es), BucketKey(merchant, day));
    forall m | m in Run(Init(clock), es).past.sentLog
      ensures Run(Init(clock), es).t.sentAudits[m] == 1 && |Bodies(Run(Init(clock), es), m)| == 1
    {
      assert LedgerRow(Run(Init(clock), es), m);
    }
  }

  /** Without erasure the tables agree among themselves: bucket, sent targets, audit rows. */
  lemma LedgersAgree(clock: Millis, es: seq<Event>, merchant: MerchantId, day: Day)
    requires Run(Init(clock), es).past.redacted == {}
    ensures var t := Run(Init(clock), es).t;
            && QuotaOn(t, merchant, day) == |SentTargets(t, merchant, day)|
            && forall m :: t.sentAudits[m] == (if m in t.targets && t.targets[m].status == Sent then 1 else 0)
  {
    var s := Run(Init(clock), es);
    Reachable(clock, es);
    assert BucketOk(s, BucketKey(merchant, day));
    forall m
      ensures m in Recorded(s.past.sentLog, BucketKey(merchant, day)) <==> m in SentTargets(s.t, merchant, day)
      ensures s.t.sentAudits[m] == (if m in s.t.targets && s.t.targets[m].status == Sent then 1 else 0)
    {
      assert LedgerRow(s, m) && RowsAgree(s.t, m);
    }
    assert Recorded(s.past.sentLog, BucketKey(merchant, day)) == SentTargets(s.t, merchant, day);
  }
}
