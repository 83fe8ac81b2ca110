/** `processCampaignDispatchJob` as code. The job runs over the repositories' rows while
    everybody else runs too: at every await other processes take any steps at all, and the
    worker may die. What the worker does is proved to be a run of the machine, move by
    move and in the order of the code, so whatever holds of every run holds of the code. */
module DispatchWorker {
  import opened Collections
  import opened Tables
  import opened GateChain
  import opened Machine
  import opened SendOnce
  import opened Repositories
  import FrozenText

  /** How a job ends: by a crash, by one of the code's returns, or by one of its throws. */
  datatype JobEnd =
    | Crashed
    | ClaimThrew
    | NothingToDo
    | SuppressedByGate(gate: Reason)
    | DeferredByGate
    | RaceLost
    | SentMail
    | AlreadyTerminal
    | BudgetExhausted
    | RevertedAndThrew
    | Burned(status: TargetStatus)

  /** What one job meets outside the rows modelled here: settings, consent, address,
      suppression list, orders, send window, calendar, the mail provider's answer, and how
      the attempts at the completion transaction end for the caller. */
  datatype Meets = Meets(
    settings: Option<Settings>,
    subscribed: bool,
    hasEmail: bool,
    suppressed: bool,
    orderedSince: bool,
    inWindow: bool,
    monthStart: Day -> Day,
    outcome: SendOutcome,
    commits: nat -> CommitOutcome
  )

  /** An event in which worker w takes no part. */
  predicate Elsewhere(w: Worker, e: Event) {
    match e
    case Pick(v, _) => v != w
    case Dispatch(v, _) => v != w
    case Crash(v) => v != w
    case _ => true
  }

  /** The moves of worker w in a run, in order. */
  ghost function Own(w: Worker, es: seq<Event>): seq<Move>
    decreases |es|
  {
    if es == [] then []
    else
      var e := es[|es| - 1];
      Own(w, es[..|es| - 1]) + (if e.Dispatch? && e.w == w then [e.move] else [])
  }

  lemma {:induction false} OwnConcat(w: Worker, es: seq<Event>, fs: seq<Event>)
    ensures Own(w, es + fs) == Own(w, es) + Own(w, fs)
    decreases |fs|
  {
    if fs == [] {
      assert es + fs == es;
    } else {
      var front := fs[..|fs| - 1];
      assert (es + fs)[..|es + fs| - 1] == es + front;
      OwnConcat(w, es, front);
    }
  }

  lemma OneMore(clock: Millis, w: Worker, es: seq<Event>, move: Move)
    ensures Run(Init(clock), es + [Dispatch(w, move)]) == Step(Run(Init(clock), es), Dispatch(w, move))
    ensures Own(w, es + [Dispatch(w, move)]) == Own(w, es) + [move]
  {
    assert (es + [Dispatch(w, move)])[..|es + [Dispatch(w, move)]| - 1] == es;
  }

  /** Others' steps leave a worker where it is. */
  lemma ElsewhereStays(s: State, e: Event, w: Worker)
    requires Elsewhere(w, e)
    ensures PcOf(Step(s, e), w) == PcOf(s, w)
  {
    if e.Dispatch? {
      DispatchAdvances(s, e.w, e.move);
    } else if e.Write? {
      WriteShape(s, e.w, e.aiMove);
    } else if Quiet(e) {
      QuietChangesNoRow(s, e);
    } else if e.SweepResolve? {
      ResolveShape(s, e.message, e.reason);
    } else if e.SweepFresh? || e.SweepDeferred? || e.Pick? || e.Crash? {
      QueueShape(s, e);
    }
  }

  lemma {:induction false} ElsewhereKeeps(s: State, es: seq<Event>, w: Worker)
    requires forall e :: e in es ==> Elsewhere(w, e)
    ensures PcOf(Run(s, es), w) == PcOf(s, w) && Own(w, es) == []
    decreases |es|
  {
    if es != [] {
      ElsewhereKeeps(s, es[..|es| - 1], w);
      ElsewhereStays(Run(s, es[..|es| - 1]), es[|es| - 1], w);
    }
  }

  /** The gates' reads, in the order of the chain. */
  function GateOrder(x: Meets, day: Day): seq<Move> {
    [ReadSuppression(x.suppressed), ReadOrders(x.orderedSince), ReadCooldown, ReadDaySends, ReadWindow(x.inWindow),
     ReadQuotaDay, ReadQuotaMonth(x.monthStart(day))]
  }

  /** The first of the gates' reads, in order, from some day's clock. */
  ghost predicate InGateOrder(x: Meets, reads_: seq<Move>) {
    exists day :: reads_ <= GateOrder(x, day)
  }

  /** A read fills in its own answer and no other. */
  predicate Fills(seen: Reads, move: Move, seen': Reads) {
    match move
    case ReadSuppression(b) => seen' == seen.(suppressed := Some(b))
    case ReadOrders(b) => seen' == seen.(orderedSince := Some(b))
    case ReadCooldown => seen'.sentInCooldown.Some? && seen' == seen.(sentInCooldown := seen'.sentInCooldown)
    case ReadDaySends => seen'.sentToday.Some? && seen' == seen.(sentToday := seen'.sentToday)
    case ReadWindow(b) => seen' == seen.(inWindow := Some(b))
    case ReadQuotaDay => seen'.quotaDay.Some? && seen' == seen.(quotaDay := seen'.quotaDay)
    case ReadQuotaMonth(_) => seen'.quotaMonth.Some? && seen' == seen.(quotaMonth := seen'.quotaMonth)
    case _ => false
  }

  /** What a chain has read after each of its reads: nothing at first, one answer more each
      time, and no read made once the chain has decided. */
  ghost predicate ReadsAlong(ctx: Context, reads_: seq<Move>, seens: seq<Reads>) {
    && |seens| == |reads_| + 1 && seens[0] == NO_READS
    && forall j :: 0 <= j < |reads_| ==>
         RunGateChain(ctx, seens[j]) == Undecided && Fills(seens[j], reads_[j], seens[j + 1])
  }

  /** A mail of the job's customer, sent at an instant or later. */
  predicate IsMailSince(r: Message, job: Job, since: Millis) {
    && r.merchant == job.merchant && r.customer == job.customer
    && r.status == MessageSent && r.sentAt.Some? && since <= r.sentAt.value
  }

  /** What a read of the database answers, on the rows as they are when it is made: the mails in
      the cooldown, those since midnight, the merchant's bucket of the day and its buckets from
      the month's first day on. */
  ghost predicate Answers(t: Tables, job: Job, settings: Settings, gateNow: Millis, move: Move, seen: Reads) {
    var today := BucketKey(job.merchant, gateNow / 86_400_000);
    match move
    case ReadCooldown =>
      var since := gateNow - settings.cooldownHours * 3_600_000;
      seen.sentInCooldown == Some(|set m | m in t.messages && IsMailSince(t.messages[m], job, since)|)
    case ReadDaySends =>
      var since := gateNow / 86_400_000 * 86_400_000;
      seen.sentToday == Some(|set m | m in t.messages && IsMailSince(t.messages[m], job, since)|)
    case ReadQuotaDay => seen.quotaDay == Some(if today in t.quota then t.quota[today] else 0)
    case ReadQuotaMonth(start) =>
      seen.quotaMonth == Some(Sum(map k | k in t.quota && k.merchant == job.merchant && k.day >= start :: t.quota[k]))
    case _ => true
  }

  lemma MailsAre(t: Tables, job: Job, since: Millis)
    ensures SentSince(t, job.merchant, job.customer, since)
            == set m | m in t.messages && IsMailSince(t.messages[m], job, since)
  {
  }

  /** What a read fills in is what the rows say. */
  lemma ReadAnswers(s: State, w: Worker, move: Move)
    requires PcOf(s, w).Gating?
    ensures var pc := PcOf(s, w);
            Answers(s.t, pc.job, pc.ctx.settings, pc.gateNow, move, PcOf(ReadStep(s, w, move), w).seen)
  {
    var pc := PcOf(s, w);
    hide SentSince;
    MailsAre(s.t, pc.job, pc.gateNow - pc.ctx.settings.cooldownHours * MS_PER_HOUR);
    MailsAre(s.t, pc.job, DayOf(pc.gateNow) * MS_PER_DAY);
  }

  predicate IsRead(move: Move) {
    move.ReadSuppression? || move.ReadOrders? || move.ReadCooldown? || move.ReadDaySends? || move.ReadWindow?
    || move.ReadQuotaDay? || move.ReadQuotaMonth?
  }

  /** The attempts at the completion transaction, as moves. */
  ghost function Attempts(commits: seq<CommitOutcome>): seq<Move> {
    seq(|commits|, i requires 0 <= i < |commits| => CompleteSend(commits[i]))
  }

  /** At most three attempts, only the last one acknowledged. */
  ghost predicate Ended(commits: seq<CommitOutcome>, last: CommitOutcome) {
    && 1 <= |commits| <= 3
    && commits[|commits| - 1] == last && Acked !in commits[..|commits| - 1]
  }

  function LoadOf(x: Meets): Move {
    Load(x.settings, x.subscribed, x.hasEmail)
  }

  /** The order of a send: started before it is made, completed only once accepted, in at
      most three attempts and none after an acknowledged one; undone or burned otherwise. */
  ghost predicate Delivers(end: JobEnd, path: seq<Move>, commits: seq<CommitOutcome>, outcome: SendOutcome) {
    match end
    case Crashed => true
    case RaceLost => path == [Start]
    case SentMail =>
      outcome == Accepted && path == [Start] + [Send(outcome)] + Attempts(commits) && Ended(commits, Acked)
    case AlreadyTerminal =>
      outcome == Accepted && path == [Start] + [Send(outcome)] + Attempts(commits) && Ended(commits, Acked)
    case BudgetExhausted =>
      && outcome == Accepted && path == [Start] + [Send(outcome)] + Attempts(commits)
      && |commits| == 3 && Acked !in commits
    case RevertedAndThrew =>
      (outcome.Retryable? || outcome.UnknownError?) && path == [Start] + [Send(outcome)] + [Move.Revert]
    case Burned(status) =>
      && path == [Start] + [Send(outcome)] + [Burn]
      && ((outcome.RecipientSuppressed? && status == Suppressed) || (outcome.NonRetryable? && status == Failed))
    case _ => false
  }

  /** What one job found out: its context, the gates' reads, and what had been read after each. */
  datatype History = History(ctx: Context, reads_: seq<Move>, seens: seq<Reads>, commits: seq<CommitOutcome>)

  /** Everything the gates have read. */
  function Seen(h: History): Reads {
    if h.seens == [] then NO_READS else h.seens[|h.seens| - 1]
  }

  /** The gates' verdict behind an end, on what they read. */
  ghost predicate Decided(end: JobEnd, h: History) {
    match end
    case SuppressedByGate(gate) =>
      && Found(h.ctx, Seen(h), gate) && ReadBefore(Seen(h), Place(gate))
      && forall other :: Place(other) < Place(gate) ==> !Found(h.ctx, Seen(h), other)
    case DeferredByGate =>
      && ReadBefore(Seen(h), 5) && (forall gate :: !Found(h.ctx, Seen(h), gate))
      && (|| Seen(h).inWindow == Some(false) || !h.ctx.hasEmail
          || (Seen(h).quotaDay.Some? && h.ctx.settings.dailySendCap <= Seen(h).quotaDay.value)
          || (Seen(h).quotaMonth.Some? && h.ctx.settings.monthlySendsCap <= Seen(h).quotaMonth.value))
    case _ =>
      && ReadBefore(Seen(h), 5) && (forall gate :: !Found(h.ctx, Seen(h), gate))
      && Seen(h).inWindow == Some(true) && h.ctx.hasEmail && Seen(h).quotaDay.Some? && Seen(h).quotaMonth.Some?
      && Seen(h).quotaDay.value < h.ctx.settings.dailySendCap
      && Seen(h).quotaMonth.value < h.ctx.settings.monthlySendsCap
  }

  /** After the load: gate reads, the decision, and then exactly one of the ways on. */
  ghost predicate AfterLoad(end: JobEnd, path: seq<Move>, x: Meets, h: History) {
    && InGateOrder(x, h.reads_) && ReadsAlong(h.ctx, h.reads_, h.seens)
    && x.settings.Some? && h.ctx == Context(x.settings.value, x.subscribed, x.hasEmail, h.ctx.body)
    && (end.Crashed? || Decided(end, h))
    && match end
       case Crashed => true
       case SuppressedByGate(_) => path == h.reads_ + ([Decide] + [ApplySuppress])
       case DeferredByGate => path == h.reads_ + ([Decide] + [ApplyDefer])
       case ClaimThrew => false
       case NothingToDo => false
       case _ =>
         var before := h.reads_ + [Decide];
         before <= path && Delivers(end, path[|before|..], h.commits, x.outcome)
  }

  /** The order of the code, from the claim on. A crash may cut it anywhere. */
  ghost predicate InOrder(end: JobEnd, path: seq<Move>, x: Meets, h: History) {
    match end
    case Crashed => true
    case ClaimThrew => path == [Claim]
    case NothingToDo => path == [Claim] + [LoadOf(x)]
    case _ =>
      var before := [Claim] + [LoadOf(x)];
      before <= path && AfterLoad(end, path[|before|..], x, h)
  }

  /** What an end makes of the rows, given the tables before the job's last step. `at` is the
      instant stamped before the send. */
  predicate Leaves(end: JobEnd, before: Tables, t: Tables, job: Job, x: Meets, at: Millis) {
    var m := job.message;
    match end
    case ClaimThrew => t == before && m !in before.targets && m !in before.messages
    case NothingToDo =>
      t == before && !(StatusOf(t, m) in {Some(Pending), Some(Deferred)} && m in t.messages && x.settings.Some?)
    case SuppressedByGate(gate) => ResolvedAs(before, t, m, Suppressed, gate, MessageSuppressed)
    case DeferredByGate =>
      if m in before.targets && before.targets[m].status in {Pending, Deferred} then
        t == before.(targets := before.targets[m := before.targets[m].(status := Deferred)])
      else t == before
    case RaceLost => t == before && StatusOf(t, m) != Some(Pending)
    case SentMail => SentAs(before, t, job, at)
    case AlreadyTerminal => t == before && StatusOf(t, m) != Some(Sending)
    case RevertedAndThrew => MovedFrom(before, t, m, Sending, Pending, None)
    case Burned(status) =>
      || (x.outcome == RecipientSuppressed && status == Suppressed
          && ResolvedAs(before, t, m, Suppressed, SesSuppressed, MessageSuppressed))
      || (x.outcome.NonRetryable? && status == Failed
          && ResolvedAs(before, t, m, Failed, SesError(x.outcome.code), MessageFailed))
    case BudgetExhausted => true
    case Crashed => true
  }

  class Pipeline {
    const db: Database
    var jobs: set<Job>
    var dispatchers: map<Worker, Pc>
    var writers: map<Worker, AiPc>
    var admissions: map<Worker, Admission>
    var clock: Millis
    var deliveries: map<MessageId, seq<string>>
    var past: Past
    ghost var origin: Millis
    ghost var trace: seq<Event>

    constructor (now: Millis)
      ensures Valid() && trace == [] && origin == now && fresh(db)
    {
      db := new Database();
      jobs, dispatchers, writers, admissions := {}, map[], map[], map[];
      clock, deliveries, past := now, map[], Past(map[], map[], {}, {}, {});
      origin, trace := now, [];
    }

    function Whole(): State
      reads this, db
    {
      State(db.Rows(), jobs, dispatchers, writers, admissions, clock, deliveries, past)
    }

    /** Everything that has happened so far is a run of the machine. */
    ghost predicate Valid()
      reads this, db
    {
      Whole() == Run(Init(origin), trace)
    }

    /** Worker w has made these moves, and the whole is still a run. */
    twostate predicate Took(w: Worker, moves: seq<Move>)
      reads this, db
    {
      Valid() && origin == old(origin) && Own(w, trace) == old(Own(w, trace)) + moves
    }

    /** Worker w's last step was this move, on these tables. */
    ghost predicate LastMove(w: Worker, move: Move, before: Tables)
      reads this
    {
      && trace != [] && trace[|trace| - 1] == Dispatch(w, move)
      && before == Run(Init(origin), trace[..|trace| - 1]).t
    }

    method Become(s: State)
      modifies this, db
      ensures Whole() == s && trace == old(trace) && origin == old(origin)
    {
      db.Become(s.t);
      jobs, dispatchers, writers, admissions := s.jobs, s.dispatchers, s.writers, s.admissions;
      clock, deliveries, past := s.clock, s.deliveries, s.past;
    }

    /** An await: others run, any number of steps, and this worker may be gone afterwards. */
    method Await(w: Worker) returns (alive: bool)
      requires Valid()
      modifies this, db
      ensures Took(w, []) && PcOf(Whole(), w) == if alive then old(PcOf(Whole(), w)) else Idle
    {
      var others: seq<Event> := *;
      if exists e :: e in others && !Elsewhere(w, e) {
        others := [];
      }
      var s := Run(Whole(), others);
      ElsewhereKeeps(Whole(), others, w);
      RunConcat(Init(origin), trace, others);
      OwnConcat(w, trace, others);
      Become(s);
      trace := trace + others;
      alive := *;
      if !alive {
        Die(w);
      }
    }

    method Die(w: Worker)
      requires Valid()
      modifies `dispatchers, `trace
      ensures Took(w, []) && PcOf(Whole(), w) == Idle
    {
      assert (trace + [Crash(w)])[..|trace + [Crash(w)]| - 1] == trace;
      dispatchers := dispatchers[w := Idle];
      trace := trace + [Crash(w)];
    }

    /** The worker's place after an atomic piece of work, and the move that piece was. */
    method Goto(w: Worker, pc: Pc, ghost s: State, ghost move: Move)
      requires s == Run(Init(origin), trace)
      requires At(Whole(), w, pc) == DispatchStep(s, w, move)
      modifies `dispatchers, `trace
      ensures LastMove(w, move, s.t)
      ensures Valid() && Whole() == At(old(Whole()), w, pc)
      ensures Own(w, trace) == old(Own(w, trace)) + [move]
    {
      OneMore(origin, w, trace, move);
      assert (trace + [Dispatch(w, move)])[..|trace|] == trace;
      dispatchers := dispatchers[w := pc];
      trace := trace + [Dispatch(w, move)];
    }

    // ---------------------------------------------------------------- the job

    method ClaimTarget(w: Worker, job: Job) returns (ok: bool)
      requires Valid() && PcOf(Whole(), w) == Claiming(job)
      modifies this, db
      ensures Took(w, [Claim]) && PcOf(Whole(), w) == if ok then Loading(job) else Idle
      ensures LastMove(w, Claim, old(db.Rows()))
      ensures ok <==> job.message in db.targets
      ensures !ok ==> db.Rows() == old(db.Rows()) && job.message !in db.messages
      ensures job.message in old(db.targets) ==> db.Rows() == old(db.Rows())
      ensures ok && job.message !in old(db.targets) ==>
                && db.targets == old(db.targets)[job.message := db.targets[job.message]]
                && db.targets[job.message]
                   == Target(job.merchant, job.customer, job.campaign, old(clock), Pending, None, None, None)
    {
      ghost var s := Whole();
      var r := db.ClaimTarget(job, clock);
      ok := r != ClaimError;
      Goto(w, if ok then Loading(job) else Idle, s, Claim);
    }

    /** The context read and the replay guard: `None` for every way out before the gates. A
        context means that the target is there, pending or deferred, and carries the Message's
        text as it is now. */
    method LoadDispatchContext(w: Worker, job: Job, x: Meets) returns (dctx: Option<Context>)
      requires Valid() && PcOf(Whole(), w) == Loading(job)
      modifies this, db
      ensures Took(w, [LoadOf(x)]) && db.Rows() == old(db.Rows()) && LastMove(w, LoadOf(x), old(db.Rows()))
      ensures dctx.Some? <==>
                && StatusOf(db.Rows(), job.message) in {Some(Pending), Some(Deferred)}
                && job.message in db.messages && x.settings.Some?
      ensures dctx.Some? ==>
                dctx.value == Context(x.settings.value, x.subscribed, x.hasEmail,
                                      db.messages[job.message].generatedText)
      ensures PcOf(Whole(), w) == if dctx.Some? then Gating(job, dctx.value, clock, NO_READS) else Idle
    {
      hide Run, Own, DispatchStep;
      ghost var s := Whole();
      var m := job.message;
      LoadIs(s, w, job, x);
      if m !in db.targets || m !in db.messages || x.settings.None? {
        dctx := None;
      } else if db.targets[m].status in {Suppressed, Sent, Failed, Sending} {
        dctx := None;
      } else {
        dctx := Some(Context(x.settings.value, x.subscribed, x.hasEmail, db.messages[m].generatedText));
      }
      Goto(w, if dctx.Some? then Gating(job, dctx.value, clock, NO_READS) else Idle, s, LoadOf(x));
    }

    /** One gate read. */
    method Read(w: Worker, move: Move) returns (seen: Reads)
      requires Valid() && PcOf(Whole(), w).Gating? && IsRead(move)
      modifies this, db
      ensures Took(w, [move])
      ensures PcOf(Whole(), w) == old(PcOf(Whole(), w)).(seen := seen)
      ensures seen == PcOf(ReadStep(old(Whole()), w, move), w).seen
      ensures Fills(old(PcOf(Whole(), w)).seen, move, seen)
      ensures var pc := old(PcOf(Whole(), w));
              Answers(old(db.Rows()), pc.job, pc.ctx.settings, pc.gateNow, move, seen)
    {
      ghost var s := Whole();
      ReadAnswers(s, w, move);
      hide Answers;
      var pc := PcOf(ReadStep(Whole(), w, move), w);
      seen := pc.seen;
      Goto(w, pc, s, move);
    }

    /** The gate chain, read by read in the order of the gates, no further than the first that
        decides. */
    method RunGates(w: Worker, x: Meets)
      returns (outcome: Option<Outcome>, ghost reads_: seq<Move>, ghost seens: seq<Reads>)
      requires Valid() && PcOf(Whole(), w).Gating? && PcOf(Whole(), w).seen == NO_READS
      modifies this, db
      ensures Took(w, reads_) && reads_ <= GateOrder(x, DayOf(old(PcOf(Whole(), w)).gateNow))
      ensures ReadsAlong(old(PcOf(Whole(), w)).ctx, reads_, seens)
      ensures outcome.None? ==> PcOf(Whole(), w) == Idle
      ensures outcome.Some? ==>
                var pc := PcOf(Whole(), w);
                && pc.Gating? && pc == old(PcOf(Whole(), w)).(seen := seens[|reads_|])
                && outcome.value == RunGateChain(pc.ctx, pc.seen) && outcome.value != Undecided
    {
      hide Run, Valid, Own, Whole, Fills, RunGateChain, ReadsAlong, ReadUpTo;
      var pc0 := PcOf(Whole(), w);
      var order := GateOrder(x, DayOf(pc0.gateNow));
      var seen := NO_READS;
      reads_, seens := [], [seen];
      AlongStarts(pc0.ctx);
      var i := 0;
      while i < |order| && RunGateChain(pc0.ctx, seen) == Undecided
        invariant 0 <= i <= |order| && Took(w, reads_) && reads_ == order[..i]
        invariant PcOf(Whole(), w) == pc0.(seen := seen)
        invariant ReadsAlong(pc0.ctx, reads_, seens) && |seens| == i + 1 && seens[i] == seen
        invariant ReadUpTo(seen, i)
      {
        var alive := Await(w);
        if !alive {
          return None, reads_, seens;
        }
        ghost var before := seen;
        seen := Read(w, order[i]);
        FillsNext(x, DayOf(pc0.gateNow), before, i, seen);
        AlongGrows(pc0.ctx, reads_, seens, order[i], seen);
        reads_, seens := reads_ + [order[i]], seens + [seen];
        i := i + 1;
      }
      if i == |order| {
        AllReadDecides(pc0.ctx, seen);
      }
      outcome := Some(RunGateChain(pc0.ctx, seen));
    }

    /** The pass is through the gates with an address: stamp the send and go for the row. */
    method StampSend(w: Worker) returns (pass: Pass)
      requires Valid() && PcOf(Whole(), w).Gating?
      requires var pc := PcOf(Whole(), w); RunGateChain(pc.ctx, pc.seen) == Passed && pc.ctx.hasEmail
      modifies this, db
      ensures Took(w, [Decide]) && PcOf(Whole(), w) == Starting(pass)
      ensures var pc := old(PcOf(Whole(), w)); pass == Pass(pc.job, pc.ctx, pc.gateNow, old(clock))
    {
      ghost var s := Whole();
      var pc := PcOf(Whole(), w);
      pass := Pass(pc.job, pc.ctx, pc.gateNow, clock);
      Goto(w, Starting(pass), s, Decide);
    }

    /** A gate, or a missing address, has decided against the send. */
    method TurnAway(w: Worker) returns (gate: Option<Reason>)
      requires Valid() && PcOf(Whole(), w).Gating?
      requires var pc := PcOf(Whole(), w);
               var outcome := RunGateChain(pc.ctx, pc.seen);
               outcome != Undecided && !(outcome == Passed && pc.ctx.hasEmail)
      modifies this, db
      ensures Took(w, [Decide])
      ensures var pc := old(PcOf(Whole(), w));
              var outcome := RunGateChain(pc.ctx, pc.seen);
              && (gate.Some? <==> outcome.Suppress?) && (gate.Some? ==> gate.value == outcome.gate)
              && PcOf(Whole(), w) == if gate.Some? then Suppressing(pc.job, gate.value) else Deferring(pc.job)
    {
      ghost var s := Whole();
      var pc := PcOf(Whole(), w);
      var outcome := RunGateChain(pc.ctx, pc.seen);
      gate := if outcome.Suppress? then Some(outcome.gate) else None;
      Goto(w, if gate.Some? then Suppressing(pc.job, gate.value) else Deferring(pc.job), s, Decide);
    }

    method ApplySuppressed(w: Worker, job: Job, gate: Reason)
      requires Valid() && PcOf(Whole(), w) == Suppressing(job, gate)
      modifies this, db
      ensures Took(w, [ApplySuppress]) && PcOf(Whole(), w) == Idle && LastMove(w, ApplySuppress, old(db.Rows()))
      ensures ResolvedAs(old(db.Rows()), db.Rows(), job.message, Suppressed, gate, MessageSuppressed)
    {
      ghost var s := Whole();
      var resolved := db.ResolveTerminal(job.message, gate, Suppressed);
      Goto(w, Idle, s, ApplySuppress);
    }

    method ApplyDeferred(w: Worker, job: Job)
      requires Valid() && PcOf(Whole(), w) == Deferring(job)
      modifies this, db
      ensures Took(w, [ApplyDefer]) && PcOf(Whole(), w) == Idle && LastMove(w, ApplyDefer, old(db.Rows()))
      ensures var before, m := old(db.Rows()), job.message;
              db.Rows() == if m in before.targets && before.targets[m].status in {Pending, Deferred} then
                             before.(targets := before.targets[m := before.targets[m].(status := Deferred)])
                           else before
    {
      ghost var s := Whole();
      var deferred := db.DeferTarget(job.message);
      Goto(w, Idle, s, ApplyDefer);
    }

    /** Its own committed write, before the external call. */
    method StartSending(w: Worker, pass: Pass) returns (started: bool)
      requires Valid() && PcOf(Whole(), w) == Starting(pass)
      modifies this, db
      ensures Took(w, [Start]) && PcOf(Whole(), w) == if started then InSend(pass) else Idle
      ensures LastMove(w, Start, old(db.Rows()))
      ensures started <==> StatusOf(old(db.Rows()), pass.job.message) == Some(Pending)
      ensures MovedFrom(old(db.Rows()), db.Rows(), pass.job.message, Pending, Sending, Some(pass.sendNow))
    {
      ghost var s := Whole();
      var r := db.StartSending(pass.job.message, pass.sendNow);
      started := r == Started;
      Goto(w, if started then InSend(pass) else Idle, s, Start);
    }

    /** The external call. Anything but an acceptance is a throw, and says what to undo. */
    method SendMail(w: Worker, pass: Pass, outcome: SendOutcome)
      requires Valid() && PcOf(Whole(), w) == InSend(pass)
      modifies this, db
      ensures Took(w, [Send(outcome)]) && PcOf(Whole(), w) == AfterSend(pass, outcome) && db.Rows() == old(db.Rows())
      ensures Bodies(Whole(), pass.job.message)
              == old(Bodies(Whole(), pass.job.message)) + (if outcome == Accepted then [pass.ctx.body] else [])
    {
      ghost var s := Whole();
      var m := pass.job.message;
      if outcome == Accepted {
        deliveries := deliveries[m := (if m in deliveries then deliveries[m] else []) + [pass.ctx.body]];
      }
      Goto(w, AfterSend(pass, outcome), s, Send(outcome));
    }

    /** The committed transaction, and its record in the proof's history. */
    method CommitSend(pass: Pass) returns (r: Completion)
      requires RowsAgree(db.Rows(), pass.job.message)
      modifies `past, db
      ensures Whole() == Committed(old(Whole()), pass)
      ensures if r == SentNow then SentAs(old(db.Rows()), db.Rows(), pass.job, pass.sendNow)
              else db.Rows() == old(db.Rows()) && StatusOf(db.Rows(), pass.job.message) != Some(Sending)
    {
      MarkSentMoves(db.Rows(), pass.job, pass.sendNow);
      r := db.MarkSentWithQuota(pass.job, pass.sendNow);
      if r == SentNow {
        var record := SendRecord(pass.job.merchant, pass.job.customer, pass.sendNow);
        past := past.(sentLog := past.sentLog[pass.job.message := record]);
      }
    }

    /** One attempt at the completion transaction. The caller learns of it only if it is
        acknowledged; a lost acknowledgement and a rollback look the same. */
    method TryCompletion(w: Worker, pass: Pass, attempt: nat,
                         commit: CommitOutcome) returns (completion: Option<Completion>)
      requires Valid() && PcOf(Whole(), w) == Completing(pass, attempt) && 1 <= attempt <= COMPLETION_TX_RETRIES
      modifies this, db
      ensures Took(w, [CompleteSend(commit)])
      ensures PcOf(Whole(), w)
              == if commit != Acked && attempt < COMPLETION_TX_RETRIES then Completing(pass, attempt + 1) else Idle
      ensures completion.Some? <==> commit == Acked
      ensures LastMove(w, CompleteSend(commit), old(db.Rows()))
      ensures commit == RolledBack ==> db.Rows() == old(db.Rows())
      ensures commit != RolledBack ==>
                if StatusOf(old(db.Rows()), pass.job.message) == Some(Sending) then
                  SentAs(old(db.Rows()), db.Rows(), pass.job, pass.sendNow)
                else db.Rows() == old(db.Rows())
      ensures completion.Some? ==>
                (completion.value == SentNow <==> StatusOf(old(db.Rows()), pass.job.message) == Some(Sending))
    {
      hide Run, DispatchStep, Committed;
      ghost var s := Whole();
      RunKeepsInv(origin, trace);
      AttemptIs(s, w, pass, attempt, commit);
      completion := None;
      if commit != RolledBack {
        var r := CommitSend(pass);
        completion := if commit == Acked then Some(r) else None;
      }
      var again := commit != Acked && attempt < COMPLETION_TX_RETRIES;
      Goto(w, if again then Completing(pass, attempt + 1) else Idle, s, CompleteSend(commit));
    }

    /** The in-pass retry loop. Running out of attempts leaves the row sending and throws nothing. */
    method CompleteInPass(w: Worker, pass: Pass, x: Meets)
      returns (end: JobEnd, ghost commits: seq<CommitOutcome>, ghost before: Tables)
      requires Valid() && PcOf(Whole(), w) == Completing(pass, 1)
      modifies this, db
      ensures Took(w, Attempts(commits)) && PcOf(Whole(), w) == Idle
      ensures end in {Crashed, SentMail, AlreadyTerminal, BudgetExhausted}
      ensures end in {SentMail, AlreadyTerminal} ==> Ended(commits, Acked)
      ensures end == BudgetExhausted ==> |commits| == COMPLETION_TX_RETRIES && Acked !in commits
      ensures end == Crashed || (commits != [] && LastMove(w, CompleteSend(commits[|commits| - 1]), before))
      ensures Leaves(end, before, db.Rows(), pass.job, x, pass.sendNow)
    {
      hide Run, Whole, Valid, PcOf, Own, LastMove, SentAs;
      var completion: Option<Completion> := None;
      commits, before := [], db.Rows();
      var attempt := 1;
      while attempt <= COMPLETION_TX_RETRIES
        invariant 1 <= attempt <= COMPLETION_TX_RETRIES + 1 && |commits| == attempt - 1
        invariant Took(w, Attempts(commits)) && Acked !in commits && completion.None?
        invariant PcOf(Whole(), w) == if attempt <= COMPLETION_TX_RETRIES then Completing(pass, attempt) else Idle
        invariant commits == [] || LastMove(w, CompleteSend(commits[|commits| - 1]), before)
      {
        var alive := Await(w);
        if !alive {
          return Crashed, commits, before;
        }
        var commit := x.commits(attempt);
        before := db.Rows();
        completion := TryCompletion(w, pass, attempt, commit);
        assert Attempts(commits + [commit]) == Attempts(commits) + [CompleteSend(commit)];
        commits := commits + [commit];
        if completion.Some? {
          assert commits[..|commits| - 1] == commits[..attempt - 1];
          break;
        }
        attempt := attempt + 1;
      }
      end := if completion.None? then BudgetExhausted
             else if completion.value == SentNow then SentMail
             else AlreadyTerminal;
    }

    method Revert(w: Worker, job: Job)
      requires Valid() && PcOf(Whole(), w) == Reverting(job)
      modifies this, db
      ensures Took(w, [Move.Revert]) && PcOf(Whole(), w) == Idle && LastMove(w, Move.Revert, old(db.Rows()))
      ensures MovedFrom(old(db.Rows()), db.Rows(), job.message, Sending, Pending, None)
    {
      ghost var s := Whole();
      var reverted := db.RevertToPending(job.message);
      Goto(w, Idle, s, Move.Revert);
    }

    method BurnDraft(w: Worker, job: Job, reason: Reason, status: TargetStatus)
      requires Valid() && PcOf(Whole(), w) == Burning(job, reason, status) && (status == Suppressed || status == Failed)
      modifies this, db
      ensures Took(w, [Burn]) && PcOf(Whole(), w) == Idle && LastMove(w, Burn, old(db.Rows()))
      ensures ResolvedAs(old(db.Rows()), db.Rows(), job.message, status, reason,
                         if status == Suppressed then MessageSuppressed else MessageFailed)
    {
      ghost var s := Whole();
      var resolved := db.ResolveTerminal(job.message, reason, status);
      Goto(w, Idle, s, Burn);
    }

    /** `handleSesError`: give the row back and rethrow, or burn the draft. A suppressed
        recipient leaves target and draft suppressed, any other refusal leaves them failed with
        its code; a row that is closed already stays as it is. */
    method HandleSesError(w: Worker, pass: Pass, x: Meets)
      returns (end: JobEnd, ghost undo: seq<Move>, ghost before: Tables)
      requires Valid() && x.outcome != Accepted && PcOf(Whole(), w) == AfterSend(pass, x.outcome)
      modifies this, db
      ensures Took(w, undo) && PcOf(Whole(), w) == Idle
      ensures x.outcome == RecipientSuppressed ==>
                || end == Crashed
                || (end == Burned(Suppressed) && undo == [Burn]
                    && ResolvedAs(before, db.Rows(), pass.job.message, Suppressed, SesSuppressed, MessageSuppressed))
      ensures x.outcome.NonRetryable? ==>
                || end == Crashed
                || (end == Burned(Failed) && undo == [Burn]
                    && ResolvedAs(before, db.Rows(), pass.job.message, Failed, SesError(x.outcome.code), MessageFailed))
      ensures x.outcome == Retryable || x.outcome == UnknownError ==>
                || end == Crashed
                || (end == RevertedAndThrew && undo == [Move.Revert]
                    && MovedFrom(before, db.Rows(), pass.job.message, Sending, Pending, None))
      ensures end == Crashed || LastMove(w, undo[|undo| - 1], before)
    {
      hide Run, Whole, Valid, PcOf, Own, LastMove, ResolvedAs, MovedFrom;
      before := db.Rows();
      var alive := Await(w);
      if !alive {
        return Crashed, [], before;
      }
      before := db.Rows();
      if x.outcome.RecipientSuppressed? {
        BurnDraft(w, pass.job, SesSuppressed, Suppressed);
        return Burned(Suppressed), [Burn], before;
      }
      if x.outcome.NonRetryable? {
        BurnDraft(w, pass.job, SesError(x.outcome.code), Failed);
        return Burned(Failed), [Burn], before;
      }
      Revert(w, pass.job);
      return RevertedAndThrew, [Move.Revert], before;
    }

    /** From the stamped send to the end of the job. */
    method Deliver(w: Worker, pass: Pass, x: Meets)
      returns (end: JobEnd, ghost path: seq<Move>, ghost commits: seq<CommitOutcome>, ghost before: Tables)
      requires Valid() && PcOf(Whole(), w) == Starting(pass)
      modifies this, db
      ensures Took(w, path) && PcOf(Whole(), w) == Idle
      ensures Leaves(end, before, db.Rows(), pass.job, x, pass.sendNow)
      ensures end == Crashed || (path != [] && LastMove(w, path[|path| - 1], before))
      ensures Delivers(end, path, commits, x.outcome)
    {
      hide Run, Whole, Valid, PcOf, Ended, LastMove, Own;
      commits, before := [], db.Rows();
      var alive := Await(w);
      if !alive {
        return Crashed, [], commits, before;
      }
      before := db.Rows();
      var started := StartSending(w, pass);
      if !started {
        return RaceLost, [Start], commits, before;
      }
      alive := Await(w);
      if !alive {
        return Crashed, [Start], commits, before;
      }
      path := [Start];
      ghost var rest;
      end, rest, commits, before := SendStarted(w, pass, x);
      assert end == Crashed || (path + rest)[|path + rest| - 1] == rest[|rest| - 1];
      path := path + rest;
    }

    /** The row is `sending`: the one external call, and what its answer asks for. */
    method SendStarted(w: Worker, pass: Pass, x: Meets)
      returns (end: JobEnd, ghost path: seq<Move>, ghost commits: seq<CommitOutcome>, ghost before: Tables)
      requires Valid() && PcOf(Whole(), w) == InSend(pass)
      modifies this, db
      ensures Took(w, path) && PcOf(Whole(), w) == Idle
      ensures Leaves(end, before, db.Rows(), pass.job, x, pass.sendNow)
      ensures end == Crashed || (path != [] && LastMove(w, path[|path| - 1], before))
      ensures end != RaceLost && Delivers(end, [Start] + path, commits, x.outcome)
    {
      hide Run, Whole, Valid, PcOf, Own, Ended, LastMove, ResolvedAs, MovedFrom;
      commits := [];
      SendMail(w, pass, x.outcome);
      path := [Send(x.outcome)];
      if x.outcome == Accepted {
        end, commits, before := CompleteInPass(w, pass, x);
        path := path + Attempts(commits);
        assert [Start] + path == [Start] + [Send(x.outcome)] + Attempts(commits);
      } else {
        ghost var undo;
        end, undo, before := HandleSesError(w, pass, x);
        path := path + undo;
        assert [Start] + path == [Start] + [Send(x.outcome)] + undo;
      }
    }

    /** The job from its pickup to its end: which moves it makes, what they rest on, and what
        the last of them makes of the rows. A mail that was sent is the Message's text. */
    method ProcessCampaignDispatchJob(w: Worker, job: Job, x: Meets)
      returns (end: JobEnd, ghost path: seq<Move>, ghost h: History, ghost before: Tables, ghost at: Millis)
      requires Valid() && PcOf(Whole(), w) == Claiming(job)
      modifies this, db
      ensures Took(w, path) && PcOf(Whole(), w) == Idle
      ensures InOrder(end, path, x, h)
      ensures end == Crashed || (path != [] && LastMove(w, path[|path| - 1], before))
      ensures Leaves(end, before, db.Rows(), job, x, at)
      ensures forall m :: |Bodies(Whole(), m)| <= 1
      ensures end == SentMail ==>
                job.message in db.messages && Bodies(Whole(), job.message) == [db.messages[job.message].generatedText]
    {
      hide Run, InOrder, Delivers, AfterLoad, LastMove;
      end, path, h, before, at := RunJob(w, job, x);
      forall m
        ensures |Bodies(Whole(), m)| <= 1
        ensures StatusOf(db.Rows(), m) == Some(Sent) ==> |Bodies(Whole(), m)| == 1
      {
        AtMostOneSend(origin, trace, m);
      }
      if end == SentMail {
        SentText(origin, trace, job.message);
      }
    }

    method RunJob(w: Worker, job: Job, x: Meets)
      returns (end: JobEnd, ghost path: seq<Move>, ghost h: History, ghost before: Tables, ghost at: Millis)
      requires Valid() && PcOf(Whole(), w) == Claiming(job)
      modifies this, db
      ensures Took(w, path) && PcOf(Whole(), w) == Idle
      ensures InOrder(end, path, x, h)
      ensures end == Crashed || (path != [] && LastMove(w, path[|path| - 1], before))
      ensures Leaves(end, before, db.Rows(), job, x, at)
    {
      hide Run, Whole, Valid, PcOf, Own, LastMove, AfterLoad, Leaves, InOrder;
      var dctx;
      end, dctx, path, before := ClaimAndLoad(w, job, x);
      at := 0;
      h := History(Context(Settings(0, 0, 0, 0), false, false, ""), [], [], []);
      if dctx.None? {
        EndsEarly(end, path, before, db.Rows(), job, x, h, at);
        return;
      }
      ghost var rest;
      end, rest, h, before, at := GateAndSend(w, job, x, dctx.value);
      assert end == Crashed || (path + rest)[|path + rest| - 1] == rest[|rest| - 1];
      GoesOn(end, rest, x, h);
      path := path + rest;
    }

    /** The claim and the load: on to the gates with a context, or to one of the early ends. */
    method ClaimAndLoad(w: Worker, job: Job, x: Meets)
      returns (end: JobEnd, dctx: Option<Context>, ghost path: seq<Move>, ghost before: Tables)
      requires Valid() && PcOf(Whole(), w) == Claiming(job)
      modifies this, db
      ensures Took(w, path)
      ensures dctx.None? ==> PcOf(Whole(), w) == Idle && EarlyEnd(end, path, before, db.Rows(), job, x)
      ensures dctx.None? && end != Crashed ==> path != [] && LastMove(w, path[|path| - 1], before)
      ensures dctx.Some? ==>
                var pc := PcOf(Whole(), w);
                && path == [Claim] + [LoadOf(x)] && x.settings.Some?
                && dctx.value == Context(x.settings.value, x.subscribed, x.hasEmail, dctx.value.body)
                && pc.Gating? && pc.job == job && pc.seen == NO_READS && pc.ctx == dctx.value
    {
      hide Run, Whole, Valid, PcOf, Own, LastMove;
      dctx, path, before := None, [], db.Rows();
      var alive := Await(w);
      if !alive {
        return Crashed, dctx, path, before;
      }
      before := db.Rows();
      var ok := ClaimTarget(w, job);
      path := [Claim];
      if !ok {
        return ClaimThrew, dctx, path, before;
      }
      alive := Await(w);
      if !alive {
        return Crashed, dctx, path, before;
      }
      before := db.Rows();
      dctx := LoadDispatchContext(w, job, x);
      path := [Claim] + [LoadOf(x)];
      return NothingToDo, dctx, path, before;
    }

    /** From the loaded context on: gates, then one of the ways out. */
    method GateAndSend(w: Worker, job: Job, x: Meets, ctx: Context)
      returns (end: JobEnd, ghost path: seq<Move>, ghost h: History, ghost before: Tables, ghost at: Millis)
      requires Valid() && PcOf(Whole(), w).Gating? && PcOf(Whole(), w).job == job && PcOf(Whole(), w).seen == NO_READS
      requires PcOf(Whole(), w).ctx == ctx && x.settings.Some?
      requires ctx == Context(x.settings.value, x.subscribed, x.hasEmail, ctx.body)
      modifies this, db
      ensures Took(w, path) && PcOf(Whole(), w) == Idle
      ensures AfterLoad(end, path, x, h) && !end.ClaimThrew? && !end.NothingToDo?
      ensures end == Crashed || (path != [] && LastMove(w, path[|path| - 1], before))
      ensures Leaves(end, before, db.Rows(), job, x, at)
    {
      hide Run, Whole, Valid, PcOf, Own, ReadsAlong, GateOrder, RunGateChain, LastMove, Decided, Leaves;
      before, at := db.Rows(), 0;
      ghost var gateNow, reads_, seens := PcOf(Whole(), w).gateNow, [], [];
      var outcome;
      outcome, reads_, seens := RunGates(w, x);
      h := History(ctx, reads_, seens, []);
      path := reads_;
      assert reads_ <= GateOrder(x, DayOf(gateNow));
      assert InGateOrder(x, reads_);
      hide InGateOrder;
      if outcome.None? {
        LeavesCrash(before, db.Rows(), job, x, at);
        return Crashed, path, h, before, at;
      }
      assert |seens| == |reads_| + 1 by {
        AlongSize(ctx, reads_, seens);
      }
      if outcome.value == Passed && PcOf(Whole(), w).ctx.hasEmail {
        var pass := StampSend(w);
        ghost var rest, commits;
        end, rest, commits, before := Deliver(w, pass, x);
        h, at := h.(commits := commits), pass.sendNow;
        path := path + [Decide] + rest;
        PassedDecides(end, h);
      } else {
        ghost var rest;
        end, rest, before := EndAtGates(w, job, x);
        path := path + rest;
        TurnedAwayDecides(end, h);
      }
    }

    /** A gate has decided against the send, or there is no address to send to. */
    method EndAtGates(w: Worker, job: Job, x: Meets)
      returns (end: JobEnd, ghost path: seq<Move>, ghost before: Tables)
      requires Valid() && PcOf(Whole(), w).Gating? && PcOf(Whole(), w).job == job
      requires var pc := PcOf(Whole(), w);
               var outcome := RunGateChain(pc.ctx, pc.seen);
               outcome != Undecided && !(outcome == Passed && pc.ctx.hasEmail)
      modifies this, db
      ensures Took(w, path) && PcOf(Whole(), w) == Idle
      ensures var pc := old(PcOf(Whole(), w));
              var outcome := RunGateChain(pc.ctx, pc.seen);
              || end == Crashed
              || (outcome.Suppress? && end == SuppressedByGate(outcome.gate) && path == [Decide] + [ApplySuppress])
              || (!outcome.Suppress? && end == DeferredByGate && path == [Decide] + [ApplyDefer])
      ensures end == Crashed || LastMove(w, path[|path| - 1], before)
      ensures forall at :: Leaves(end, before, db.Rows(), job, x, at)
    {
      hide Run, Whole, Valid, PcOf, Own, LastMove, ResolvedAs, RunGateChain;
      before := db.Rows();
      var gate := TurnAway(w);
      var alive := Await(w);
      if !alive {
        return Crashed, [Decide], before;
      }
      before := db.Rows();
      if gate.Some? {
        ApplySuppressed(w, job, gate.value);
        return SuppressedByGate(gate.value), [Decide] + [ApplySuppress], before;
      } else {
        ApplyDeferred(w, job);
        return DeferredByGate, [Decide] + [ApplyDefer], before;
      }
    }
  }

  lemma LeavesCrash(before: Tables, t: Tables, job: Job, x: Meets, at: Millis)
    ensures Leaves(Crashed, before, t, job, x, at)
  {
  }

  lemma GoesOn(end: JobEnd, rest: seq<Move>, x: Meets, h: History)
    requires AfterLoad(end, rest, x, h) && !end.ClaimThrew? && !end.NothingToDo?
    ensures InOrder(end, [Claim] + [LoadOf(x)] + rest, x, h)
  {
    assert ([Claim] + [LoadOf(x)] + rest)[|[Claim] + [LoadOf(x)]|..] == rest;
  }

  /** The ends before the gates. */
  predicate EarlyEnd(end: JobEnd, path: seq<Move>, before: Tables, t: Tables, job: Job, x: Meets) {
    match end
    case Crashed => true
    case ClaimThrew => path == [Claim] && t == before && job.message !in t.targets && job.message !in t.messages
    case NothingToDo =>
      && path == [Claim] + [LoadOf(x)] && t == before
      && !(StatusOf(t, job.message) in {Some(Pending), Some(Deferred)} && job.message in t.messages && x.settings.Some?)
    case _ => false
  }

  lemma EndsEarly(end: JobEnd, path: seq<Move>, before: Tables, t: Tables, job: Job, x: Meets, h: History, at: Millis)
    requires EarlyEnd(end, path, before, t, job, x)
    ensures InOrder(end, path, x, h) && Leaves(end, before, t, job, x, at)
  {
  }

  lemma AlongSize(ctx: Context, reads_: seq<Move>, seens: seq<Reads>)
    requires ReadsAlong(ctx, reads_, seens)
    ensures |seens| == |reads_| + 1
  {
  }

  lemma PassedDecides(end: JobEnd, h: History)
    requires RunGateChain(h.ctx, Seen(h)) == Passed && h.ctx.hasEmail
    requires end.Crashed? || end.RaceLost? || end.SentMail? || end.AlreadyTerminal? || end.BudgetExhausted?
             || end.RevertedAndThrew? || end.Burned?
    ensures Decided(end, h)
  {
    FirstGateDecides(h.ctx, Seen(h));
  }

  lemma TurnedAwayDecides(end: JobEnd, h: History)
    requires var outcome := RunGateChain(h.ctx, Seen(h));
             && outcome != Undecided && !(outcome == Passed && h.ctx.hasEmail)
             && (|| end == Crashed
                 || (outcome.Suppress? && end == SuppressedByGate(outcome.gate))
                 || (!outcome.Suppress? && end == DeferredByGate))
    ensures end == Crashed || Decided(end, h)
  {
    FirstGateDecides(h.ctx, Seen(h));
  }

  /** The one mail of a sent message is its text. */
  lemma SentText(clock: Millis, es: seq<Event>, m: MessageId)
    requires StatusOf(Run(Init(clock), es).t, m) == Some(Sent)
    ensures var s := Run(Init(clock), es);
            m in s.t.messages && Bodies(s, m) == [s.t.messages[m].generatedText]
  {
    AtMostOneSend(clock, es, m);
    StatusesMatch(clock, es, m, Job(0, m, 0, 0), 0);
    FrozenText.TextIsFrozen(clock, es, [], m);
    var bodies := Bodies(Run(Init(clock), es), m);
    assert bodies[0] in bodies;
  }

  /** The state once the completion transaction has committed. */
  function Committed(s: State, pass: Pass): State {
    var (t, sent) := MarkSent(s.t, pass.job, pass.sendNow);
    var record := SendRecord(pass.job.merchant, pass.job.customer, pass.sendNow);
    s.(t := t, past := s.past.(sentLog := if sent then s.past.sentLog[pass.job.message := record] else s.past.sentLog))
  }

  /** A committed or rolled back attempt, as the machine sees it. */
  lemma AttemptIs(s: State, w: Worker, pass: Pass, attempt: nat, commit: CommitOutcome)
    requires PcOf(s, w) == Completing(pass, attempt)
    ensures var again := commit != Acked && attempt < COMPLETION_TX_RETRIES;
            var next := if again then Completing(pass, attempt + 1) else Idle;
            DispatchStep(s, w, CompleteSend(commit))
            == At(if commit == RolledBack then s else Committed(s, pass), w, next)
  {
  }

  lemma RunKeepsInv(clock: Millis, es: seq<Event>)
    ensures Inv(Run(Init(clock), es))
  {
    InitInv(clock);
    RunKeeps(Init(clock), es);
  }

  /** Where the provider's answer takes the worker. */
  function AfterSend(pass: Pass, outcome: SendOutcome): Pc {
    match outcome
    case Accepted => Completing(pass, 1)
    case Retryable => Reverting(pass.job)
    case UnknownError => Reverting(pass.job)
    case RecipientSuppressed => Burning(pass.job, SesSuppressed, Suppressed)
    case NonRetryable(code) => Burning(pass.job, SesError(code), Failed)
  }

  /** What the load comes to, guard by guard. */
  lemma LoadIs(s: State, w: Worker, job: Job, x: Meets)
    requires PcOf(s, w) == Loading(job)
    ensures var m := job.message;
            var goes := StatusOf(s.t, m) in {Some(Pending), Some(Deferred)} && m in s.t.messages && x.settings.Some?;
            && (m in s.t.targets && m in s.t.messages && x.settings.Some? ==>
                  (goes <==> s.t.targets[m].status !in {Suppressed, Sent, Failed, Sending}))
            && DispatchStep(s, w, LoadOf(x))
               == At(s, w, if !goes then Idle
                           else Gating(job, Context(x.settings.value, x.subscribed, x.hasEmail,
                                                    s.t.messages[m].generatedText), s.clock, NO_READS))
  {
    if job.message in s.t.targets {
      match s.t.targets[job.message].status {
        case Pending => case Deferred => case _ =>
      }
    }
  }

  lemma AlongStarts(ctx: Context)
    ensures ReadsAlong(ctx, [], [NO_READS]) && ReadUpTo(NO_READS, 0)
  {
  }

  lemma AlongGrows(ctx: Context, reads_: seq<Move>, seens: seq<Reads>, move: Move, seen: Reads)
    requires ReadsAlong(ctx, reads_, seens) && |seens| == |reads_| + 1
    requires RunGateChain(ctx, seens[|reads_|]) == Undecided && Fills(seens[|reads_|], move, seen)
    ensures ReadsAlong(ctx, reads_ + [move], seens + [seen])
  {
  }

  lemma FillsNext(x: Meets, day: Day, seen: Reads, i: nat, seen': Reads)
    requires ReadUpTo(seen, i) && i < 7 && Fills(seen, GateOrder(x, day)[i], seen')
    ensures ReadUpTo(seen', i + 1)
  {
  }

  lemma AllReadDecides(ctx: Context, seen: Reads)
    requires ReadUpTo(seen, 7)
    ensures RunGateChain(ctx, seen) != Undecided
  {
  }

  /** The first n reads have been made. */
  predicate ReadUpTo(seen: Reads, n: int) {
    && (n > 0 ==> seen.suppressed.Some?) && (n > 1 ==> seen.orderedSince.Some?)
    && (n > 2 ==> seen.sentInCooldown.Some?) && (n > 3 ==> seen.sentToday.Some?)
    && (n > 4 ==> seen.inWindow.Some?) && (n > 5 ==> seen.quotaDay.Some?) && (n > 6 ==> seen.quotaMonth.Some?)
  }
}
