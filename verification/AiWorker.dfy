/** `processAiGenerateJob` as code over the pipeline: pickup, provider call, mint and
    substitution, and the guarded completion transaction, with everybody else running, and
    this worker possibly dying, at every await. */
module AiWorker {
  import opened Collections
  import opened Tables
  import opened Machine
  import opened DispatchWorker
  import CostRates
  import Substitution

  /** How the provider call ends. Errors it does not classify are rethrown like retryable ones. */
  datatype ProviderResult =
    | Generated(content: string, inputTokens: nat, outputTokens: nat)
    | RetryableError
    | UnclassifiedError
    | NonRetryableError(code: string)

  /** What the discount mint comes to: none intended, the customer erased since the enqueue,
      a code, or a throw that the queue retries. */
  datatype Mint = NoDiscount | CustomerErased | Minted(discount: Substitution.Discount) | MintThrows

  datatype GenerateEnd =
    | WriterDied
    | AlreadyHandled
    | SkippedStale
    | Rethrown
    | FailedTerminally
    | CompletedNow
    | LostRace

  /** The model a job runs with, and the calls it makes. */
  datatype Calls = Calls(provider: CostRates.Provider, model: string, result: ProviderResult, mint: Mint)

  /** What the calls come to for the row. */
  function ReplyOf(x: Calls): Reply {
    match x.result
    case RetryableError => ReplyRetryable
    case UnclassifiedError => ReplyRetryable
    case NonRetryableError(_) => ReplyFatal
    case Generated(content, i, o) =>
      var cost := CostRates.EstimateCost(x.provider, x.model, i, o);
      if cost.None? then ReplyRetryable
      else
        match x.mint
        case NoDiscount => Content(content, cost.value)
        case CustomerErased => ReplyFatal
        case MintThrows => ReplyRetryable
        case Minted(discount) =>
          Content(Substitution.SubstituteDiscountTokens(content, Some(discount)).text, cost.value)
  }

  /** The calls come to this text at this cost: the provider's own text if no discount is
      intended, otherwise that text with the minted code and percentage put in its tokens'
      places, and no token left if the code is foreign to them. */
  ghost predicate Yields(x: Calls, text: string, cost: nat) {
    && x.result.Generated?
    && CostRates.EstimateCost(x.provider, x.model, x.result.inputTokens, x.result.outputTokens) == Some(cost)
    && (x.mint == NoDiscount || x.mint.Minted?)
    && (x.mint == NoDiscount ==> text == x.result.content)
    && (x.mint.Minted? ==>
          && Substitution.Filled(x.result.content, x.mint.discount, text)
          && text == Substitution.SubstituteDiscountTokens(x.result.content, Some(x.mint.discount)).text)
    && (x.mint.Minted? && Substitution.IsForeign(x.mint.discount) ==> Substitution.TokenFree(text))
  }

  /** The provider refuses for good, or its answer is paid for and the customer is gone. */
  predicate Refuses(x: Calls) {
    || x.result.NonRetryableError?
    || (x.result.Generated? && x.mint == CustomerErased
        && CostRates.EstimateCost(x.provider, x.model, x.result.inputTokens, x.result.outputTokens).Some?)
  }

  /** A throw that the queue retries: the provider's, an unpriced model's, or the mint's. */
  predicate Throws(x: Calls) {
    || x.result.RetryableError? || x.result.UnclassifiedError?
    || (x.result.Generated?
        && (CostRates.EstimateCost(x.provider, x.model, x.result.inputTokens, x.result.outputTokens).None?
            || x.mint == MintThrows))
  }

  /** Every outcome of the calls is exactly one of the three. */
  lemma ReplyIs(x: Calls)
    ensures ReplyOf(x).Content? <==> !Refuses(x) && !Throws(x)
    ensures ReplyOf(x).Content? ==> Yields(x, ReplyOf(x).text, ReplyOf(x).cost)
    ensures ReplyOf(x) == ReplyFatal <==> Refuses(x) && !Throws(x)
    ensures ReplyOf(x) == ReplyRetryable <==> Throws(x)
    ensures !(Refuses(x) && Throws(x))
  {
    if x.result.Generated? && x.mint.Minted? {
      Substitution.FillsPlaceholders(x.result.content, x.mint.discount);
      if Substitution.IsForeign(x.mint.discount) {
        Substitution.ForeignCodeLeavesNone(x.result.content, x.mint.discount);
      }
    }
  }

  predicate ElsewhereAi(w: Worker, e: Event) {
    match e
    case Write(v, _) => v != w
    case CrashWriter(v) => v != w
    case _ => true
  }

  /** The moves of AI worker w in a run, in order. */
  ghost function OwnAi(w: Worker, es: seq<Event>): seq<AiMove>
    decreases |es|
  {
    if es == [] then []
    else
      var e := es[|es| - 1];
      OwnAi(w, es[..|es| - 1]) + (if e.Write? && e.w == w then [e.aiMove] else [])
  }

  lemma {:induction false} OwnAiConcat(w: Worker, es: seq<Event>, fs: seq<Event>)
    ensures OwnAi(w, es + fs) == OwnAi(w, es) + OwnAi(w, fs)
    decreases |fs|
  {
    if fs == [] {
      assert es + fs == es;
    } else {
      var front := fs[..|fs| - 1];
      assert (es + fs)[..|es + fs| - 1] == es + front;
      OwnAiConcat(w, es, front);
    }
  }

  lemma OneMoreAi(clock: Millis, w: Worker, es: seq<Event>, e: Event)
    requires (e.Write? && e.w == w) || e == CrashWriter(w)
    ensures Run(Init(clock), es + [e]) == Step(Run(Init(clock), es), e)
    ensures OwnAi(w, es + [e]) == OwnAi(w, es) + (if e.Write? then [e.aiMove] else [])
  {
    assert (es + [e])[..|es + [e]| - 1] == es;
  }

  lemma ElsewhereAiStays(s: State, e: Event, w: Worker)
    requires ElsewhereAi(w, e)
    ensures AiPcOf(Step(s, e), w) == AiPcOf(s, w)
  {
    if e.Dispatch? {
      DispatchWrites(s, e.w, e.move);
    } else if e.SweepResolve? {
      ResolveShape(s, e.message, e.reason);
    } else if e.SweepFresh? || e.SweepDeferred? || e.Pick? || e.Crash? {
      QueueShape(s, e);
    }
  }

  lemma {:induction false} ElsewhereAiKeeps(s: State, es: seq<Event>, w: Worker)
    requires forall e :: e in es ==> ElsewhereAi(w, e)
    ensures AiPcOf(Run(s, es), w) == AiPcOf(s, w) && OwnAi(w, es) == []
    decreases |es|
  {
    if es != [] {
      ElsewhereAiKeeps(s, es[..|es| - 1], w);
      ElsewhereAiStays(Run(s, es[..|es| - 1]), es[|es| - 1], w);
    }
  }

  /** AI worker w has made these moves, and the whole is still a run of the machine. */
  twostate predicate Wrote(p: Pipeline, w: Worker, moves: seq<AiMove>)
    reads p, p.db
  {
    p.Valid() && p.origin == old(p.origin) && OwnAi(w, p.trace) == old(OwnAi(w, p.trace)) + moves
  }

  method AwaitWriter(p: Pipeline, w: Worker) returns (alive: bool)
    requires p.Valid()
    modifies p, p.db
    ensures Wrote(p, w, []) && AiPcOf(p.Whole(), w) == if alive then old(AiPcOf(p.Whole(), w)) else AiIdle
  {
    hide Run;
    var others: seq<Event> := *;
    if exists e :: e in others && !ElsewhereAi(w, e) {
      others := [];
    }
    ElsewhereAiKeeps(p.Whole(), others, w);
    RunConcat(Init(p.origin), p.trace, others);
    OwnAiConcat(w, p.trace, others);
    p.Become(Run(p.Whole(), others));
    p.trace := p.trace + others;
    alive := *;
    if !alive {
      DieWriter(p, w);
    }
  }

  method DieWriter(p: Pipeline, w: Worker)
    requires p.Valid()
    modifies p`writers, p`trace
    ensures Wrote(p, w, []) && AiPcOf(p.Whole(), w) == AiIdle
  {
    hide Run;
    OneMoreAi(p.origin, w, p.trace, CrashWriter(w));
    p.writers := p.writers[w := AiIdle];
    p.trace := p.trace + [CrashWriter(w)];
  }

  /** The worker's place after an atomic piece of work, and the move that piece was. */
  method GotoAi(p: Pipeline, w: Worker, pc: AiPc, ghost s: State, ghost move: AiMove)
    requires s == Run(Init(p.origin), p.trace)
    requires WriterAt(p.Whole(), w, pc) == WriteStep(s, w, move)
    modifies p`writers, p`trace
    ensures p.Valid() && p.Whole() == WriterAt(old(p.Whole()), w, pc)
    ensures OwnAi(w, p.trace) == old(OwnAi(w, p.trace)) + [move] && p.trace == old(p.trace) + [Write(w, move)]
  {
    assert Step(s, Write(w, move)) == WriteStep(s, w, move);
    hide Run, Step, WriteStep, OwnAi;
    OneMoreAi(p.origin, w, p.trace, Write(w, move));
    p.writers := p.writers[w := pc];
    p.trace := p.trace + [Write(w, move)];
  }

  predicate IsPending(t: Tables, m: MessageId) {
    m in t.generations && t.generations[m].status == GenerationPending
  }

  /** The worker's last step was this move, on these tables. */
  ghost predicate LastStep(clock: Millis, trace: seq<Event>, w: Worker, move: AiMove, before: Tables) {
    trace != [] && trace[|trace| - 1] == Write(w, move) && before == Run(Init(clock), trace[..|trace| - 1]).t
  }

  lemma LastStepIs(clock: Millis, trace: seq<Event>, w: Worker, move: AiMove)
    ensures LastStep(clock, trace + [Write(w, move)], w, move, Run(Init(clock), trace).t)
  {
    assert (trace + [Write(w, move)])[..|trace|] == trace;
  }

  /** The idempotent pickup and the staleness check, on one read of the row: a row that is
      gone or no longer pending is left alone, a pending one older than a day goes to be
      failed, and only a pending one that is not goes to the provider. */
  method Pickup(p: Pipeline, w: Worker, m: MessageId) returns (pc: AiPc)
    requires p.Valid() && AiPcOf(p.Whole(), w) == AiIdle
    modifies p, p.db
    ensures Wrote(p, w, [AiPickup(m)]) && AiPcOf(p.Whole(), w) == pc
    ensures pc in {AiIdle, Generating(m), Failing(m)} && p.db.Rows() == old(p.db.Rows())
    ensures pc == AiIdle <==> !IsPending(old(p.db.Rows()), m)
    ensures pc == Failing(m) ==> old(p.clock - p.db.generations[m].createdAt) > MS_PER_DAY
    ensures pc == Generating(m) ==> old(p.clock - p.db.generations[m].createdAt) <= MS_PER_DAY
    ensures LastStep(p.origin, p.trace, w, AiPickup(m), old(p.db.Rows()))
  {
    hide Run;
    ghost var s := p.Whole();
    LastStepIs(p.origin, p.trace, w, AiPickup(m));
    pc := AiIdle;
    if m in p.db.generations && p.db.generations[m].status == GenerationPending {
      if p.clock - p.db.generations[m].createdAt > GENERATION_STALENESS_MS {
        pc := Failing(m);
      } else {
        pc := Generating(m);
      }
    }
    if pc == AiIdle {
      OneMoreAi(p.origin, w, p.trace, Write(w, AiPickup(m)));
      p.trace := p.trace + [Write(w, AiPickup(m))];
    } else {
      GotoAi(p, w, pc, s, AiPickup(m));
    }
  }

  /** The provider call and the mint. */
  method Generate(p: Pipeline, w: Worker, m: MessageId, x: Calls) returns (pc: AiPc)
    requires p.Valid() && AiPcOf(p.Whole(), w) == Generating(m)
    modifies p, p.db
    ensures Wrote(p, w, [AiReply(ReplyOf(x))]) && AiPcOf(p.Whole(), w) == pc
    ensures p.db.Rows() == old(p.db.Rows()) && LastStep(p.origin, p.trace, w, AiReply(ReplyOf(x)), old(p.db.Rows()))
    ensures pc == match ReplyOf(x)
                  case Content(text, cost) => Finishing(m, text, cost)
                  case ReplyRetryable => AiIdle
                  case ReplyFatal => Failing(m)
  {
    hide Run, ReplyOf;
    ghost var s := p.Whole();
    var reply := ReplyOf(x);
    LastStepIs(p.origin, p.trace, w, AiReply(reply));
    match reply {
      case Content(text, cost) => pc := Finishing(m, text, cost);
      case ReplyRetryable => pc := AiIdle;
      case ReplyFatal => pc := Failing(m);
    }
    GotoAi(p, w, pc, s, AiReply(reply));
  }

  /** A pending row is failed; a row another worker has already closed is left as it is. */
  predicate FailsIfPending(before: Tables, t: Tables, m: MessageId) {
    if IsPending(before, m) then
      m in t.generations && t.generations[m] == before.generations[m].(status := GenerationFailed)
      && t == before.(generations := t.generations) && t.generations - {m} == before.generations - {m}
    else t == before
  }

  method MarkFailedNow(p: Pipeline, w: Worker, m: MessageId)
    requires p.Valid() && AiPcOf(p.Whole(), w) == Failing(m)
    modifies p, p.db
    ensures Wrote(p, w, [AiFail]) && AiPcOf(p.Whole(), w) == AiIdle
    ensures FailsIfPending(old(p.db.Rows()), p.db.Rows(), m)
    ensures LastStep(p.origin, p.trace, w, AiFail, old(p.db.Rows()))
  {
    hide Run;
    ghost var s := p.Whole();
    LastStepIs(p.origin, p.trace, w, AiFail);
    var failed := p.db.FailGeneration(m);
    GotoAi(p, w, AiIdle, s, AiFail);
  }

  /** The completion transaction: the winner's row, text and spend appear together, and the
      loser of a race writes nothing. */
  method FinishNow(p: Pipeline, w: Worker, m: MessageId, text: string, cost: nat) returns (completed: bool)
    requires p.Valid() && AiPcOf(p.Whole(), w) == Finishing(m, text, cost)
    modifies p, p.db
    ensures Wrote(p, w, [AiFinish]) && AiPcOf(p.Whole(), w) == AiIdle
    ensures completed ==> CompletedAs(old(p.db.Rows()), p.db.Rows(), m, text, cost, p.clock)
    ensures completed ==> m in p.db.generations && p.db.generations[m].status == GenerationCompleted
                          && p.db.generations[m].text == Some(text) && p.db.generations[m].costMicrocents == cost
    ensures completed <==> IsPending(old(p.db.Rows()), m)
    ensures completed && m in p.db.messages ==> p.db.messages[m].generatedText == text
    ensures completed ==>
              var merchant, day := p.db.generations[m].merchant, DayOf(old(p.clock));
              var before := SpendOn(old(p.db.Rows()), merchant, day);
              SpendOn(p.db.Rows(), merchant, day)
              == SpendBucket(before.spentMicrocents + cost, before.generationCount + 1)
    ensures !completed ==> p.db.Rows() == old(p.db.Rows())
    ensures LastStep(p.origin, p.trace, w, AiFinish, old(p.db.Rows()))
  {
    hide Run;
    ghost var s := p.Whole();
    LastStepIs(p.origin, p.trace, w, AiFinish);
    completed := p.db.CompleteGeneration(m, text, cost, p.clock);
    if completed {
      var record := SpendRecord(p.db.generations[m].merchant, p.clock, cost);
      p.past := p.past.(spendLog := p.past.spendLog[m := record]);
    }
    GotoAi(p, w, AiIdle, s, AiFinish);
  }

  /** The order of the code: a completed row is picked up once, generated once, written once. */
  ghost predicate InAiOrder(end: GenerateEnd, path: seq<AiMove>, m: MessageId, x: Calls) {
    match end
    case WriterDied => true
    case AlreadyHandled => path == [AiPickup(m)]
    case SkippedStale => path == [AiPickup(m)] + [AiFail]
    case Rethrown => path == [AiPickup(m)] + [AiReply(ReplyOf(x))] && ReplyOf(x) == ReplyRetryable
    case FailedTerminally => path == [AiPickup(m)] + [AiReply(ReplyOf(x))] + [AiFail] && ReplyOf(x) == ReplyFatal
    case CompletedNow => path == [AiPickup(m)] + [AiReply(ReplyOf(x))] + [AiFinish] && ReplyOf(x).Content?
    case LostRace => path == [AiPickup(m)] + [AiReply(ReplyOf(x))] + [AiFinish] && ReplyOf(x).Content?
  }

  /** What an end says about the row, given the tables before the job's last step. The winner
      found the row pending and completes it; the loser of a race and whoever finds the row
      closed leave every table as it was; a stale or refused row ends failed, unless another
      worker has closed it first. */
  ghost predicate LeavesRow(end: GenerateEnd, before: Tables, t: Tables, m: MessageId, x: Calls, at: Millis) {
    match end
    case CompletedNow =>
      && IsPending(before, m) && m in t.generations && t.generations[m].text.Some?
      && Yields(x, t.generations[m].text.value, t.generations[m].costMicrocents)
      && CompletedAs(before, t, m, t.generations[m].text.value, t.generations[m].costMicrocents, at)
    case LostRace => !IsPending(before, m) && t == before && !Refuses(x) && !Throws(x)
    case AlreadyHandled => !IsPending(before, m) && t == before
    case SkippedStale => FailsIfPending(before, t, m)
    case FailedTerminally => FailsIfPending(before, t, m) && Refuses(x)
    case Rethrown => t == before && Throws(x)
    case WriterDied => true
  }

  method ProcessAiGenerateJob(p: Pipeline, w: Worker, m: MessageId, x: Calls)
    returns (end: GenerateEnd, ghost path: seq<AiMove>, ghost before: Tables)
    requires p.Valid() && AiPcOf(p.Whole(), w) == AiIdle
    modifies p, p.db
    ensures Wrote(p, w, path) && AiPcOf(p.Whole(), w) == AiIdle
    ensures InAiOrder(end, path, m, x) && path != []
    ensures end.WriterDied? || LastStep(p.origin, p.trace, w, path[|path| - 1], before)
    ensures LeavesRow(end, before, p.db.Rows(), m, x, p.clock)
  {
    hide Run, ReplyOf, AiPcOf, LastStep, FailsIfPending, Yields, Refuses, Throws, CompletedAs;
    before := p.db.Rows();
    var pc := Pickup(p, w, m);
    path := [AiPickup(m)];
    if pc == AiIdle {
      return AlreadyHandled, path, before;
    }
    var alive := AwaitWriter(p, w);
    if !alive {
      return WriterDied, path, before;
    }
    if pc == Failing(m) {
      before := p.db.Rows();
      MarkFailedNow(p, w, m);
      return SkippedStale, path + [AiFail], before;
    }
    ghost var rest;
    end, rest, before := GenerateAndFinish(p, w, m, x);
    assert (path + rest)[|path + rest| - 1] == rest[|rest| - 1];
    path := path + rest;
  }

  method GenerateAndFinish(p: Pipeline, w: Worker, m: MessageId, x: Calls)
    returns (end: GenerateEnd, ghost path: seq<AiMove>, ghost before: Tables)
    requires p.Valid() && AiPcOf(p.Whole(), w) == Generating(m)
    modifies p, p.db
    ensures Wrote(p, w, path) && AiPcOf(p.Whole(), w) == AiIdle && path != []
    ensures end !in {AlreadyHandled, SkippedStale} && InAiOrder(end, [AiPickup(m)] + path, m, x)
    ensures end.WriterDied? || LastStep(p.origin, p.trace, w, path[|path| - 1], before)
    ensures LeavesRow(end, before, p.db.Rows(), m, x, p.clock)
  {
    hide Run, ReplyOf, AiPcOf, LastStep, FailsIfPending, Yields, Refuses, Throws, CompletedAs;
    ReplyIs(x);
    var reply := ReplyOf(x);
    before := p.db.Rows();
    var pc := Generate(p, w, m, x);
    path := [AiReply(reply)];
    assert [AiPickup(m)] + path == [AiPickup(m)] + [AiReply(reply)];
    if reply.ReplyRetryable? {
      return Rethrown, path, before;
    }
    var alive := AwaitWriter(p, w);
    if !alive {
      return WriterDied, path, before;
    }
    before := p.db.Rows();
    if reply.ReplyFatal? {
      MarkFailedNow(p, w, m);
      path := path + [AiFail];
      assert [AiPickup(m)] + path == [AiPickup(m)] + [AiReply(reply)] + [AiFail];
      return FailedTerminally, path, before;
    }
    var completed := FinishNow(p, w, m, reply.text, reply.cost);
    path := path + [AiFinish];
    assert [AiPickup(m)] + path == [AiPickup(m)] + [AiReply(reply)] + [AiFinish];
    end := if completed then CompletedNow else LostRace;
  }
}
