/** `handleCustomerStateChanged` as code over the pipeline and the limiter: the checks that
    let one more AI generation in, cheapest first, and the transaction that writes it. */
module AdmissionHandler {
  import opened Collections
  import opened Tables
  import opened Machine
  import opened SendOnce
  import opened DispatchWorker
  import RateLimiter

  /** What the handler reads outside the rows modelled here. */
  datatype Trigger = Trigger(
    winbackState: bool,
    billingLive: bool,
    merchantThere: bool,
    settings: Option<Caps>,
    customerThere: bool,
    monthStart: Day -> Day,
    estimate: nat
  )

  datatype Caps = Caps(hourlyGenerationCap: int, monthlyAiSpendCapCents: int)

  const MICROCENTS_PER_CENT: int := 100_000

  datatype Admittance =
    | HandlerDied
    | Skipped
    | LimiterThrew
    | RateLimited(currentCount: nat)
    | SpendCapExceeded(currentSpend: int)
    | CustomerGone
    | CreatedGeneration(message: MessageId)

  predicate ElsewhereHandler(h: Worker, e: Event) {
    match e
    case BeginCheck(g, _) => g != h
    case ReadSpend(g, _, _, _) => g != h
    case Create(g, _, _) => g != h
    case CrashHandler(g) => g != h
    case _ => true
  }

  lemma ElsewhereHandlerStays(s: State, e: Event, h: Worker)
    requires ElsewhereHandler(h, e)
    ensures AdmissionOf(Step(s, e), h) == AdmissionOf(s, h)
  {
    if e.Dispatch? {
      DispatchWrites(s, e.w, e.move);
    } else if e.Write? {
      WriteShape(s, e.w, e.aiMove);
    } else if e.SweepResolve? {
      ResolveShape(s, e.message, e.reason);
    } else if e.SweepFresh? || e.SweepDeferred? || e.Pick? || e.Crash? {
      QueueShape(s, e);
    }
  }

  /** What handler h has done in a run, crashes and giving up aside, in order. */
  ghost function OwnHandler(h: Worker, es: seq<Event>): seq<Event>
    decreases |es|
  {
    if es == [] then []
    else
      var e := es[|es| - 1];
      OwnHandler(h, es[..|es| - 1]) + (if ElsewhereHandler(h, e) || e.CrashHandler? then [] else [e])
  }

  lemma {:induction false} OwnHandlerConcat(h: Worker, es: seq<Event>, fs: seq<Event>)
    ensures OwnHandler(h, es + fs) == OwnHandler(h, es) + OwnHandler(h, fs)
    decreases |fs|
  {
    if fs == [] {
      assert es + fs == es;
    } else {
      var front := fs[..|fs| - 1];
      assert (es + fs)[..|es + fs| - 1] == es + front;
      OwnHandlerConcat(h, es, front);
    }
  }

  /** Handler h has done this since, on top of what had happened, and the whole is a run. */
  twostate predicate Did(p: Pipeline, h: Worker, steps: seq<Event>)
    reads p, p.db
  {
    && p.Valid() && p.origin == old(p.origin) && old(p.trace) <= p.trace
    && OwnHandler(h, p.trace) == old(OwnHandler(h, p.trace)) + steps
  }

  lemma {:induction false} ElsewhereHandlerKeeps(s: State, es: seq<Event>, h: Worker)
    requires forall e :: e in es ==> ElsewhereHandler(h, e)
    ensures AdmissionOf(Run(s, es), h) == AdmissionOf(s, h) && OwnHandler(h, es) == []
    decreases |es|
  {
    if es != [] {
      ElsewhereHandlerKeeps(s, es[..|es| - 1], h);
      ElsewhereHandlerStays(Run(s, es[..|es| - 1]), es[|es| - 1], h);
    }
  }

  method AwaitHandler(p: Pipeline, h: Worker) returns (alive: bool)
    requires p.Valid()
    modifies p, p.db
    ensures Did(p, h, [])
    ensures AdmissionOf(p.Whole(), h) == if alive then old(AdmissionOf(p.Whole(), h)) else NotAdmitted
  {
    hide Run, OwnHandler;
    var others: seq<Event> := *;
    if exists e :: e in others && !ElsewhereHandler(h, e) {
      others := [];
    }
    ElsewhereHandlerKeeps(p.Whole(), others, h);
    RunConcat(Init(p.origin), p.trace, others);
    OwnHandlerConcat(h, p.trace, others);
    p.Become(Run(p.Whole(), others));
    p.trace := p.trace + others;
    alive := *;
    if !alive {
      GotoHandler(p, h, NotAdmitted, p.Whole(), CrashHandler(h));
    }
  }

  /** The handler's place after an atomic piece of work, and the event that piece was. */
  method GotoHandler(p: Pipeline, h: Worker, a: Admission, ghost s: State, ghost e: Event)
    requires s == Run(Init(p.origin), p.trace)
    requires HandlerAt(p.Whole(), h, a) == Step(s, e)
    modifies p`admissions, p`trace
    ensures p.Valid() && p.Whole() == HandlerAt(old(p.Whole()), h, a) && p.trace == old(p.trace) + [e]
    ensures OwnHandler(h, p.trace)
            == old(OwnHandler(h, p.trace)) + (if ElsewhereHandler(h, e) || e.CrashHandler? then [] else [e])
  {
    hide Run, Step;
    RunConcat(Init(p.origin), p.trace, [e]);
    OneEvent(s, e);
    assert (p.trace + [e])[..|p.trace + [e]| - 1] == p.trace;
    p.admissions := p.admissions[h := a];
    p.trace := p.trace + [e];
  }

  lemma OneEvent(s: State, e: Event)
    ensures Run(s, [e]) == Step(s, e)
  {
    assert [e][..0] == [];
  }

  /** The month's spend plus one worst case against the cap: no reservation is made. */
  method CheckSpend(p: Pipeline, h: Worker, merchant: MerchantId, asOf: Millis, x: Trigger,
                    cap: int) returns (spent: int, ok: bool)
    requires p.Valid() && AdmissionOf(p.Whole(), h) == Checking(merchant, asOf)
    modifies p, p.db
    ensures Did(p, h, [SpendRead(h, asOf, x, cap)]) && p.trace == old(p.trace) + [SpendRead(h, asOf, x, cap)]
    ensures spent == SpendSince(old(p.db.Rows()), merchant, x.monthStart(DayOf(asOf)))
    ensures Checked(p.origin, p.trace, |old(p.trace)|, SpendRead(h, asOf, x, cap), merchant, spent)
    ensures ok <==> spent + x.estimate <= cap
    ensures AdmissionOf(p.Whole(), h) == if ok then Admitted(merchant) else NotAdmitted
  {
    hide Run, SpendSince;
    ghost var s := p.Whole();
    spent := SpendSince(p.db.Rows(), merchant, x.monthStart(DayOf(asOf)));
    assert (p.trace + [SpendRead(h, asOf, x, cap)])[..|p.trace|] == p.trace;
    ok := !(spent + x.estimate > cap);
    GotoHandler(p, h, if ok then Admitted(merchant) else NotAdmitted, s, SpendRead(h, asOf, x, cap));
  }

  function SpendRead(h: Worker, asOf: Millis, x: Trigger, cap: int): Event {
    ReadSpend(h, x.monthStart(DayOf(asOf)), x.estimate, cap)
  }

  /** An id that was never handed out. */
  method NewId(issued: set<MessageId>) returns (m: MessageId)
    ensures m !in issued
  {
    m := 0;
    var rest := issued;
    while rest != {}
      invariant rest <= issued && forall i :: i in issued && i !in rest ==> i < m
      decreases |rest|
    {
      var i :| i in rest;
      rest := rest - {i};
      m := if i >= m then i + 1 else m;
    }
  }

  /** Pending generation and draft message, in one transaction. */
  method WriteGeneration(p: Pipeline, h: Worker, merchant: MerchantId, customer: CustomerId) returns (m: MessageId)
    requires p.Valid() && AdmissionOf(p.Whole(), h) == Admitted(merchant)
    modifies p, p.db
    ensures Did(p, h, [Create(h, m, customer)])
    ensures AdmissionOf(p.Whole(), h) == NotAdmitted
    ensures p.db.Rows() == CreateDraft(old(p.db.Rows()), m, merchant, customer, old(p.clock))
    ensures m !in old(p.db.messages) && m !in old(p.db.generations)
    ensures IsNewDraft(p.db.Rows(), m, merchant, customer, p.clock) && p.clock == old(p.clock)
  {
    hide Run;
    ghost var s := p.Whole();
    m := NewId(p.past.issued);
    RunKeepsInv(p.origin, p.trace);
    assert LogAgrees(s, m) && RowsAgree(s.t, m);
    p.db.AdmitGeneration(m, merchant, customer, p.clock);
    p.past := p.past.(issued := p.past.issued + {m});
    GotoHandler(p, h, NotAdmitted, s, Create(h, m, customer));
  }

  /** The spend check of a run stands at a place in its trace, and this is what it read there. */
  ghost predicate Checked(clock: Millis, trace: seq<Event>, at: nat, read: Event, merchant: MerchantId, spent: int) {
    && at < |trace| && trace[at] == read && read.ReadSpend?
    && spent == SpendSince(Run(Init(clock), trace[..at]).t, merchant, read.monthStart)
  }

  /** The order of the code from the spend check on: a row is written only past it. */
  ghost predicate InHandlerOrder(r: Admittance, path: seq<Event>, h: Worker, merchant: MerchantId, customer: CustomerId,
                                 read: Event) {
    match r
    case CreatedGeneration(m) => path == [BeginCheck(h, merchant)] + [read] + [Create(h, m, customer)]
    case SpendCapExceeded(_) => path == [BeginCheck(h, merchant)] + [read]
    case CustomerGone => path == [BeginCheck(h, merchant)] + [read]
    case HandlerDied => path <= [BeginCheck(h, merchant)] + [read]
    case _ => path == []
  }

  /** The handler. The limiter counts the call even if a later check refuses it; a row is
      written only past every check, and then one draft with its pending generation. Where the
      spend was read, as of when, and what came of it are stated of the run itself. */
  method HandleCustomerStateChanged(p: Pipeline, redis: RateLimiter.Redis, h: Worker, merchant: MerchantId,
                                    customer: CustomerId, x: Trigger, asked: RateLimiter.Millis,
                                    ran: RateLimiter.Millis, forgets: (bool, bool))
    returns (r: Admittance, ghost path: seq<Event>, ghost at: nat, ghost spent: int)
    requires p.Valid() && redis.Valid() && AdmissionOf(p.Whole(), h) == NotAdmitted
    requires redis.clock <= ran && asked <= ran
    modifies p, p.db, redis
    ensures Did(p, h, path) && redis.Valid() && AdmissionOf(p.Whole(), h) == NotAdmitted
    ensures r.Skipped? <==> !(x.winbackState && x.billingLive && x.merchantThere && x.settings.Some?)
    ensures r.Skipped? || r.LimiterThrew? ==> redis.log == old(redis.log)
    ensures r.Skipped? || r.LimiterThrew? || r.RateLimited? ==> p.Whole() == old(p.Whole())
    ensures !(r.Skipped? || r.LimiterThrew?) ==>
              && |redis.log| == |old(redis.log)| + 1
              && (r.RateLimited? <==> !redis.log[|old(redis.log)|].allowed)
    ensures r.RateLimited? ==> r.currentCount > x.settings.value.hourlyGenerationCap
    ensures !r.Skipped? ==>
              var cap := 100_000 * x.settings.value.monthlyAiSpendCapCents;
              var read := ReadSpend(h, x.monthStart(old(p.clock) / MS_PER_DAY), x.estimate, cap);
              && InHandlerOrder(r, path, h, merchant, customer, read)
              && (r.SpendCapExceeded? || r.CustomerGone? || r.CreatedGeneration? ==>
                    && |old(p.trace)| <= at && Checked(p.origin, p.trace, at, read, merchant, spent)
                    && (r.SpendCapExceeded? <==> spent + x.estimate > cap))
    ensures r.SpendCapExceeded? ==> r.currentSpend == spent
    ensures r.CustomerGone? ==> !x.customerThere
    ensures r.CreatedGeneration? ==> x.customerThere && IsNewDraft(p.db.Rows(), r.message, merchant, customer, p.clock)
  {
    hide Run, AdmissionOf, OwnHandler, SpendSince;
    path, at, spent := [], 0, 0;
    if !x.winbackState || !x.billingLive || !x.merchantThere || x.settings.None? {
      return Skipped, path, at, spent;
    }
    var caps := x.settings.value;
    var answer := redis.IncrementAndCheck(merchant, caps.hourlyGenerationCap, asked, ran, forgets);
    if answer.NoScriptTwice? {
      return LimiterThrew, path, at, spent;
    }
    if !answer.allowed {
      return RateLimited(answer.currentCount), path, at, spent;
    }
    r, path, at, spent := AdmitAndWrite(p, h, merchant, customer, x, caps.monthlyAiSpendCapCents * MICROCENTS_PER_CENT);
  }

  /** A draft just written, with its generation still pending. */
  predicate IsNewDraft(t: Tables, m: MessageId, merchant: MerchantId, customer: CustomerId, now: Millis) {
    && m in t.messages && t.messages[m] == Message(merchant, customer, Draft, "", None)
    && m in t.generations && t.generations[m] == Generation(merchant, customer, now, GenerationPending, None, 0)
  }

  /** From the spend check to the written row, others running in between. */
  method AdmitAndWrite(p: Pipeline, h: Worker, merchant: MerchantId, customer: CustomerId, x: Trigger, cap: int)
    returns (r: Admittance, ghost path: seq<Event>, ghost at: nat, ghost spent: int)
    requires p.Valid() && AdmissionOf(p.Whole(), h) == NotAdmitted
    modifies p, p.db
    ensures Did(p, h, path) && AdmissionOf(p.Whole(), h) == NotAdmitted
    ensures r.HandlerDied? || r.SpendCapExceeded? || r.CustomerGone? || r.CreatedGeneration?
    ensures InHandlerOrder(r, path, h, merchant, customer, SpendRead(h, old(p.clock), x, cap))
    ensures !r.HandlerDied? ==>
              && |old(p.trace)| <= at
              && Checked(p.origin, p.trace, at, SpendRead(h, old(p.clock), x, cap), merchant, spent)
              && (r.SpendCapExceeded? <==> spent + x.estimate > cap)
    ensures r.SpendCapExceeded? ==> r.currentSpend == spent
    ensures r.CustomerGone? ==> !x.customerThere
    ensures r.CreatedGeneration? ==> x.customerThere && IsNewDraft(p.db.Rows(), r.message, merchant, customer, p.clock)
  {
    hide Run, AdmissionOf, IsNewDraft, OwnHandler, SpendSince, Checked, Pipeline.Whole, Pipeline.Valid;
    at, spent := 0, 0;
    var asOf := p.clock;
    BeginSpendCheck(p, h, merchant);
    path := [BeginCheck(h, merchant)];
    var alive := AwaitHandler(p, h);
    if !alive {
      return HandlerDied, path, at, spent;
    }
    at := |p.trace|;
    var found, ok := CheckSpend(p, h, merchant, asOf, x, cap);
    spent := found;
    path := path + [SpendRead(h, asOf, x, cap)];
    ghost var checked := p.trace;
    if !ok {
      return SpendCapExceeded(found), path, at, spent;
    }
    ghost var rest;
    r, rest := WriteAdmitted(p, h, merchant, customer, x);
    StaysChecked(p.origin, checked, p.trace, at, SpendRead(h, asOf, x, cap), merchant, spent);
    path := path + rest;
  }

  /** Past the check: an erased customer gets no row. */
  method WriteAdmitted(p: Pipeline, h: Worker, merchant: MerchantId, customer: CustomerId, x: Trigger)
    returns (r: Admittance, ghost path: seq<Event>)
    requires p.Valid() && AdmissionOf(p.Whole(), h) == Admitted(merchant)
    modifies p, p.db
    ensures Did(p, h, path) && AdmissionOf(p.Whole(), h) == NotAdmitted
    ensures r.HandlerDied? || r.CustomerGone? || r.CreatedGeneration?
    ensures path == if r.CreatedGeneration? then [Create(h, r.message, customer)] else []
    ensures r.CustomerGone? ==> !x.customerThere
    ensures r.CreatedGeneration? ==> x.customerThere && IsNewDraft(p.db.Rows(), r.message, merchant, customer, p.clock)
  {
    hide Run, AdmissionOf, IsNewDraft, OwnHandler;
    var alive := AwaitHandler(p, h);
    if !alive {
      return HandlerDied, [];
    }
    if !x.customerThere {
      GiveUp(p, h);
      return CustomerGone, [];
    }
    var m := WriteGeneration(p, h, merchant, customer);
    return CreatedGeneration(m), [Create(h, m, customer)];
  }

  lemma StaysChecked(clock: Millis, trace: seq<Event>, trace': seq<Event>, at: nat, read: Event, merchant: MerchantId,
                     spent: int)
    requires trace <= trace' && Checked(clock, trace, at, read, merchant, spent)
    ensures Checked(clock, trace', at, read, merchant, spent)
  {
    assert trace'[..at] == trace[..at];
  }

  method BeginSpendCheck(p: Pipeline, h: Worker, merchant: MerchantId)
    requires p.Valid() && AdmissionOf(p.Whole(), h) == NotAdmitted
    modifies p`admissions, p`trace
    ensures Did(p, h, [BeginCheck(h, merchant)])
    ensures AdmissionOf(p.Whole(), h) == Checking(merchant, p.clock)
  {
    hide Run;
    GotoHandler(p, h, Checking(merchant, p.clock), p.Whole(), BeginCheck(h, merchant));
  }

  method GiveUp(p: Pipeline, h: Worker)
    requires p.Valid()
    modifies p`admissions, p`trace
    ensures Did(p, h, []) && AdmissionOf(p.Whole(), h) == NotAdmitted
  {
    hide Run;
    GotoHandler(p, h, NotAdmitted, p.Whole(), CrashHandler(h));
  }
}
