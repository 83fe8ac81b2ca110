/** The database rows the winback pipeline writes, and each repository call as the
    atomic transaction it is: a function from the tables before to the tables after.

    A Message and its AiGeneration are created together and stay one to one
    (`Message.aiGenerationId` is unique), and a CampaignTarget is unique per message,
    so one id keys all three tables. */
module Tables {
  import opened Collections

  type MessageId = nat
  type MerchantId = nat
  type CustomerId = nat
  type CampaignId = nat
  type Millis = int
  type Day = int

  const MS_PER_HOUR: int := 3_600_000
  const MS_PER_DAY: int := 86_400_000

  /** The UTC day of an instant (`utcMidnight`). */
  function DayOf(at: Millis): Day {
    at / MS_PER_DAY
  }

  datatype GenerationStatus = GenerationPending | GenerationCompleted | GenerationFailed

  datatype Generation = Generation(
    merchant: MerchantId,
    customer: CustomerId,
    createdAt: Millis,
    status: GenerationStatus,
    text: Option<string>,
    costMicrocents: nat
  )

  datatype MessageStatus = Draft | MessageSent | MessageSuppressed | MessageFailed

  datatype Message = Message(
    merchant: MerchantId,
    customer: CustomerId,
    status: MessageStatus,
    generatedText: string,
    sentAt: Option<Millis>
  )

  datatype TargetStatus = Pending | Deferred | Sending | Sent | Suppressed | Failed

  datatype Reason =
    | Suppression | Consent | Freshness | Frequency       // gates
    | CampaignPaused | DeferredStale                      // sweep, arm 2
    | SesSuppressed | SesError(code: string)              // provider

  datatype Target = Target(
    merchant: MerchantId,
    customer: CustomerId,
    campaign: CampaignId,
    createdAt: Millis,
    status: TargetStatus,
    sendStartedAt: Option<Millis>,
    sentAt: Option<Millis>,
    suppressedByGate: Option<Reason>
  )

  /** The `(merchantId, date)` key of both daily ledgers. */
  datatype BucketKey = BucketKey(merchant: MerchantId, day: Day)

  datatype SpendBucket = SpendBucket(spentMicrocents: int, generationCount: int)

  datatype Tables = Tables(
    generations: map<MessageId, Generation>,
    messages: map<MessageId, Message>,
    targets: map<MessageId, Target>,
    quota: map<BucketKey, int>,
    spend: map<BucketKey, SpendBucket>,
    sentAudits: multiset<MessageId>      // `dispatch.sent` audit rows, by target id
  )

  /** The payload of a `campaign.dispatch` job. */
  datatype Job = Job(merchant: MerchantId, message: MessageId, campaign: CampaignId, customer: CustomerId)

  /** The Message status a target's status goes with. */
  function MessageStatusFor(status: TargetStatus): MessageStatus {
    match status
    case Pending | Deferred | Sending => Draft
    case Sent => MessageSent
    case Suppressed => MessageSuppressed
    case Failed => MessageFailed
  }

  // ---------------------------------------------------------------- dispatch

  datatype ClaimResult = Claimed | AlreadyClaimed | ClaimError

  /** `claimTarget`: a taken message id is a no-op, a missing message a foreign-key error. */
  function ClaimTarget(t: Tables, job: Job, now: Millis): (Tables, ClaimResult) {
    if job.message in t.targets then (t, AlreadyClaimed)
    else if job.message !in t.messages then (t, ClaimError)
    else
      var target := Target(job.merchant, job.customer, job.campaign, now, Pending, None, None, None);
      (t.(targets := t.targets[job.message := target]), Claimed)
  }

  /** An `updateMany` keyed by message id and guarded on the status. */
  function UpdateTarget(t: Tables, m: MessageId, guard: set<TargetStatus>, f: Target -> Target): (Tables, bool) {
    if m in t.targets && t.targets[m].status in guard then
      (t.(targets := t.targets[m := f(t.targets[m])]), true)
    else
      (t, false)
  }

  /** `startSending`: pending to sending, stamped. */
  function StartSending(t: Tables, m: MessageId, now: Millis): (Tables, bool) {
    UpdateTarget(t, m, {Pending}, (r: Target) => r.(status := Sending, sendStartedAt := Some(now)))
  }

  /** `revertToPending`: sending back to pending, stamp cleared. */
  function RevertToPending(t: Tables, m: MessageId): (Tables, bool) {
    UpdateTarget(t, m, {Sending}, (r: Target) => r.(status := Pending, sendStartedAt := None))
  }

  /** `deferTarget`. */
  function DeferTarget(t: Tables, m: MessageId): (Tables, bool) {
    UpdateTarget(t, m, {Pending, Deferred}, (r: Target) => r.(status := Deferred))
  }

  /** `resolveTerminal`: target and message reach the same terminal, or nothing moves. */
  function ResolveTerminal(t: Tables, m: MessageId, reason: Reason, status: TargetStatus): (Tables, bool)
    requires status == Suppressed || status == Failed
  {
    var (t1, resolved) := UpdateTarget(t, m, {Pending, Deferred, Sending},
                                       (r: Target) => r.(status := status, suppressedByGate := Some(reason)));
    if resolved && m in t1.messages && t1.messages[m].status == Draft then
      (t1.(messages := t1.messages[m := t1.messages[m].(status := MessageStatusFor(status))]), true)
    else
      (t1, resolved)
  }

  /** A terminal resolution on the rows: an open target and its draft get these statuses and this
      reason, and nothing else changes; any other target leaves everything as it was. */
  predicate ResolvedAs(before: Tables, t: Tables, m: MessageId, status: TargetStatus, reason: Reason,
                       messageStatus: MessageStatus) {
    if m in before.targets && before.targets[m].status in {Pending, Deferred, Sending} then
      && t == before.(targets := t.targets, messages := t.messages)
      && t.targets == before.targets[m := before.targets[m].(status := status, suppressedByGate := Some(reason))]
      && t.messages == (if m in before.messages && before.messages[m].status == Draft
                        then before.messages[m := before.messages[m].(status := messageStatus)] else before.messages)
    else t == before
  }

  /** One target moved from a status to another, or nothing did. */
  predicate MovedFrom(before: Tables, t: Tables, m: MessageId, from: TargetStatus, to: TargetStatus,
                      sendStartedAt: Option<Millis>) {
    if m in before.targets && before.targets[m].status == from then
      && t == before.(targets := t.targets)
      && t.targets == before.targets[m := before.targets[m].(status := to, sendStartedAt := sendStartedAt)]
    else t == before
  }

  /** A completed send on the rows: target and draft sent and stamped, the day's bucket one up,
      one more audit row. */
  predicate SentAs(before: Tables, t: Tables, job: Job, at: Millis) {
    var m, bucket := job.message, BucketKey(job.merchant, at / MS_PER_DAY);
    && m in before.targets && before.targets[m].status == Sending
    && m in before.messages && before.messages[m].status == Draft
    && t.targets == before.targets[m := before.targets[m].(status := Sent, sentAt := Some(at))]
    && t.messages == before.messages[m := before.messages[m].(status := MessageSent, sentAt := Some(at))]
    && t.quota == before.quota[bucket := (if bucket in before.quota then before.quota[bucket] else 0) + 1]
    && t.sentAudits == before.sentAudits + multiset{m}
    && t.generations == before.generations && t.spend == before.spend
  }

  /** A completed generation on the rows. */
  predicate CompletedAs(before: Tables, t: Tables, m: MessageId, text: string, cost: nat, at: Millis) {
    && m in before.generations && before.generations[m].status == GenerationPending
    && t.generations == before.generations[m :=
         before.generations[m].(status := GenerationCompleted, text := Some(text), costMicrocents := cost)]
    && t.messages == (if m in before.messages
                      then before.messages[m := before.messages[m].(generatedText := text)] else before.messages)
    && (var bucket := BucketKey(before.generations[m].merchant, at / MS_PER_DAY);
        var had := if bucket in before.spend then before.spend[bucket] else SpendBucket(0, 0);
        t.spend == before.spend[bucket := SpendBucket(had.spentMicrocents + cost, had.generationCount + 1)])
    && t.targets == before.targets && t.quota == before.quota && t.sentAudits == before.sentAudits
  }

  function QuotaOn(t: Tables, merchant: MerchantId, day: Day): int {
    var k := BucketKey(merchant, day);
    if k in t.quota then t.quota[k] else 0
  }

  /** `markSentWithQuota`: both compare-and-sets hold and all four writes commit
      together, or the transaction aborts and nothing is left of it. */
  function MarkSent(t: Tables, job: Job, now: Millis): (Tables, bool) {
    var m := job.message;
    if m in t.targets && t.targets[m].status == Sending && m in t.messages && t.messages[m].status == Draft then
      var k := BucketKey(job.merchant, DayOf(now));
      (t.(
         targets := t.targets[m := t.targets[m].(status := Sent, sentAt := Some(now))],
         messages := t.messages[m := t.messages[m].(status := MessageSent, sentAt := Some(now))],
         quota := t.quota[k := QuotaOn(t, job.merchant, DayOf(now)) + 1],
         sentAudits := t.sentAudits + multiset{m}
       ), true)
    else
      (t, false)
  }

  // ------------------------------------------------------------------- reads

  /** `countSentSince`: this customer's sent messages from an instant on. */
  function SentSince(t: Tables, merchant: MerchantId, customer: CustomerId, since: Millis): set<MessageId> {
    set m | m in t.messages
         && t.messages[m].merchant == merchant && t.messages[m].customer == customer
         && t.messages[m].status == MessageSent
         && t.messages[m].sentAt.Some? && t.messages[m].sentAt.value >= since
  }

  predicate KeyAtMost(a: BucketKey, b: BucketKey) {
    a.merchant < b.merchant || (a.merchant == b.merchant && a.day <= b.day)
  }

  lemma {:induction false} LeastKey(s: set<BucketKey>)
    requires s != {}
    ensures exists k :: k in s && forall i :: i in s ==> KeyAtMost(k, i)
    decreases |s|
  {
    var k :| k in s;
    if s != {k} {
      LeastKey(s - {k});
      var j :| j in s - {k} && forall i :: i in s - {k} ==> KeyAtMost(j, i);
      var least := if KeyAtMost(j, k) then j else k;
      forall i | i in s
        ensures KeyAtMost(least, i)
      {
        assert i == k || i in s - {k};
      }
    }
  }

  /** The database's sum over bucket rows, taken in key order so that it can be computed. */
  function Total(q: map<BucketKey, int>): (sum: int)
    ensures sum == Sum(q)
    decreases |q|
  {
    if q == map[] then 0
    else
      LeastKey(q.Keys);
      var k :| k in q && forall i :: i in q ==> KeyAtMost(k, i);
      SumSplit(q, k);
      q[k] + Total(q - {k})
  }

  /** The aggregate read of `getQuotaUsage`: every bucket of the merchant from `since` on. */
  function QuotaSince(t: Tables, merchant: MerchantId, since: Day): int {
    Total(map k | k in t.quota && k.merchant == merchant && k.day >= since :: t.quota[k])
  }

  /** `sumMonthSpend`. */
  function SpendSince(t: Tables, merchant: MerchantId, since: Day): int {
    Total(map k | k in t.spend && k.merchant == merchant && k.day >= since :: t.spend[k].spentMicrocents)
  }

  // -------------------------------------------------------------- generation

  /** `createPending` and `createDraft` in one transaction, under a fresh id. */
  function CreateDraft(t: Tables, m: MessageId, merchant: MerchantId, customer: CustomerId, now: Millis): Tables {
    t.(
      generations := t.generations[m := Generation(merchant, customer, now, GenerationPending, None, 0)],
      messages := t.messages[m := Message(merchant, customer, Draft, "", None)]
    )
  }

  function SpendOn(t: Tables, merchant: MerchantId, day: Day): SpendBucket {
    var k := BucketKey(merchant, day);
    if k in t.spend then t.spend[k] else SpendBucket(0, 0)
  }

  /** The completion transaction: `markCompleted`, then, only if it moved the row out of
      pending, `updateGeneratedText` and `incrementSpend`. */
  function Complete(t: Tables, m: MessageId, text: string, cost: nat, now: Millis): (Tables, bool) {
    if m in t.generations && t.generations[m].status == GenerationPending then
      var g := t.generations[m];
      var k := BucketKey(g.merchant, DayOf(now));
      var b := SpendOn(t, g.merchant, DayOf(now));
      (t.(
         generations := t.generations[m :=
           g.(status := GenerationCompleted, text := Some(text), costMicrocents := cost)],
         messages := if m in t.messages then t.messages[m := t.messages[m].(generatedText := text)] else t.messages,
         spend := t.spend[k := SpendBucket(b.spentMicrocents + cost, b.generationCount + 1)]
       ), true)
    else
      (t, false)
  }

  /** `markFailed`. */
  function MarkFailed(t: Tables, m: MessageId): (Tables, bool) {
    if m in t.generations && t.generations[m].status == GenerationPending then
      (t.(generations := t.generations[m := t.generations[m].(status := GenerationFailed)]), true)
    else
      (t, false)
  }

  // ----------------------------------------------------------------- erasure

  /** Erasing a customer leaves none of its rows and every other row as it was; the ledgers and
      the audit log stay. */
  lemma RedactErases(t: Tables, merchant: MerchantId, customer: CustomerId)
    ensures var t' := RedactCustomer(t, merchant, customer);
            && t' == t.(targets := t'.targets, messages := t'.messages, generations := t'.generations)
            && (forall m :: m in t'.targets <==>
                  m in t.targets && !(t.targets[m].merchant == merchant && t.targets[m].customer == customer))
            && (forall m :: m in t'.messages <==>
                  m in t.messages && !(t.messages[m].merchant == merchant && t.messages[m].customer == customer))
            && (forall m :: m in t'.generations <==>
                  && m in t.generations
                  && !(t.generations[m].merchant == merchant && t.generations[m].customer == customer))
            && (forall m :: m in t'.targets ==> t'.targets[m] == t.targets[m])
            && (forall m :: m in t'.messages ==> t'.messages[m] == t.messages[m])
            && (forall m :: m in t'.generations ==> t'.generations[m] == t.generations[m])
  {
  }

  /** The three deletes of `processCustomerRedact` that reach these tables. */
  function RedactCustomer(t: Tables, merchant: MerchantId, customer: CustomerId): Tables {
    t.(
      targets := map m | m in t.targets
                         && !(t.targets[m].merchant == merchant && t.targets[m].customer == customer) :: t.targets[m],
      messages := map m | m in t.messages
                          && !(t.messages[m].merchant == merchant && t.messages[m].customer == customer)
                        :: t.messages[m],
      generations := map m | m in t.generations
                             && !(t.generations[m].merchant == merchant && t.generations[m].customer == customer)
                           :: t.generations[m]
    )
  }
}
