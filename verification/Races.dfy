/** Races of dispatch workers as steady runs. The stock of a merchant's messages is ready from
    the start. At an instant some messages are sent one by one, and then several workers come
    up to their sends before any of them makes it; then the clock moves on, and the next race
    begins. */
module Races {
  import opened Collections
  import opened Tables
  import opened Machine
  import opened Steady
  import opened QuotaBound
  import opened Scenes

  /** One instant: of the stock `base` messages were sent by then, `before` of them on earlier
      days, none of them earlier than `since` or later than `last`. */
  datatype Cast = Cast(
    merchant: MerchantId,
    customer: MessageId -> CustomerId,
    stock: nat,
    clock: Millis,
    base: nat,
    before: nat,
    since: Millis,
    last: Millis
  )

  predicate Timed(k: Cast) {
    k.since <= k.last <= k.clock
  }

  function JobFor(k: Cast, m: MessageId): Job {
    Job(k.merchant, m, 0, k.customer(m))
  }

  /** The buckets hold n sends, all in one month, and today's those that were not sent before today. */
  ghost predicate BucketsHold(cfg: Config, k: Cast, t: Tables, n: nat) {
    var day := DayOf(k.clock);
    && QuotaOn(t, k.merchant, day) == n - k.before && Sum(t.quota) == n
    && forall b :: b in t.quota ==>
         b.merchant == k.merchant && b.day <= day && cfg.monthStart(b.day) == cfg.monthStart(day)
  }

  predicate SentAt(k: Cast, r: Message, m: MessageId) {
    r.sentAt.Some? && if m < k.base then k.since <= r.sentAt.value <= k.last else r.sentAt.value == k.clock
  }

  /** Whose message it is, and how far it has got: sent, about to be, or still waiting. */
  predicate MessageIs(k: Cast, s: State, m: MessageId, sent: nat, claimed: nat) {
    && m in s.t.messages && s.t.messages[m].merchant == k.merchant && s.t.messages[m].customer == k.customer(m)
    && s.t.messages[m].generatedText == TEXT
    && (m < sent ==> s.t.messages[m].status == MessageSent && SentAt(k, s.t.messages[m], m))
    && (sent <= m ==> s.t.messages[m].status == Draft)
    && (sent <= m < claimed ==> m in s.t.targets && s.t.targets[m].status == Pending)
    && (claimed <= m ==> Ready(s, JobFor(k, m)))
  }

  ghost predicate MessagesAre(k: Cast, s: State, sent: nat, claimed: nat) {
    && (forall m: MessageId :: m in s.t.messages <==> m < k.stock)
    && (forall m: MessageId :: m < k.stock ==> MessageIs(k, s, m, sent, claimed))
  }

  predicate PlaceIs(cfg: Config, k: Cast, s: State, w: Worker, lo: nat, hi: nat) {
    PcOf(s, w) == if lo <= w < hi then Starting(PassNow(cfg, s, JobFor(k, k.base + w))) else Idle
  }

  /** Workers from lo up to hi stand before the send of their message, those before lo are done. */
  ghost predicate Scene(cfg: Config, k: Cast, s: State, lo: nat, hi: nat) {
    && lo <= hi && k.base + hi <= k.stock && s.clock == k.clock
    && MessagesAre(k, s, k.base + lo, k.base + hi)
    && (forall w: Worker :: PlaceIs(cfg, k, s, w, lo, hi))
    && BucketsHold(cfg, k, s.t, k.base + lo)
  }

  // ---------------------------------------------------------------- the stock

  ghost predicate Stocked(k: Cast, s: State, n: nat) {
    && Free(s) && s.clock == k.clock && s.dispatchers == map[] && s.t.targets == map[] && s.t.quota == map[]
    && (forall m: MessageId :: m in s.past.issued <==> m < n)
    && (forall m: MessageId :: m in s.t.messages <==> m < n)
    && (forall m: MessageId :: m < n ==> Ready(s, JobFor(k, m)))
  }

  lemma OneMoreStocked(k: Cast, s: State, n: nat)
    requires Stocked(k, s, n)
    ensures Stocked(k, Queued(s, n, k.merchant, k.customer(n)), n + 1)
  {
    hide Queued;
    var s' := Queued(s, n, k.merchant, k.customer(n));
    QueuedShape(s, n, k.merchant, k.customer(n));
    forall m: MessageId | m < n + 1
      ensures Ready(s', JobFor(k, m))
    {
      assert m < n ==> Ready(s, JobFor(k, m));
    }
  }

  lemma {:induction false} StockUp(cfg: Config, k: Cast, n: nat) returns (s: State)
    ensures Reaches(cfg, Init(k.clock), s) && Stocked(k, s, n)
  {
    if n == 0 {
      s := Init(k.clock);
      Stays(cfg, s);
    } else {
      hide Reaches, Queued;
      var s1 := StockUp(cfg, k, n - 1);
      s := Queued(s1, n - 1, k.merchant, k.customer(n - 1));
      Produce(cfg, Init(k.clock), s1, n - 1, k.merchant, k.customer(n - 1));
      OneMoreStocked(k, s1, n - 1);
    }
  }

  /** The first instant, with nothing sent. */
  function First(merchant: MerchantId, customer: MessageId -> CustomerId, stock: nat, clock: Millis): Cast {
    Cast(merchant, customer, stock, clock, 0, 0, clock, clock)
  }

  lemma Opening(cfg: Config, k: Cast) returns (s: State)
    requires k == First(k.merchant, k.customer, k.stock, k.clock)
    ensures Reaches(cfg, Init(k.clock), s) && Scene(cfg, k, s, 0, 0)
  {
    s := StockUp(cfg, k, k.stock);
    forall m: MessageId | m < k.stock
      ensures MessageIs(k, s, m, 0, 0)
    {
      assert Ready(s, JobFor(k, m));
    }
  }

  // ---------------------------------------------------------- moves of a scene

  /** What the usage reads and the month's total see of a scene. */
  lemma BucketsRead(cfg: Config, k: Cast, t: Tables, n: nat)
    requires BucketsHold(cfg, k, t, n) && Calendar(cfg.monthStart)
    ensures var day := DayOf(k.clock);
            && QuotaOn(t, k.merchant, day) == n - k.before
            && QuotaSince(t, k.merchant, cfg.monthStart(day)) == n
            && MonthTotal(cfg, t, k.merchant, cfg.monthStart(day)) == n
  {
    var day := DayOf(k.clock);
    var since := map b | b in t.quota && b.merchant == k.merchant && b.day >= cfg.monthStart(day) :: t.quota[b];
    var month := map b | b in t.quota && b.merchant == k.merchant && cfg.monthStart(b.day) == cfg.monthStart(day)
      :: t.quota[b];
    forall b | b in t.quota
      ensures b in since && b in month
    {
      assert cfg.monthStart(b.day) <= b.day;
    }
    assert since == t.quota && month == t.quota;
  }

  /** Sending the next message now: room in the ration and under both caps, and its customer
      either was sent nothing, or nothing now and nothing within the cooldown. */
  predicate Room(cfg: Config, k: Cast, sent: nat, m: MessageId) {
    var settings := cfg.settings(k.merchant);
    && sent - k.before < settings.dailySendCap && sent < settings.monthlySendsCap
    && settings.maxDailySendsPerCustomer >= 1
    && (|| (forall i :: 0 <= i < sent ==> k.customer(i) != k.customer(m))
        || (&& sent == k.base && sent < settings.maxDailySendsPerCustomer
            && k.last < k.clock - settings.cooldownHours * MS_PER_HOUR))
  }

  /** At most the messages sent so far are found. */
  lemma FewSent(k: Cast, s: State, sent: nat, claimed: nat, customer: CustomerId, since: Millis)
    requires MessagesAre(k, s, sent, claimed)
    ensures |SentSince(s.t, k.merchant, customer, since)| <= sent
  {
    forall m | m in SentSince(s.t, k.merchant, customer, since)
      ensures m < sent
    {
      assert MessageIs(k, s, m, sent, claimed);
    }
    SizeBelow(SentSince(s.t, k.merchant, customer, since), sent);
  }

  lemma NoneSent(k: Cast, s: State, sent: nat, claimed: nat, customer: CustomerId, since: Millis)
    requires MessagesAre(k, s, sent, claimed)
    requires (forall i :: 0 <= i < sent ==> k.customer(i) != customer) || (sent == k.base && k.last < since)
    ensures SentSince(s.t, k.merchant, customer, since) == {}
  {
    forall m
      ensures m !in SentSince(s.t, k.merchant, customer, since)
    {
      assert m in s.t.messages ==> MessageIs(k, s, m, sent, claimed);
    }
  }

  /** What the frequency reads find. */
  lemma SentReads(cfg: Config, k: Cast, s: State, sent: nat, claimed: nat)
    requires MessagesAre(k, s, sent, claimed) && sent <= claimed < k.stock && s.clock == k.clock
    requires Room(cfg, k, sent, claimed)
    ensures var customer, settings := k.customer(claimed), cfg.settings(k.merchant);
            && SentSince(s.t, k.merchant, customer, k.clock - settings.cooldownHours * MS_PER_HOUR) == {}
            && |SentSince(s.t, k.merchant, customer, DayOf(k.clock) * MS_PER_DAY)| < settings.maxDailySendsPerCustomer
  {
    var customer, today := k.customer(claimed), DayOf(k.clock) * MS_PER_DAY;
    hide MessagesAre, SentSince;
    NoneSent(k, s, sent, claimed, customer, k.clock - cfg.settings(k.merchant).cooldownHours * MS_PER_HOUR);
    FewSent(k, s, sent, claimed, customer, today);
    if forall i :: 0 <= i < sent ==> k.customer(i) != customer {
      NoneSent(k, s, sent, claimed, customer, today);
    }
  }

  lemma SceneIsReady(cfg: Config, k: Cast, s: State, lo: nat, hi: nat)
    requires Scene(cfg, k, s, lo, hi) && k.base + hi < k.stock
    ensures Ready(s, JobFor(k, k.base + hi)) && PcOf(s, hi) == Idle
  {
    assert MessageIs(k, s, k.base + hi, k.base + lo, k.base + hi) && PlaceIs(cfg, k, s, hi, lo, hi);
  }

  lemma SceneIsOpen(cfg: Config, k: Cast, s: State, lo: nat, hi: nat)
    requires Scene(cfg, k, s, lo, hi) && Calendar(cfg.monthStart) && k.base + hi < k.stock
    requires Room(cfg, k, k.base + lo, k.base + hi)
    ensures Open(cfg, s, JobFor(k, k.base + hi))
  {
    hide QuotaSince, MonthTotal, SentSince, MessagesAre, BucketsHold;
    BucketsRead(cfg, k, s.t, k.base + lo);
    SentReads(cfg, k, s, k.base + lo, k.base + hi);
  }

  /** One more worker comes up to its send. */
  lemma SceneApproach(cfg: Config, s0: State, k: Cast, s: State, lo: nat, hi: nat) returns (s': State)
    requires Reaches(cfg, s0, s) && Scene(cfg, k, s, lo, hi) && Calendar(cfg.monthStart)
    requires hi < cfg.workers && k.base + hi < k.stock && Room(cfg, k, k.base + lo, k.base + hi)
    ensures Reaches(cfg, s0, s') && Scene(cfg, k, s', lo, hi + 1)
  {
    hide Reaches, Open, Room, Scene, Ready;
    var job := JobFor(k, k.base + hi);
    SceneIsOpen(cfg, k, s, lo, hi);
    SceneIsReady(cfg, k, s, lo, hi);
    Approach(cfg, s0, s, hi, job);
    s' := ClaimedAt(s, hi, job, Starting(PassNow(cfg, s, job)));
    SceneClaimed(cfg, k, s, s', lo, hi);
  }

  lemma SceneClaimed(cfg: Config, k: Cast, s: State, s': State, lo: nat, hi: nat)
    requires Scene(cfg, k, s, lo, hi) && k.base + hi < k.stock
    requires var job := JobFor(k, k.base + hi); s' == ClaimedAt(s, hi, job, Starting(PassNow(cfg, s, job)))
    ensures Scene(cfg, k, s', lo, hi + 1)
  {
    hide MessagesAre;
    MessagesClaimed(cfg, k, s, s', k.base + lo, k.base + hi, hi);
    var next := hi + 1;
    forall w: Worker
      ensures PlaceIs(cfg, k, s', w, lo, next)
    {
      assert PlaceIs(cfg, k, s, w, lo, hi);
    }
  }

  lemma MessagesClaimed(cfg: Config, k: Cast, s: State, s': State, sent: nat, claimed: nat, w: Worker)
    requires MessagesAre(k, s, sent, claimed) && sent <= claimed < k.stock
    requires var job := JobFor(k, claimed); s' == ClaimedAt(s, w, job, Starting(PassNow(cfg, s, job)))
    ensures MessagesAre(k, s', sent, claimed + 1)
  {
    var next := claimed + 1;
    forall m: MessageId | m < k.stock
      ensures MessageIs(k, s', m, sent, next)
    {
      assert MessageIs(k, s, m, sent, claimed);
    }
  }

  /** The next worker in line makes its send. */
  lemma SceneRecord(cfg: Config, s0: State, k: Cast, s: State, lo: nat, hi: nat) returns (s': State)
    requires Reaches(cfg, s0, s) && Scene(cfg, k, s, lo, hi) && lo < hi <= cfg.workers
    ensures Reaches(cfg, s0, s') && Scene(cfg, k, s', lo + 1, hi)
  {
    hide Reaches, SentBy, MessageIs, BucketsHold;
    var pass := PassNow(cfg, s, JobFor(k, k.base + lo));
    s' := SentBy(s, lo, pass);
    assert PlaceIs(cfg, k, s, lo, lo, hi);
    MessagesSent(cfg, k, s, k.base + lo, k.base + hi, lo);
    Record(cfg, s0, s, lo, pass);
    SentByShape(s, lo, pass);
    BucketsGrow(cfg, k, s.t, s'.t, k.base + lo);
    var next := lo + 1;
    forall w: Worker
      ensures PlaceIs(cfg, k, s', w, next, hi)
    {
      assert PlaceIs(cfg, k, s, w, lo, hi);
    }
  }

  lemma BucketsGrow(cfg: Config, k: Cast, t: Tables, t': Tables, n: nat)
    requires BucketsHold(cfg, k, t, n)
    requires var b := BucketKey(k.merchant, DayOf(k.clock)); t'.quota == t.quota[b := QuotaOn(t, b.merchant, b.day) + 1]
    ensures BucketsHold(cfg, k, t', n + 1)
  {
    var b := BucketKey(k.merchant, DayOf(k.clock));
    SumUpdate(t.quota, b, QuotaOn(t, b.merchant, b.day) + 1);
  }

  lemma MessagesSent(cfg: Config, k: Cast, s: State, sent: nat, claimed: nat, w: Worker)
    requires MessagesAre(k, s, sent, claimed) && k.base <= sent < claimed <= k.stock && s.clock == k.clock
    ensures sent in s.t.targets && s.t.targets[sent].status == Pending
    ensures sent in s.t.messages && s.t.messages[sent].status == Draft
    ensures MessagesAre(k, SentBy(s, w, PassNow(cfg, s, JobFor(k, sent))), sent + 1, claimed)
  {
    hide SentBy;
    var s' := SentBy(s, w, PassNow(cfg, s, JobFor(k, sent)));
    assert MessageIs(k, s, sent, sent, claimed);
    SentByShape(s, w, PassNow(cfg, s, JobFor(k, sent)));
    var next := sent + 1;
    forall m: MessageId | m < k.stock
      ensures MessageIs(k, s', m, next, claimed)
    {
      assert MessageIs(k, s, m, sent, claimed);
    }
  }

  // ------------------------------------------------------------------ the race

  /** A race that is over is what the next one starts from. */
  function Over(k: Cast, n: nat): Cast {
    k.(base := k.base + n, last := k.clock)
  }

  lemma RaceIsOver(cfg: Config, k: Cast, s: State, n: nat)
    requires Scene(cfg, k, s, n, n) && Timed(k)
    ensures Scene(cfg, Over(k, n), s, 0, 0)
  {
    var k', sent := Over(k, n), k.base + n;
    forall m: MessageId | m < k.stock
      ensures MessageIs(k', s, m, sent, sent)
    {
      assert MessageIs(k, s, m, sent, sent);
    }
    forall w: Worker
      ensures PlaceIs(cfg, k', s, w, 0, 0)
    {
      assert PlaceIs(cfg, k, s, w, n, n);
    }
  }

  /** n workers come up to their sends before any of them makes it. */
  lemma {:induction false} LineUp(cfg: Config, s0: State, k: Cast, s: State, n: nat) returns (s': State)
    requires Reaches(cfg, s0, s) && Scene(cfg, k, s, 0, 0) && Calendar(cfg.monthStart)
    requires n <= cfg.workers && k.base + n <= k.stock
    requires forall m: nat :: k.base <= m < k.base + n ==> Room(cfg, k, k.base, m)
    ensures Reaches(cfg, s0, s') && Scene(cfg, k, s', 0, n)
  {
    if n == 0 {
      s' := s;
    } else {
      hide Reaches, Scene, Room;
      s' := LineUp(cfg, s0, k, s, n - 1);
      s' := SceneApproach(cfg, s0, k, s', 0, n - 1);
    }
  }

  /** And then all of them make it. */
  lemma {:induction false} LetGo(cfg: Config, s0: State, k: Cast, s: State, n: nat, lo: nat) returns (s': State)
    requires Reaches(cfg, s0, s) && Scene(cfg, k, s, 0, 0) && Calendar(cfg.monthStart)
    requires n <= cfg.workers && k.base + n <= k.stock && lo <= n
    requires forall m: nat :: k.base <= m < k.base + n ==> Room(cfg, k, k.base, m)
    ensures Reaches(cfg, s0, s') && Scene(cfg, k, s', lo, n)
  {
    hide Reaches, Scene, Room;
    if lo == 0 {
      s' := LineUp(cfg, s0, k, s, n);
    } else {
      s' := LetGo(cfg, s0, k, s, n, lo - 1);
      s' := SceneRecord(cfg, s0, k, s', lo - 1, n);
    }
  }

  /** A whole race of n workers at one instant. */
  lemma Race(cfg: Config, s0: State, k: Cast, s: State, n: nat) returns (s': State)
    requires Reaches(cfg, s0, s) && Scene(cfg, k, s, 0, 0) && Calendar(cfg.monthStart) && Timed(k)
    requires n <= cfg.workers && k.base + n <= k.stock
    requires forall m: nat :: k.base <= m < k.base + n ==> Room(cfg, k, k.base, m)
    ensures Reaches(cfg, s0, s') && Scene(cfg, Over(k, n), s', 0, 0)
  {
    s' := LetGo(cfg, s0, k, s, n, n);
    RaceIsOver(cfg, k, s', n);
  }

  /** The same instant's next day, or a later instant of the same day. */
  function Later(k: Cast, clock: Millis): Cast {
    k.(clock := clock, before := if DayOf(clock) == DayOf(k.clock) then k.before else k.base)
  }

  lemma Wait(cfg: Config, s0: State, k: Cast, s: State, clock: Millis) returns (s': State)
    requires Reaches(cfg, s0, s) && Scene(cfg, k, s, 0, 0) && k.clock <= clock
    requires cfg.monthStart(DayOf(clock)) == cfg.monthStart(DayOf(k.clock))
    ensures Reaches(cfg, s0, s') && Scene(cfg, Later(k, clock), s', 0, 0)
  {
    hide Reaches;
    var k' := Later(k, clock);
    s' := Step(s, Tick(clock));
    Then(cfg, s0, s, Tick(clock));
    forall m: MessageId | m < k.stock
      ensures MessageIs(k', s', m, k.base, k.base)
    {
      assert MessageIs(k, s, m, k.base, k.base);
    }
    forall w: Worker
      ensures PlaceIs(cfg, k', s', w, 0, 0)
    {
      assert PlaceIs(cfg, k, s, w, 0, 0);
    }
    assert DayOf(k.clock) <= DayOf(clock);
  }
}
