/** The exact maximum of one customer's messages on a day. Races of all N workers, a cooldown
    apart from each other, fill the day until the ration or a cap is reached, and the last race
    goes N - 1 above it. */
module RationPeak {
  import opened Collections
  import opened Tables
  import opened Machine
  import opened SendLedger
  import opened Steady
  import opened Frequency
  import opened Scenes
  import opened Races
  import opened CapPeaks
  import opened RationBound

  /** From one race to the next: the first millisecond past the cooldown. */
  function Pause(cfg: Config, merchant: MerchantId): int {
    CooldownMs(cfg, merchant) + 1
  }

  /** How many races a day has time for, if there is a cooldown. */
  function Slots(cfg: Config, merchant: MerchantId): nat
    requires CooldownMs(cfg, merchant) >= 0
  {
    (MS_PER_DAY - 1) / Pause(cfg, merchant) + 1
  }

  /** The smallest of the ration and the two caps. */
  function Tightest(cfg: Config, merchant: MerchantId): int {
    var settings := cfg.settings(merchant);
    Min(Min(settings.dailySendCap, settings.monthlySendsCap), settings.maxDailySendsPerCustomer)
  }

  /** The most that one customer is sent on a day in any steady run. */
  function CustomerPeak(cfg: Config, merchant: MerchantId): int {
    var most := Tightest(cfg, merchant) + cfg.workers - 1;
    if !CanSend(cfg, merchant) then 0
    else if CooldownMs(cfg, merchant) < 0 then most
    else Min(most, cfg.workers * Slots(cfg, merchant))
  }

  // ------------------------------------------------------------- up to the peak

  /** All messages go to one customer, and the clock is on the day of the opening. */
  ghost predicate OneCustomer(cfg: Config, k: Cast, customer: CustomerId) {
    && (forall m :: k.customer(m) == customer)
    && k.before == 0 && DayOf(k.since) == DayOf(k.clock)
  }

  /** The next race can begin: the cooldown since the last one is over, if there was one. */
  predicate Rested(cfg: Config, k: Cast) {
    k.base == 0 || k.last < k.clock - CooldownMs(cfg, k.merchant)
  }

  /** A race of n workers, all of them for the one customer. */
  lemma RaceForOne(cfg: Config, s0: State, k: Cast, s: State, customer: CustomerId, n: nat)
    returns (k': Cast, s': State)
    requires Reaches(cfg, s0, s) && Scene(cfg, k, s, 0, 0) && Calendar(cfg.monthStart) && Timed(k)
    requires CanSend(cfg, k.merchant) && OneCustomer(cfg, k, customer) && Rested(cfg, k)
    requires n <= cfg.workers && k.base + n <= k.stock && k.base < Tightest(cfg, k.merchant)
    ensures Reaches(cfg, s0, s') && Scene(cfg, k', s', 0, 0) && k' == Over(k, n) && Timed(k')
    ensures OneCustomer(cfg, k', customer)
  {
    hide Reaches, Scene;
    forall m: nat | k.base <= m < k.base + n
      ensures Room(cfg, k, k.base, m)
    {
    }
    s' := Race(cfg, s0, k, s, n);
    k' := Over(k, n);
  }

  /** The instant of the i-th race of a day. */
  function SlotAt(cfg: Config, merchant: MerchantId, day: Day, i: nat): Millis {
    day * MS_PER_DAY + i * Pause(cfg, merchant)
  }

  lemma SlotIsToday(cfg: Config, merchant: MerchantId, day: Day, i: nat)
    requires CooldownMs(cfg, merchant) >= 0 && i < Slots(cfg, merchant)
    ensures DayOf(SlotAt(cfg, merchant, day, i)) == day
  {
    var pause := Pause(cfg, merchant);
    assert i <= (MS_PER_DAY - 1) / pause;
    assert i * pause <= (MS_PER_DAY - 1) / pause * pause <= MS_PER_DAY - 1;
  }

  /** The first i races of the day are over, of n workers each, and the next can begin. */
  lemma {:induction false} FullRaces(cfg: Config, merchant: MerchantId, customer: CustomerId, day: Day, stock: nat,
                                     i: nat) returns (k: Cast, s: State)
    requires Calendar(cfg.monthStart) && CanSend(cfg, merchant)
    requires CooldownMs(cfg, merchant) >= 0 && i < Slots(cfg, merchant)
    requires i * cfg.workers <= stock && (i > 0 ==> (i - 1) * cfg.workers < Tightest(cfg, merchant))
    ensures Reaches(cfg, Init(day * MS_PER_DAY), s) && Scene(cfg, k, s, 0, 0) && Timed(k)
    ensures k.merchant == merchant && k.stock == stock && k.base == i * cfg.workers
    ensures k.clock == SlotAt(cfg, merchant, day, i) && OneCustomer(cfg, k, customer) && Rested(cfg, k)
    ensures DayOf(k.clock) == day
    decreases i
  {
    SlotIsToday(cfg, merchant, day, i);
    if i == 0 {
      k := First(merchant, (m: MessageId) => customer, stock, day * MS_PER_DAY);
      s := Opening(cfg, k);
    } else {
      hide Reaches, Scene;
      assert i * cfg.workers == (i - 1) * cfg.workers + cfg.workers;
      k, s := FullRaces(cfg, merchant, customer, day, stock, i - 1);
      k, s := RaceForOne(cfg, Init(day * MS_PER_DAY), k, s, customer, cfg.workers);
      k, s := NextSlot(cfg, merchant, customer, day, k, s, i);
    }
  }

  lemma NextSlot(cfg: Config, merchant: MerchantId, customer: CustomerId, day: Day, k: Cast, s: State, i: nat)
    returns (k': Cast, s': State)
    requires Reaches(cfg, Init(day * MS_PER_DAY), s) && Scene(cfg, k, s, 0, 0) && Timed(k)
    requires k.merchant == merchant && OneCustomer(cfg, k, customer) && k.last == k.clock
    requires CooldownMs(cfg, merchant) >= 0 && 0 < i < Slots(cfg, merchant)
    requires k.clock == SlotAt(cfg, merchant, day, i - 1) && DayOf(k.clock) == day
    ensures Reaches(cfg, Init(day * MS_PER_DAY), s') && Scene(cfg, k', s', 0, 0) && Timed(k')
    ensures k' == k.(clock := SlotAt(cfg, merchant, day, i))
    ensures OneCustomer(cfg, k', customer) && Rested(cfg, k') && DayOf(k'.clock) == day
  {
    var next := SlotAt(cfg, merchant, day, i);
    SlotIsToday(cfg, merchant, day, i);
    assert next == k.clock + Pause(cfg, merchant);
    s' := Wait(cfg, Init(day * MS_PER_DAY), k, s, next);
    k' := Races.Later(k, next);
  }

  /** Without a cooldown they can all be sent at midnight, one by one. */
  lemma {:induction false} OneByOne(cfg: Config, merchant: MerchantId, customer: CustomerId, day: Day, stock: nat,
                                    n: nat) returns (k: Cast, s: State)
    requires Calendar(cfg.monthStart) && CanSend(cfg, merchant) && CooldownMs(cfg, merchant) < 0
    requires n <= stock && n <= Tightest(cfg, merchant)
    ensures Reaches(cfg, Init(day * MS_PER_DAY), s) && Scene(cfg, k, s, 0, 0) && Timed(k)
    ensures k.merchant == merchant && k.stock == stock && k.base == n && k.clock == day * MS_PER_DAY
    ensures OneCustomer(cfg, k, customer) && Rested(cfg, k)
    decreases n
  {
    if n == 0 {
      k := First(merchant, (m: MessageId) => customer, stock, day * MS_PER_DAY);
      s := Opening(cfg, k);
    } else {
      hide Reaches, Scene;
      k, s := OneByOne(cfg, merchant, customer, day, stock, n - 1);
      k, s := RaceForOne(cfg, Init(day * MS_PER_DAY), k, s, customer, 1);
    }
  }

  lemma CustomerPeakScene(cfg: Config, merchant: MerchantId, customer: CustomerId, day: Day) returns (k: Cast, s: State)
    requires Calendar(cfg.monthStart) && CanSend(cfg, merchant)
    ensures Reaches(cfg, Init(day * MS_PER_DAY), s) && Scene(cfg, k, s, 0, 0)
    ensures k.merchant == merchant && k.base == k.stock == CustomerPeak(cfg, merchant)
    ensures OneCustomer(cfg, k, customer) && DayOf(k.clock) == day && Timed(k)
  {
    hide Reaches, Scene;
    var tight, peak := Tightest(cfg, merchant), CustomerPeak(cfg, merchant);
    var s0 := Init(day * MS_PER_DAY);
    if CooldownMs(cfg, merchant) < 0 {
      k, s := OneByOne(cfg, merchant, customer, day, peak, tight - 1);
      k, s := RaceForOne(cfg, s0, k, s, customer, cfg.workers);
    } else if cfg.workers * Slots(cfg, merchant) <= tight + cfg.workers - 1 {
      var last := Slots(cfg, merchant) - 1;
      LastSlot(cfg.workers, Slots(cfg, merchant));
      if last > 0 { LastSlot(cfg.workers, last); }
      k, s := FullRaces(cfg, merchant, customer, day, peak, last);
      k, s := RaceForOne(cfg, s0, k, s, customer, cfg.workers);
    } else {
      var n, r := Divide(tight - 1, cfg.workers);
      SlotsAreThere(cfg.workers, Slots(cfg, merchant), n, r);
      if n > 0 { LastSlot(cfg.workers, n); }
      k, s := FullRaces(cfg, merchant, customer, day, peak, n);
      k, s := RaceForOne(cfg, s0, k, s, customer, r);
      k, s := NextSlot(cfg, merchant, customer, day, k, s, n + 1);
      k, s := RaceForOne(cfg, s0, k, s, customer, cfg.workers);
    }
  }

  lemma LastSlot(n: nat, slots: nat)
    requires slots > 0
    ensures n * slots == (slots - 1) * n + n
  {
  }

  /** With room for more than the peak there are slots for it. */
  lemma SlotsAreThere(workers: nat, slots: nat, n: nat, r: nat)
    requires workers >= 1 && workers * slots > n * workers + r + workers
    ensures n + 1 < slots
  {
    Multiples(slots, n + 1, workers);
    assert (n + 1) * workers == n * workers + workers;
  }

  /** Everything sent by then was sent to the customer on the day. */
  lemma AllSentToday(cfg: Config, k: Cast, s: State, customer: CustomerId, day: Day)
    requires Scene(cfg, k, s, 0, 0) && k.base == k.stock && Timed(k)
    requires OneCustomer(cfg, k, customer) && DayOf(k.clock) == day
    ensures |SentOn(s.t, k.merchant, customer, day)| == k.base
  {
    var all := FirstIds(k.base);
    forall m: MessageId
      ensures m in SentOn(s.t, k.merchant, customer, day) <==> m in all
    {
      if m in s.t.messages {
        assert MessageIs(k, s, m, k.base, k.base);
        if m < k.base { SameDay(k.since, s.t.messages[m].sentAt.value, k.clock); }
      }
    }
    assert SentOn(s.t, k.merchant, customer, day) == all;
  }

  lemma SameDay(from: Millis, at: Millis, to: Millis)
    requires from <= at <= to && DayOf(from) == DayOf(to)
    ensures DayOf(at) == DayOf(to)
  {
  }

  function FirstIds(n: nat): (ids: set<MessageId>)
    ensures |ids| == n && forall m: MessageId :: m in ids <==> m < n
  {
    if n == 0 then {} else FirstIds(n - 1) + {n - 1}
  }

  lemma CustomerPeakIsReached(cfg: Config, merchant: MerchantId, customer: CustomerId, day: Day)
    returns (es: seq<Event>)
    requires Calendar(cfg.monthStart)
    ensures SteadyRun(cfg, Init(day * MS_PER_DAY), es)
    ensures |SentOn(Run(Init(day * MS_PER_DAY), es).t, merchant, customer, day)| == CustomerPeak(cfg, merchant)
  {
    if CanSend(cfg, merchant) {
      var k, s := CustomerPeakScene(cfg, merchant, customer, day);
      AllSentToday(cfg, k, s, customer, day);
      es :| SteadyRun(cfg, Init(day * MS_PER_DAY), es) && Run(Init(day * MS_PER_DAY), es) == s;
    } else {
      es := [];
      assert SentOn(Init(day * MS_PER_DAY).t, merchant, customer, day) == {};
    }
  }

  // ------------------------------------------------------------- and no further

  /** A customer's messages of a day are within the merchant's bucket of the day. */
  lemma WithinBucket(cfg: Config, clock: Millis, es: seq<Event>, merchant: MerchantId, customer: CustomerId, day: Day)
    requires SteadyRun(cfg, Init(clock), es)
    ensures |SentOn(Run(Init(clock), es).t, merchant, customer, day)| <= QuotaOn(Run(Init(clock), es).t, merchant, day)
  {
    var s := Run(Init(clock), es);
    RunKeepsRation(cfg, clock, es);
    assert BucketOk(s, BucketKey(merchant, day));
    forall m | m in SentOn(s.t, merchant, customer, day)
      ensures m in Recorded(s.past.sentLog, BucketKey(merchant, day))
    {
      assert SendOnce.RowsAgree(s.t, m) && LedgerRow(s, m);
    }
    SubsetSize(SentOn(s.t, merchant, customer, day), Recorded(s.past.sentLog, BucketKey(merchant, day)));
  }

  /** The day's messages up to the i-th slot. */
  function SentUpTo(cfg: Config, t: Tables, merchant: MerchantId, customer: CustomerId, day: Day,
                    i: nat): set<MessageId> {
    set m | m in SentOn(t, merchant, customer, day) && t.messages[m].sentAt.value < SlotAt(cfg, merchant, day, i)
  }

  /** Each slot of the day is a stretch of the cooldown's length. */
  lemma {:induction false} SlotsCover(cfg: Config, clock: Millis, es: seq<Event>, merchant: MerchantId,
                                      customer: CustomerId, day: Day, i: nat)
    requires SteadyRun(cfg, Init(clock), es) && CooldownMs(cfg, merchant) >= 0
    ensures |SentUpTo(cfg, Run(Init(clock), es).t, merchant, customer, day, i)| <= cfg.workers * i
    decreases i
  {
    var t := Run(Init(clock), es).t;
    if i == 0 {
      assert SentUpTo(cfg, t, merchant, customer, day, 0) == {};
    } else {
      SlotsCover(cfg, clock, es, merchant, customer, day, i - 1);
      var from := SlotAt(cfg, merchant, day, i - 1);
      StretchHolds(cfg, clock, es, merchant, customer, from);
      OneMoreSlot(cfg, t, merchant, customer, day, i);
      LastSlot(cfg.workers, i);
    }
  }

  lemma OneMoreSlot(cfg: Config, t: Tables, merchant: MerchantId, customer: CustomerId, day: Day, i: nat)
    requires i > 0 && CooldownMs(cfg, merchant) >= 0
    ensures var from := SlotAt(cfg, merchant, day, i - 1);
            |SentUpTo(cfg, t, merchant, customer, day, i)|
            <= |SentUpTo(cfg, t, merchant, customer, day, i - 1)|
               + |SentIn(cfg, t, Scope(merchant, customer, Stretch(from)))|
  {
    var from := SlotAt(cfg, merchant, day, i - 1);
    assert SlotAt(cfg, merchant, day, i) == from + Pause(cfg, merchant);
    var before := SentUpTo(cfg, t, merchant, customer, day, i - 1);
    var now := SentIn(cfg, t, Scope(merchant, customer, Stretch(from)));
    SubsetSize(SentUpTo(cfg, t, merchant, customer, day, i), before + now);
    UnionAtMost(before, now);
  }

  lemma UnionAtMost(a: set<MessageId>, b: set<MessageId>)
    ensures |a + b| <= |a| + |b|
  {
    assert a + b == a + (b - a);
    SubsetSize(b - a, b);
  }

  lemma AllSlots(cfg: Config, t: Tables, merchant: MerchantId, customer: CustomerId, day: Day)
    requires CooldownMs(cfg, merchant) >= 0
    ensures SentUpTo(cfg, t, merchant, customer, day, Slots(cfg, merchant)) == SentOn(t, merchant, customer, day)
  {
    var pause := Pause(cfg, merchant);
    assert Slots(cfg, merchant) * pause == (MS_PER_DAY - 1) / pause * pause + pause > MS_PER_DAY - 1;
  }

  lemma NoCustomerAbovePeak(cfg: Config, clock: Millis, es: seq<Event>, merchant: MerchantId, customer: CustomerId,
                            day: Day)
    requires Calendar(cfg.monthStart) && SteadyRun(cfg, Init(clock), es)
    ensures |SentOn(Run(Init(clock), es).t, merchant, customer, day)| <= CustomerPeak(cfg, merchant)
  {
    WithinBucket(cfg, clock, es, merchant, customer, day);
    NoDayAbovePeak(cfg, clock, es, merchant, day);
    DayHolds(cfg, clock, es, merchant, customer, day);
    if CooldownMs(cfg, merchant) >= 0 {
      SlotsCover(cfg, clock, es, merchant, customer, day, Slots(cfg, merchant));
      AllSlots(cfg, Run(Init(clock), es).t, merchant, customer, day);
    }
  }

  /** The customer's peak is exact: no steady run sends a customer more on a day, and on every
      day some run sends that many. */
  lemma CustomerPeakIsExact(cfg: Config, merchant: MerchantId, customer: CustomerId, day: Day)
    requires Calendar(cfg.monthStart)
    ensures forall clock, es :: SteadyRun(cfg, Init(clock), es) ==>
              |SentOn(Run(Init(clock), es).t, merchant, customer, day)| <= CustomerPeak(cfg, merchant)
    ensures exists clock, es :: SteadyRun(cfg, Init(clock), es)
              && |SentOn(Run(Init(clock), es).t, merchant, customer, day)| == CustomerPeak(cfg, merchant)
  {
    forall clock, es | SteadyRun(cfg, Init(clock), es)
      ensures |SentOn(Run(Init(clock), es).t, merchant, customer, day)| <= CustomerPeak(cfg, merchant)
    {
      NoCustomerAbovePeak(cfg, clock, es, merchant, customer, day);
    }
    var es := CustomerPeakIsReached(cfg, merchant, customer, day);
    assert SteadyRun(cfg, Init(day * MS_PER_DAY), es);
  }

  /** So a day never holds more of a customer's messages than the ration if and only if there
      is one worker at most, nothing can be sent at all, a cap stops the workers in time, or the
      cooldown leaves no time for more. */
  lemma RationKeptIff(cfg: Config, merchant: MerchantId, customer: CustomerId, day: Day)
    requires Calendar(cfg.monthStart)
    ensures var settings, n := cfg.settings(merchant), cfg.workers;
            var ration := settings.maxDailySendsPerCustomer;
            (forall clock, es :: SteadyRun(cfg, Init(clock), es) ==>
               WithinCap(|SentOn(Run(Init(clock), es).t, merchant, customer, day)|, ration))
            <==> n <= 1 || !CanSend(cfg, merchant)
                 || Min(settings.dailySendCap, settings.monthlySendsCap) + n - 1 <= ration
                 || (CooldownMs(cfg, merchant) >= 0 && n * Slots(cfg, merchant) <= ration)
  {
    var ration, peak := cfg.settings(merchant).maxDailySendsPerCustomer, CustomerPeak(cfg, merchant);
    CustomerPeakIsExact(cfg, merchant, customer, day);
    if peak == 0 || peak <= ration {
      forall clock, es | SteadyRun(cfg, Init(clock), es)
        ensures WithinCap(|SentOn(Run(Init(clock), es).t, merchant, customer, day)|, ration)
      {
      }
    } else {
      var clock, es :| SteadyRun(cfg, Init(clock), es)
                       && |SentOn(Run(Init(clock), es).t, merchant, customer, day)| == peak;
      assert !WithinCap(|SentOn(Run(Init(clock), es).t, merchant, customer, day)|, ration);
    }
  }
}
