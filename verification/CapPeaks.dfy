/** The exact maxima of the send quota. N workers that pass the gates together take a day N - 1
    above its cap, and a month too, if its days have room for that many; nothing takes either
    any higher. So the caps are kept in every run exactly under the conditions stated here. */
module CapPeaks {
  import opened Collections
  import opened Tables
  import opened Machine
  import opened Steady
  import opened QuotaBound
  import opened Scenes
  import opened Races

  function Min(a: int, b: int): int {
    if a <= b then a else b
  }

  /** The settings let the merchant send at all. */
  predicate CanSend(cfg: Config, merchant: MerchantId) {
    var settings := cfg.settings(merchant);
    && cfg.workers >= 1 && settings.dailySendCap >= 1 && settings.monthlySendsCap >= 1
    && settings.maxDailySendsPerCustomer >= 1
  }

  /** The most that any day's bucket comes to in any steady run. */
  function Peak(cfg: Config, merchant: MerchantId): int {
    var settings := cfg.settings(merchant);
    if CanSend(cfg, merchant) then Min(settings.dailySendCap, settings.monthlySendsCap) + cfg.workers - 1 else 0
  }

  // ------------------------------------------------------------- up to the peak

  /** Every message goes to a customer of its own. */
  ghost predicate Strangers(k: Cast) {
    forall m :: k.customer(m) == m
  }

  /** Worker 0 alone sends the next n messages. */
  lemma {:induction false} SendInTurn(cfg: Config, s0: State, k: Cast, s: State, n: nat) returns (k': Cast, s': State)
    requires Reaches(cfg, s0, s) && Scene(cfg, k, s, 0, 0) && Calendar(cfg.monthStart)
    requires CanSend(cfg, k.merchant) && Strangers(k) && Timed(k)
    requires k.base + n <= k.stock && k.base + n - k.before <= cfg.settings(k.merchant).dailySendCap
    requires k.base + n <= cfg.settings(k.merchant).monthlySendsCap
    ensures Reaches(cfg, s0, s') && Scene(cfg, k', s', 0, 0)
    ensures k' == k.(base := k.base + n, last := k'.last) && Timed(k')
    decreases n
  {
    if n == 0 {
      k', s' := k, s;
    } else {
      hide Reaches, Scene;
      k', s' := SendInTurn(cfg, s0, k, s, n - 1);
      assert Room(cfg, k', k'.base, k'.base);
      s' := Race(cfg, s0, k', s', 1);
      k' := Over(k', 1);
    }
  }

  /** A day's sends: n in turn, and then a race of b workers. */
  lemma DaySends(cfg: Config, s0: State, k: Cast, s: State, n: nat, b: nat) returns (k': Cast, s': State)
    requires Reaches(cfg, s0, s) && Scene(cfg, k, s, 0, 0) && Calendar(cfg.monthStart)
    requires CanSend(cfg, k.merchant) && Strangers(k) && Timed(k) && b <= cfg.workers
    requires k.base + n + b <= k.stock && k.base + n - k.before < cfg.settings(k.merchant).dailySendCap
    requires k.base + n < cfg.settings(k.merchant).monthlySendsCap
    ensures Reaches(cfg, s0, s') && Scene(cfg, k', s', 0, 0)
    ensures k' == k.(base := k.base + n + b, last := k'.last) && Timed(k')
  {
    hide Reaches, Scene;
    k', s' := SendInTurn(cfg, s0, k, s, n);
    assert forall m: nat :: k'.base <= m < k'.base + b ==> Room(cfg, k', k'.base, m);
    s' := Race(cfg, s0, k', s', b);
    k' := Over(k', b);
  }

  /** The opening of a day at midnight, with nothing sent. */
  lemma DayBegins(cfg: Config, merchant: MerchantId, day: Day, stock: nat) returns (k: Cast, s: State)
    ensures k == First(merchant, (m: MessageId) => m, stock, day * MS_PER_DAY)
    ensures Reaches(cfg, Init(k.clock), s) && Scene(cfg, k, s, 0, 0) && Strangers(k) && DayOf(k.clock) == day
  {
    k := First(merchant, (m: MessageId) => m, stock, day * MS_PER_DAY);
    s := Opening(cfg, k);
  }

  /** A steady run whose bucket ends at the peak: all workers read the usage just below the
      cap before any of them raises it. */
  lemma PeakIsReached(cfg: Config, merchant: MerchantId, day: Day) returns (clock: Millis, es: seq<Event>)
    requires Calendar(cfg.monthStart)
    ensures SteadyRun(cfg, Init(clock), es) && QuotaOn(Run(Init(clock), es).t, merchant, day) == Peak(cfg, merchant)
  {
    clock := day * MS_PER_DAY;
    if CanSend(cfg, merchant) {
      var n := Peak(cfg, merchant);
      var k, s := DayBegins(cfg, merchant, day, n);
      k, s := DaySends(cfg, Init(clock), k, s, n - cfg.workers, cfg.workers);
      BucketsRead(cfg, k, s.t, n);
      es :| SteadyRun(cfg, Init(clock), es) && Run(Init(clock), es) == s;
    } else {
      es := [];
    }
  }

  // ------------------------------------------------------------- and no further

  /** Who gets to a send at all has workers and a ration. */
  predicate MaySend(cfg: Config, merchant: MerchantId) {
    cfg.workers >= 1 && cfg.settings(merchant).maxDailySendsPerCustomer >= 1
  }

  predicate PassedRation(cfg: Config, pc: Pc) {
    pc.Starting? || pc.InSend? || pc.Completing? ==> MaySend(cfg, pc.pass.job.merchant)
  }

  ghost predicate RationInv(cfg: Config, s: State) {
    && (forall w :: PassedRation(cfg, PcOf(s, w)))
    && (forall m :: m in s.past.sentLog ==> MaySend(cfg, s.past.sentLog[m].merchant))
  }

  lemma StepKeepsRation(cfg: Config, s: State, e: Event)
    requires ClockInv(cfg, s) && RationInv(cfg, s) && StepOk(cfg, s, e)
    ensures RationInv(cfg, Step(s, e))
  {
    var s' := Step(s, e);
    if e.Dispatch? {
      DispatchAdvances(s, e.w, e.move);
      DispatchRecords(s, e.w, e.move);
      assert PassedRation(cfg, PcOf(s, e.w)) && TimesOk(cfg, s, PcOf(s, e.w));
    } else {
      OthersRecordNothing(s, e);
    }
    hide Step, DispatchStep;
    forall w
      ensures PassedRation(cfg, PcOf(s', w))
    {
      assert PassedRation(cfg, PcOf(s, w));
    }
  }

  lemma {:induction false} RunKeepsRation(cfg: Config, clock: Millis, es: seq<Event>)
    requires SteadyRun(cfg, Init(clock), es)
    ensures Sound(cfg, Run(Init(clock), es)) && RationInv(cfg, Run(Init(clock), es))
    decreases |es|
  {
    if es == [] {
      InitSound(cfg, clock);
    } else {
      hide Sound, RationInv;
      RunKeepsRation(cfg, clock, es[..|es| - 1]);
      OneMoreSteady(cfg, Run(Init(clock), es[..|es| - 1]), es[|es| - 1]);
    }
  }

  lemma OneMoreSteady(cfg: Config, s: State, e: Event)
    requires Sound(cfg, s) && RationInv(cfg, s) && StepOk(cfg, s, e)
    ensures Sound(cfg, Step(s, e)) && RationInv(cfg, Step(s, e))
  {
    StepKeepsSound(cfg, s, e);
    StepKeepsRation(cfg, s, e);
  }

  /** Whoever has a send on record could send: workers, a ration and both caps. */
  lemma SendersCanSend(cfg: Config, clock: Millis, es: seq<Event>, m: MessageId)
    requires Calendar(cfg.monthStart) && SteadyRun(cfg, Init(clock), es)
    requires m in Run(Init(clock), es).past.sentLog
    ensures CanSend(cfg, Run(Init(clock), es).past.sentLog[m].merchant)
  {
    var s := Run(Init(clock), es);
    var r := s.past.sentLog[m];
    RunKeepsRation(cfg, clock, es);
    RunKeepsQuota(cfg, Daily, clock, es);
    RunKeepsQuota(cfg, Monthly, clock, es);
    assert m in Counted(cfg, Daily, s.past.sentLog, r.merchant, DayOf(r.at));
    assert m in Counted(cfg, Monthly, s.past.sentLog, r.merchant, cfg.monthStart(DayOf(r.at)));
    assert Bounded(cfg, Daily, s, r.merchant, DayOf(r.at));
    assert Bounded(cfg, Monthly, s, r.merchant, cfg.monthStart(DayOf(r.at)));
  }

  lemma NoDayAbovePeak(cfg: Config, clock: Millis, es: seq<Event>, merchant: MerchantId, day: Day)
    requires Calendar(cfg.monthStart) && SteadyRun(cfg, Init(clock), es)
    ensures QuotaOn(Run(Init(clock), es).t, merchant, day) <= Peak(cfg, merchant)
  {
    var s := Run(Init(clock), es);
    var p := cfg.monthStart(day);
    RunKeepsQuota(cfg, Daily, clock, es);
    RunKeepsQuota(cfg, Monthly, clock, es);
    DayReadCounts(cfg, s, merchant, day);
    var today := Counted(cfg, Daily, s.past.sentLog, merchant, day);
    var month := Counted(cfg, Monthly, s.past.sentLog, merchant, p);
    if today != {} {
      var m :| m in today;
      SendersCanSend(cfg, clock, es, m);
      SubsetSize(today, month);
      assert m in month;
      assert Bounded(cfg, Daily, s, merchant, day) && Bounded(cfg, Monthly, s, merchant, p);
    }
  }

  /** The peak is exact: no steady run takes any day's bucket above it, and on every day some
      steady run gets there. */
  lemma PeakIsExact(cfg: Config, merchant: MerchantId, day: Day)
    requires Calendar(cfg.monthStart)
    ensures forall clock, es :: SteadyRun(cfg, Init(clock), es) ==>
              QuotaOn(Run(Init(clock), es).t, merchant, day) <= Peak(cfg, merchant)
    ensures exists clock, es :: SteadyRun(cfg, Init(clock), es)
                                && QuotaOn(Run(Init(clock), es).t, merchant, day) == Peak(cfg, merchant)
  {
    forall clock, es | SteadyRun(cfg, Init(clock), es)
      ensures QuotaOn(Run(Init(clock), es).t, merchant, day) <= Peak(cfg, merchant)
    {
      NoDayAbovePeak(cfg, clock, es, merchant, day);
    }
    var clock, es := PeakIsReached(cfg, merchant, day);
    assert SteadyRun(cfg, Init(clock), es) && QuotaOn(Run(Init(clock), es).t, merchant, day) == Peak(cfg, merchant);
  }

  /** So the daily cap is never exceeded if and only if there is one worker at most, nothing
      can be sent at all, or the monthly cap is so low that it stops the workers in time. */
  lemma DailyCapKeptIff(cfg: Config, merchant: MerchantId, day: Day)
    requires Calendar(cfg.monthStart)
    ensures var cap := cfg.settings(merchant).dailySendCap;
            (forall clock, es :: SteadyRun(cfg, Init(clock), es) ==>
               WithinCap(QuotaOn(Run(Init(clock), es).t, merchant, day), cap))
            <==> cfg.workers <= 1 || !CanSend(cfg, merchant)
                 || cfg.settings(merchant).monthlySendsCap + cfg.workers - 1 <= cap
  {
    var cap := cfg.settings(merchant).dailySendCap;
    if Peak(cfg, merchant) <= cap || Peak(cfg, merchant) == 0 {
      forall clock, es | SteadyRun(cfg, Init(clock), es)
        ensures WithinCap(QuotaOn(Run(Init(clock), es).t, merchant, day), cap)
      {
        NoDayAbovePeak(cfg, clock, es, merchant, day);
        BucketIsNotNegative(cfg, clock, es, merchant, day);
      }
    } else {
      var clock, es := PeakIsReached(cfg, merchant, day);
      assert !WithinCap(QuotaOn(Run(Init(clock), es).t, merchant, day), cap);
    }
  }

  lemma BucketIsNotNegative(cfg: Config, clock: Millis, es: seq<Event>, merchant: MerchantId, day: Day)
    requires SteadyRun(cfg, Init(clock), es)
    ensures QuotaOn(Run(Init(clock), es).t, merchant, day) >= 0
  {
    RunKeepsRation(cfg, clock, es);
    DayReadCounts(cfg, Run(Init(clock), es), merchant, day);
  }

  // ------------------------------------------------------------------ the month

  predicate InMonth(cfg: Config, month: Day, i: nat) {
    cfg.monthStart(month + i) == month
  }

  /** The month that begins on this day has so many days; None: it never ends. */
  ghost predicate MonthLasts(cfg: Config, month: Day, days: Option<nat>) {
    if days.None? then forall i: nat :: InMonth(cfg, month, i)
    else !InMonth(cfg, month, days.value) && forall i: nat :: i < days.value ==> InMonth(cfg, month, i)
  }

  lemma {:induction false} MonthEnds(cfg: Config, month: Day, i: nat) returns (days: nat)
    requires !InMonth(cfg, month, i)
    ensures MonthLasts(cfg, month, Some(days))
    decreases i
  {
    if j: nat :| j < i && !InMonth(cfg, month, j) {
      days := MonthEnds(cfg, month, j);
    } else {
      days := i;
    }
  }

  lemma MonthHasLength(cfg: Config, month: Day)
    ensures exists days :: MonthLasts(cfg, month, days)
  {
    if i: nat :| !InMonth(cfg, month, i) {
      var days := MonthEnds(cfg, month, i);
    } else {
      assert MonthLasts(cfg, month, None);
    }
  }

  /** The most that a day takes. */
  function FullDay(cfg: Config, merchant: MerchantId): int {
    cfg.settings(merchant).dailySendCap + cfg.workers - 1
  }

  /** The most that a month of so many days comes to in any steady run. */
  function MonthPeak(cfg: Config, merchant: MerchantId, days: Option<nat>): int {
    var most := cfg.settings(merchant).monthlySendsCap + cfg.workers - 1;
    if !CanSend(cfg, merchant) then 0
    else if days.None? then most
    else Min(most, days.value * FullDay(cfg, merchant))
  }

  /** The first n days of the month, each of them full, and the midnight after them. */
  lemma {:induction false} FullDays(cfg: Config, merchant: MerchantId, month: Day, stock: nat, n: nat)
    returns (k: Cast, s: State)
    requires Calendar(cfg.monthStart) && CanSend(cfg, merchant)
    requires forall i: nat :: i <= n ==> InMonth(cfg, month, i)
    requires n * FullDay(cfg, merchant) <= stock
    requires n > 0 ==> n * FullDay(cfg, merchant) - cfg.workers < cfg.settings(merchant).monthlySendsCap
    ensures Reaches(cfg, Init(month * MS_PER_DAY), s) && Scene(cfg, k, s, 0, 0)
    ensures k == Cast(merchant, k.customer, stock, (month + n) * MS_PER_DAY, n * FullDay(cfg, merchant),
                      n * FullDay(cfg, merchant), k.since, k.last)
    ensures Strangers(k) && Timed(k) && DayOf(k.clock) == month + n
    decreases n
  {
    if n == 0 {
      k, s := DayBegins(cfg, merchant, month, stock);
    } else {
      hide Reaches, Scene;
      var full := FullDay(cfg, merchant);
      assert n * full == (n - 1) * full + full;
      k, s := FullDays(cfg, merchant, month, stock, n - 1);
      k, s := DaySends(cfg, Init(month * MS_PER_DAY), k, s, cfg.settings(merchant).dailySendCap - 1, cfg.workers);
      k, s := NextDay(cfg, month, k, s, n);
    }
  }

  lemma NextDay(cfg: Config, month: Day, k: Cast, s: State, n: nat) returns (k': Cast, s': State)
    requires Reaches(cfg, Init(month * MS_PER_DAY), s) && Scene(cfg, k, s, 0, 0) && Strangers(k)
    requires n > 0 && k.clock == (month + n - 1) * MS_PER_DAY && Timed(k)
    requires InMonth(cfg, month, n) && InMonth(cfg, month, n - 1)
    ensures Reaches(cfg, Init(month * MS_PER_DAY), s') && Scene(cfg, k', s', 0, 0)
    ensures k' == k.(clock := (month + n) * MS_PER_DAY, before := k.base) && DayOf(k'.clock) == month + n && Timed(k')
  {
    s' := Wait(cfg, Init(month * MS_PER_DAY), k, s, (month + n) * MS_PER_DAY);
    k' := Later(k, (month + n) * MS_PER_DAY);
  }

  /** The month's last sends: on day n, n full days behind it, c in turn and then b together. */
  lemma LastDay(cfg: Config, merchant: MerchantId, month: Day, n: nat, c: nat, b: nat) returns (k: Cast, s: State)
    requires Calendar(cfg.monthStart) && CanSend(cfg, merchant) && b <= cfg.workers
    requires forall i: nat :: i <= n ==> InMonth(cfg, month, i)
    requires c < cfg.settings(merchant).dailySendCap
    requires n * FullDay(cfg, merchant) + c < cfg.settings(merchant).monthlySendsCap
    ensures Reaches(cfg, Init(month * MS_PER_DAY), s) && Scene(cfg, k, s, 0, 0)
    ensures k.merchant == merchant && k.base == n * FullDay(cfg, merchant) + c + b && Timed(k)
    ensures Strangers(k) && k.clock == (month + n) * MS_PER_DAY && k.stock == k.base + cfg.workers
  {
    hide Reaches, Scene;
    assert n * FullDay(cfg, merchant) >= 0;
    k, s := FullDays(cfg, merchant, month, n * FullDay(cfg, merchant) + c + b + cfg.workers, n);
    k, s := DaySends(cfg, Init(month * MS_PER_DAY), k, s, c, b);
  }

  /** The peak of the month: full days as long as the monthly cap has room for another send,
      and at the last moment all workers together. */
  lemma MonthPeakScene(cfg: Config, merchant: MerchantId, month: Day, days: Option<nat>) returns (k: Cast, s: State)
    requires Calendar(cfg.monthStart) && CanSend(cfg, merchant) && cfg.monthStart(month) == month
    requires MonthLasts(cfg, month, days)
    ensures Reaches(cfg, Init(month * MS_PER_DAY), s) && Scene(cfg, k, s, 0, 0)
    ensures k.merchant == merchant && k.base == MonthPeak(cfg, merchant, days)
    ensures cfg.monthStart(DayOf(k.clock)) == month
  {
    hide Reaches, Scene, Calendar;
    var full, cap := FullDay(cfg, merchant), cfg.settings(merchant).monthlySendsCap;
    assert InMonth(cfg, month, 0);
    if days.Some? && days.value * full <= cap + cfg.workers - 1 {
      OneLess(days.value, full);
      k, s := LastDay(cfg, merchant, month, days.value - 1, cfg.settings(merchant).dailySendCap - 1, cfg.workers);
      assert InMonth(cfg, month, days.value - 1);
    } else {
      var n, r := Divide(cap - 1, full);
      DayIsThere(cfg, merchant, month, days, n, r);
      k, s := LastRace(cfg, merchant, month, n, r);
    }
  }

  /** One send short of the monthly cap, all workers come up together. */
  lemma LastRace(cfg: Config, merchant: MerchantId, month: Day, n: nat, r: nat) returns (k: Cast, s: State)
    requires Calendar(cfg.monthStart) && CanSend(cfg, merchant)
    requires r < FullDay(cfg, merchant)
    requires n * FullDay(cfg, merchant) + r == cfg.settings(merchant).monthlySendsCap - 1
    requires forall i: nat :: i <= n ==> InMonth(cfg, month, i)
    requires r >= cfg.settings(merchant).dailySendCap ==> InMonth(cfg, month, n + 1)
    ensures Reaches(cfg, Init(month * MS_PER_DAY), s) && Scene(cfg, k, s, 0, 0)
    ensures k.merchant == merchant && k.base == cfg.settings(merchant).monthlySendsCap + cfg.workers - 1
    ensures cfg.monthStart(DayOf(k.clock)) == month
  {
    hide Reaches, Scene, Calendar;
    var day := cfg.settings(merchant).dailySendCap;
    assert InMonth(cfg, month, n);
    if r < day {
      k, s := LastDay(cfg, merchant, month, n, r, cfg.workers);
    } else {
      k, s := LastDay(cfg, merchant, month, n, day - 1, r - day + 1);
      k, s := NextDay(cfg, month, k, s, n + 1);
      k, s := DaySends(cfg, Init(month * MS_PER_DAY), k, s, 0, cfg.workers);
    }
  }

  /** A month with room for more than the peak has the days to reach it on. */
  lemma DayIsThere(cfg: Config, merchant: MerchantId, month: Day, days: Option<nat>, n: nat, r: nat)
    requires CanSend(cfg, merchant) && MonthLasts(cfg, month, days)
    requires var cap := cfg.settings(merchant).monthlySendsCap;
             && n * FullDay(cfg, merchant) + r == cap - 1
             && (days.Some? ==> days.value * FullDay(cfg, merchant) > cap + cfg.workers - 1)
    ensures forall i: nat :: i <= n ==> InMonth(cfg, month, i)
    ensures r >= cfg.settings(merchant).dailySendCap ==> InMonth(cfg, month, n + 1)
  {
    if days.Some? {
      var full := FullDay(cfg, merchant);
      var l := days.value;
      assert n * full + r + cfg.workers < l * full && (n + 1) * full == n * full + full;
      Multiples(l, n, full);
      Multiples(l, n + 1, full);
    }
  }

  lemma OneLess(a: nat, full: nat)
    ensures a * full == (a - 1) * full + full
  {
  }

  lemma Divide(a: nat, full: nat) returns (n: nat, r: nat)
    requires full >= 1
    ensures n * full + r == a && r < full
  {
    n, r := a / full, a % full;
  }

  lemma Multiples(a: nat, b: nat, full: nat)
    ensures a <= b ==> a * full <= b * full
  {
  }

  lemma MonthPeakIsReached(cfg: Config, merchant: MerchantId, month: Day, days: Option<nat>) returns (es: seq<Event>)
    requires Calendar(cfg.monthStart) && cfg.monthStart(month) == month && MonthLasts(cfg, month, days)
    ensures SteadyRun(cfg, Init(month * MS_PER_DAY), es)
    ensures MonthTotal(cfg, Run(Init(month * MS_PER_DAY), es).t, merchant, month) == MonthPeak(cfg, merchant, days)
  {
    var clock := month * MS_PER_DAY;
    if CanSend(cfg, merchant) {
      var k, s := MonthPeakScene(cfg, merchant, month, days);
      BucketsRead(cfg, k, s.t, k.base);
      es :| SteadyRun(cfg, Init(clock), es) && Run(Init(clock), es) == s;
    } else {
      es := [];
      MonthCounts(cfg, clock, es, merchant, month);
    }
  }

  lemma MonthCounts(cfg: Config, clock: Millis, es: seq<Event>, merchant: MerchantId, month: Day)
    requires Calendar(cfg.monthStart) && SteadyRun(cfg, Init(clock), es)
    ensures MonthTotal(cfg, Run(Init(clock), es).t, merchant, month) >= 0
    ensures !CanSend(cfg, merchant) ==> MonthTotal(cfg, Run(Init(clock), es).t, merchant, month) == 0
  {
    var s := Run(Init(clock), es);
    RunKeepsRation(cfg, clock, es);
    MonthTotalCounts(cfg, s, merchant, month);
    var sent := Counted(cfg, Monthly, s.past.sentLog, merchant, month);
    if sent != {} {
      var m :| m in sent;
      SendersCanSend(cfg, clock, es, m);
    }
  }

  /** A month has at most as many buckets as days. */
  lemma FewBuckets(cfg: Config, q: map<BucketKey, int>, merchant: MerchantId, month: Day, days: nat)
    requires Calendar(cfg.monthStart) && cfg.monthStart(month) == month && MonthLasts(cfg, month, Some(days))
    requires forall b :: b in q ==> b.merchant == merchant && cfg.monthStart(b.day) == month
    ensures |q| <= days
  {
    var offsets := set b | b in q :: b.day - month;
    forall b | b in q
      ensures 0 <= b.day - month < days
    {
      assert month <= b.day && !InMonth(cfg, month, days);
      assert month <= cfg.monthStart(month + days);
      assert month + days <= b.day ==> cfg.monthStart(month + days) <= cfg.monthStart(b.day);
    }
    OffsetsAreBuckets(q.Keys, merchant, month, offsets);
    SizeBelow(offsets, days);
  }

  lemma {:induction false} OffsetsAreBuckets(keys: set<BucketKey>, merchant: MerchantId, month: Day, offsets: set<int>)
    requires forall b :: b in keys ==> b.merchant == merchant
    requires offsets == set b | b in keys :: b.day - month
    ensures |keys| == |offsets|
    decreases |keys|
  {
    if keys != {} {
      var b :| b in keys;
      OffsetsAreBuckets(keys - {b}, merchant, month, offsets - {b.day - month});
    }
  }

  lemma NoMonthAbovePeak(cfg: Config, clock: Millis, es: seq<Event>, merchant: MerchantId, month: Day,
                         days: Option<nat>)
    requires Calendar(cfg.monthStart) && SteadyRun(cfg, Init(clock), es)
    requires cfg.monthStart(month) == month && MonthLasts(cfg, month, days)
    ensures MonthTotal(cfg, Run(Init(clock), es).t, merchant, month) <= MonthPeak(cfg, merchant, days)
  {
    hide Run, MonthTotal, SteadyRun, Calendar;
    MonthCounts(cfg, clock, es, merchant, month);
    if CanSend(cfg, merchant) {
      MonthlyCapHolds(cfg, clock, es, merchant, month);
      assert days.Some? ==> 0 <= days.value * FullDay(cfg, merchant);
      if days.Some? { DaysAddUp(cfg, clock, es, merchant, month, days.value); }
    }
  }

  lemma DaysAddUp(cfg: Config, clock: Millis, es: seq<Event>, merchant: MerchantId, month: Day, days: nat)
    requires Calendar(cfg.monthStart) && SteadyRun(cfg, Init(clock), es) && CanSend(cfg, merchant)
    requires cfg.monthStart(month) == month && MonthLasts(cfg, month, Some(days))
    ensures MonthTotal(cfg, Run(Init(clock), es).t, merchant, month) <= days * FullDay(cfg, merchant)
  {
    hide Run, SteadyRun, Calendar, MonthLasts;
    var t := Run(Init(clock), es).t;
    var full := FullDay(cfg, merchant);
    var q := map b | b in t.quota && b.merchant == merchant && cfg.monthStart(b.day) == month :: t.quota[b];
    forall b | b in q
      ensures q[b] <= full
    {
      NoDayAbovePeak(cfg, clock, es, merchant, b.day);
      assert q[b] == QuotaOn(t, merchant, b.day);
    }
    SumAtMost(q, full);
    FewBuckets(cfg, q, merchant, month, days);
    assert full * |q| <= days * full;
  }

  /** The month's peak is exact: no steady run takes the month above it, and some run reaches it. */
  lemma MonthPeakIsExact(cfg: Config, merchant: MerchantId, month: Day, days: Option<nat>)
    requires Calendar(cfg.monthStart) && cfg.monthStart(month) == month && MonthLasts(cfg, month, days)
    ensures forall clock, es :: SteadyRun(cfg, Init(clock), es) ==>
              MonthTotal(cfg, Run(Init(clock), es).t, merchant, month) <= MonthPeak(cfg, merchant, days)
    ensures exists clock, es :: SteadyRun(cfg, Init(clock), es)
              && MonthTotal(cfg, Run(Init(clock), es).t, merchant, month) == MonthPeak(cfg, merchant, days)
  {
    forall clock, es | SteadyRun(cfg, Init(clock), es)
      ensures MonthTotal(cfg, Run(Init(clock), es).t, merchant, month) <= MonthPeak(cfg, merchant, days)
    {
      NoMonthAbovePeak(cfg, clock, es, merchant, month, days);
    }
    var es := MonthPeakIsReached(cfg, merchant, month, days);
    assert SteadyRun(cfg, Init(month * MS_PER_DAY), es);
  }

  /** So the monthly cap is never exceeded if and only if there is one worker at most, nothing
      can be sent at all, or even full days do not fill the month. */
  lemma MonthlyCapKeptIff(cfg: Config, merchant: MerchantId, month: Day, days: Option<nat>)
    requires Calendar(cfg.monthStart) && cfg.monthStart(month) == month && MonthLasts(cfg, month, days)
    ensures var cap := cfg.settings(merchant).monthlySendsCap;
            (forall clock, es :: SteadyRun(cfg, Init(clock), es) ==>
               WithinCap(MonthTotal(cfg, Run(Init(clock), es).t, merchant, month), cap))
            <==> cfg.workers <= 1 || !CanSend(cfg, merchant)
                 || (days.Some? && days.value * (cfg.settings(merchant).dailySendCap + cfg.workers - 1) <= cap)
  {
    hide Run, MonthTotal, SteadyRun, Calendar, MonthLasts;
    var cap, peak := cfg.settings(merchant).monthlySendsCap, MonthPeak(cfg, merchant, days);
    MonthPeakIsExact(cfg, merchant, month, days);
    if peak == 0 || peak <= cap {
      forall clock, es | SteadyRun(cfg, Init(clock), es)
        ensures WithinCap(MonthTotal(cfg, Run(Init(clock), es).t, merchant, month), cap)
      {
        MonthCounts(cfg, clock, es, merchant, month);
      }
    } else {
      var clock, es :| SteadyRun(cfg, Init(clock), es)
                       && MonthTotal(cfg, Run(Init(clock), es).t, merchant, month) == peak;
      assert !WithinCap(MonthTotal(cfg, Run(Init(clock), es).t, merchant, month), cap);
    }
  }
}
