/** The fixed-window limiter: a Redis counter per merchant and clock hour, raised by a cached
    script that Redis may forget, with a time to live set on the first increment. A call reads
    the clock, and so chooses its hour, before it awaits the script: it may run when its
    hour's counter has already expired, and then it starts a new one. */
module RateLimiter {
  import opened Collections

  type MerchantId = nat
  type Millis = nat

  const HOUR_TTL_SECONDS: nat := 3600
  const HOUR_TTL_MS: nat := HOUR_TTL_SECONDS * 1000
  const HOUR_BUCKET_MS: nat := 3_600_000

  /** `ai:gen:rate:<merchantId>:<bucket>` */
  datatype Key = Key(merchant: MerchantId, bucket: nat)

  datatype Counter = Counter(count: nat, expiresAt: Millis)

  datatype Answer = Counted(allowed: bool, currentCount: nat) | NoScriptTwice

  /** One call: when it read the clock, when its script ran, and what came of it. */
  datatype Call = Call(key: Key, asked: Millis, ran: Millis, cap: int, count: nat, allowed: bool)

  function KeyAt(merchant: MerchantId, now: Millis): Key {
    Key(merchant, now / HOUR_BUCKET_MS)
  }

  // -------------------------------------------------------------- call history

  function CallsFor(log: seq<Call>, key: Key): nat {
    if log == [] then 0 else CallsFor(log[..|log| - 1], key) + (if log[|log| - 1].key == key then 1 else 0)
  }

  function AllowedFor(log: seq<Call>, key: Key): nat {
    if log == [] then 0
    else AllowedFor(log[..|log| - 1], key) + (if log[|log| - 1].key == key && log[|log| - 1].allowed then 1 else 0)
  }

  /** The counter that a key's calls have left, expired or not. */
  function CounterOf(log: seq<Call>, key: Key): Option<Counter> {
    if log == [] then None
    else
      var front, last := log[..|log| - 1], log[|log| - 1];
      var before := CounterOf(front, key);
      if last.key != key then before
      else if last.count == 1 || before.None? then Some(Counter(last.count, last.ran + HOUR_TTL_MS))
      else Some(Counter(last.count, before.value.expiresAt))
  }

  /** What the script answers to a key's next call. */
  function NextCount(log: seq<Call>, key: Key, ran: Millis): nat {
    var c := CounterOf(log, key);
    if c.Some? && c.value.expiresAt > ran then c.value.count + 1 else 1
  }

  /** The log as Redis and the comparison make it: scripts run in the order of the log, each
      after its own clock read, on the counter as it then stands. */
  ghost predicate Faithful(log: seq<Call>) {
    log == []
    || (var front, last := log[..|log| - 1], log[|log| - 1];
        && Faithful(front)
        && last.key == KeyAt(last.key.merchant, last.asked) && last.asked <= last.ran
        && (front == [] || front[|front| - 1].ran <= last.ran)
        && last.count == NextCount(front, last.key, last.ran)
        && (last.allowed <==> last.count <= last.cap))
  }

  ghost predicate RunBy(log: seq<Call>, clock: Millis) {
    log == [] || log[|log| - 1].ran <= clock
  }

  ghost predicate FixedCap(log: seq<Call>, merchant: MerchantId, cap: nat) {
    forall i :: 0 <= i < |log| && log[i].key.merchant == merchant ==> log[i].cap == cap
  }

  /** When the first call of a key ran. */
  function FirstRan(log: seq<Call>, key: Key): Option<Millis> {
    if log == [] then None
    else
      var before := FirstRan(log[..|log| - 1], key);
      if before.None? && log[|log| - 1].key == key then Some(log[|log| - 1].ran) else before
  }

  /** No call of the key ran when the counter of its first call had already expired. */
  ghost predicate Timely(log: seq<Call>, key: Key) {
    log == []
    || (var front, last := log[..|log| - 1], log[|log| - 1];
        && Timely(front, key)
        && (last.key == key && FirstRan(front, key).Some? ==> last.ran < FirstRan(front, key).value + HOUR_TTL_MS))
  }

  /** What Redis stores is the counter of the log, except that expired ones may be gone. */
  ghost predicate CounterOk(counters: map<Key, Counter>, log: seq<Call>, clock: Millis, key: Key) {
    && (key in counters ==> CounterOf(log, key) == Some(counters[key]))
    && (CounterOf(log, key).Some? && CounterOf(log, key).value.expiresAt > clock ==> key in counters)
  }

  ghost predicate Consistent(counters: map<Key, Counter>, log: seq<Call>, clock: Millis) {
    Faithful(log) && RunBy(log, clock) && forall key :: CounterOk(counters, log, clock, key)
  }

  lemma Appended(log: seq<Call>, call: Call)
    ensures (log + [call])[..|log + [call]| - 1] == log && (log + [call])[|log + [call]| - 1] == call
  {
  }

  /** A counted call leaves the counters telling the truth about the longer log. */
  lemma CallKeepsConsistent(counters: map<Key, Counter>, counters': map<Key, Counter>, log: seq<Call>,
                            clock: Millis, call: Call)
    requires Consistent(counters, log, clock) && clock <= call.ran
    requires call.key == KeyAt(call.key.merchant, call.asked) && call.asked <= call.ran
    requires call.count == NextCount(log, call.key, call.ran) && (call.allowed <==> call.count <= call.cap)
    requires CounterOf(log + [call], call.key).Some?
    requires counters' == counters[call.key := CounterOf(log + [call], call.key).value]
    ensures Consistent(counters', log + [call], call.ran)
  {
    Appended(log, call);
    forall key
      ensures CounterOk(counters', log + [call], call.ran, key)
    {
      assert CounterOk(counters, log, clock, key);
    }
  }

  class Redis {
    var counters: map<Key, Counter>
    var scriptLoaded: bool
    var shaCached: bool
    ghost var log: seq<Call>
    ghost var clock: Millis

    constructor ()
      ensures Valid() && log == []
    {
      counters, scriptLoaded, shaCached := map[], false, false;
      log, clock := [], 0;
    }

    ghost predicate Valid()
      reads this
    {
      Consistent(counters, log, clock)
    }

    /** Redis drops what has outlived its time to live, now or later. */
    method Expire(now: Millis, gone: set<Key>)
      requires Valid() && clock <= now
      requires forall key :: key in gone && key in counters ==> counters[key].expiresAt <= now
      modifies `counters, `clock
      ensures Valid() && clock == now
    {
      forall key
        ensures CounterOk(counters - gone, log, now, key)
      {
        assert CounterOk(counters, log, clock, key);
      }
      counters := counters - gone;
      clock := now;
    }

    /** SCRIPT FLUSH. */
    method ForgetScript()
      requires Valid()
      modifies `scriptLoaded
      ensures Valid() && !scriptLoaded
    {
      scriptLoaded := false;
    }

    /** The script, run atomically: INCR, and EXPIRE only for the first one. Within its hour a
        key's counter goes on from where it was and lives past the hour's end; once it has
        expired it starts over. */
    method IncrWithTtl(key: Key, now: Millis) returns (count: nat)
      requires Valid() && clock <= now && key.bucket * HOUR_BUCKET_MS <= now
      modifies `counters
      ensures count == NextCount(log, key, now)
      ensures now < (key.bucket + 1) * HOUR_BUCKET_MS ==> count == CallsFor(log, key) + 1
      ensures key in counters && counters == old(counters)[key := counters[key]] && counters[key].count == count
      ensures counters[key].expiresAt >= (key.bucket + 1) * HOUR_BUCKET_MS && counters[key].expiresAt > now
      ensures counters[key].expiresAt
              == if count == 1 then now + HOUR_TTL_MS else CounterOf(log, key).value.expiresAt
    {
      WithinItsHour(log, key, now);
      assert CounterOk(counters, log, clock, key);
      var live := key in counters && counters[key].expiresAt > now;
      count := if live then counters[key].count + 1 else 1;
      if count == 1 {
        counters := counters[key := Counter(1, now + HOUR_TTL_MS)];
      } else {
        counters := counters[key := counters[key].(count := count)];
      }
    }

    /** `evalIncrWithTtl` and the comparison, from the clock read at `asked` to the script run
        at `ran`, others' calls in between: load the script if it never was, reload it and
        retry once if Redis has forgotten it. `forgets` says whether it is forgotten before
        the first and before the second attempt. */
    method IncrementAndCheck(merchant: MerchantId, capPerHour: int, asked: Millis, ran: Millis,
                             forgets: (bool, bool)) returns (r: Answer)
      requires Valid() && clock <= ran && asked <= ran
      modifies this
      ensures Valid() && clock == ran
      ensures r.NoScriptTwice? <==> forgets.1 && (forgets.0 || (old(shaCached) && !old(scriptLoaded)))
      ensures r.NoScriptTwice? ==> log == old(log) && counters == old(counters)
      ensures r.Counted? ==>
                && log == old(log) + [Call(KeyAt(merchant, asked), asked, ran, capPerHour, r.currentCount, r.allowed)]
                && r.currentCount == NextCount(old(log), KeyAt(merchant, asked), ran)
                && (r.allowed <==> r.currentCount <= capPerHour)
    {
      hide Consistent, CallsFor;
      var key := KeyAt(merchant, asked);
      if !shaCached {
        scriptLoaded, shaCached := true, true;
      }
      if forgets.0 {
        scriptLoaded := false;
      }
      if !scriptLoaded {
        scriptLoaded := !forgets.1;
        if !scriptLoaded {
          Later(counters, log, clock, ran);
          clock := ran;
          return NoScriptTwice;
        }
      }
      ghost var before := counters;
      var count := IncrWithTtl(key, ran);
      r := Counted(count <= capPerHour, count);
      ghost var call := Call(key, asked, ran, capPerHour, count, count <= capPerHour);
      Appended(log, call);
      CallKeepsConsistent(before, counters, log, clock, call);
      log := log + [call];
      clock := ran;
    }
  }

  lemma Later(counters: map<Key, Counter>, log: seq<Call>, clock: Millis, now: Millis)
    requires Consistent(counters, log, clock) && clock <= now
    ensures Consistent(counters, log, now)
  {
    forall key
      ensures CounterOk(counters, log, now, key)
    {
      assert CounterOk(counters, log, clock, key);
    }
  }

  // ------------------------------------------------------------ what the counter is

  /** A key's counter never dates from before its hour, and counts since it was last started. */
  lemma {:induction false} CounterShape(log: seq<Call>, key: Key)
    requires Faithful(log)
    ensures CounterOf(log, key).Some? <==> CallsFor(log, key) > 0
    ensures FirstRan(log, key).Some? <==> CallsFor(log, key) > 0
    ensures CounterOf(log, key).Some? ==>
              && CounterOf(log, key).value.count >= 1
              && CounterOf(log, key).value.expiresAt >= (key.bucket + 1) * HOUR_BUCKET_MS
    ensures FirstRan(log, key).Some? ==> key.bucket * HOUR_BUCKET_MS <= FirstRan(log, key).value
    decreases |log|
  {
    if log != [] {
      CounterShape(log[..|log| - 1], key);
      InItsHour(log[|log| - 1]);
    }
  }

  lemma InItsHour(call: Call)
    requires call.key == KeyAt(call.key.merchant, call.asked) && call.asked <= call.ran
    ensures call.key.bucket * HOUR_BUCKET_MS <= call.asked < (call.key.bucket + 1) * HOUR_BUCKET_MS
    ensures call.ran + HOUR_TTL_MS >= (call.key.bucket + 1) * HOUR_BUCKET_MS
  {
  }

  /** As long as no call was late the counter counts all of the key's calls. */
  lemma {:induction false} TimelyCounter(log: seq<Call>, key: Key)
    requires Faithful(log) && Timely(log, key) && CallsFor(log, key) > 0
    ensures FirstRan(log, key).Some?
    ensures CounterOf(log, key) == Some(Counter(CallsFor(log, key), FirstRan(log, key).value + HOUR_TTL_MS))
    decreases |log|
  {
    var front := log[..|log| - 1];
    CounterShape(front, key);
    if CallsFor(front, key) > 0 { TimelyCounter(front, key); }
  }

  /** A call that runs before its hour is over is not late, nor was any before it. */
  lemma {:induction false} EarlyIsTimely(log: seq<Call>, key: Key, now: Millis)
    requires Faithful(log) && RunBy(log, now) && now < (key.bucket + 1) * HOUR_BUCKET_MS
    ensures Timely(log, key)
    decreases |log|
  {
    if log != [] {
      EarlyIsTimely(log[..|log| - 1], key, now);
      CounterShape(log[..|log| - 1], key);
    }
  }

  lemma WithinItsHour(log: seq<Call>, key: Key, now: Millis)
    requires Faithful(log) && RunBy(log, now) && key.bucket * HOUR_BUCKET_MS <= now
    ensures now < (key.bucket + 1) * HOUR_BUCKET_MS ==> NextCount(log, key, now) == CallsFor(log, key) + 1
    ensures CounterOf(log, key).Some? ==>
              CounterOf(log, key).value.count >= 1
              && CounterOf(log, key).value.expiresAt >= (key.bucket + 1) * HOUR_BUCKET_MS
    ensures now + HOUR_TTL_MS >= (key.bucket + 1) * HOUR_BUCKET_MS
  {
    CounterShape(log, key);
    if now < (key.bucket + 1) * HOUR_BUCKET_MS {
      EarlyIsTimely(log, key, now);
      if CallsFor(log, key) > 0 { TimelyCounter(log, key); }
    }
  }

  /** The counter never counts more than the key's calls, and fewer once one was late. */
  lemma {:induction false} CountAtMost(log: seq<Call>, key: Key)
    requires Faithful(log)
    ensures var counted := if CounterOf(log, key).Some? then CounterOf(log, key).value.count else 0;
            counted <= CallsFor(log, key) && (!Timely(log, key) ==> counted < CallsFor(log, key))
    decreases |log|
  {
    if log != [] {
      var front, last := log[..|log| - 1], log[|log| - 1];
      CountAtMost(front, key);
      CounterShape(front, key);
      if last.key == key && Timely(front, key) && CallsFor(front, key) > 0 { TimelyCounter(front, key); }
    }
  }

  // ----------------------------------------------------------------- theorems

  function Min(a: nat, b: nat): nat {
    if a <= b then a else b
  }

  /** A key's n-th call is allowed if and only if n is within the cap. */
  ghost predicate ExactlyFirst(log: seq<Call>, key: Key, cap: nat) {
    forall i :: 0 <= i < |log| && log[i].key == key ==> (log[i].allowed <==> CallsFor(log[..i + 1], key) <= cap)
  }

  /** The guarantee cannot fail: no late call, or too few calls, or a cap that lets none through. */
  ghost predicate Safe(log: seq<Call>, key: Key, cap: nat) {
    Timely(log, key) || CallsFor(log, key) <= cap || cap == 0
  }

  /** One more call of the key: its place, its count, and whether it is let through. */
  lemma LastCall(log: seq<Call>, key: Key, cap: nat)
    requires Faithful(log) && log != [] && log[|log| - 1].key == key && log[|log| - 1].cap == cap
    ensures var front, last := log[..|log| - 1], log[|log| - 1];
            && 1 <= last.count <= CallsFor(log, key)
            && (!Timely(front, key) ==> last.count < CallsFor(log, key))
            && (Timely(log, key) ==> last.count == CallsFor(log, key))
            && (Timely(front, key) && !Timely(log, key) ==> last.count == 1)
  {
    var front := log[..|log| - 1];
    CounterShape(front, key);
    CountAtMost(front, key);
    if Timely(front, key) && CallsFor(front, key) > 0 { TimelyCounter(front, key); }
  }

  /** Late calls let more through than the cap as soon as there are more calls than that. */
  lemma {:induction false} HowManyAllowed(log: seq<Call>, key: Key, cap: nat)
    requires Faithful(log) && FixedCap(log, key.merchant, cap)
    ensures Safe(log, key, cap) ==> AllowedFor(log, key) == Min(CallsFor(log, key), cap)
    ensures !Safe(log, key, cap) ==> AllowedFor(log, key) > cap
    ensures !Timely(log, key) && cap > 0 ==> AllowedFor(log, key) >= Min(CallsFor(log, key), cap + 1)
    decreases |log|
  {
    if log != [] {
      var front, last := log[..|log| - 1], log[|log| - 1];
      assert forall i :: 0 <= i < |front| ==> front[i] == log[i];
      HowManyAllowed(front, key, cap);
      if last.key == key { LastCall(log, key, cap); }
    }
  }

  lemma {:induction false} FirstOnes(log: seq<Call>, key: Key, cap: nat)
    requires ExactlyFirst(log, key, cap)
    ensures AllowedFor(log, key) == Min(CallsFor(log, key), cap)
    decreases |log|
  {
    if log != [] {
      var front := log[..|log| - 1];
      forall i | 0 <= i < |front| && front[i].key == key
        ensures front[i].allowed <==> CallsFor(front[..i + 1], key) <= cap
      {
        assert front[..i + 1] == log[..i + 1] && front[i] == log[i];
      }
      FirstOnes(front, key, cap);
      assert log[..|log|] == log && log[|log| - 1] == log[|log| - 1];
    }
  }

  lemma {:induction false} SafeMeansFirst(log: seq<Call>, key: Key, cap: nat)
    requires Faithful(log) && FixedCap(log, key.merchant, cap) && Safe(log, key, cap)
    ensures ExactlyFirst(log, key, cap)
    decreases |log|
  {
    if log != [] {
      var front, n := log[..|log| - 1], |log|;
      assert forall i :: 0 <= i < |front| ==> front[i] == log[i];
      SafeMeansFirst(front, key, cap);
      if log[n - 1].key == key { LastCall(log, key, cap); }
      forall i | 0 <= i < n && log[i].key == key
        ensures log[i].allowed <==> CallsFor(log[..i + 1], key) <= cap
      {
        if i < n - 1 {
          assert front[i] == log[i] && front[..i + 1] == log[..i + 1];
        } else {
          assert log[..n] == log;
        }
      }
    }
  }

  /** Exactly the first min(cap, calls) calls of a merchant's hour are allowed if and only if
      no call ran 3600 seconds after the first one or later, the calls are within the cap
      anyway, or the cap is zero; otherwise more than the cap are let through. */
  lemma ExactlyTheFirstIff(log: seq<Call>, key: Key, cap: nat)
    requires Faithful(log) && FixedCap(log, key.merchant, cap)
    ensures ExactlyFirst(log, key, cap) <==> Safe(log, key, cap)
    ensures AllowedFor(log, key) == Min(CallsFor(log, key), cap) <==> Safe(log, key, cap)
  {
    HowManyAllowed(log, key, cap);
    if Safe(log, key, cap) {
      SafeMeansFirst(log, key, cap);
    } else if ExactlyFirst(log, key, cap) {
      FirstOnes(log, key, cap);
    }
  }

  /** Calls whose scripts run before their hour is over are never late. */
  lemma {:induction false} InTimeIsTimely(log: seq<Call>, key: Key)
    requires Faithful(log)
    requires forall i :: 0 <= i < |log| && log[i].key == key ==> log[i].ran < (key.bucket + 1) * HOUR_BUCKET_MS
    ensures Timely(log, key)
    decreases |log|
  {
    if log != [] {
      var front := log[..|log| - 1];
      assert forall i :: 0 <= i < |front| ==> front[i] == log[i];
      assert log[|log| - 1].key == key ==> log[|log| - 1].ran < (key.bucket + 1) * HOUR_BUCKET_MS;
      InTimeIsTimely(front, key);
      CounterShape(front, key);
    }
  }

  /** The merchant's calls let through of those that read the clock in a closed interval. */
  function AllowedBetween(log: seq<Call>, merchant: MerchantId, start: Millis, end: Millis): nat {
    if log == [] then 0
    else
      var c := log[|log| - 1];
      AllowedBetween(log[..|log| - 1], merchant, start, end)
      + (if c.key.merchant == merchant && c.allowed && start <= c.asked <= end then 1 else 0)
  }

  lemma {:induction false} WindowTouchesTwo(log: seq<Call>, merchant: MerchantId, start: Millis, end: Millis)
    requires Faithful(log) && start <= end <= start + HOUR_BUCKET_MS
    ensures var first := start / HOUR_BUCKET_MS;
            AllowedBetween(log, merchant, start, end)
            <= AllowedFor(log, Key(merchant, first)) + AllowedFor(log, Key(merchant, first + 1))
    decreases |log|
  {
    if log != [] {
      WindowTouchesTwo(log[..|log| - 1], merchant, start, end);
      var c := log[|log| - 1];
      if start <= c.asked <= end { TwoHours(start, c.asked); }
    }
  }

  lemma TwoHours(start: Millis, at: Millis)
    requires start <= at <= start + HOUR_BUCKET_MS
    ensures at / HOUR_BUCKET_MS in {start / HOUR_BUCKET_MS, start / HOUR_BUCKET_MS + 1}
  {
  }

  /** No window of at most an hour, wherever it lies, lets more than twice the cap through, if
      neither of the hours it touches has a late call. */
  lemma WindowAdmitsTwiceTheCap(log: seq<Call>, merchant: MerchantId, cap: nat, start: Millis, end: Millis)
    requires Faithful(log) && FixedCap(log, merchant, cap) && start <= end <= start + HOUR_BUCKET_MS
    requires var first := start / HOUR_BUCKET_MS;
             Safe(log, Key(merchant, first), cap) && Safe(log, Key(merchant, first + 1), cap)
    ensures AllowedBetween(log, merchant, start, end) <= 2 * cap
  {
    var first := start / HOUR_BUCKET_MS;
    WindowTouchesTwo(log, merchant, start, end);
    HowManyAllowed(log, Key(merchant, first), cap);
    HowManyAllowed(log, Key(merchant, first + 1), cap);
  }

  // ------------------------------------------------------------------ late calls

  /** From reading the clock to running the script no call takes longer than this. */
  ghost predicate Prompt(log: seq<Call>, delay: nat) {
    forall i :: 0 <= i < |log| ==> log[i].ran - log[i].asked <= delay
  }

  /** Logs of one merchant under one cap. */
  ghost predicate Possible(log: seq<Call>, merchant: MerchantId, cap: nat, delay: nat) {
    Faithful(log) && FixedCap(log, merchant, cap) && Prompt(log, delay)
  }

  /** n more calls of a merchant at one instant, on a counter that is fresh or has expired. */
  lemma {:induction false} Burst(log: seq<Call>, merchant: MerchantId, cap: nat, delay: nat, asked: Millis,
                                 ran: Millis, n: nat) returns (log': seq<Call>)
    requires Possible(log, merchant, cap, delay) && RunBy(log, ran) && asked <= ran <= asked + delay && n <= cap
    requires NextCount(log, KeyAt(merchant, asked), ran) == 1
    ensures Possible(log', merchant, cap, delay) && RunBy(log', ran)
    ensures n > 0 ==> var c := CounterOf(log', KeyAt(merchant, asked)); c == Some(Counter(n, ran + HOUR_TTL_MS))
    ensures n == 0 ==> log' == log
    ensures forall key :: key != KeyAt(merchant, asked) ==> CounterOf(log', key) == CounterOf(log, key)
    ensures forall key :: CallsFor(log', key) == CallsFor(log, key) + (if key == KeyAt(merchant, asked) then n else 0)
    ensures forall key ::
              AllowedFor(log', key) == AllowedFor(log, key) + (if key == KeyAt(merchant, asked) then n else 0)
    ensures forall start: Millis, end: Millis :: AllowedBetween(log', merchant, start, end)
              == AllowedBetween(log, merchant, start, end) + (if start <= asked <= end then n else 0)
  {
    if n == 0 {
      log' := log;
    } else {
      var rest := Burst(log, merchant, cap, delay, asked, ran, n - 1);
      var call := Call(KeyAt(merchant, asked), asked, ran, cap, n, true);
      log' := rest + [call];
      Appended(rest, call);
    }
  }

  /** The late call: an hour's calls up to the cap at its start, the same again at its end but
      run when the first counter has just expired, and those of the next hour. */
  lemma LateCalls(merchant: MerchantId, cap: nat, delay: nat) returns (log: seq<Call>)
    requires cap >= 1 && delay >= 1
    ensures Possible(log, merchant, cap, delay)
    ensures AllowedFor(log, Key(merchant, 0)) == CallsFor(log, Key(merchant, 0)) == 2 * cap
    ensures AllowedBetween(log, merchant, 0, HOUR_BUCKET_MS) == 3 * cap
  {
    log := Burst([], merchant, cap, delay, 0, 0, cap);
    log := Burst(log, merchant, cap, delay, HOUR_BUCKET_MS - 1, HOUR_BUCKET_MS, cap);
    log := Burst(log, merchant, cap, delay, HOUR_BUCKET_MS, HOUR_BUCKET_MS, cap);
  }

  lemma AtOnceIsTimely(log: seq<Call>, key: Key)
    requires Faithful(log) && Prompt(log, 0)
    ensures Timely(log, key)
  {
    forall i | 0 <= i < |log| && log[i].key == key
      ensures log[i].ran < (key.bucket + 1) * HOUR_BUCKET_MS
    {
      EachInItsHour(log, i);
    }
    InTimeIsTimely(log, key);
  }

  lemma {:induction false} EachInItsHour(log: seq<Call>, i: nat)
    requires Faithful(log) && i < |log|
    ensures log[i].asked < (log[i].key.bucket + 1) * HOUR_BUCKET_MS && log[i].asked <= log[i].ran
    decreases |log|
  {
    if i < |log| - 1 {
      EachInItsHour(log[..|log| - 1], i);
    } else {
      InItsHour(log[i]);
    }
  }

  /** So both guarantees hold of every log in which calls take at most so long, if and only if
      a call takes no time at all from its clock read to its script, or the cap is zero. */
  lemma GuaranteesIff(merchant: MerchantId, cap: nat, delay: nat)
    ensures (forall log, key: Key :: Possible(log, merchant, cap, delay) && key.merchant == merchant ==>
               ExactlyFirst(log, key, cap))
            <==> cap == 0 || delay == 0
    ensures (forall log, start: Millis, end: Millis ::
               Possible(log, merchant, cap, delay) && start <= end <= start + HOUR_BUCKET_MS ==>
                 AllowedBetween(log, merchant, start, end) <= 2 * cap)
            <==> cap == 0 || delay == 0
  {
    if cap == 0 || delay == 0 {
      forall log, key: Key | Possible(log, merchant, cap, delay) && key.merchant == merchant
        ensures Safe(log, key, cap)
        ensures ExactlyFirst(log, key, cap)
      {
        if delay == 0 { AtOnceIsTimely(log, key); }
        ExactlyTheFirstIff(log, key, cap);
      }
      forall log, start: Millis, end: Millis
        | Possible(log, merchant, cap, delay) && start <= end <= start + HOUR_BUCKET_MS
        ensures AllowedBetween(log, merchant, start, end) <= 2 * cap
      {
        assert Safe(log, Key(merchant, start / HOUR_BUCKET_MS), cap);
        WindowAdmitsTwiceTheCap(log, merchant, cap, start, end);
      }
    } else {
      var log := LateCalls(merchant, cap, delay);
      if ExactlyFirst(log, Key(merchant, 0), cap) {
        FirstOnes(log, Key(merchant, 0), cap);
      }
      assert AllowedBetween(log, merchant, 0, HOUR_BUCKET_MS) > 2 * cap;
    }
  }
}
