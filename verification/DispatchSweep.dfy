/** `runDispatchSweep`: the scheduler selects the live merchants with an active email campaign
    and passes over each. Arm 1 queues drafts that have no target yet. Arm 2 goes over the deferred
    targets: too old, expire; campaign no longer active, resolve; otherwise queue again. */
module DispatchSweep {
  import opened Collections
  import opened Tables
  import opened Repositories

  const MAX_DISPATCH_AGE_MS: int := 3 * 24 * 60 * 60 * 1000
  const DEFAULT_DISPATCH_TAKE: nat := 500

  /** The columns of a merchant and of a campaign that the selection reads. */
  datatype Shop = Shop(uninstalled: bool, tokenRevoked: bool)

  datatype CampaignRow = CampaignRow(merchant: MerchantId, active: bool, email: bool)

  /** Merchants, campaigns, and for each message the campaign arm 1 would pick for it. */
  datatype Accounts = Accounts(
    shops: map<MerchantId, Shop>,
    campaigns: map<CampaignId, CampaignRow>,
    matching: map<MessageId, CampaignId>
  )

  predicate Live(a: Accounts, merchant: MerchantId) {
    merchant in a.shops && !a.shops[merchant].uninstalled && !a.shops[merchant].tokenRevoked
  }

  predicate HasActiveEmail(a: Accounts, merchant: MerchantId) {
    exists c :: c in a.campaigns && a.campaigns[c] == CampaignRow(merchant, true, true)
  }

  /** The merchants the sweep selects. */
  function Visited(a: Accounts): set<MerchantId> {
    set merchant | merchant in a.shops && Live(a, merchant) && HasActiveEmail(a, merchant)
  }

  lemma VisitedAre(a: Accounts)
    ensures forall merchant :: merchant in Visited(a) <==>
              && merchant in a.shops && !a.shops[merchant].uninstalled && !a.shops[merchant].tokenRevoked
              && exists c :: c in a.campaigns && a.campaigns[c].merchant == merchant
                             && a.campaigns[c].active && a.campaigns[c].email
  {
    forall merchant
      ensures HasActiveEmail(a, merchant) <==>
              exists c :: c in a.campaigns && a.campaigns[c].merchant == merchant
                          && a.campaigns[c].active && a.campaigns[c].email
    {
      if c :| c in a.campaigns && a.campaigns[c].merchant == merchant && a.campaigns[c].active && a.campaigns[c].email {
        assert a.campaigns[c] == CampaignRow(merchant, true, true);
      }
    }
  }

  function CampaignsOf(a: Accounts): Campaigns {
    Campaigns((set c | c in a.campaigns && a.campaigns[c].active), a.matching)
  }

  /** What a merchant's pass reads of campaigns and customers: the active campaigns, and for each
      message the oldest active email campaign its trigger state matches, if its customer
      is not deleted. */
  datatype Campaigns = Campaigns(active: set<CampaignId>, matching: map<MessageId, CampaignId>)

  /** Why arm 2 resolves a deferred target, age first. None: it is queued again. */
  function Verdict(r: Target, now: Millis, active: set<CampaignId>): Option<Reason> {
    if now - r.createdAt > MAX_DISPATCH_AGE_MS then Some(DeferredStale)
    else if r.campaign !in active then Some(CampaignPaused)
    else None
  }

  function DeferredOf(t: Tables, merchant: MerchantId): set<MessageId> {
    set m | m in t.targets && t.targets[m].merchant == merchant && t.targets[m].status == Deferred
  }

  /** Deferred targets of a merchant on which the sweep passes a given verdict. */
  function Judged(t: Tables, merchant: MerchantId, now: Millis, active: set<CampaignId>,
                  verdict: Option<Reason>): set<MessageId> {
    set m | m in DeferredOf(t, merchant) && Verdict(t.targets[m], now, active) == verdict
  }

  /** Arm 1's candidates: drafts with a completed, non-empty text, a matching campaign and no target. */
  function FreshOf(t: Tables, merchant: MerchantId, c: Campaigns): set<MessageId> {
    set m | m in t.messages && m in c.matching && m in t.generations && m !in t.targets
         && t.messages[m].merchant == merchant && t.messages[m].status == Draft && t.messages[m].generatedText != ""
         && t.generations[m].status == GenerationCompleted && t.generations[m].merchant == merchant
  }

  /** The jobs of one merchant's pass: picked drafts and re-entering targets. */
  function JobsOf(t: Tables, merchant: MerchantId, now: Millis, c: Campaigns, drafts: set<MessageId>): set<Job>
    requires drafts <= FreshOf(t, merchant, c)
  {
    (set m | m in drafts :: Job(merchant, m, c.matching[m], t.messages[m].customer))
    + (set m | m in Judged(t, merchant, now, c.active, None)
         :: Job(merchant, m, t.targets[m].campaign, t.targets[m].customer))
  }

  /** One message's rows, judged or not yet: both move to suppressed together, or neither moves. */
  predicate RowSwept(t0: Tables, t: Tables, m: MessageId, done: bool, now: Millis, active: set<CampaignId>) {
    var verdict := if m in t0.targets && done then Verdict(t0.targets[m], now, active) else None;
    && (m in t.targets <==> m in t0.targets) && (m in t.messages <==> m in t0.messages)
    && (m in t0.targets ==>
          t.targets[m] == if verdict.Some? then t0.targets[m].(status := Suppressed, suppressedByGate := verdict)
                          else t0.targets[m])
    && (m in t0.messages ==>
          t.messages[m] == if verdict.Some? && t0.messages[m].status == Draft
                           then t0.messages[m].(status := MessageSuppressed) else t0.messages[m])
  }

  /** The rows once `done` of the merchant's deferred targets have been judged. */
  ghost predicate SweptUpTo(t0: Tables, t: Tables, done: set<MessageId>, now: Millis, active: set<CampaignId>) {
    && t == t0.(targets := t.targets, messages := t.messages)
    && forall m :: RowSwept(t0, t, m, m in done, now, active)
  }

  lemma JudgementSweeps(t0: Tables, t: Tables, m: MessageId, done: set<MessageId>, now: Millis,
                        active: set<CampaignId>)
    requires SweptUpTo(t0, t, done, now, active)
    requires m in t0.targets && t0.targets[m].status == Deferred && m !in done
    ensures var verdict := Verdict(t0.targets[m], now, active);
            SweptUpTo(t0, if verdict.Some? then ResolveTerminal(t, m, verdict.value, Suppressed).0 else t,
                      done + {m}, now, active)
  {
    var verdict := Verdict(t0.targets[m], now, active);
    var t' := if verdict.Some? then ResolveTerminal(t, m, verdict.value, Suppressed).0 else t;
    forall k
      ensures RowSwept(t0, t', k, k in done + {m}, now, active)
    {
      assert RowSwept(t0, t, k, k in done, now, active);
    }
  }

  /** The deferred targets of some merchants. */
  function DeferredAmong(t: Tables, merchants: set<MerchantId>): set<MessageId> {
    set m | m in t.targets && t.targets[m].merchant in merchants && t.targets[m].status == Deferred
  }

  /** The deferred targets of some merchants that are older than three days, whatever their campaign. */
  function StaleAmong(t: Tables, merchants: set<MerchantId>, now: Millis): set<MessageId> {
    set m | m in t.targets && t.targets[m].merchant in merchants && t.targets[m].status == Deferred
         && now - t.targets[m].createdAt > 3 * MS_PER_DAY
  }

  /** Those that are not, and whose campaign is not active. */
  function PausedAmong(t: Tables, merchants: set<MerchantId>, now: Millis, active: set<CampaignId>): set<MessageId> {
    set m | m in t.targets && t.targets[m].merchant in merchants && t.targets[m].status == Deferred
         && now - t.targets[m].createdAt <= 3 * MS_PER_DAY && t.targets[m].campaign !in active
  }

  /** Those that are not, and whose campaign is. */
  function KeptAmong(t: Tables, merchants: set<MerchantId>, now: Millis, active: set<CampaignId>): set<MessageId> {
    set m | m in t.targets && t.targets[m].merchant in merchants && t.targets[m].status == Deferred
         && now - t.targets[m].createdAt <= 3 * MS_PER_DAY && t.targets[m].campaign in active
  }

  /** What a sweep of some merchants makes of the rows: stale targets expire, whatever their
      campaign, paused ones are resolved as that, their drafts follow, and all else stays. */
  ghost predicate ExpiredAs(t0: Tables, t: Tables, merchants: set<MerchantId>, now: Millis, active: set<CampaignId>) {
    var stale, paused := StaleAmong(t0, merchants, now), PausedAmong(t0, merchants, now, active);
    && t == t0.(targets := t.targets, messages := t.messages)
    && t.targets.Keys == t0.targets.Keys && t.messages.Keys == t0.messages.Keys
    && (forall m :: m in stale ==>
          t.targets[m] == t0.targets[m].(status := Suppressed, suppressedByGate := Some(DeferredStale)))
    && (forall m :: m in paused ==>
          t.targets[m] == t0.targets[m].(status := Suppressed, suppressedByGate := Some(CampaignPaused)))
    && (forall m :: m in t0.targets && m !in stale && m !in paused ==> t.targets[m] == t0.targets[m])
    && (forall m :: m in t0.messages && m in stale + paused && t0.messages[m].status == Draft ==>
          t.messages[m] == t0.messages[m].(status := MessageSuppressed))
    && (forall m :: m in t0.messages && !(m in stale + paused && t0.messages[m].status == Draft) ==>
          t.messages[m] == t0.messages[m])
  }

  lemma SweptIsExpired(t0: Tables, t: Tables, merchants: set<MerchantId>, now: Millis, active: set<CampaignId>)
    requires SweptUpTo(t0, t, DeferredAmong(t0, merchants), now, active)
    ensures ExpiredAs(t0, t, merchants, now, active)
  {
    var stale, paused := StaleAmong(t0, merchants, now), PausedAmong(t0, merchants, now, active);
    forall m
      ensures m in t.targets <==> m in t0.targets
      ensures m in t.messages <==> m in t0.messages
      ensures m in stale ==>
                t.targets[m] == t0.targets[m].(status := Suppressed, suppressedByGate := Some(DeferredStale))
      ensures m in paused ==>
                t.targets[m] == t0.targets[m].(status := Suppressed, suppressedByGate := Some(CampaignPaused))
      ensures m in t0.targets && m !in stale && m !in paused ==> t.targets[m] == t0.targets[m]
      ensures m in t0.messages && m in stale + paused && t0.messages[m].status == Draft ==>
                t.messages[m] == t0.messages[m].(status := MessageSuppressed)
      ensures m in t0.messages && !(m in stale + paused && t0.messages[m].status == Draft) ==>
                t.messages[m] == t0.messages[m]
    {
      assert RowSwept(t0, t, m, m in DeferredAmong(t0, merchants), now, active);
    }
  }

  /** The three groups of one merchant's deferred targets, by age and campaign. */
  lemma JudgedByAgeAndCampaign(t: Tables, merchant: MerchantId, now: Millis, active: set<CampaignId>)
    ensures Judged(t, merchant, now, active, Some(DeferredStale)) == StaleAmong(t, {merchant}, now)
    ensures Judged(t, merchant, now, active, Some(CampaignPaused)) == PausedAmong(t, {merchant}, now, active)
    ensures Judged(t, merchant, now, active, None) == KeptAmong(t, {merchant}, now, active)
    ensures DeferredOf(t, merchant) == DeferredAmong(t, {merchant})
  {
  }

  /** One merchant's pass on top of others': nobody's rows are judged twice. */
  lemma SweepsCompose(t0: Tables, t1: Tables, t2: Tables, merchants: set<MerchantId>, merchant: MerchantId,
                      now: Millis, active: set<CampaignId>)
    requires SweptUpTo(t0, t1, DeferredAmong(t0, merchants), now, active)
    requires SweptUpTo(t1, t2, DeferredOf(t1, merchant), now, active)
    requires merchant !in merchants
    ensures SweptUpTo(t0, t2, DeferredAmong(t0, merchants + {merchant}), now, active)
  {
    forall m
      ensures RowSwept(t0, t2, m, m in DeferredAmong(t0, merchants + {merchant}), now, active)
    {
      assert RowSwept(t0, t1, m, m in DeferredAmong(t0, merchants), now, active);
      assert RowSwept(t1, t2, m, m in DeferredOf(t1, merchant), now, active);
    }
  }

  /** A merchant not swept yet reads the same drafts and deferred targets as before the sweep. */
  lemma UnsweptReadsSame(t0: Tables, t1: Tables, merchants: set<MerchantId>, merchant: MerchantId, now: Millis,
                         c: Campaigns)
    requires SweptUpTo(t0, t1, DeferredAmong(t0, merchants), now, c.active) && merchant !in merchants
    ensures FreshOf(t1, merchant, c) == FreshOf(t0, merchant, c)
    ensures Judged(t1, merchant, now, c.active, None) == Judged(t0, merchant, now, c.active, None)
    ensures forall drafts :: drafts <= FreshOf(t0, merchant, c) ==>
              JobsOf(t1, merchant, now, c, drafts) == JobsOf(t0, merchant, now, c, drafts)
  {
    forall m
      ensures m in FreshOf(t1, merchant, c) <==> m in FreshOf(t0, merchant, c)
      ensures m in FreshOf(t0, merchant, c) ==> t1.messages[m] == t0.messages[m]
      ensures m in Judged(t1, merchant, now, c.active, None) <==> m in Judged(t0, merchant, now, c.active, None)
      ensures m in Judged(t0, merchant, now, c.active, None) ==> t1.targets[m] == t0.targets[m]
    {
      assert RowSwept(t0, t1, m, m in DeferredAmong(t0, merchants), now, c.active);
    }
  }

  lemma UnsweptCountsSame(t0: Tables, t1: Tables, merchants: set<MerchantId>, merchant: MerchantId, now: Millis,
                          active: set<CampaignId>)
    requires SweptUpTo(t0, t1, DeferredAmong(t0, merchants), now, active) && merchant !in merchants
    ensures StaleAmong(t1, {merchant}, now) == StaleAmong(t0, {merchant}, now)
    ensures PausedAmong(t1, {merchant}, now, active) == PausedAmong(t0, {merchant}, now, active)
  {
    forall m
      ensures m in StaleAmong(t1, {merchant}, now) <==> m in StaleAmong(t0, {merchant}, now)
      ensures m in PausedAmong(t1, {merchant}, now, active) <==> m in PausedAmong(t0, {merchant}, now, active)
    {
      assert RowSwept(t0, t1, m, m in DeferredAmong(t0, merchants), now, active);
    }
  }

  /** What can go wrong in one merchant's pass: a read throws before anything is written,
      or the queue does after every row is judged. */
  datatype Fault = NoFault | ReadsThrow | QueueThrows

  /** The merchants of a sweep whose rows get judged. */
  function Judging(rows: seq<MerchantId>, faults: MerchantId -> Fault): set<MerchantId> {
    set merchant | merchant in rows && faults(merchant) != ReadsThrow
  }

  /** The selected merchants whose rows get judged. */
  function JudgedMerchants(a: Accounts, faults: MerchantId -> Fault): set<MerchantId> {
    set merchant | merchant in Visited(a) && faults(merchant) != ReadsThrow
  }

  /** The merchants of a sweep whose pass goes through. */
  function Passing(rows: seq<MerchantId>, faults: MerchantId -> Fault): set<MerchantId> {
    set merchant | merchant in rows && faults(merchant) == NoFault
  }

  /** The jobs a merchant's pass queues, all of them or none. */
  ghost predicate Queues(t: Tables, merchant: MerchantId, now: Millis, c: Campaigns, more: set<Job>) {
    exists drafts :: FirstOf(drafts, FreshOf(t, merchant, c), DEFAULT_DISPATCH_TAKE)
                     && more == JobsOf(t, merchant, now, c, drafts)
  }

  /** After a pass at `now`, what is still deferred is young and has an active campaign. */
  ghost predicate FreshlySwept(t: Tables, merchant: MerchantId, now: Millis, active: set<CampaignId>) {
    forall m :: m in DeferredOf(t, merchant) ==>
      now - t.targets[m].createdAt <= MAX_DISPATCH_AGE_MS && t.targets[m].campaign in active
  }

  class Scheduler {
    const db: Database
    var jobs: set<Job>
    var totalEnqueued: nat
    var totalStaleExpired: nat
    var totalPausedResolved: nat

    constructor (db: Database)
      ensures this.db == db && jobs == {}
    {
      this.db := db;
      jobs := {};
      totalEnqueued, totalStaleExpired, totalPausedResolved := 0, 0, 0;
    }

    /** The `take` smallest ids, in id order, of the merchant's drafts with a completed, non-empty
        text, a matching campaign and no target. */
    method FindDispatchableDrafts(merchant: MerchantId, c: Campaigns) returns (drafts: set<MessageId>)
      ensures FirstOf(drafts, FreshOf(db.Rows(), merchant, c), DEFAULT_DISPATCH_TAKE)
      ensures |drafts| <= DEFAULT_DISPATCH_TAKE
      ensures forall m :: m in drafts ==>
                && m in db.messages && db.messages[m].merchant == merchant && db.messages[m].status == Draft
                && db.messages[m].generatedText != "" && m in c.matching && m !in db.targets
                && m in db.generations && db.generations[m].merchant == merchant
                && db.generations[m].status == GenerationCompleted
      ensures forall m ::
                && m in db.messages && db.messages[m].merchant == merchant && db.messages[m].status == Draft
                && db.messages[m].generatedText != "" && m in c.matching && m !in db.targets
                && m in db.generations && db.generations[m].merchant == merchant
                && db.generations[m].status == GenerationCompleted && m !in drafts ==>
                  |drafts| == DEFAULT_DISPATCH_TAKE && forall k :: k in drafts ==> k < m
    {
      FreshOnes(db.Rows(), merchant, c);
      hide FreshOf;
      var all := FreshOf(db.Rows(), merchant, c);
      drafts := {};
      while |drafts| < DEFAULT_DISPATCH_TAKE && drafts != all
        invariant drafts <= all && |drafts| <= DEFAULT_DISPATCH_TAKE
        invariant forall m, k :: m in all && m !in drafts && k in drafts ==> k < m
        decreases |all - drafts|
      {
        HasLeast(all - drafts);
        var least :| Least(all - drafts, least);
        forall m | m in all && m !in drafts + {least}
          ensures least < m
        {
          assert m in all - drafts;
        }
        drafts := drafts + {least};
      }
    }

    /** One deferred row: expired, resolved, or left for another round. */
    method JudgeOne(ghost t0: Tables, m: MessageId, now: Millis, c: Campaigns, ghost done: set<MessageId>)
      returns (verdict: Option<Reason>)
      requires SweptUpTo(t0, db.Rows(), done, now, c.active)
      requires m in t0.targets && t0.targets[m].status == Deferred && m !in done
      modifies db
      ensures SweptUpTo(t0, db.Rows(), done + {m}, now, c.active)
      ensures verdict == Verdict(t0.targets[m], now, c.active)
    {
      assert RowSwept(t0, db.Rows(), m, false, now, c.active);
      JudgementSweeps(t0, db.Rows(), m, done, now, c.active);
      hide SweptUpTo, RowSwept, Tx.ResolveTerminal;
      verdict := None;
      var d := db.targets[m];
      if now - d.createdAt > MAX_DISPATCH_AGE_MS {
        verdict := Some(DeferredStale);
        var resolved := db.ResolveTerminal(m, DeferredStale, Suppressed);
      } else if d.campaign !in c.active {
        verdict := Some(CampaignPaused);
        var resolved := db.ResolveTerminal(m, CampaignPaused, Suppressed);
      }
    }

    /** The loop over the deferred rows. */
    method JudgeEach(merchant: MerchantId, now: Millis, c: Campaigns)
      returns (again: set<MessageId>, stale: nat, paused: nat)
      modifies db
      ensures SweptUpTo(old(db.Rows()), db.Rows(), DeferredOf(old(db.Rows()), merchant), now, c.active)
      ensures again == Judged(old(db.Rows()), merchant, now, c.active, None)
      ensures stale == |Judged(old(db.Rows()), merchant, now, c.active, Some(DeferredStale))|
      ensures paused == |Judged(old(db.Rows()), merchant, now, c.active, Some(CampaignPaused))|
    {
      hide SweptUpTo, Judged, JudgedSoFar, DeferredOf, Verdict;
      ghost var t0 := db.Rows();
      var deferred := DeferredOf(db.Rows(), merchant);
      var rest := deferred;
      again, stale, paused := {}, 0, 0;
      NoneJudged(t0, merchant, now, c.active);
      AllLeftToJudge(t0, merchant, now, c.active, None);
      AllLeftToJudge(t0, merchant, now, c.active, Some(DeferredStale));
      AllLeftToJudge(t0, merchant, now, c.active, Some(CampaignPaused));
      assert deferred - rest == {};
      while rest != {}
        invariant rest <= deferred
        invariant SweptUpTo(t0, db.Rows(), deferred - rest, now, c.active)
        invariant again == JudgedSoFar(t0, merchant, now, c.active, None, rest)
        invariant stale == |JudgedSoFar(t0, merchant, now, c.active, Some(DeferredStale), rest)|
        invariant paused == |JudgedSoFar(t0, merchant, now, c.active, Some(CampaignPaused), rest)|
        decreases |rest|
      {
        var m :| m in rest;
        var verdict := JudgeOne(t0, m, now, c, deferred - rest);
        OneJudged(t0, merchant, now, c.active, None, rest, m);
        OneJudged(t0, merchant, now, c.active, Some(DeferredStale), rest, m);
        OneJudged(t0, merchant, now, c.active, Some(CampaignPaused), rest, m);
        VerdictIsOneOf(t0.targets[m], now, c.active);
        if verdict == Some(DeferredStale) {
          stale := stale + 1;
        } else if verdict == Some(CampaignPaused) {
          paused := paused + 1;
        } else {
          again := again + {m};
        }
        assert deferred - (rest - {m}) == deferred - rest + {m};
        rest := rest - {m};
      }
      assert deferred - rest == deferred;
    }

    /** Arm 2's judgement of the deferred rows: stale targets first, whatever their campaign. */
    method JudgeDeferred(merchant: MerchantId, now: Millis, c: Campaigns)
      returns (again: set<MessageId>, stale: nat, paused: nat)
      modifies db
      ensures SweptUpTo(old(db.Rows()), db.Rows(), DeferredOf(old(db.Rows()), merchant), now, c.active)
      ensures again == Judged(old(db.Rows()), merchant, now, c.active, None)
      ensures ExpiredAs(old(db.Rows()), db.Rows(), {merchant}, now, c.active)
      ensures again == KeptAmong(old(db.Rows()), {merchant}, now, c.active)
      ensures stale == |StaleAmong(old(db.Rows()), {merchant}, now)|
      ensures paused == |PausedAmong(old(db.Rows()), {merchant}, now, c.active)|
    {
      ghost var t0 := db.Rows();
      JudgedByAgeAndCampaign(t0, merchant, now, c.active);
      hide SweptUpTo, ExpiredAs, StaleAmong, PausedAmong, KeptAmong, Judged, DeferredOf, Verdict;
      again, stale, paused := JudgeEach(merchant, now, c);
      SweptIsExpired(t0, db.Rows(), {merchant}, now, c.active);
    }

    /** One merchant's pass. A throw is caught, and costs this merchant its jobs. */
    method SweepMerchant(merchant: MerchantId, now: Millis, c: Campaigns, fault: Fault) returns (swept: bool)
      modifies this, db
      ensures swept == (fault == NoFault)
      ensures if fault == ReadsThrow then db.Rows() == old(db.Rows())
              else SweptUpTo(old(db.Rows()), db.Rows(), DeferredOf(old(db.Rows()), merchant), now, c.active)
      ensures if fault == NoFault then
                exists more :: Queues(old(db.Rows()), merchant, now, c, more)
                               && jobs == old(jobs) + more && totalEnqueued == old(totalEnqueued) + |more|
              else jobs == old(jobs) && totalEnqueued == old(totalEnqueued)
      ensures totalStaleExpired
              == old(totalStaleExpired) + (if swept then |StaleAmong(old(db.Rows()), {merchant}, now)| else 0)
      ensures totalPausedResolved
              == old(totalPausedResolved)
                 + (if swept then |PausedAmong(old(db.Rows()), {merchant}, now, c.active)| else 0)
    {
      hide SweptUpTo, FreshOf, Judged, FirstOf, JobsOf, DeferredOf, ExpiredAs, StaleAmong, PausedAmong, KeptAmong;
      if fault == ReadsThrow {
        return false;
      }
      var t := db.Rows();
      var drafts := FindDispatchableDrafts(merchant, c);
      DraftsAreFresh(drafts, FreshOf(t, merchant, c));
      var again, stale, paused := JudgeDeferred(merchant, now, c);
      if fault == QueueThrows {
        return false;
      }
      jobs := jobs + JobsOf(t, merchant, now, c, drafts);
      assert Queues(t, merchant, now, c, JobsOf(t, merchant, now, c, drafts));
      HowManyJobs(t, merchant, now, c, drafts);
      totalEnqueued := totalEnqueued + |drafts| + |again|;
      totalStaleExpired := totalStaleExpired + stale;
      totalPausedResolved := totalPausedResolved + paused;
      return true;
    }

    /** The selected merchants, each once, in the order the database returns them. */
    method SelectMerchants(a: Accounts) returns (rows: seq<MerchantId>)
      ensures forall i, j :: 0 <= i < j < |rows| ==> rows[i] != rows[j]
      ensures forall merchant :: merchant in rows <==> merchant in Visited(a)
      ensures forall merchant :: merchant in rows <==>
                && merchant in a.shops && !a.shops[merchant].uninstalled && !a.shops[merchant].tokenRevoked
                && exists c :: c in a.campaigns && a.campaigns[c].merchant == merchant
                               && a.campaigns[c].active && a.campaigns[c].email
    {
      VisitedAre(a);
      rows := [];
      var rest := Visited(a);
      while rest != {}
        invariant rest <= Visited(a) && forall merchant :: merchant in rows <==> merchant in Visited(a) - rest
        invariant forall i, j :: 0 <= i < j < |rows| ==> rows[i] != rows[j]
        decreases |rest|
      {
        var merchant :| merchant in rest;
        rows := rows + [merchant];
        rest := rest - {merchant};
      }
    }

    /** The sweep at time `now`: of each merchant that is live and has an active email campaign,
        and whose reads succeed, every deferred target is judged, and the jobs of those whose
        pass goes through are queued, each counted once. */
    method RunDispatchSweep(a: Accounts, now: Millis, faults: MerchantId -> Fault)
      returns (merchantsSwept: nat, merchantsFailed: nat, ghost queued: set<Job>)
      modifies this, db
      ensures SweptUpTo(old(db.Rows()), db.Rows(), DeferredAmong(old(db.Rows()), JudgedMerchants(a, faults)), now,
                        CampaignsOf(a).active)
      ensures forall merchant :: merchant in JudgedMerchants(a, faults) ==>
                FreshlySwept(db.Rows(), merchant, now, CampaignsOf(a).active)
      ensures var judged := set merchant | merchant in Visited(a) && faults(merchant) != ReadsThrow;
              var passed := set merchant | merchant in Visited(a) && faults(merchant) == NoFault;
              var active := set c | c in a.campaigns && a.campaigns[c].active;
              && ExpiredAs(old(db.Rows()), db.Rows(), judged, now, active)
              && totalStaleExpired == old(totalStaleExpired) + |StaleAmong(old(db.Rows()), passed, now)|
              && totalPausedResolved == old(totalPausedResolved) + |PausedAmong(old(db.Rows()), passed, now, active)|
      ensures jobs == old(jobs) + queued && totalEnqueued == old(totalEnqueued) + |queued|
      ensures forall merchant :: merchant in Visited(a) && faults(merchant) == NoFault ==>
                exists more :: more <= queued && Queues(old(db.Rows()), merchant, now, CampaignsOf(a), more)
      ensures forall job :: job in queued ==>
                && job.merchant in Visited(a) && faults(job.merchant) == NoFault
                && Queued(old(db.Rows()), job, now, CampaignsOf(a))
      ensures merchantsSwept + merchantsFailed == |Visited(a)|
    {
      hide SweptUpTo, Queues, Queued, FreshlySwept, ExpiredAs, StaleAmong, PausedAmong;
      ghost var t := db.Rows();
      var rows := SelectMerchants(a);
      merchantsSwept, merchantsFailed, queued := SweepAll(rows, now, CampaignsOf(a), faults);
      assert Judging(rows, faults) == JudgedMerchants(a, faults);
      assert Passing(rows, faults) == set merchant | merchant in Visited(a) && faults(merchant) == NoFault;
      SweptIsExpired(t, db.Rows(), JudgedMerchants(a, faults), now, CampaignsOf(a).active);
      DistinctRows(rows, Visited(a));
      forall merchant | merchant in Visited(a) && faults(merchant) == NoFault
        ensures exists more :: more <= queued && Queues(t, merchant, now, CampaignsOf(a), more)
      {
        var k :| 0 <= k < |rows| && rows[k] == merchant;
        assert QueuedAll(t, queued, rows[k], now, CampaignsOf(a));
      }
    }

    /** The next merchant's pass, on top of those before it. */
    method SweepNext(ghost t0: Tables, rows: seq<MerchantId>, i: nat, now: Millis, c: Campaigns,
                     faults: MerchantId -> Fault, ghost queued: set<Job>) returns (swept: bool, ghost queued': set<Job>)
      requires i < |rows| && forall k :: 0 <= k < i ==> rows[k] != rows[i]
      requires SweptUpTo(t0, db.Rows(), DeferredAmong(t0, Judging(rows[..i], faults)), now, c.active)
      requires AllQueued(t0, queued, rows[..i], now, c, faults)
      modifies this, db
      ensures SweptUpTo(t0, db.Rows(), DeferredAmong(t0, Judging(rows[..i + 1], faults)), now, c.active)
      ensures AllQueued(t0, queued', rows[..i + 1], now, c, faults) && queued <= queued'
      ensures jobs == old(jobs) + (queued' - queued)
      ensures totalEnqueued == old(totalEnqueued) + |queued'| - |queued|
      ensures totalStaleExpired == old(totalStaleExpired) + (if swept then |StaleAmong(t0, {rows[i]}, now)| else 0)
      ensures totalPausedResolved
              == old(totalPausedResolved) + (if swept then |PausedAmong(t0, {rows[i]}, now, c.active)| else 0)
      ensures swept <==> faults(rows[i]) == NoFault
    {
      hide SweptUpTo, DeferredAmong, Judging, Queues, AllQueued, Queued, FreshlySwept, DeferredOf, Judged;
      hide StaleAmong, PausedAmong;
      ghost var t1, before := db.Rows(), Judging(rows[..i], faults);
      JudgingGrows(rows, i, faults);
      UnsweptCountsSame(t0, t1, before, rows[i], now, c.active);
      swept := SweepMerchant(rows[i], now, c, faults(rows[i]));
      if faults(rows[i]) != ReadsThrow {
        SweepsCompose(t0, t1, db.Rows(), before, rows[i], now, c.active);
      }
      queued' := queued;
      if swept {
        ghost var more :| Queues(t1, rows[i], now, c, more)
                          && jobs == old(jobs) + more && totalEnqueued == old(totalEnqueued) + |more|;
        SameQueue(t0, t1, before, rows[i], now, c, more);
        QueueGrows(t0, queued, more, rows, i, now, c, faults);
        queued' := queued + more;
        assert queued' - queued == more;
      } else {
        QueueStays(t0, queued, rows, i, now, c, faults);
      }
    }

    /** The passes, one merchant after the other. */
    method SweepAll(rows: seq<MerchantId>, now: Millis, c: Campaigns, faults: MerchantId -> Fault)
      returns (merchantsSwept: nat, merchantsFailed: nat, ghost queued: set<Job>)
      requires forall i, j :: 0 <= i < j < |rows| ==> rows[i] != rows[j]
      modifies this, db
      ensures SweptUpTo(old(db.Rows()), db.Rows(), DeferredAmong(old(db.Rows()), Judging(rows, faults)), now, c.active)
      ensures forall merchant :: merchant in Judging(rows, faults) ==> FreshlySwept(db.Rows(), merchant, now, c.active)
      ensures jobs == old(jobs) + queued && totalEnqueued == old(totalEnqueued) + |queued|
      ensures AllQueued(old(db.Rows()), queued, rows, now, c, faults)
      ensures totalStaleExpired == old(totalStaleExpired) + |StaleAmong(old(db.Rows()), Passing(rows, faults), now)|
      ensures totalPausedResolved
              == old(totalPausedResolved) + |PausedAmong(old(db.Rows()), Passing(rows, faults), now, c.active)|
      ensures merchantsSwept + merchantsFailed == |rows|
    {
      hide SweptUpTo, DeferredAmong, Judging, Queues, AllQueued, Queued, FreshlySwept, DeferredOf, Judged;
      hide StaleAmong, PausedAmong, Passing;
      ghost var t0 := db.Rows();
      NonePassed(t0, rows, now, c.active, faults);
      merchantsSwept, merchantsFailed, queued := 0, 0, {};
      SweepStarts(t0, rows, now, c, faults);
      for i := 0 to |rows|
        invariant SweptUpTo(t0, db.Rows(), DeferredAmong(t0, Judging(rows[..i], faults)), now, c.active)
        invariant AllQueued(t0, queued, rows[..i], now, c, faults)
        invariant jobs == old(jobs) + queued && totalEnqueued == old(totalEnqueued) + |queued|
        invariant merchantsSwept + merchantsFailed == i
        invariant totalStaleExpired == old(totalStaleExpired) + |StaleAmong(t0, Passing(rows[..i], faults), now)|
        invariant totalPausedResolved
                  == old(totalPausedResolved) + |PausedAmong(t0, Passing(rows[..i], faults), now, c.active)|
      {
        PassingGrows(t0, rows, i, now, c.active, faults);
        var swept;
        swept, queued := SweepNext(t0, rows, i, now, c, faults, queued);
        if swept {
          merchantsSwept := merchantsSwept + 1;
        } else {
          merchantsFailed := merchantsFailed + 1;
        }
      }
      assert rows[..|rows|] == rows;
      AllFreshlySwept(t0, db.Rows(), Judging(rows, faults), now, c.active);
    }
  }

  lemma {:induction false} DistinctRows(rows: seq<MerchantId>, all: set<MerchantId>)
    requires forall i, j :: 0 <= i < j < |rows| ==> rows[i] != rows[j]
    requires forall merchant :: merchant in rows <==> merchant in all
    ensures |rows| == |all|
    decreases |rows|
  {
    if rows != [] {
      var front, last := rows[..|rows| - 1], rows[|rows| - 1];
      assert rows == front + [last];
      DistinctRows(front, all - {last});
    } else {
      assert all == {};
    }
  }

  /** Each job of a pass is for a message of its own. */
  lemma HowManyJobs(t: Tables, merchant: MerchantId, now: Millis, c: Campaigns, drafts: set<MessageId>)
    requires drafts <= FreshOf(t, merchant, c)
    ensures |JobsOf(t, merchant, now, c, drafts)| == |drafts| + |Judged(t, merchant, now, c.active, None)|
  {
    var first := set m | m in drafts :: Job(merchant, m, c.matching[m], t.messages[m].customer);
    var again := Judged(t, merchant, now, c.active, None);
    var back := set m | m in again :: Job(merchant, m, t.targets[m].campaign, t.targets[m].customer);
    assert JobsOf(t, merchant, now, c, drafts) == first + back;
    assert forall job :: job in first ==> job.message !in t.targets;
    assert forall job :: job in back ==> job.message in t.targets;
    hide FreshOf, Judged, JobsOf;
    assert first !! back;
    forall m | m in drafts
      ensures exists job :: job in first && job.message == m
    {
      assert Job(merchant, m, c.matching[m], t.messages[m].customer) in first;
    }
    forall m | m in again
      ensures exists job :: job in back && job.message == m
    {
      assert Job(merchant, m, t.targets[m].campaign, t.targets[m].customer) in back;
    }
    OneJobEach(first, drafts);
    OneJobEach(back, again);
  }

  lemma {:induction false} OneJobEach(jobs: set<Job>, messages: set<MessageId>)
    requires forall m :: m in messages <==> exists job :: job in jobs && job.message == m
    requires forall job, other :: job in jobs && other in jobs && job.message == other.message ==> job == other
    ensures |jobs| == |messages|
    decreases |jobs|
  {
    if jobs != {} {
      var job :| job in jobs;
      OneJobEach(jobs - {job}, messages - {job.message});
    }
  }

  lemma AllFreshlySwept(t0: Tables, t: Tables, merchants: set<MerchantId>, now: Millis, active: set<CampaignId>)
    requires SweptUpTo(t0, t, DeferredAmong(t0, merchants), now, active)
    ensures forall merchant :: merchant in merchants ==> FreshlySwept(t, merchant, now, active)
  {
    forall merchant | merchant in merchants
      ensures FreshlySwept(t, merchant, now, active)
    {
      SweptLeavesYoungAndActive(t0, t, merchants, now, active, merchant);
    }
  }

  /** A job of the sweep is for a fresh draft, or for a deferred target that stays deferred. */
  ghost predicate Queued(t: Tables, job: Job, now: Millis, c: Campaigns) {
    || (&& job.message in FreshOf(t, job.merchant, c) && job.campaign == c.matching[job.message]
        && job.customer == t.messages[job.message].customer)
    || (&& job.message in Judged(t, job.merchant, now, c.active, None)
        && job.campaign == t.targets[job.message].campaign && job.customer == t.targets[job.message].customer)
  }

  ghost predicate QueuedAll(t: Tables, queued: set<Job>, merchant: MerchantId, now: Millis, c: Campaigns) {
    exists more :: more <= queued && Queues(t, merchant, now, c, more)
  }

  /** Every merchant whose pass went through has its jobs queued, and nothing else is queued. */
  ghost predicate AllQueued(t: Tables, queued: set<Job>, rows: seq<MerchantId>, now: Millis, c: Campaigns,
                            faults: MerchantId -> Fault) {
    && (forall k :: 0 <= k < |rows| && faults(rows[k]) == NoFault ==> QueuedAll(t, queued, rows[k], now, c))
    && (forall job :: job in queued ==>
          job.merchant in rows && faults(job.merchant) == NoFault && Queued(t, job, now, c))
  }

  lemma QueueGrows(t: Tables, queued: set<Job>, more: set<Job>, rows: seq<MerchantId>, i: nat, now: Millis,
                   c: Campaigns, faults: MerchantId -> Fault)
    requires i < |rows| && AllQueued(t, queued, rows[..i], now, c, faults) && faults(rows[i]) == NoFault
    requires forall k :: 0 <= k < i ==> rows[k] != rows[i]
    requires Queues(t, rows[i], now, c, more)
    requires forall job :: job in more ==> job.merchant == rows[i] && Queued(t, job, now, c)
    ensures AllQueued(t, queued + more, rows[..i + 1], now, c, faults)
    ensures queued !! more && |queued + more| == |queued| + |more|
  {
    hide Queues, Queued;
    var next := rows[..i + 1];
    forall k | 0 <= k < |next| && faults(next[k]) == NoFault
      ensures QueuedAll(t, queued + more, next[k], now, c)
    {
      if k < i {
        assert next[k] == rows[..i][k];
        var m :| m <= queued && Queues(t, rows[..i][k], now, c, m);
        assert m <= queued + more && Queues(t, next[k], now, c, m);
      } else {
        assert more <= queued + more;
      }
    }
    assert forall job :: job in queued ==> job.merchant in rows[..i];
    assert queued !! more;
    assert forall merchant :: merchant in rows[..i] ==> merchant in next;
    assert rows[i] == next[i];
  }

  lemma QueueStays(t: Tables, queued: set<Job>, rows: seq<MerchantId>, i: nat, now: Millis, c: Campaigns,
                   faults: MerchantId -> Fault)
    requires i < |rows| && AllQueued(t, queued, rows[..i], now, c, faults) && faults(rows[i]) != NoFault
    ensures AllQueued(t, queued, rows[..i + 1], now, c, faults)
  {
    hide Queues, Queued;
    forall k | 0 <= k < i && faults(rows[k]) == NoFault
      ensures QueuedAll(t, queued, rows[k], now, c)
    {
      assert rows[k] == rows[..i][k];
    }
    assert forall merchant :: merchant in rows[..i] ==> merchant in rows[..i + 1];
  }

  lemma DraftsAreFresh(drafts: set<MessageId>, all: set<MessageId>)
    requires FirstOf(drafts, all, DEFAULT_DISPATCH_TAKE)
    ensures drafts <= all
  {
  }

  lemma SweepStarts(t: Tables, rows: seq<MerchantId>, now: Millis, c: Campaigns, faults: MerchantId -> Fault)
    ensures SweptUpTo(t, t, DeferredAmong(t, Judging(rows[..0], faults)), now, c.active)
    ensures AllQueued(t, {}, rows[..0], now, c, faults)
  {
    assert DeferredAmong(t, Judging(rows[..0], faults)) == {};
  }

  lemma NonePassed(t: Tables, rows: seq<MerchantId>, now: Millis, active: set<CampaignId>, faults: MerchantId -> Fault)
    ensures StaleAmong(t, Passing(rows[..0], faults), now) == {}
    ensures PausedAmong(t, Passing(rows[..0], faults), now, active) == {}
  {
  }

  /** One more merchant's pass adds its own targets to each count. */
  lemma PassingGrows(t: Tables, rows: seq<MerchantId>, i: nat, now: Millis, active: set<CampaignId>,
                     faults: MerchantId -> Fault)
    requires i < |rows| && forall k :: 0 <= k < i ==> rows[k] != rows[i]
    ensures var before, after := Passing(rows[..i], faults), Passing(rows[..i + 1], faults);
            var passes := faults(rows[i]) == NoFault;
            && |StaleAmong(t, after, now)|
               == |StaleAmong(t, before, now)| + (if passes then |StaleAmong(t, {rows[i]}, now)| else 0)
            && |PausedAmong(t, after, now, active)|
               == |PausedAmong(t, before, now, active)|
                  + (if passes then |PausedAmong(t, {rows[i]}, now, active)| else 0)
  {
    var before, after := Passing(rows[..i], faults), Passing(rows[..i + 1], faults);
    assert rows[..i + 1] == rows[..i] + [rows[i]];
    if faults(rows[i]) == NoFault {
      assert after == before + {rows[i]} && rows[i] !in before;
      assert StaleAmong(t, after, now) == StaleAmong(t, before, now) + StaleAmong(t, {rows[i]}, now);
      assert PausedAmong(t, after, now, active)
             == PausedAmong(t, before, now, active) + PausedAmong(t, {rows[i]}, now, active);
    } else {
      assert after == before;
    }
  }

  lemma JudgingGrows(rows: seq<MerchantId>, i: nat, faults: MerchantId -> Fault)
    requires i < |rows|
    ensures Judging(rows[..i + 1], faults)
            == if faults(rows[i]) == ReadsThrow then Judging(rows[..i], faults)
               else Judging(rows[..i], faults) + {rows[i]}
    ensures (forall k :: 0 <= k < i ==> rows[k] != rows[i]) ==> rows[i] !in Judging(rows[..i], faults)
  {
    assert rows[..i + 1] == rows[..i] + [rows[i]];
  }

  /** What a later merchant's pass queues is what it would have queued at the start. */
  lemma SameQueue(t0: Tables, t1: Tables, merchants: set<MerchantId>, merchant: MerchantId, now: Millis,
                  c: Campaigns, more: set<Job>)
    requires SweptUpTo(t0, t1, DeferredAmong(t0, merchants), now, c.active) && merchant !in merchants
    requires Queues(t1, merchant, now, c, more)
    ensures Queues(t0, merchant, now, c, more)
    ensures forall job :: job in more ==> job.merchant == merchant && Queued(t0, job, now, c)
  {
    UnsweptReadsSame(t0, t1, merchants, merchant, now, c);
    var drafts :| FirstOf(drafts, FreshOf(t1, merchant, c), DEFAULT_DISPATCH_TAKE)
                  && more == JobsOf(t1, merchant, now, c, drafts);
    assert more == JobsOf(t0, merchant, now, c, drafts);
  }

  /** After a sweep at time t, every target that is still deferred, of a merchant whose rows
      it judged, is at most three days old and has an active campaign; the deferred targets of
      a merchant it did not judge are all still there. */
  lemma SweptLeavesYoungAndActive(t0: Tables, t: Tables, merchants: set<MerchantId>, now: Millis,
                                  active: set<CampaignId>, merchant: MerchantId)
    requires SweptUpTo(t0, t, DeferredAmong(t0, merchants), now, active)
    ensures merchant in merchants ==> FreshlySwept(t, merchant, now, active)
    ensures merchant !in merchants ==> DeferredOf(t, merchant) == DeferredOf(t0, merchant)
    ensures merchant !in merchants ==> forall m :: m in DeferredOf(t0, merchant) ==> t.targets[m] == t0.targets[m]
  {
    forall m
      ensures merchant in merchants && m in DeferredOf(t, merchant) ==> Verdict(t.targets[m], now, active) == None
      ensures merchant !in merchants ==> (m in DeferredOf(t, merchant) <==> m in DeferredOf(t0, merchant))
      ensures merchant !in merchants && m in DeferredOf(t0, merchant) ==> t.targets[m] == t0.targets[m]
    {
      assert RowSwept(t0, t, m, m in DeferredAmong(t0, merchants), now, active);
    }
  }

  // ----------------------------------------------------------- where expiry works

  /** Foreign keys: a target's campaign exists and belongs to the target's merchant. */
  predicate Keyed(a: Accounts, t: Tables) {
    forall m :: m in t.targets ==>
      t.targets[m].campaign in a.campaigns && a.campaigns[t.targets[m].campaign].merchant == t.targets[m].merchant
  }

  /** What a sweep at `now` without faults makes of the rows. */
  ghost predicate SweptClean(a: Accounts, t0: Tables, t: Tables, now: Millis) {
    SweptUpTo(t0, t, DeferredAmong(t0, Visited(a)), now, CampaignsOf(a).active)
  }

  predicate HasCampaign(a: Accounts, merchant: MerchantId) {
    exists c :: c in a.campaigns && a.campaigns[c].merchant == merchant
  }

  /** Rows with one deferred target in them, of some age. */
  function OneDeferred(merchant: MerchantId, campaign: CampaignId, createdAt: Millis): Tables {
    Tables(map[], map[], map[0 := Target(merchant, 0, campaign, createdAt, Deferred, None, None, None)], map[], map[],
           multiset{})
  }

  /** The input on which expiry fails: a live merchant whose only email campaign is paused, with
      a deferred target of any age. However often the sweep runs, the target stays as it is. */
  lemma PausedMerchantKeepsDeferred(age: nat, now: Millis, t: Tables)
    requires var a := Accounts(map[0 := Shop(false, false)], map[0 := CampaignRow(0, false, true)], map[]);
             SweptClean(a, OneDeferred(0, 0, now - age), t, now)
    ensures 0 in t.targets && t.targets[0] == OneDeferred(0, 0, now - age).targets[0]
    ensures !FreshlySwept(t, 0, now, {})
  {
    var a := Accounts(map[0 := Shop(false, false)], map[0 := CampaignRow(0, false, true)], map[]);
    assert !HasActiveEmail(a, 0);
    SweptLeavesYoungAndActive(OneDeferred(0, 0, now - age), t, Visited(a), now, CampaignsOf(a).active, 0);
    assert 0 in DeferredOf(OneDeferred(0, 0, now - age), 0);
    assert 0 in DeferredOf(t, 0);
  }

  /** A sweep without faults leaves every deferred target of a merchant young and active,
      whatever the tables, if and only if the merchant is live and has an active email
      campaign, or has no campaign and so no target at all. */
  lemma ExpiryWorksIff(a: Accounts, merchant: MerchantId, now: Millis)
    ensures (forall t0, t :: Keyed(a, t0) && SweptClean(a, t0, t, now) ==>
               FreshlySwept(t, merchant, now, CampaignsOf(a).active))
            <==> (Live(a, merchant) && HasActiveEmail(a, merchant)) || !HasCampaign(a, merchant)
  {
    if (Live(a, merchant) && HasActiveEmail(a, merchant)) || !HasCampaign(a, merchant) {
      forall t0, t | Keyed(a, t0) && SweptClean(a, t0, t, now)
        ensures FreshlySwept(t, merchant, now, CampaignsOf(a).active)
      {
        SweptLeavesYoungAndActive(t0, t, Visited(a), now, CampaignsOf(a).active, merchant);
      }
    } else {
      var c :| c in a.campaigns && a.campaigns[c].merchant == merchant;
      var t := OneDeferred(merchant, c, now - MAX_DISPATCH_AGE_MS - 1);
      assert DeferredAmong(t, Visited(a)) == {};
      NoneJudged(t, merchant, now, CampaignsOf(a).active);
      assert Keyed(a, t) && SweptClean(a, t, t, now);
      assert 0 in DeferredOf(t, merchant);
    }
  }

  predicate Least(s: set<MessageId>, k: MessageId) {
    k in s && forall i :: i in s ==> k <= i
  }

  lemma {:induction false} HasLeast(s: set<MessageId>)
    requires s != {}
    ensures exists k :: Least(s, k)
    decreases |s|
  {
    var k :| k in s;
    if s == {k} {
      assert Least(s, k);
    } else {
      HasLeast(s - {k});
      var j :| Least(s - {k}, j);
      var least := if j <= k then j else k;
      assert Least(s, least) by {
        forall i | i in s
          ensures least <= i
        {
          assert i == k || i in s - {k};
        }
      }
    }
  }

  lemma FreshOnes(t: Tables, merchant: MerchantId, c: Campaigns)
    ensures forall m :: m in FreshOf(t, merchant, c) <==>
              && m in t.messages && t.messages[m].merchant == merchant && t.messages[m].status == Draft
              && t.messages[m].generatedText != "" && m in c.matching && m !in t.targets
              && m in t.generations && t.generations[m].merchant == merchant
              && t.generations[m].status == GenerationCompleted
  {
  }

  /** The first `take` ids of a set, in id order. */
  predicate FirstOf(first: set<MessageId>, all: set<MessageId>, take: nat) {
    && first <= all && |first| <= take
    && (forall m, k :: m in all && m !in first && k in first ==> k < m)
    && (|first| < take ==> first == all)
  }

  lemma NoneJudged(t: Tables, merchant: MerchantId, now: Millis, active: set<CampaignId>)
    ensures SweptUpTo(t, t, {}, now, active)
    ensures forall m :: m in DeferredOf(t, merchant) ==> m in t.targets && t.targets[m].status == Deferred
  {
  }

  lemma VerdictIsOneOf(r: Target, now: Millis, active: set<CampaignId>)
    ensures Verdict(r, now, active) in {None, Some(DeferredStale), Some(CampaignPaused)}
  {
  }

  /** The rows already judged, of those with one verdict. */
  function JudgedSoFar(t: Tables, merchant: MerchantId, now: Millis, active: set<CampaignId>, v: Option<Reason>,
                       rest: set<MessageId>): set<MessageId> {
    Judged(t, merchant, now, active, v) - rest
  }

  /** Judging one more row adds it to the group of its verdict and to no other. */
  lemma OneJudged(t: Tables, merchant: MerchantId, now: Millis, active: set<CampaignId>, v: Option<Reason>,
                  rest: set<MessageId>, m: MessageId)
    requires m in rest && rest <= DeferredOf(t, merchant)
    ensures var before, after :=
            JudgedSoFar(t, merchant, now, active, v, rest), JudgedSoFar(t, merchant, now, active, v, rest - {m});
            && after == before + (if v == Verdict(t.targets[m], now, active) then {m} else {})
            && |after| == |before| + (if v == Verdict(t.targets[m], now, active) then 1 else 0)
  {
    assert JudgedSoFar(t, merchant, now, active, v, rest - {m})
           == JudgedSoFar(t, merchant, now, active, v, rest)
              + (if v == Verdict(t.targets[m], now, active) then {m} else {});
  }

  lemma AllLeftToJudge(t: Tables, merchant: MerchantId, now: Millis, active: set<CampaignId>, v: Option<Reason>)
    ensures JudgedSoFar(t, merchant, now, active, v, DeferredOf(t, merchant)) == {}
    ensures JudgedSoFar(t, merchant, now, active, v, {}) == Judged(t, merchant, now, active, v)
  {
  }
}
