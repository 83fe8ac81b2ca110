/** The repositories as code: each method makes the writes of one repository call, in the
    call's own order, and is proved to have the effect of the transaction in `Tables`.
    A transaction that aborts puts back every row it wrote. */
module Repositories {
  import opened Collections
  import opened Tables
  import Tx = Tables

  /** A compare-and-set helper: the rows an `updateMany` keyed by one id would touch. */
  predicate Hits(targets: map<MessageId, Target>, m: MessageId, guard: set<TargetStatus>) {
    m in targets && targets[m].status in guard
  }

  datatype Completion = SentNow | NoopAlreadyTerminal(currentStatus: TargetStatus)

  datatype StartResult = Started | NoopNotPending(currentStatus: TargetStatus) | NoopTargetMissing

  function Finished(g: Generation, text: string, cost: nat): Generation {
    g.(status := GenerationCompleted, text := Some(text), costMicrocents := cost)
  }

  class Database {
    var generations: map<MessageId, Generation>
    var messages: map<MessageId, Message>
    var targets: map<MessageId, Target>
    var quota: map<BucketKey, int>
    var spend: map<BucketKey, SpendBucket>
    var sentAudits: multiset<MessageId>

    constructor ()
      ensures Rows() == Tables(map[], map[], map[], map[], map[], multiset{})
    {
      generations, messages, targets := map[], map[], map[];
      quota, spend, sentAudits := map[], map[], multiset{};
    }

    function Rows(): Tables
      reads this
    {
      Tables(generations, messages, targets, quota, spend, sentAudits)
    }

    /** Other processes have run: the rows are now these. */
    method Become(t: Tables)
      modifies this
      ensures Rows() == t
    {
      generations, messages, targets := t.generations, t.messages, t.targets;
      quota, spend, sentAudits := t.quota, t.spend, t.sentAudits;
    }

    // ------------------------------------------------- campaign.repository.ts

    /** A claimed message id is left alone: the unique key makes the second claim a no-op. */
    method ClaimTarget(job: Job, now: Millis) returns (r: ClaimResult)
      modifies `targets
      ensures (Rows(), r) == Tx.ClaimTarget(old(Rows()), job, now)
      ensures r == AlreadyClaimed <==> job.message in old(targets)
      ensures r == Claimed <==> job.message !in old(targets) && job.message in messages
      ensures targets == if r != Claimed then old(targets)
                         else old(targets)[job.message :=
                                Target(job.merchant, job.customer, job.campaign, now, Pending, None, None, None)]
    {
      if job.message in targets {
        return AlreadyClaimed;
      }
      if job.message !in messages {
        return ClaimError;
      }
      targets := targets[job.message :=
        Target(job.merchant, job.customer, job.campaign, now, Pending, None, None, None)];
      return Claimed;
    }

    method StartSending(m: MessageId, now: Millis) returns (r: StartResult)
      modifies `targets
      ensures (Rows(), r == Started) == Tx.StartSending(old(Rows()), m, now)
      ensures r == Started <==> m in old(targets) && old(targets[m].status) == Pending
      ensures MovedFrom(old(Rows()), Rows(), m, Pending, Sending, Some(now))
      ensures r == NoopTargetMissing <==> m !in old(targets)
      ensures r.NoopNotPending? ==> old(targets[m].status) == r.currentStatus != Pending
    {
      if Hits(targets, m, {Pending}) {
        targets := targets[m := targets[m].(status := Sending, sendStartedAt := Some(now))];
        return Started;
      }
      if m !in targets {
        return NoopTargetMissing;
      }
      return NoopNotPending(targets[m].status);
    }

    method RevertToPending(m: MessageId) returns (reverted: bool)
      modifies `targets
      ensures (Rows(), reverted) == Tx.RevertToPending(old(Rows()), m)
      ensures reverted <==> m in old(targets) && old(targets[m].status) == Sending
      ensures MovedFrom(old(Rows()), Rows(), m, Sending, Pending, None)
    {
      reverted := Hits(targets, m, {Sending});
      if reverted {
        targets := targets[m := targets[m].(status := Pending, sendStartedAt := None)];
      }
    }

    method DeferTarget(m: MessageId) returns (deferred: bool)
      modifies `targets
      ensures (Rows(), deferred) == Tx.DeferTarget(old(Rows()), m)
      ensures deferred <==> m in old(targets) && old(targets[m].status) in {Pending, Deferred}
      ensures targets == if deferred then old(targets)[m := old(targets[m]).(status := Deferred)] else old(targets)
    {
      deferred := Hits(targets, m, {Pending, Deferred});
      if deferred {
        targets := targets[m := targets[m].(status := Deferred)];
      }
    }

    /** Target first; the message follows only if the target moved. */
    method ResolveTerminal(m: MessageId, reason: Reason, status: TargetStatus) returns (resolved: bool)
      requires status == Suppressed || status == Failed
      modifies `targets, `messages
      ensures (Rows(), resolved) == Tx.ResolveTerminal(old(Rows()), m, reason, status)
      ensures resolved <==> m in old(targets) && old(targets[m].status) in {Pending, Deferred, Sending}
      ensures ResolvedAs(old(Rows()), Rows(), m, status, reason,
                         if status == Suppressed then MessageSuppressed else MessageFailed)
    {
      resolved := Hits(targets, m, {Pending, Deferred, Sending});
      if !resolved {
        return;
      }
      targets := targets[m := targets[m].(status := status, suppressedByGate := Some(reason))];
      if m in messages && messages[m].status == Draft {
        messages := messages[m := messages[m].(status := MessageStatusFor(status))];
      }
    }

    /** The completion transaction: bucket row made and locked, target, message, increment,
        audit. Either compare-and-set missing throws, and the transaction leaves nothing. */
    method MarkSentWithQuota(job: Job, now: Millis) returns (r: Completion)
      modifies `targets, `messages, `quota, `sentAudits
      ensures (Rows(), r == SentNow) == MarkSent(old(Rows()), job, now)
      ensures r == SentNow <==>
                && job.message in old(targets) && old(targets[job.message].status) == Sending
                && job.message in old(messages) && old(messages[job.message].status) == Draft
      ensures if r == SentNow then SentAs(old(Rows()), Rows(), job, now) else Rows() == old(Rows())
      ensures r.NoopAlreadyTerminal? ==>
                r.currentStatus == (if job.message in targets then targets[job.message].status else Sent)
    {
      var m := job.message;
      var bucket := BucketKey(job.merchant, DayOf(now));
      var targets0, messages0, quota0 := targets, messages, quota;
      if bucket !in quota {
        quota := quota[bucket := 0];
      }
      var hit := Hits(targets, m, {Sending});
      if hit {
        targets := targets[m := targets[m].(status := Sent, sentAt := Some(now))];
        hit := m in messages && messages[m].status == Draft;
      }
      if !hit {
        targets, messages, quota := targets0, messages0, quota0;
        return NoopAlreadyTerminal(if m in targets then targets[m].status else Sent);
      }
      messages := messages[m := messages[m].(status := MessageSent, sentAt := Some(now))];
      quota := quota[bucket := quota[bucket] + 1];
      assert quota == quota0[bucket := QuotaOn(old(Rows()), job.merchant, DayOf(now)) + 1];
      sentAudits := sentAudits + multiset{m};
      return SentNow;
    }

    // ------------------------------------- ai-generation, message, spend repositories

    method CreatePending(m: MessageId, merchant: MerchantId, customer: CustomerId, now: Millis)
      modifies `generations
      ensures generations == old(generations)[m := Generation(merchant, customer, now, GenerationPending, None, 0)]
    {
      generations := generations[m := Generation(merchant, customer, now, GenerationPending, None, 0)];
    }

    method CreateDraft(m: MessageId, merchant: MerchantId, customer: CustomerId)
      modifies `messages
      ensures messages == old(messages)[m := Message(merchant, customer, Draft, "", None)]
    {
      messages := messages[m := Message(merchant, customer, Draft, "", None)];
    }

    /** The admission transaction: a message never exists without its generation. */
    method AdmitGeneration(m: MessageId, merchant: MerchantId, customer: CustomerId, now: Millis)
      modifies `generations, `messages
      ensures Rows() == Tx.CreateDraft(old(Rows()), m, merchant, customer, now)
      ensures generations == old(generations)[m := Generation(merchant, customer, now, GenerationPending, None, 0)]
      ensures messages == old(messages)[m := Message(merchant, customer, Draft, "", None)]
    {
      CreatePending(m, merchant, customer, now);
      CreateDraft(m, merchant, customer);
    }

    method MarkCompleted(m: MessageId, text: string, cost: nat) returns (updatedCount: nat)
      modifies `generations
      ensures updatedCount
              == (if m in old(generations) && old(generations[m].status) == GenerationPending then 1 else 0)
      ensures generations
              == if updatedCount == 0 then old(generations)
                 else old(generations)[m := Finished(old(generations[m]), text, cost)]
    {
      if m in generations && generations[m].status == GenerationPending {
        generations := generations[m := Finished(generations[m], text, cost)];
        return 1;
      }
      return 0;
    }

    /** Whoever reads the message next reads this text, and finds the rest of it, and every
        other message, as before. */
    method UpdateGeneratedText(m: MessageId, text: string)
      modifies `messages
      ensures messages.Keys == old(messages).Keys
      ensures forall k :: k in messages && k != m ==> messages[k] == old(messages[k])
      ensures m in messages ==> messages[m].generatedText == text
      ensures m in messages ==> messages[m].(generatedText := "") == old(messages[m]).(generatedText := "")
    {
      if m in messages {
        messages := messages[m := messages[m].(generatedText := text)];
      }
    }

    method IncrementSpend(merchant: MerchantId, at: Millis, delta: nat)
      modifies `spend
      ensures var k := BucketKey(merchant, DayOf(at));
              var before := SpendOn(old(Rows()), merchant, DayOf(at));
              spend == old(spend)[k := SpendBucket(before.spentMicrocents + delta, before.generationCount + 1)]
    {
      var k := BucketKey(merchant, DayOf(at));
      if k in spend {
        spend := spend[k := SpendBucket(spend[k].spentMicrocents + delta, spend[k].generationCount + 1)];
      } else {
        spend := spend[k := SpendBucket(delta, 1)];
      }
    }

    /** The AI completion transaction: text and spend are written only by the worker that
        took the row out of pending; for any other the transaction commits empty. */
    method CompleteGeneration(m: MessageId, text: string, cost: nat, now: Millis) returns (completed: bool)
      modifies `generations, `messages, `spend
      ensures (Rows(), completed) == Complete(old(Rows()), m, text, cost, now)
      ensures if completed then CompletedAs(old(Rows()), Rows(), m, text, cost, now) else Rows() == old(Rows())
      ensures completed <==> m in old(generations) && old(generations[m].status) == GenerationPending
    {
      var updated := MarkCompleted(m, text, cost);
      if updated == 0 {
        return false;
      }
      UpdateGeneratedText(m, text);
      assert m in messages ==> messages[m] == messages[m].(generatedText := "").(generatedText := text);
      assert m !in messages ==> messages == old(messages);
      assert m in messages ==> messages == old(messages)[m := old(messages[m]).(generatedText := text)];
      IncrementSpend(generations[m].merchant, now, cost);
      return true;
    }

    method FailGeneration(m: MessageId) returns (failed: bool)
      modifies `generations
      ensures (Rows(), failed) == MarkFailed(old(Rows()), m)
      ensures failed <==> m in old(generations) && old(generations[m].status) == GenerationPending
      ensures generations == if !failed then old(generations)
                             else old(generations)[m := old(generations[m]).(status := GenerationFailed)]
    {
      failed := m in generations && generations[m].status == GenerationPending;
      if failed {
        generations := generations[m := generations[m].(status := GenerationFailed)];
      }
    }
  }
}
