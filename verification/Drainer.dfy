/** `runDrainTick` as code over the outbox machine. Other replicas and operators run at
    every await, and the tick may die there; what it does is proved to be a run of the
    machine, and what it leaves in the rows it claimed is stated outright. */
module Drainer {
  import opened Outbox

  /** What handling a claimed row comes to, by what kind of row it is and how its handler ended.
      Mark-before rows and successes are processed with their attempts as they were. A throw
      counts an attempt; it dead-letters the row at once if it must not be retried, and
      otherwise only with the tenth. */
  predicate HandledAs(r: Row, result: HandlerResult, r': Row) {
    && r'.kind == r.kind && r'.createdAt == r.createdAt && r'.deferredFailed == r.deferredFailed
    && (r.kind == MarkBefore || result == Succeeds ==>
          r'.processed && r'.attempts == r.attempts && r'.dead == r.dead)
    && (r.kind == Standard && result == Throws(false) ==>
          r'.dead && r'.attempts == r.attempts + 1 && r'.processed == r.processed)
    && (r.kind == Standard && result == Throws(true) && r.attempts < 9 ==>
          r'.attempts == r.attempts + 1 && r'.dead == r.dead && r'.processed == r.processed)
    && (r.kind == Standard && result == Throws(true) && r.attempts >= 9 ==>
          r'.dead && r'.attempts == r.attempts + 1 && r'.processed == r.processed)
  }

  lemma HandlingIs(r: Row, result: HandlerResult)
    ensures HandledAs(r, result, AfterHandling(r, result))
  {
  }

  /** How a tick ends: by its return, by a crash, or because its commit reported an error
      although it went through. */
  datatype TickEnd = Finished | Died | CommitThrew

  /** A row that `claimBatch` may take: unprocessed, not dead-lettered, not locked. */
  predicate Free(s: State, id: EventId) {
    id in s.rows && Claimable(s.rows[id]) && !Locked(s, id)
  }

  function FreeRows(s: State): set<EventId> {
    set id | id in s.rows && Free(s, id)
  }

  /** The oldest free rows, at most `limit` of them, oldest first, ties in any order. */
  ghost predicate OldestFirst(s: State, ids: seq<EventId>, limit: nat) {
    && Distinct(ids) && |ids| <= limit
    && (forall id :: id in ids ==> Free(s, id))
    && (forall i, j :: 0 <= i < j < |ids| && ids[i] in s.rows && ids[j] in s.rows ==>
          s.rows[ids[i]].createdAt <= s.rows[ids[j]].createdAt)
    && (forall id, other :: id in ids && other !in ids && Free(s, other) ==>
         s.rows[id].createdAt <= s.rows[other].createdAt)
    && (|ids| < limit ==> forall id :: Free(s, id) ==> id in ids)
  }

  predicate Elsewhere(r: Replica, e: Event) {
    match e
    case Append(_, _, _) => true
    case ForceDeadLetter(_) => true
    case Replay(_) => true
    case Erase(_) => true
    case Claim(q, _) => q != r
    case Handle(q, _) => q != r
    case Interrupt(q, _) => q != r
    case Commit(q) => q != r
    case CommitUnseen(q) => q != r
    case Deliver(q, _, _) => q != r
    case Finish(q) => q != r
    case Crash(q) => q != r
  }

  /** The steps replica r has taken itself, crashes aside, in order. */
  ghost function Own(r: Replica, es: seq<Event>): seq<Event>
    decreases |es|
  {
    if es == [] then []
    else
      var e := es[|es| - 1];
      Own(r, es[..|es| - 1]) + (if Elsewhere(r, e) || e.Crash? then [] else [e])
  }

  lemma {:induction false} OwnConcat(r: Replica, es: seq<Event>, fs: seq<Event>)
    ensures Own(r, es + fs) == Own(r, es) + Own(r, fs)
    decreases |fs|
  {
    if fs == [] {
      assert es + fs == es;
    } else {
      var front := fs[..|fs| - 1];
      assert (es + fs)[..|es + fs| - 1] == es + front;
      OwnConcat(r, es, front);
    }
  }

  lemma {:induction false} RunConcat(s: State, es: seq<Event>, fs: seq<Event>)
    ensures Run(s, es + fs) == Run(Run(s, es), fs)
    decreases |fs|
  {
    if fs == [] {
      assert es + fs == es;
    } else {
      var front := fs[..|fs| - 1];
      assert (es + fs)[..|es + fs| - 1] == es + front;
      RunConcat(s, es, front);
    }
  }

  lemma OneMore(r: Replica, es: seq<Event>, e: Event)
    ensures Run(Init(), es + [e]) == Step(Run(Init(), es), e)
    ensures Own(r, es + [e]) == Own(r, es) + (if Elsewhere(r, e) || e.Crash? then [] else [e])
  {
    assert (es + [e])[..|es + [e]| - 1] == es;
  }

  /** Nobody touches a row that r has locked, nor r's place. */
  lemma ElsewhereStays(s: State, e: Event, r: Replica)
    requires Inv(s) && Elsewhere(r, e)
    ensures PlaceOf(Step(s, e), r) == PlaceOf(s, r)
    ensures forall id :: Holds(PlaceOf(s, r), id) ==>
            id in s.rows && id in Step(s, e).rows && Step(s, e).rows[id] == s.rows[id]
  {
    forall id | Holds(PlaceOf(s, r), id)
      ensures id in s.rows && id in Step(s, e).rows && Step(s, e).rows[id] == s.rows[id]
    {
      Here(s, r, id);
      if e.Commit? || e.CommitUnseen? || e.Deliver? {
        Here(s, e.r, id);
      } else if e.ForceDeadLetter? || e.Replay? || e.Erase? {
        if id == e.id { assert Locked(s, id); }
      } else if e.Append? {
        assert RowOk(s, e.id);
      }
    }
  }

  lemma {:induction false} ElsewhereKeeps(s: State, es: seq<Event>, r: Replica)
    requires Inv(s) && forall e :: e in es ==> Elsewhere(r, e)
    ensures Inv(Run(s, es)) && PlaceOf(Run(s, es), r) == PlaceOf(s, r) && Own(r, es) == []
    ensures forall id :: Holds(PlaceOf(s, r), id) ==>
            id in s.rows && id in Run(s, es).rows && Run(s, es).rows[id] == s.rows[id]
    decreases |es|
  {
    if es == [] {
      forall id | Holds(PlaceOf(s, r), id)
        ensures id in s.rows
      {
        Here(s, r, id);
      }
    } else {
      ElsewhereKeeps(s, es[..|es| - 1], r);
      ElsewhereStays(Run(s, es[..|es| - 1]), es[|es| - 1], r);
      StepKeeps(Run(s, es[..|es| - 1]), es[|es| - 1]);
    }
  }

  class OutboxDb {
    var rows: Rows
    var replicas: map<Replica, Place>
    var kinds: map<EventId, Kind>
    var dispatched: map<EventId, nat>
    var delivered: map<EventId, nat>
    ghost var trace: seq<Event>

    constructor ()
      ensures Valid() && trace == []
    {
      rows, replicas, kinds, dispatched, delivered := map[], map[], map[], map[], map[];
      trace := [];
    }

    function Whole(): State
      reads this
    {
      State(rows, replicas, kinds, dispatched, delivered)
    }

    /** Everything that has happened so far is a run of the machine. */
    ghost predicate Valid()
      reads this
    {
      Whole() == Run(Init(), trace)
    }

    /** Replica r has taken these steps since, and the whole is still a run. */
    twostate predicate Took(r: Replica, steps: seq<Event>)
      reads this
    {
      Valid() && Own(r, trace) == old(Own(r, trace)) + steps && old(trace) <= trace
    }

    method Become(s: State)
      modifies this
      ensures Whole() == s && trace == old(trace)
    {
      rows, replicas, kinds, dispatched, delivered := s.rows, s.replicas, s.kinds, s.dispatched, s.delivered;
    }

    /** An await: others run, and this replica may be gone afterwards. */
    method Await(r: Replica) returns (alive: bool)
      requires Valid()
      modifies this
      ensures Took(r, []) && PlaceOf(Whole(), r) == if alive then old(PlaceOf(Whole(), r)) else Idle
      ensures alive ==> forall id :: Holds(old(PlaceOf(Whole(), r)), id) ==>
                id in old(rows) && id in rows && rows[id] == old(rows[id])
    {
      hide Run;
      RunKeeps(trace);
      var others: seq<Event> := *;
      if exists e :: e in others && !Elsewhere(r, e) {
        others := [];
      }
      ElsewhereKeeps(Whole(), others, r);
      RunConcat(Init(), trace, others);
      OwnConcat(r, trace, others);
      Become(Run(Whole(), others));
      trace := trace + others;
      alive := *;
      if !alive {
        Die(r);
      }
    }

    method Die(r: Replica)
      requires Valid()
      modifies `replicas, `trace
      ensures Took(r, []) && PlaceOf(Whole(), r) == Idle && rows == old(rows)
    {
      hide Run;
      OneMore(r, trace, Crash(r));
      replicas := replicas[r := Idle];
      trace := trace + [Crash(r)];
    }

    /** `claimBatch`: the oldest free rows, locked for the transaction that begins here. */
    method ClaimBatch(r: Replica, limit: nat) returns (ids: seq<EventId>)
      requires Valid() && PlaceOf(Whole(), r) == Idle
      modifies this
      ensures OldestFirst(old(Whole()), ids, limit)
      ensures forall id :: id in ids ==>
                id in rows && !rows[id].processed && !rows[id].dead && !Locked(old(Whole()), id)
      ensures |ids| < limit ==> forall id ::
                id in rows && !rows[id].processed && !rows[id].dead && !Locked(old(Whole()), id) ==> id in ids
      ensures Took(r, [Claim(r, ids)]) && Whole() == At(old(Whole()), r, InTx(ids, map[], []))
      ensures trace == old(trace) + [Claim(r, ids)]
    {
      hide Run;
      ids := SelectOldest(limit);
      assert CanClaim(Whole(), ids);
      OneMore(r, trace, Claim(r, ids));
      replicas := replicas[r := InTx(ids, map[], [])];
      trace := trace + [Claim(r, ids)];
    }

    method SelectOldest(limit: nat) returns (ids: seq<EventId>)
      ensures OldestFirst(Whole(), ids, limit)
    {
      var free := FreeRows(Whole());
      var rest := free;
      ids := [];
      while |ids| < limit && rest != {}
        invariant |ids| <= limit && Distinct(ids) && rest <= free
        invariant forall id :: id in free ==> (id in ids <==> id !in rest)
        invariant forall id :: id in ids ==> id in free
        invariant forall i, j :: 0 <= i < j < |ids| && ids[i] in rows && ids[j] in rows ==>
                    rows[ids[i]].createdAt <= rows[ids[j]].createdAt
        invariant forall id, other :: id in ids && other in rest ==> rows[id].createdAt <= rows[other].createdAt
        decreases |rest|
      {
        HasOldest(rows, rest);
        var next :| Oldest(rows, rest, next);
        ids := ids + [next];
        rest := rest - {next};
      }
      assert forall id :: Free(Whole(), id) ==> id in free;
    }

    /** Phase 1 for one row: mark and postpone, or run the handler and mark what came of it.
        The marks are this transaction's own until it commits. */
    method HandleRow(r: Replica, id: EventId, result: HandlerResult)
      requires Valid() && PlaceOf(Whole(), r).InTx? && id in rows
      requires PlaceOf(Whole(), r).todo != [] && PlaceOf(Whole(), r).todo[0] == id
      modifies this
      ensures Took(r, [Handle(r, result)]) && rows == old(rows)
      ensures rows[id].kind == MarkBefore ==> dispatched == old(dispatched) && delivered == old(delivered)
      ensures rows[id].kind == Standard ==>
                && Times(dispatched, id) == Times(old(dispatched), id) + 1
                && Times(delivered, id) == Times(old(delivered), id) + (if result == Succeeds then 1 else 0)
      ensures var p := old(PlaceOf(Whole(), r));
              PlaceOf(Whole(), r) == InTx(p.todo[1..], p.writes[id := AfterHandling(rows[id], result)],
                                          if rows[id].kind == MarkBefore then p.deferred + [id] else p.deferred)
      ensures HandledAs(rows[id], result, PlaceOf(Whole(), r).writes[id])
    {
      hide Run, HandledAs;
      HandlingIs(rows[id], result);
      var p, row := replicas[r], rows[id];
      var write, deferred := row, p.deferred;
      if row.kind == MarkBefore {
        write := row.(processed := true);
        deferred := deferred + [id];
      } else {
        dispatched := Count(dispatched, id);
        if result == Succeeds {
          delivered := Count(delivered, id);
          write := row.(processed := true);
        } else {
          var nextAttempts := row.attempts + 1;
          var shouldDeadLetter := !result.retryable || nextAttempts >= MAX_OUTBOX_ATTEMPTS;
          if shouldDeadLetter {
            write := row.(dead := true, attempts := nextAttempts);
          } else {
            write := row.(attempts := nextAttempts);
          }
        }
      }
      OneMore(r, trace, Handle(r, result));
      replicas := replicas[r := InTx(p.todo[1..], p.writes[id := write], deferred)];
      trace := trace + [Handle(r, result)];
    }

    /** The transaction commits: every mark becomes visible and every lock is released. */
    method CommitTx(r: Replica, seen: bool)
      requires Valid() && PlaceOf(Whole(), r).InTx? && PlaceOf(Whole(), r).todo == []
      modifies this
      ensures Took(r, [if seen then Commit(r) else CommitUnseen(r)])
      ensures rows == old(rows) + old(PlaceOf(Whole(), r)).writes
      ensures PlaceOf(Whole(), r) == if seen then PhaseTwo(old(PlaceOf(Whole(), r)).deferred) else Idle
    {
      hide Run;
      var p := replicas[r];
      ghost var e := if seen then Commit(r) else CommitUnseen(r);
      OneMore(r, trace, e);
      rows := rows + p.writes;
      replicas := replicas[r := if seen then PhaseTwo(p.deferred) else Idle];
      trace := trace + [e];
    }

    /** Phase 2 for one row, which stays processed whatever its handler does. Losing the
        forensic marker is swallowed. */
    method DeliverDeferred(r: Replica, id: EventId, result: HandlerResult, marked: bool)
      requires Valid() && PlaceOf(Whole(), r).PhaseTwo?
      requires PlaceOf(Whole(), r).deferred != [] && PlaceOf(Whole(), r).deferred[0] == id
      modifies this
      ensures Took(r, [Deliver(r, result, marked)])
      ensures Times(dispatched, id) == Times(old(dispatched), id) + 1
      ensures Times(delivered, id) == Times(old(delivered), id) + (if result == Succeeds then 1 else 0)
      ensures rows.Keys == old(rows).Keys && forall k :: k in rows && k != id ==> rows[k] == old(rows[k])
      ensures id in rows ==>
                rows[id] == if result.Throws? && marked then old(rows[id]).(deferredFailed := true) else old(rows[id])
      ensures PlaceOf(Whole(), r) == PhaseTwo(old(PlaceOf(Whole(), r)).deferred[1..])
    {
      hide Run;
      var p := replicas[r];
      dispatched := Count(dispatched, id);
      if result == Succeeds {
        delivered := Count(delivered, id);
      } else if marked && id in rows {
        rows := rows[id := rows[id].(deferredFailed := true)];
      }
      OneMore(r, trace, Deliver(r, result, marked));
      replicas := replicas[r := PhaseTwo(p.deferred[1..])];
      trace := trace + [Deliver(r, result, marked)];
    }

    /** The operator forces a row that is not locked into the dead-letter state, processed or
        not; a row already there is left alone. */
    method MarkDeadLettered(id: EventId) returns (wasAlreadyDeadLettered: bool)
      requires Valid() && id in rows && !Locked(Whole(), id)
      modifies this
      ensures Valid() && trace == old(trace) + [ForceDeadLetter(id)]
      ensures wasAlreadyDeadLettered <==> old(rows[id].dead)
      ensures rows == if wasAlreadyDeadLettered then old(rows)
                      else old(rows)[id := old(rows[id]).(dead := true, attempts := old(rows[id].attempts) + 1)]
    {
      hide Run, Locked;
      var row := rows[id];
      OneMore(0, trace, ForceDeadLetter(id));
      wasAlreadyDeadLettered := row.dead;
      if !wasAlreadyDeadLettered {
        rows := rows[id := row.(dead := true, attempts := row.attempts + 1)];
      }
      trace := trace + [ForceDeadLetter(id)];
    }

    /** The operator replays a dead-lettered row: attempts start over, and a row that was
        processed stays so, out of reach of the claim. */
    method RequeueDeadLettered(id: EventId) returns (wasDeadLettered: bool)
      requires Valid() && id in rows && !Locked(Whole(), id)
      modifies this
      ensures Valid() && trace == old(trace) + [Replay(id)]
      ensures wasDeadLettered <==> old(rows[id].dead)
      ensures rows
              == if wasDeadLettered then old(rows)[id := old(rows[id]).(dead := false, attempts := 0)] else old(rows)
      ensures Claimable(rows[id]) <==> !rows[id].processed && (wasDeadLettered || old(Claimable(rows[id])))
    {
      hide Run, Locked;
      var row := rows[id];
      OneMore(0, trace, Replay(id));
      wasDeadLettered := row.dead;
      if wasDeadLettered {
        rows := rows[id := row.(dead := false, attempts := 0)];
      }
      trace := trace + [Replay(id)];
    }

    /** Phase 1: claim, handle every claimed row, commit. */
    method PhaseOne(r: Replica, batchSize: nat, results: EventId -> HandlerResult, seen: bool)
      returns (end: TickEnd, ids: seq<EventId>, ghost steps: seq<Event>)
      requires Valid() && PlaceOf(Whole(), r) == Idle
      modifies this
      ensures Took(r, steps) && OldestFirst(old(Whole()), ids, batchSize)
      ensures end == Died ==> PlaceOf(Whole(), r) == Idle
      ensures end != Died ==>
                && end == (if seen then Finished else CommitThrew)
                && steps == [Claim(r, ids)] + Handling(r, ids, results) + [if seen then Commit(r) else CommitUnseen(r)]
                && Handled(old(Whole()), rows, ids, results)
                && PlaceOf(Whole(), r) == if seen then PhaseTwo(Deferred(old(Whole()), ids)) else Idle
    {
      hide Run, OldestFirst, HandledUpTo, Handled, Untouched, Handling, Deferred, Own;
      ghost var s := Whole();
      ids := ClaimBatch(r, batchSize);
      FreeIsThere(s, ids, batchSize);
      ghost var done;
      end, done := HandleBatch(r, s, ids, results);
      steps := [Claim(r, ids)] + done;
      if end == Died {
        return;
      }
      var alive := Await(r);
      if !alive {
        return Died, ids, steps;
      }
      AllHandled(s, PlaceOf(Whole(), r), rows, ids, results);
      CommitTx(r, seen);
      steps := steps + [if seen then Commit(r) else CommitUnseen(r)];
      end := if seen then Finished else CommitThrew;
    }

    /** The loop over the claimed rows. */
    method HandleBatch(r: Replica, ghost s: State, ids: seq<EventId>, results: EventId -> HandlerResult)
      returns (end: TickEnd, ghost steps: seq<Event>)
      requires Valid() && PlaceOf(Whole(), r) == InTx(ids, map[], []) && Distinct(ids) && Untouched(s, rows, ids)
      modifies this
      ensures Took(r, steps) && end in {Finished, Died}
      ensures end == Died ==> PlaceOf(Whole(), r) == Idle
      ensures end == Finished ==>
                && steps == Handling(r, ids, results)
                && HandledUpTo(s, PlaceOf(Whole(), r), ids, |ids|, results)
    {
      hide Run, HandledUpTo, Untouched;
      steps := [];
      HandlingStarts(s, r, ids, results);
      var i := 0;
      while i < |ids|
        invariant 0 <= i <= |ids|
        invariant Took(r, steps) && steps == Handling(r, ids[..i], results)
        invariant HandledUpTo(s, PlaceOf(Whole(), r), ids, i, results)
        invariant Untouched(s, rows, ids)
      {
        ghost var rows0, p := rows, PlaceOf(Whole(), r);
        var alive := Await(r);
        if !alive {
          return Died, steps;
        }
        NextRow(s, p, rows0, rows, ids, i, results);
        HandleRow(r, ids[i], results(ids[i]));
        steps := steps + [Handle(r, results(ids[i]))];
        OneHandled(s, p, PlaceOf(Whole(), r), ids, i, results);
        HandlingGrows(r, ids, i, results);
        i := i + 1;
      }
      assert ids[..|ids|] == ids;
      end := Finished;
    }

    /** Phase 2: the deferred handlers, one by one, whether or not they throw. */
    method PhaseTwoLoop(r: Replica, results: EventId -> HandlerResult, marked: EventId -> bool)
      returns (end: TickEnd, ghost steps: seq<Event>)
      requires Valid() && PlaceOf(Whole(), r).PhaseTwo?
      modifies this
      ensures Took(r, steps) && end in {Finished, Died} && PlaceOf(Whole(), r) == Idle
      ensures end == Finished ==>
              steps == Delivering(r, old(PlaceOf(Whole(), r)).deferred, results, marked) + [Finish(r)]
    {
      hide Run;
      var deferred := replicas[r].deferred;
      steps := [];
      for i := 0 to |deferred|
        invariant Took(r, steps) && PlaceOf(Whole(), r) == PhaseTwo(deferred[i..])
        invariant steps == Delivering(r, deferred[..i], results, marked)
      {
        var alive := Await(r);
        if !alive {
          return Died, steps;
        }
        assert deferred[i..][1..] == deferred[i + 1..] && deferred[..i + 1] == deferred[..i] + [deferred[i]];
        DeliverDeferred(r, deferred[i], results(deferred[i]), marked(deferred[i]));
        steps := steps + [Deliver(r, results(deferred[i]), marked(deferred[i]))];
      }
      assert deferred[..|deferred|] == deferred;
      OneMore(r, trace, Finish(r));
      replicas := replicas[r := Idle];
      trace := trace + [Finish(r)];
      steps := steps + [Finish(r)];
      end := Finished;
    }

    /** One tick. What it claims is the oldest there is; what it commits is what handling
        made of each row; the deferred handlers run after the commit and only then; and it
        asks for another tick exactly if the batch was full. */
    method RunDrainTick(r: Replica, batchSize: nat, results: EventId -> HandlerResult, seen: bool,
                        deferredResults: EventId -> HandlerResult, marked: EventId -> bool)
      returns (end: TickEnd, claimed: nat, hasMore: bool, ghost ids: seq<EventId>, ghost steps: seq<Event>,
               ghost committed: Rows)
      requires Valid() && PlaceOf(Whole(), r) == Idle
      modifies this
      ensures Took(r, steps) && PlaceOf(Whole(), r) == Idle
      ensures OldestFirst(old(Whole()), ids, batchSize)
      ensures claimed == |ids| && (hasMore <==> claimed == batchSize)
      ensures end != Died ==> Handled(old(Whole()), committed, ids, results)
      ensures end != Died ==>
                forall id :: id in ids ==>
                  && id in old(rows) && id in committed && HandledAs(old(rows)[id], results(id), committed[id])
      ensures end == CommitThrew ==> steps == [Claim(r, ids)] + Handling(r, ids, results) + [CommitUnseen(r)]
      ensures end == Finished ==>
                steps == [Claim(r, ids)] + Handling(r, ids, results) + [Commit(r)]
                         + (Delivering(r, Deferred(old(Whole()), ids), deferredResults, marked) + [Finish(r)])
      ensures forall id :: id in kinds && kinds[id] == MarkBefore ==> Times(dispatched, id) <= 1
      ensures forall id :: id in rows && rows[id].kind == Standard && rows[id].processed ==> Times(delivered, id) >= 1
    {
      hide Run, OldestFirst, Handled;
      var claimedIds;
      end, claimedIds, steps := PhaseOne(r, batchSize, results, seen);
      ids := claimedIds;
      committed := rows;
      AllHandledAs(old(Whole()), rows, ids, results);
      claimed := |claimedIds|;
      hasMore := claimed == batchSize;
      if end == Finished {
        ghost var more;
        end, more := PhaseTwoLoop(r, deferredResults, marked);
        steps := steps + more;
      }
      forall id
        ensures id in kinds && kinds[id] == MarkBefore ==> Times(dispatched, id) <= 1
        ensures id in rows && rows[id].kind == Standard && rows[id].processed ==> Times(delivered, id) >= 1
      {
        DeliveryDuality(trace, id);
      }
    }
  }

  /** The steps of Phase 2. */
  ghost function Delivering(r: Replica, ids: seq<EventId>, results: EventId -> HandlerResult,
                            marked: EventId -> bool): seq<Event> {
    seq(|ids|, i requires 0 <= i < |ids| => Deliver(r, results(ids[i]), marked(ids[i])))
  }

  /** The handling steps of a batch. */
  ghost function Handling(r: Replica, ids: seq<EventId>, results: EventId -> HandlerResult): seq<Event> {
    seq(|ids|, i requires 0 <= i < |ids| => Handle(r, results(ids[i])))
  }

  /** The mark-before-invoke rows of a batch, in batch order. */
  ghost function Deferred(s: State, ids: seq<EventId>): seq<EventId> {
    if ids == [] then []
    else
      var id := ids[|ids| - 1];
      Deferred(s, ids[..|ids| - 1]) + (if id in s.rows && s.rows[id].kind == MarkBefore then [id] else [])
  }

  /** Phase 2 gets each mark-before-invoke row of the batch once, in batch order, and no other. */
  lemma {:induction false} DeferredInOrder(s: State, ids: seq<EventId>)
    requires Distinct(ids)
    ensures var later := Deferred(s, ids);
            && (forall id :: id in later <==> id in ids && id in s.rows && s.rows[id].kind == MarkBefore)
            && (forall i, j :: 0 <= i < j < |later| ==> Precedes(ids, later[i], later[j]))
    decreases |ids|
  {
    if ids != [] {
      var front, last := ids[..|ids| - 1], ids[|ids| - 1];
      DeferredInOrder(s, front);
      var later := Deferred(s, ids);
      forall i, j | 0 <= i < j < |later|
        ensures Precedes(ids, later[i], later[j])
      {
        var earlier := Deferred(s, front);
        assert i < |earlier| && later[i] == earlier[i];
        if j < |earlier| {
          assert Precedes(front, earlier[i], earlier[j]);
        } else {
          assert earlier[i] in front;
          var a :| 0 <= a < |front| && front[a] == later[i];
          assert ids[a] == later[i] && ids[|ids| - 1] == later[j];
        }
      }
    }
  }

  predicate Precedes(ids: seq<EventId>, first: EventId, second: EventId) {
    exists a, b :: 0 <= a < b < |ids| && ids[a] == first && ids[b] == second
  }

  ghost predicate Untouched(s: State, rows: Rows, ids: seq<EventId>) {
    forall id :: id in ids ==> id in s.rows && id in rows && rows[id] == s.rows[id]
  }

  /** The replica's place once the first i rows of the batch are handled. */
  ghost predicate HandledUpTo(s: State, p: Place, ids: seq<EventId>, i: int, results: EventId -> HandlerResult) {
    && 0 <= i <= |ids|
    && p.InTx? && p.todo == ids[i..] && p.deferred == Deferred(s, ids[..i])
    && (forall id :: id in p.writes <==> id in ids[..i])
    && (forall id :: id in p.writes ==> id in s.rows && p.writes[id] == AfterHandling(s.rows[id], results(id)))
  }

  lemma HandlingStarts(s: State, r: Replica, ids: seq<EventId>, results: EventId -> HandlerResult)
    ensures Handling(r, ids[..0], results) == []
    ensures HandledUpTo(s, InTx(ids, map[], []), ids, 0, results)
  {
    assert ids[0..] == ids;
  }

  /** While the replica lives its locked rows are still what they were when claimed. */
  lemma NextRow(s: State, p: Place, rows0: Rows, rows: Rows, ids: seq<EventId>, i: nat,
                results: EventId -> HandlerResult)
    requires HandledUpTo(s, p, ids, i, results) && i < |ids| && Untouched(s, rows0, ids)
    requires forall id :: Holds(p, id) ==> id in rows0 && id in rows && rows[id] == rows0[id]
    ensures Untouched(s, rows, ids) && p.todo != [] && p.todo[0] == ids[i] && ids[i] in rows && p.InTx?
    ensures ids[i] in s.rows && rows[ids[i]] == s.rows[ids[i]]
  {
    forall id | id in ids
      ensures id in rows && id in rows0 && rows[id] == rows0[id]
    {
      var k :| 0 <= k < |ids| && ids[k] == id;
      assert k < i ==> id in ids[..i];
      assert k >= i ==> id == ids[i..][k - i];
      assert Holds(p, id);
    }
    assert ids[i] in ids;
  }

  lemma OneHandled(s: State, p: Place, p': Place, ids: seq<EventId>, i: nat, results: EventId -> HandlerResult)
    requires HandledUpTo(s, p, ids, i, results) && i < |ids| && ids[i] in s.rows
    requires var id := ids[i];
             p' == InTx(p.todo[1..], p.writes[id := AfterHandling(s.rows[id], results(id))],
                        if s.rows[id].kind == MarkBefore then p.deferred + [id] else p.deferred)
    ensures HandledUpTo(s, p', ids, i + 1, results)
  {
    var done := ids[..i + 1];
    assert done == ids[..i] + [ids[i]] && done[..|done| - 1] == ids[..i];
    assert ids[i..][1..] == ids[i + 1..];
  }

  lemma HandlingGrows(r: Replica, ids: seq<EventId>, i: nat, results: EventId -> HandlerResult)
    requires i < |ids|
    ensures Handling(r, ids[..i + 1], results) == Handling(r, ids[..i], results) + [Handle(r, results(ids[i]))]
  {
    assert ids[..i + 1] == ids[..i] + [ids[i]];
  }

  lemma AllHandled(s: State, p: Place, rows: Rows, ids: seq<EventId>, results: EventId -> HandlerResult)
    requires HandledUpTo(s, p, ids, |ids|, results)
    ensures p.InTx? && p.todo == [] && p.deferred == Deferred(s, ids)
    ensures Handled(s, rows + p.writes, ids, results)
  {
    assert ids[..|ids|] == ids;
  }

  lemma FreeIsThere(s: State, ids: seq<EventId>, limit: nat)
    requires OldestFirst(s, ids, limit)
    ensures Distinct(ids) && Untouched(s, s.rows, ids)
  {
  }

  /** Every claimed row is what its handling made of the row as it was claimed. */
  ghost predicate Handled(s: State, rows: Rows, ids: seq<EventId>, results: EventId -> HandlerResult) {
    forall id :: id in ids ==> id in s.rows && id in rows && rows[id] == AfterHandling(s.rows[id], results(id))
  }

  lemma AllHandledAs(s: State, rows: Rows, ids: seq<EventId>, results: EventId -> HandlerResult)
    ensures Handled(s, rows, ids, results) ==>
              forall id :: id in ids ==> id in s.rows && id in rows && HandledAs(s.rows[id], results(id), rows[id])
  {
    if Handled(s, rows, ids, results) {
      forall id | id in ids
        ensures id in s.rows && id in rows && HandledAs(s.rows[id], results(id), rows[id])
      {
        HandlingIs(s.rows[id], results(id));
      }
    }
  }

  predicate Oldest(rows: Rows, ids: set<EventId>, id: EventId)
    requires ids <= rows.Keys
  {
    id in ids && forall other :: other in ids ==> rows[id].createdAt <= rows[other].createdAt
  }

  lemma {:induction false} HasOldest(rows: Rows, ids: set<EventId>)
    requires ids != {} && ids <= rows.Keys
    ensures exists id :: Oldest(rows, ids, id)
    decreases |ids|
  {
    var id :| id in ids;
    if ids == {id} {
      assert Oldest(rows, ids, id);
    } else {
      HasOldest(rows, ids - {id});
      var other :| Oldest(rows, ids - {id}, other);
      var oldest := if rows[other].createdAt <= rows[id].createdAt then other else id;
      forall k | k in ids
        ensures rows[oldest].createdAt <= rows[k].createdAt
      {
        assert k == id || k in ids - {id};
      }
      assert Oldest(rows, ids, oldest);
    }
  }
}
