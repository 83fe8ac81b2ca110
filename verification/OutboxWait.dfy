/** Bounded wait and draining, over runs of the outbox machine. Every committed dispatch of a
    row brings it closer to its end, so the attempts that the claimable rows have left fall by
    a batch with each committed tick; and with one drainer and no replays, a row that p others
    are ahead of is claimed within 10 p / b + 1 committed ticks of batch size b, whatever
    crashes, dead-letters and erasures come in between. */
module OutboxWait {
  import opened Collections
  import opened Outbox
  import opened Drainer

  /** Attempts left to the rows of a set. */
  function Left(rows: Rows, ids: set<EventId>): map<EventId, int> {
    map id | id in ids && id in rows :: MAX_OUTBOX_ATTEMPTS - rows[id].attempts
  }

  function ClaimableRows(rows: Rows): set<EventId> {
    set id | id in rows && Claimable(rows[id])
  }

  /** The claimable rows that may be taken before x: older or of the same instant. */
  function Ahead(rows: Rows, x: EventId): set<EventId>
    requires x in rows
  {
    set id | id in ClaimableRows(rows) && id != x && rows[id].createdAt <= rows[x].createdAt
  }

  ghost predicate RowsOk(rows: Rows) {
    forall id :: id in rows ==> AttemptsOk(rows[id])
  }

  lemma ReachableRowsOk(s: State)
    requires Inv(s)
    ensures RowsOk(s.rows)
  {
    forall id | id in s.rows
      ensures AttemptsOk(s.rows[id])
    {
      assert RowOk(s, id);
    }
  }

  // ------------------------------------------------------------ sums that fall

  /** A drop of at least one on each of d, and no rise anywhere, is a drop of |d| in all. */
  lemma {:induction false} SumDrops(m: map<EventId, int>, n: map<EventId, int>, d: set<EventId>)
    requires n.Keys <= m.Keys && d <= m.Keys
    requires forall k :: k in n ==> 0 <= n[k] <= m[k]
    requires forall k :: k in m ==> m[k] >= 0
    requires forall k :: k in d ==> m[k] >= 1 && (k in n ==> n[k] < m[k])
    ensures Sum(n) + |d| <= Sum(m)
    decreases |d|
  {
    if d == {} {
      SumMonotone(n, m);
    } else {
      var k :| k in d;
      SumUpdate(m, k, m[k] - 1);
      SumDrops(m[k := m[k] - 1], n, d - {k});
    }
  }

  /** The rows of a watched set as one step finds and leaves them: none is new to the set, none
      wins attempts back, and those in d lose one or leave the set. */
  ghost predicate UsesUp(rows: Rows, ids: set<EventId>, rows': Rows, ids': set<EventId>, d: set<EventId>) {
    && ids <= rows.Keys && ids' <= rows'.Keys && ids' <= ids && d <= ids
    && (forall id :: id in ids' ==> rows'[id].attempts >= rows[id].attempts)
    && (forall id :: id in d && id in ids' ==> rows'[id].attempts > rows[id].attempts)
    && (forall id :: id in ids ==> Claimable(rows[id]))
  }

  lemma LeftFalls(rows: Rows, ids: set<EventId>, rows': Rows, ids': set<EventId>, d: set<EventId>)
    requires RowsOk(rows) && RowsOk(rows') && UsesUp(rows, ids, rows', ids', d)
    ensures Sum(Left(rows', ids')) + |d| <= Sum(Left(rows, ids))
  {
    SumDrops(Left(rows, ids), Left(rows', ids'), d);
  }

  // ------------------------------------------------------------- the whole backlog

  ghost function Backlog(rows: Rows): int {
    Sum(Left(rows, ClaimableRows(rows)))
  }

  /** The rows an event commits. */
  function Commits(s: State, e: Event): set<EventId> {
    if !(e.Commit? || e.CommitUnseen?) then {}
    else
      var p := PlaceOf(s, e.r);
      if p.InTx? && p.todo == [] then p.writes.Keys else {}
  }

  /** The rows committed over a run, each as often as it was. */
  function Committed(s: State, es: seq<Event>): nat
    decreases |es|
  {
    if es == [] then 0
    else Committed(s, es[..|es| - 1]) + |Commits(Run(s, es[..|es| - 1]), es[|es| - 1])|
  }

  /** A commit turns every row it writes into one with an attempt less, or a row that is done. */
  lemma CommitUsesUp(s: State, r: Replica, seen: bool)
    requires Inv(s) && PlaceOf(s, r).InTx? && PlaceOf(s, r).todo == []
    ensures var rows', d := CommitStep(s, r, seen).rows, PlaceOf(s, r).writes.Keys;
            && d <= ClaimableRows(s.rows) && rows'.Keys == s.rows.Keys
            && (forall id :: id in s.rows && id !in d ==> rows'[id] == s.rows[id])
            && (forall id :: id in d ==> rows'[id].createdAt == s.rows[id].createdAt)
            && (forall id :: id in d && Claimable(rows'[id]) ==> rows'[id].attempts > s.rows[id].attempts)
  {
    forall id | id in PlaceOf(s, r).writes
      ensures id in s.rows && Claimable(s.rows[id])
      ensures WriteOk(s, PlaceOf(s, r), id)
    {
      assert Holds(PlaceOf(s, r), id);
      Here(s, r, id);
    }
  }

  /** Any other event gives no claimable row back an attempt, and only appending and replaying
      make rows claimable. */
  predicate Adds(e: Event) {
    e.Append? || e.Replay?
  }

  lemma OthersUseNothing(s: State, e: Event, id: EventId)
    requires Inv(s) && !Adds(e) && !e.Commit? && !e.CommitUnseen?
    ensures var rows' := Step(s, e).rows;
            id in rows' ==> && id in s.rows && rows'[id].createdAt == s.rows[id].createdAt
                            && rows'[id].attempts >= s.rows[id].attempts
                            && (Claimable(rows'[id]) ==> Claimable(s.rows[id]))
    ensures id in s.rows && id !in Step(s, e).rows ==> e == Erase(id)
    ensures id in s.rows && id in Step(s, e).rows && Claimable(s.rows[id]) && !Claimable(Step(s, e).rows[id]) ==>
              e == ForceDeadLetter(id)
  {
  }

  lemma CommitDrains(s: State, r: Replica, seen: bool)
    requires Inv(s) && PlaceOf(s, r).InTx? && PlaceOf(s, r).todo == []
    ensures Backlog(CommitStep(s, r, seen).rows) + |PlaceOf(s, r).writes.Keys| <= Backlog(s.rows)
  {
    CommitKeeps(s, r, seen);
    CommitUsesUp(s, r, seen);
    ReachableRowsOk(s);
    ReachableRowsOk(CommitStep(s, r, seen));
    hide Inv, CommitStep;
    var rows' := CommitStep(s, r, seen).rows;
    LeftFalls(s.rows, ClaimableRows(s.rows), rows', ClaimableRows(rows'), PlaceOf(s, r).writes.Keys);
  }

  lemma OthersDrain(s: State, e: Event)
    requires Inv(s) && !Adds(e) && !e.Commit? && !e.CommitUnseen?
    ensures Backlog(Step(s, e).rows) <= Backlog(s.rows)
  {
    var rows' := Step(s, e).rows;
    StepKeeps(s, e);
    ReachableRowsOk(s);
    ReachableRowsOk(Step(s, e));
    hide Inv, Step;
    forall id
      ensures id in rows' ==> id in s.rows && rows'[id].attempts >= s.rows[id].attempts
      ensures id in ClaimableRows(rows') ==> id in ClaimableRows(s.rows)
    {
      OthersUseNothing(s, e, id);
    }
    LeftFalls(s.rows, ClaimableRows(s.rows), rows', ClaimableRows(rows'), {});
  }

  lemma StepDrains(s: State, e: Event)
    requires Inv(s) && !Adds(e)
    ensures Backlog(Step(s, e).rows) + |Commits(s, e)| <= Backlog(s.rows)
  {
    hide Inv, Backlog;
    if e.Commit? || e.CommitUnseen? {
      if PlaceOf(s, e.r).InTx? && PlaceOf(s, e.r).todo == [] { CommitDrains(s, e.r, e.Commit?); }
    } else {
      OthersDrain(s, e);
    }
  }

  /** Over any run in which nothing is appended or replayed, with any number of replicas,
      crashes, forced dead-letters and erasures, the attempts left to claimable rows fall by
      at least the number of rows committed. */
  lemma {:induction false} BacklogDrains(es: seq<Event>, fs: seq<Event>)
    requires forall e :: e in fs ==> !Adds(e)
    ensures var s := Run(Init(), es);
            0 <= Backlog(Run(s, fs).rows) <= Backlog(s.rows) - Committed(s, fs)
    decreases |fs|
  {
    var s := Run(Init(), es);
    RunKeeps(es);
    if fs == [] {
      ReachableRowsOk(s);
      SumNonNegative(Left(s.rows, ClaimableRows(s.rows)));
    } else {
      var front, e := fs[..|fs| - 1], fs[|fs| - 1];
      BacklogDrains(es, front);
      RunConcat(Init(), es, front);
      RunKeeps(es + front);
      StepDrains(Run(s, front), e);
      StepKeeps(Run(s, front), e);
      ReachableRowsOk(Run(s, fs));
      SumNonNegative(Left(Run(s, fs).rows, ClaimableRows(Run(s, fs).rows)));
    }
  }

  // -------------------------------------------------------------- one row's wait

  /** The attempts that the rows ahead of x have left. */
  ghost function Debt(rows: Rows, x: EventId): int
    requires x in rows
  {
    Sum(Left(rows, Ahead(rows, x)))
  }

  /** The rows a replica has claimed. */
  function Batch(p: Place): set<EventId> {
    if p.InTx? then (set id | id in p.todo) + p.writes.Keys else {}
  }

  /** What the one drainer r does while x waits: each claim takes the oldest free rows, as
      `claimBatch` does. Anything may crash, new rows are newer, nobody replays, and nobody
      else claims. */
  ghost predicate Fair(r: Replica, b: nat, x: EventId, s: State, e: Event) {
    match e
    case Claim(q, ids) => q == r && (PlaceOf(s, r).Idle? ==> OldestFirst(s, ids, b))
    case Append(_, _, createdAt) => x in s.rows ==> s.rows[x].createdAt < createdAt
    case Replay(_) => false
    case _ => true
  }

  ghost predicate FairRun(r: Replica, b: nat, x: EventId, s: State, fs: seq<Event>)
    decreases |fs|
  {
    fs == [] || (FairRun(r, b, x, s, fs[..|fs| - 1]) && Fair(r, b, x, Run(s, fs[..|fs| - 1]), fs[|fs| - 1]))
  }

  predicate CommitsTick(r: Replica, s: State, e: Event) {
    (e == Commit(r) || e == CommitUnseen(r)) && PlaceOf(s, r).InTx? && PlaceOf(s, r).todo == []
  }

  /** The ticks of r that a run commits. */
  function Ticks(r: Replica, s: State, fs: seq<Event>): nat
    decreases |fs|
  {
    if fs == [] then 0
    else Ticks(r, s, fs[..|fs| - 1]) + (if CommitsTick(r, Run(s, fs[..|fs| - 1]), fs[|fs| - 1]) then 1 else 0)
  }

  /** x is claimable and nobody has it; if r is in a tick, a full batch of rows ahead of x is. */
  ghost predicate WaitsFor(r: Replica, b: nat, x: EventId, s: State) {
    && x in s.rows && Claimable(s.rows[x])
    && (forall q :: q != r ==> !PlaceOf(s, q).InTx?)
    && !Holds(PlaceOf(s, r), x)
    && (PlaceOf(s, r).InTx? ==> |Batch(PlaceOf(s, r))| >= b && Batch(PlaceOf(s, r)) <= Ahead(s.rows, x))
  }

  /** x is taken into a batch, or an operator ends its wait. */
  predicate Ends(r: Replica, x: EventId, s: State, e: Event) {
    e == ForceDeadLetter(x) || e == Erase(x) || Holds(PlaceOf(Step(s, e), r), x)
  }

  function Members(ids: seq<EventId>): set<EventId> {
    set id | id in ids
  }

  lemma {:induction false} DistinctSize(ids: seq<EventId>)
    requires Distinct(ids)
    ensures |Members(ids)| == |ids|
    decreases |ids|
  {
    if ids != [] {
      DistinctSize(ids[1..]);
      assert ids == [ids[0]] + ids[1..];
      assert Members(ids) == {ids[0]} + Members(ids[1..]);
    }
  }

  lemma NobodyHasIt(r: Replica, b: nat, x: EventId, s: State)
    requires WaitsFor(r, b, x, s)
    ensures Free(s, x)
  {
    assert forall q :: q in s.replicas ==> PlaceOf(s, q) == s.replicas[q];
  }

  /** A claim that passes x over is full of rows ahead of it. */
  lemma PassedOver(s: State, ids: seq<EventId>, b: nat, x: EventId)
    requires OldestFirst(s, ids, b) && Free(s, x) && x !in ids
    ensures |Members(ids)| >= b && Members(ids) <= Ahead(s.rows, x)
  {
    DistinctSize(ids);
    forall id | id in ids
      ensures id in Ahead(s.rows, x)
    {
      assert Free(s, id);
    }
  }

  lemma ClaimWaits(r: Replica, b: nat, x: EventId, s: State, ids: seq<EventId>)
    requires WaitsFor(r, b, x, s) && OldestFirst(s, ids, b) && x !in ids
    ensures WaitsFor(r, b, x, At(s, r, InTx(ids, map[], [])))
  {
    NobodyHasIt(r, b, x, s);
    PassedOver(s, ids, b, x);
    hide OldestFirst, Locked, Free, Ahead;
    var s' := At(s, r, InTx(ids, map[], []));
    assert forall q :: q != r ==> PlaceOf(s', q) == PlaceOf(s, q);
    assert Batch(PlaceOf(s', r)) == Members(ids);
  }

  /** A committed batch ahead of x takes its size off the attempts ahead of x. */
  lemma CommitPays(r: Replica, b: nat, x: EventId, s: State, seen: bool)
    requires Inv(s) && WaitsFor(r, b, x, s) && PlaceOf(s, r).InTx? && PlaceOf(s, r).todo == []
    ensures WaitsFor(r, b, x, CommitStep(s, r, seen))
    ensures Debt(CommitStep(s, r, seen).rows, x) + b <= Debt(s.rows, x)
  {
    var s' := CommitStep(s, r, seen);
    var d := PlaceOf(s, r).writes.Keys;
    assert Batch(PlaceOf(s, r)) == d;
    assert !PlaceOf(s', r).InTx? && forall q :: q != r ==> PlaceOf(s', q) == PlaceOf(s, q);
    hide Inv, CommitStep;
    CommitUsesUp(s, r, seen);
    CommitKeeps(s, r, seen);
    DebtFalls(s, s', x, d);
  }

  /** Nobody joins a tick but by a claim. */
  lemma NobodyJoins(s: State, e: Event, q: Replica)
    requires !e.Claim? && PlaceOf(Step(s, e), q).InTx?
    ensures PlaceOf(s, q).InTx?
  {
  }

  /** A row in a batch stays in it, as it is, until the tick ends. */
  lemma BatchStays(r: Replica, s: State, e: Event)
    requires Inv(s) && !e.Claim? && !CommitsTick(r, s, e) && PlaceOf(Step(s, e), r).InTx?
    ensures PlaceOf(s, r).InTx? && Batch(PlaceOf(Step(s, e), r)) == Batch(PlaceOf(s, r))
    ensures forall id :: id in Batch(PlaceOf(s, r)) ==>
              id in s.rows && id in Step(s, e).rows && Step(s, e).rows[id] == s.rows[id]
  {
    var p := PlaceOf(s, r);
    NobodyJoins(s, e, r);
    assert forall id :: id in Batch(p) ==> Holds(p, id);
    HeldRowsAreThere(s, r);
    if Elsewhere(r, e) {
      ElsewhereStays(s, e, r);
    } else if e.Handle? && p.todo != [] {
      assert p.todo == [p.todo[0]] + p.todo[1..];
      assert Holds(p, p.todo[0]);
      assert Batch(PlaceOf(Step(s, e), r)) == Batch(p);
    }
  }

  lemma HeldRowsAreThere(s: State, r: Replica)
    requires Inv(s)
    ensures forall id :: id in Batch(PlaceOf(s, r)) ==> id in s.rows
  {
    forall id | id in Batch(PlaceOf(s, r))
      ensures id in s.rows
    {
      assert Holds(PlaceOf(s, r), id);
      Here(s, r, id);
    }
  }

  /** Nothing comes to be newly ahead of x, and nothing ahead of it wins attempts back. */
  lemma NoneNewlyAhead(r: Replica, b: nat, x: EventId, s: State, e: Event)
    requires Inv(s) && WaitsFor(r, b, x, s) && Fair(r, b, x, s, e)
    requires e != ForceDeadLetter(x) && e != Erase(x) && !e.Claim? && !CommitsTick(r, s, e)
    ensures var rows' := Step(s, e).rows;
            && x in rows' && Claimable(rows'[x]) && rows'[x].createdAt == s.rows[x].createdAt
            && forall id :: id in Ahead(rows', x) ==>
                 id in Ahead(s.rows, x) && rows'[id].attempts >= s.rows[id].attempts
  {
    assert RowOk(s, x);
    if e.Append? {
      assert RowOk(s, e.id);
    } else if !e.Commit? && !e.CommitUnseen? {
      hide Inv, Step;
      OthersUseNothing(s, e, x);
      forall id
        ensures id in Step(s, e).rows && Claimable(Step(s, e).rows[id]) ==>
                  && id in s.rows && Claimable(s.rows[id]) && Step(s, e).rows[id].createdAt == s.rows[id].createdAt
                  && Step(s, e).rows[id].attempts >= s.rows[id].attempts
      {
        OthersUseNothing(s, e, id);
      }
    }
  }

  /** Everything else leaves x waiting. */
  lemma OthersWait(r: Replica, b: nat, x: EventId, s: State, e: Event)
    requires Inv(s) && WaitsFor(r, b, x, s) && Fair(r, b, x, s, e) && !Ends(r, x, s, e)
    requires !e.Claim? && !CommitsTick(r, s, e)
    ensures WaitsFor(r, b, x, Step(s, e))
    ensures Debt(Step(s, e).rows, x) <= Debt(s.rows, x)
  {
    hide Inv, Step, Fair, OldestFirst, Debt, Ahead;
    var s' := Step(s, e);
    StepKeeps(s, e);
    NoneNewlyAhead(r, b, x, s, e);
    forall q | q != r
      ensures !PlaceOf(s', q).InTx?
    {
      if PlaceOf(s', q).InTx? { NobodyJoins(s, e, q); }
    }
    if PlaceOf(s', r).InTx? {
      BatchStays(r, s, e);
      BatchStaysAhead(s.rows, s'.rows, Batch(PlaceOf(s, r)), x);
    }
    DebtFalls(s, s', x, {});
  }

  lemma BatchStaysAhead(rows: Rows, rows': Rows, batch: set<EventId>, x: EventId)
    requires x in rows && x in rows' && rows'[x].createdAt == rows[x].createdAt && batch <= Ahead(rows, x)
    requires forall id :: id in batch ==> id in rows && id in rows' && rows'[id] == rows[id]
    ensures batch <= Ahead(rows', x)
  {
  }

  /** No row newly ahead of x, none of them with attempts won back, and those of d closer to
      their end: the debt falls by the size of d. */
  lemma DebtFalls(s: State, s': State, x: EventId, d: set<EventId>)
    requires Inv(s) && Inv(s') && x in s.rows && x in s'.rows && d <= Ahead(s.rows, x)
    requires forall id :: id in Ahead(s'.rows, x) ==>
               && id in Ahead(s.rows, x) && s'.rows[id].attempts >= s.rows[id].attempts
               && (id in d ==> s'.rows[id].attempts > s.rows[id].attempts)
    ensures Debt(s'.rows, x) + |d| <= Debt(s.rows, x)
  {
    ReachableRowsOk(s);
    ReachableRowsOk(s');
    hide Inv;
    LeftFalls(s.rows, Ahead(s.rows, x), s'.rows, Ahead(s'.rows, x), d);
  }

  lemma StepPays(r: Replica, b: nat, x: EventId, s: State, e: Event)
    requires Inv(s) && WaitsFor(r, b, x, s) && Fair(r, b, x, s, e) && !Ends(r, x, s, e)
    ensures WaitsFor(r, b, x, Step(s, e))
    ensures Debt(Step(s, e).rows, x) + (if CommitsTick(r, s, e) then b else 0) <= Debt(s.rows, x)
  {
    hide Inv, WaitsFor, OldestFirst, Debt;
    if CommitsTick(r, s, e) {
      CommitPays(r, b, x, s, e.Commit?);
    } else if e.Claim? {
      if PlaceOf(s, r).Idle? && CanClaim(s, e.ids) { ClaimWaits(r, b, x, s, e.ids); }
    } else {
      OthersWait(r, b, x, s, e);
    }
  }

  lemma {:induction false} WaitIsPaid(r: Replica, b: nat, x: EventId, s: State, fs: seq<Event>)
    requires Inv(s) && WaitsFor(r, b, x, s) && FairRun(r, b, x, s, fs)
    requires forall i :: 0 <= i < |fs| ==> !Ends(r, x, Run(s, fs[..i]), fs[i])
    ensures Inv(Run(s, fs)) && WaitsFor(r, b, x, Run(s, fs))
    ensures Debt(Run(s, fs).rows, x) + Ticks(r, s, fs) * b <= Debt(s.rows, x)
    decreases |fs|
  {
    hide Inv, WaitsFor, Fair, Debt, Ends, Step;
    if fs != [] {
      var front, e := fs[..|fs| - 1], fs[|fs| - 1];
      forall i | 0 <= i < |front|
        ensures !Ends(r, x, Run(s, front[..i]), front[i])
      {
        assert front[..i] == fs[..i] && front[i] == fs[i];
      }
      WaitIsPaid(r, b, x, s, front);
      StepPays(r, b, x, Run(s, front), e);
      StepKeeps(Run(s, front), e);
      assert (Ticks(r, s, front) + 1) * b == Ticks(r, s, front) * b + b;
    }
  }

  lemma TooManyTicks(total: nat, b: nat, n: nat)
    requires b >= 1 && n >= total / b + 1
    ensures n * b > total
  {
    assert total < (total / b + 1) * b;
    assert n * b >= (total / b + 1) * b;
  }

  /** In any run of the outbox with one drainer r that takes the oldest rows first, a claimable
      row with p claimable rows ahead of it is in a batch by the time 10 p / b + 1 ticks have
      committed, unless an operator dead-letters or erases it first. */
  lemma ClaimedInTime(r: Replica, b: nat, x: EventId, es: seq<Event>, fs: seq<Event>)
    requires var s := Run(Init(), es);
             && x in s.rows && Claimable(s.rows[x]) && (forall q :: !PlaceOf(s, q).InTx?)
             && FairRun(r, b, x, s, fs)
             && b >= 1 && Ticks(r, s, fs) >= MAX_OUTBOX_ATTEMPTS * |Ahead(s.rows, x)| / b + 1
    ensures exists i :: 0 <= i < |fs| && Ends(r, x, Run(Run(Init(), es), fs[..i]), fs[i])
  {
    var s := Run(Init(), es);
    RunKeeps(es);
    if forall i :: 0 <= i < |fs| ==> !Ends(r, x, Run(s, fs[..i]), fs[i]) {
      WaitIsPaid(r, b, x, s, fs);
      DebtIsBounded(s, x);
      DebtIsBounded(Run(s, fs), x);
      TooManyTicks(MAX_OUTBOX_ATTEMPTS * |Ahead(s.rows, x)|, b, Ticks(r, s, fs));
      assert false;
    }
  }

  lemma DebtIsBounded(s: State, x: EventId)
    requires Inv(s) && x in s.rows
    ensures 0 <= Debt(s.rows, x) <= MAX_OUTBOX_ATTEMPTS * |Ahead(s.rows, x)|
  {
    ReachableRowsOk(s);
    var left := Left(s.rows, Ahead(s.rows, x));
    assert left.Keys == Ahead(s.rows, x);
    assert |left| == |left.Keys|;
    SumAtMost(left, MAX_OUTBOX_ATTEMPTS);
    SumNonNegative(left);
  }
}
