/** The outbox as a machine. Replicas claim rows nobody else has locked, run the handlers of
    standard rows inside the claiming transaction, mark the mark-before-invoke rows and run
    theirs after the commit. Handlers commit on their own, so a rollback takes back the
    marks and not the deliveries. Operators force rows into the dead-letter state and out
    of it, tenants are erased, and anybody may crash at any await. */
module Outbox {
  type EventId = nat
  type Replica = nat
  type Millis = int

  const MAX_OUTBOX_ATTEMPTS: nat := 10

  /** Standard rows are marked after their handler, the others before it. */
  datatype Kind = Standard | MarkBefore

  datatype Row = Row(
    kind: Kind,
    createdAt: Millis,
    attempts: nat,
    processed: bool,
    dead: bool,
    deferredFailed: bool
  )

  type Rows = map<EventId, Row>

  predicate Claimable(r: Row) {
    !r.processed && !r.dead
  }

  datatype HandlerResult = Succeeds | Throws(retryable: bool)

  /** What Phase 1 writes to a claimed row. The attempt being counted is the next one. */
  function AfterHandling(r: Row, result: HandlerResult): Row {
    if r.kind == MarkBefore || result == Succeeds then r.(processed := true)
    else if !result.retryable || r.attempts + 1 >= MAX_OUTBOX_ATTEMPTS then r.(dead := true, attempts := r.attempts + 1)
    else r.(attempts := r.attempts + 1)
  }

  /** Where a replica stands: in the claiming transaction, with rows to handle and writes
      that only its commit makes visible, or past it with deferred handlers to run. */
  datatype Place =
    | Idle
    | InTx(todo: seq<EventId>, writes: Rows, deferred: seq<EventId>)
    | PhaseTwo(deferred: seq<EventId>)

  /** `kinds` remembers every row ever appended. The last two count handler runs, started
      and succeeded. */
  datatype State = State(
    rows: Rows,
    replicas: map<Replica, Place>,
    kinds: map<EventId, Kind>,
    dispatched: map<EventId, nat>,
    delivered: map<EventId, nat>
  )

  datatype Event =
    | Append(id: EventId, kind: Kind, createdAt: Millis)
    | Claim(r: Replica, ids: seq<EventId>)
    | Handle(r: Replica, result: HandlerResult)
    | Interrupt(r: Replica, result: HandlerResult)
    | Commit(r: Replica)
    | CommitUnseen(r: Replica)
    | Deliver(r: Replica, result: HandlerResult, marked: bool)
    | Finish(r: Replica)
    | Crash(r: Replica)
    | ForceDeadLetter(id: EventId)
    | Replay(id: EventId)
    | Erase(id: EventId)

  function PlaceOf(s: State, r: Replica): Place {
    if r in s.replicas then s.replicas[r] else Idle
  }

  function Times(log: map<EventId, nat>, id: EventId): nat {
    if id in log then log[id] else 0
  }

  function Count(log: map<EventId, nat>, id: EventId): map<EventId, nat> {
    log[id := Times(log, id) + 1]
  }

  /** The rows a replica has locked. */
  predicate Holds(p: Place, id: EventId) {
    p.InTx? && (id in p.todo || id in p.writes)
  }

  predicate Locked(s: State, id: EventId) {
    exists r :: r in s.replicas && Holds(s.replicas[r], id)
  }

  function At(s: State, r: Replica, p: Place): State {
    s.(replicas := s.replicas[r := p])
  }

  function Init(): State {
    State(map[], map[], map[], map[], map[])
  }

  /** A handler has run for a row. */
  function Ran(s: State, id: EventId, result: HandlerResult): State {
    s.(dispatched := Count(s.dispatched, id),
       delivered := if result == Succeeds then Count(s.delivered, id) else s.delivered)
  }

  predicate Distinct(ids: seq<EventId>) {
    forall i, j :: 0 <= i < j < |ids| ==> ids[i] != ids[j]
  }

  predicate CanClaim(s: State, ids: seq<EventId>) {
    Distinct(ids) && forall id :: id in ids ==> id in s.rows && Claimable(s.rows[id]) && !Locked(s, id)
  }

  function HandleStep(s: State, r: Replica, result: HandlerResult): State {
    var p := PlaceOf(s, r);
    if !p.InTx? || p.todo == [] || p.todo[0] !in s.rows then s
    else
      var id := p.todo[0];
      var row := s.rows[id];
      var p' := InTx(p.todo[1..], p.writes[id := AfterHandling(row, result)],
                     if row.kind == MarkBefore then p.deferred + [id] else p.deferred);
      At(if row.kind == MarkBefore then s else Ran(s, id, result), r, p')
  }

  /** The replica dies in the middle of a standard row's handler. */
  function InterruptStep(s: State, r: Replica, result: HandlerResult): State {
    var p := PlaceOf(s, r);
    if !p.InTx? || p.todo == [] || p.todo[0] !in s.rows || s.rows[p.todo[0]].kind == MarkBefore then s
    else At(Ran(s, p.todo[0], result), r, Idle)
  }

  function CommitStep(s: State, r: Replica, seen: bool): State {
    var p := PlaceOf(s, r);
    if !p.InTx? || p.todo != [] then s
    else At(s.(rows := s.rows + p.writes), r, if seen then PhaseTwo(p.deferred) else Idle)
  }

  /** Phase 2: the row is already processed; a throw leaves at most a marker. */
  function DeliverStep(s: State, r: Replica, result: HandlerResult, marked: bool): State {
    var p := PlaceOf(s, r);
    if !p.PhaseTwo? || p.deferred == [] then s
    else
      var id := p.deferred[0];
      var forensic := result.Throws? && marked && id in s.rows;
      var rows := if forensic then s.rows[id := s.rows[id].(deferredFailed := true)] else s.rows;
      At(Ran(s, id, result).(rows := rows), r, PhaseTwo(p.deferred[1..]))
  }

  /** The operators' guarded updates, which wait for the row lock. */
  function OperatorStep(s: State, e: Event): State
    requires e.ForceDeadLetter? || e.Replay? || e.Erase?
  {
    if e.id !in s.rows || Locked(s, e.id) then s
    else
      var row := s.rows[e.id];
      match e
      case ForceDeadLetter(id) =>
        if row.dead then s
        else s.(rows := s.rows[id := row.(dead := true, attempts := row.attempts + 1)])
      case Replay(id) => if !row.dead then s else s.(rows := s.rows[id := row.(dead := false, attempts := 0)])
      case Erase(id) => s.(rows := s.rows - {id})
  }

  function Step(s: State, e: Event): State {
    match e
    case Append(id, kind, createdAt) =>
      if id in s.kinds then s
      else s.(rows := s.rows[id := Row(kind, createdAt, 0, false, false, false)], kinds := s.kinds[id := kind])
    case Claim(r, ids) => if PlaceOf(s, r).Idle? && CanClaim(s, ids) then At(s, r, InTx(ids, map[], [])) else s
    case Handle(r, result) => HandleStep(s, r, result)
    case Interrupt(r, result) => InterruptStep(s, r, result)
    case Commit(r) => CommitStep(s, r, true)
    case CommitUnseen(r) => CommitStep(s, r, false)
    case Deliver(r, result, marked) => DeliverStep(s, r, result, marked)
    case Finish(r) => if PlaceOf(s, r) == PhaseTwo([]) then At(s, r, Idle) else s
    case Crash(r) => At(s, r, Idle)
    case _ => OperatorStep(s, e)
  }

  function Run(s: State, es: seq<Event>): State
    decreases |es|
  {
    if es == [] then s else Step(Run(s, es[..|es| - 1]), es[|es| - 1])
  }

  // ---------------------------------------------------------------- invariant

  predicate AttemptsOk(r: Row) {
    r.attempts <= MAX_OUTBOX_ATTEMPTS && (!r.dead ==> r.attempts < MAX_OUTBOX_ATTEMPTS)
  }

  predicate RowOk(s: State, id: EventId) {
    && (id !in s.kinds ==> id !in s.rows && Times(s.dispatched, id) == 0)
    && (id in s.kinds && s.kinds[id] == MarkBefore ==> Times(s.dispatched, id) <= 1)
    && (id in s.rows ==>
          && id in s.kinds && s.rows[id].kind == s.kinds[id] && AttemptsOk(s.rows[id])
          && (s.rows[id].kind == Standard && s.rows[id].processed ==> Times(s.delivered, id) >= 1)
          && (s.rows[id].kind == MarkBefore && !s.rows[id].processed ==> Times(s.dispatched, id) == 0))
  }

  /** A buffered write: what handling made of the locked row. */
  predicate WriteOk(s: State, p: Place, id: EventId) {
    p.InTx? && id in p.writes && id in s.rows ==>
      var w := p.writes[id];
      && w.kind == s.rows[id].kind && w.createdAt == s.rows[id].createdAt && AttemptsOk(w)
      && (Claimable(w) ==> w.attempts == s.rows[id].attempts + 1)
      && (w.kind == Standard ==> id !in p.deferred && (w.processed ==> Times(s.delivered, id) >= 1))
      && (w.kind == MarkBefore ==> w.processed && id in p.deferred)
  }

  predicate Waits(p: Place, id: EventId) {
    p.PhaseTwo? && id in p.deferred
  }

  predicate PlaceOk(s: State, p: Place, id: EventId) {
    && (Holds(p, id) ==> id in s.rows && Claimable(s.rows[id]))
    && (p.InTx? ==> Distinct(p.todo) && Distinct(p.deferred) && !(id in p.todo && id in p.writes)
                    && (id in p.deferred ==> id in p.writes))
    && WriteOk(s, p, id)
    && (p.PhaseTwo? ==> Distinct(p.deferred))
    && (Waits(p, id) ==> id in s.kinds && s.kinds[id] == MarkBefore && Times(s.dispatched, id) == 0
                         && (id in s.rows ==> s.rows[id].processed))
  }

  ghost predicate Inv(s: State) {
    && (forall id :: RowOk(s, id))
    && (forall r, id :: PlaceOk(s, PlaceOf(s, r), id))
    && (forall r, q, id :: r != q && Holds(PlaceOf(s, r), id) ==> !Holds(PlaceOf(s, q), id))
    && (forall r, q, id :: r != q && Waits(PlaceOf(s, r), id) ==> !Waits(PlaceOf(s, q), id))
  }

  /** One replica moves. Elsewhere a row changes only if nobody else has it, and handler
      counts of rows others hold or wait for stay. */
  predicate Undisturbed(s: State, s': State, id: EventId) {
    && (id in s.rows <==> id in s'.rows) && (id in s.rows ==> s'.rows[id] == s.rows[id])
    && Times(s'.dispatched, id) == Times(s.dispatched, id)
    && Times(s'.delivered, id) == Times(s.delivered, id)
  }

  lemma OneMoves(s: State, s': State, r: Replica)
    requires Inv(s) && s'.kinds == s.kinds
    requires forall q :: q != r ==> PlaceOf(s', q) == PlaceOf(s, q)
    requires forall id :: RowOk(s', id) && PlaceOk(s', PlaceOf(s', r), id)
    requires forall q, id :: q != r && (Holds(PlaceOf(s, q), id) || Waits(PlaceOf(s, q), id)) ==> Undisturbed(s, s', id)
    requires forall q, id :: q != r && Holds(PlaceOf(s, q), id) ==> !Holds(PlaceOf(s', r), id)
    requires forall q, id :: q != r && Waits(PlaceOf(s, q), id) ==> !Waits(PlaceOf(s', r), id)
    ensures Inv(s')
  {
    forall q, id
      ensures PlaceOk(s', PlaceOf(s', q), id)
    {
      assert PlaceOk(s, PlaceOf(s, q), id) && PlaceOk(s', PlaceOf(s', r), id);
      if q != r && (Holds(PlaceOf(s, q), id) || Waits(PlaceOf(s, q), id)) {
        assert Undisturbed(s, s', id);
      }
    }
    forall q, u, id | q != u && Holds(PlaceOf(s', q), id)
      ensures !Holds(PlaceOf(s', u), id)
    {
      assert q != r ==> Holds(PlaceOf(s, q), id);
      assert u != r ==> PlaceOf(s', u) == PlaceOf(s, u);
    }
    forall q, u, id | q != u && Waits(PlaceOf(s', q), id)
      ensures !Waits(PlaceOf(s', u), id)
    {
      assert q != r ==> Waits(PlaceOf(s, q), id);
      assert u != r ==> PlaceOf(s', u) == PlaceOf(s, u);
    }
  }

  /** What the invariant says around one replica and one row. */
  lemma Here(s: State, r: Replica, id: EventId)
    requires Inv(s)
    ensures RowOk(s, id) && PlaceOk(s, PlaceOf(s, r), id)
    ensures forall q :: q != r && Holds(PlaceOf(s, r), id) ==> !Holds(PlaceOf(s, q), id)
    ensures forall q :: q != r && Waits(PlaceOf(s, r), id) ==> !Waits(PlaceOf(s, q), id)
    ensures forall q :: !(Holds(PlaceOf(s, r), id) && Waits(PlaceOf(s, q), id))
  {
    forall q
      ensures !(Holds(PlaceOf(s, r), id) && Waits(PlaceOf(s, q), id))
    {
      assert PlaceOk(s, PlaceOf(s, q), id);
    }
  }

  lemma NotLocked(s: State, id: EventId)
    requires !Locked(s, id)
    ensures forall q :: !Holds(PlaceOf(s, q), id)
  {
  }

  lemma ClaimKeeps(s: State, r: Replica, ids: seq<EventId>)
    requires Inv(s) && PlaceOf(s, r).Idle? && CanClaim(s, ids)
    ensures Inv(At(s, r, InTx(ids, map[], [])))
  {
    var s' := At(s, r, InTx(ids, map[], []));
    forall id
      ensures RowOk(s', id) && PlaceOk(s', PlaceOf(s', r), id)
      ensures forall q :: Holds(PlaceOf(s', r), id) ==> !Holds(PlaceOf(s, q), id)
    {
      Here(s, r, id);
      if id in ids { NotLocked(s, id); }
    }
    OneMoves(s, s', r);
  }

  lemma HandlingKeepsAttempts(row: Row, result: HandlerResult)
    requires AttemptsOk(row) && Claimable(row)
    ensures var row' := AfterHandling(row, result);
            && AttemptsOk(row') && row'.kind == row.kind && row'.createdAt == row.createdAt
            && (Claimable(row') ==> row'.attempts == row.attempts + 1)
    ensures row.kind == Standard ==> (AfterHandling(row, result).processed <==> result == Succeeds)
  {
  }

  /** The step of a replica with a row to handle, about one row. */
  lemma HandleOne(s: State, r: Replica, result: HandlerResult, id: EventId)
    requires Inv(s)
    requires var p := PlaceOf(s, r); p.InTx? && p.todo != [] && p.todo[0] in s.rows
    ensures var s' := HandleStep(s, r, result);
            && RowOk(s', id) && PlaceOk(s', PlaceOf(s', r), id)
            && (Holds(PlaceOf(s', r), id) ==> Holds(PlaceOf(s, r), id))
  {
    var p := PlaceOf(s, r);
    var id0 := p.todo[0];
    assert Holds(p, id0);
    Here(s, r, id0);
    Here(s, r, id);
    HandlingKeepsAttempts(s.rows[id0], result);
    HandlePlace(p, PlaceOf(HandleStep(s, r, result), r), id0, s.rows[id0], result, id);
  }

  lemma HandleKeeps(s: State, r: Replica, result: HandlerResult)
    requires Inv(s)
    ensures Inv(HandleStep(s, r, result))
  {
    var p := PlaceOf(s, r);
    if p.InTx? && p.todo != [] && p.todo[0] in s.rows {
      var s' := HandleStep(s, r, result);
      forall id
        ensures RowOk(s', id) && PlaceOk(s', PlaceOf(s', r), id)
        ensures forall q :: q != r && Holds(PlaceOf(s, q), id) ==> !Holds(PlaceOf(s', r), id)
      {
        HandleOne(s, r, result, id);
        Here(s, r, id);
      }
      HandleElsewhere(s, r, result);
      OneMoves(s, s', r);
    }
  }

  /** The replica's own sequences stay without repetition. */
  lemma HandlePlace(p: Place, p': Place, id0: EventId, row: Row, result: HandlerResult, id: EventId)
    requires p.InTx? && p.todo != [] && p.todo[0] == id0 && Distinct(p.todo) && Distinct(p.deferred) && id0 !in p.writes
    requires id0 in p.deferred ==> id0 in p.writes
    requires p' == InTx(p.todo[1..], p.writes[id0 := AfterHandling(row, result)],
                        if row.kind == MarkBefore then p.deferred + [id0] else p.deferred)
    ensures Distinct(p'.todo) && Distinct(p'.deferred)
    ensures id in p'.todo <==> id in p.todo && id != id0
  {
    assert p.todo == [id0] + p.todo[1..];
  }

  lemma HandleElsewhere(s: State, r: Replica, result: HandlerResult)
    requires Inv(s)
    requires var p := PlaceOf(s, r); p.InTx? && p.todo != [] && p.todo[0] in s.rows
    ensures var s' := HandleStep(s, r, result);
            forall q, id :: q != r && (Holds(PlaceOf(s, q), id) || Waits(PlaceOf(s, q), id)) ==> Undisturbed(s, s', id)
  {
    var id0 := PlaceOf(s, r).todo[0];
    assert Holds(PlaceOf(s, r), id0);
    Here(s, r, id0);
  }

  lemma InterruptKeeps(s: State, r: Replica, result: HandlerResult)
    requires Inv(s)
    ensures Inv(InterruptStep(s, r, result))
  {
    var p := PlaceOf(s, r);
    if p.InTx? && p.todo != [] && p.todo[0] in s.rows && s.rows[p.todo[0]].kind == Standard {
      var s', id0 := InterruptStep(s, r, result), p.todo[0];
      Here(s, r, id0);
      assert Holds(p, id0);
      forall id
        ensures RowOk(s', id) && PlaceOk(s', PlaceOf(s', r), id)
      {
        Here(s, r, id);
      }
      OneMoves(s, s', r);
    }
  }

  lemma CommitKeeps(s: State, r: Replica, seen: bool)
    requires Inv(s)
    ensures Inv(CommitStep(s, r, seen))
  {
    var p := PlaceOf(s, r);
    if p.InTx? && p.todo == [] {
      var s' := CommitStep(s, r, seen);
      forall id
        ensures RowOk(s', id) && PlaceOk(s', PlaceOf(s', r), id)
        ensures forall q :: q != r && Holds(PlaceOf(s, q), id) ==> id !in p.writes
        ensures forall q :: q != r && Waits(PlaceOf(s, q), id) ==> id !in p.writes
        ensures Waits(PlaceOf(s', r), id) ==> id in p.writes
      {
        Here(s, r, id);
        assert id in p.writes ==> Holds(p, id);
      }
      OneMoves(s, s', r);
    }
  }

  lemma DeliverKeeps(s: State, r: Replica, result: HandlerResult, marked: bool)
    requires Inv(s)
    ensures Inv(DeliverStep(s, r, result, marked))
  {
    var p := PlaceOf(s, r);
    if p.PhaseTwo? && p.deferred != [] {
      var s', id0 := DeliverStep(s, r, result, marked), p.deferred[0];
      assert Waits(p, id0);
      Here(s, r, id0);
      forall id
        ensures RowOk(s', id) && PlaceOk(s', PlaceOf(s', r), id)
        ensures forall q :: q != r && (Holds(PlaceOf(s, q), id) || Waits(PlaceOf(s, q), id)) ==> id != id0
        ensures Waits(PlaceOf(s', r), id) ==> Waits(p, id)
      {
        Here(s, r, id);
        assert p.deferred == [id0] + p.deferred[1..];
        forall q | q != r
          ensures !(Holds(PlaceOf(s, q), id) || Waits(PlaceOf(s, q), id)) || id != id0
        {
          Here(s, q, id);
        }
      }
      OneMoves(s, s', r);
    }
  }

  lemma CrashKeeps(s: State, r: Replica)
    requires Inv(s)
    ensures Inv(At(s, r, Idle))
  {
    forall id
      ensures RowOk(At(s, r, Idle), id)
    {
      Here(s, r, id);
    }
    OneMoves(s, At(s, r, Idle), r);
  }

  /** Rows nobody has locked may change, as long as they stay processed and within bounds. */
  lemma RowsMove(s: State, s': State, at: EventId)
    requires Inv(s) && s'.replicas == s.replicas && s'.dispatched == s.dispatched && s'.delivered == s.delivered
    requires forall id :: id in s.kinds ==> id in s'.kinds && s'.kinds[id] == s.kinds[id]
    requires forall id :: id in s'.kinds && id !in s.kinds ==> id == at
    requires !Locked(s, at) && RowOk(s', at)
    requires forall id :: id != at ==> (id in s'.rows <==> id in s.rows) && (id in s.rows ==> s'.rows[id] == s.rows[id])
    requires at in s'.rows && at in s.rows ==> s'.rows[at].processed == s.rows[at].processed
    requires at in s'.rows && at !in s.rows ==> at !in s.kinds
    ensures Inv(s')
  {
    NotLocked(s, at);
    forall id
      ensures RowOk(s', id)
    {
      assert RowOk(s, id);
    }
    forall q, id
      ensures PlaceOk(s', PlaceOf(s', q), id)
    {
      assert PlaceOf(s', q) == PlaceOf(s, q);
      Here(s, q, id);
    }
    forall r, q, id | r != q
      ensures Holds(PlaceOf(s', r), id) ==> !Holds(PlaceOf(s', q), id)
      ensures Waits(PlaceOf(s', r), id) ==> !Waits(PlaceOf(s', q), id)
    {
      assert PlaceOf(s', r) == PlaceOf(s, r) && PlaceOf(s', q) == PlaceOf(s, q);
    }
  }

  lemma OperatorKeeps(s: State, e: Event)
    requires Inv(s) && (e.ForceDeadLetter? || e.Replay? || e.Erase?)
    ensures Inv(OperatorStep(s, e))
  {
    assert RowOk(s, e.id);
    if e.id in s.rows && !Locked(s, e.id) {
      RowsMove(s, OperatorStep(s, e), e.id);
    }
  }

  lemma AbsentIsUnlocked(s: State, id: EventId)
    requires Inv(s) && id !in s.rows
    ensures !Locked(s, id)
  {
    forall r
      ensures !Holds(PlaceOf(s, r), id)
    {
      Here(s, r, id);
    }
    assert forall r :: r in s.replicas ==> PlaceOf(s, r) == s.replicas[r];
  }

  /** A row that does not exist yet is nobody's. */
  lemma AppendKeeps(s: State, id: EventId, kind: Kind, createdAt: Millis)
    requires Inv(s)
    ensures Inv(Step(s, Append(id, kind, createdAt)))
  {
    if id !in s.kinds {
      assert RowOk(s, id);
      AbsentIsUnlocked(s, id);
      RowsMove(s, Step(s, Append(id, kind, createdAt)), id);
    }
  }

  lemma StepKeeps(s: State, e: Event)
    requires Inv(s)
    ensures Inv(Step(s, e))
  {
    match e
    case Append(id, kind, createdAt) => AppendKeeps(s, id, kind, createdAt);
    case Claim(r, ids) => if PlaceOf(s, r).Idle? && CanClaim(s, ids) { ClaimKeeps(s, r, ids); }
    case Handle(r, result) => HandleKeeps(s, r, result);
    case Interrupt(r, result) => InterruptKeeps(s, r, result);
    case Commit(r) => CommitKeeps(s, r, true);
    case CommitUnseen(r) => CommitKeeps(s, r, false);
    case Deliver(r, result, marked) => DeliverKeeps(s, r, result, marked);
    case Finish(r) => CrashKeeps(s, r);
    case Crash(r) => CrashKeeps(s, r);
    case _ => OperatorKeeps(s, e);
  }

  lemma {:induction false} RunKeeps(es: seq<Event>)
    ensures Inv(Run(Init(), es))
    decreases |es|
  {
    if es != [] {
      RunKeeps(es[..|es| - 1]);
      StepKeeps(Run(Init(), es[..|es| - 1]), es[|es| - 1]);
    }
  }

  // ----------------------------------------------------------------- theorems

  /** Over every run with replicas, crashes, rollbacks, unseen commits, forced dead-letters,
      replays and erasure: a mark-before-invoke event is dispatched at most once, and a
      processed standard event has been delivered at least once. */
  lemma DeliveryDuality(es: seq<Event>, id: EventId)
    ensures var s := Run(Init(), es);
            && (id in s.kinds && s.kinds[id] == MarkBefore ==> Times(s.dispatched, id) <= 1)
            && (id in s.rows && s.rows[id].kind == Standard && s.rows[id].processed ==> Times(s.delivered, id) >= 1)
            && (id in s.rows && s.rows[id].kind == MarkBefore && !s.rows[id].processed ==> Times(s.dispatched, id) == 0)
  {
    RunKeeps(es);
    assert RowOk(Run(Init(), es), id);
  }

  /** No two replicas hold a row at once, none waits to run a handler another waits to run. */
  lemma NoTwoHold(es: seq<Event>, r: Replica, q: Replica, id: EventId)
    requires r != q
    ensures var s := Run(Init(), es);
            && !(Holds(PlaceOf(s, r), id) && Holds(PlaceOf(s, q), id))
            && !(Waits(PlaceOf(s, r), id) && Waits(PlaceOf(s, q), id))
            && !(Holds(PlaceOf(s, r), id) && Waits(PlaceOf(s, q), id))
  {
    RunKeeps(es);
    Here(Run(Init(), es), r, id);
  }

  /** A row out of the dead-letter state has used fewer than ten attempts, any row at most ten. */
  lemma AttemptsAreBounded(es: seq<Event>, id: EventId)
    requires id in Run(Init(), es).rows
    ensures var row := Run(Init(), es).rows[id];
            row.attempts <= MAX_OUTBOX_ATTEMPTS && (!row.dead ==> row.attempts < MAX_OUTBOX_ATTEMPTS)
  {
    RunKeeps(es);
    assert RowOk(Run(Init(), es), id);
  }
}
