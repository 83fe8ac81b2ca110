/** The query hooks that scope every read and write to the active tenant. A rewritten query
    is shown to be the same query on that tenant's own partition of the table. */
module TenantHooks {
  import opened Collections

  type MerchantId = nat
  type RowId = nat
  type Time = int

  datatype Model =
    | MerchantSettings | BillingSubscription | Customer | CustomerScore | Product | ProductVariant
    | Order | OrderLineItem
    | OutboxEvent | IdempotencyKey | BackfillJob | AiGeneration | Message | AiSpendBucket | Campaign | CampaignTarget
    | Suppression | MessageEvent | MessageQuotaBucket | WebhookLog | AuditLog | Merchant | Session

  const TENANT_SCOPED_MODELS: set<Model> := {
    MerchantSettings, BillingSubscription, Customer, CustomerScore, Product, ProductVariant, Order, OrderLineItem,
    OutboxEvent, IdempotencyKey, BackfillJob, AiGeneration, Message, AiSpendBucket, Campaign, CampaignTarget,
    Suppression, MessageEvent, MessageQuotaBucket
  }
  const TENANT_OPTIONAL_READ_MODELS: set<Model> := {WebhookLog, AuditLog}
  const SOFT_DELETE_MODELS: set<Model> := {Customer, Product, ProductVariant}
  const UNSCOPED_MODELS: set<Model> := {Session}

  datatype Scope = NoScope | Tenant(merchant: MerchantId) | System

  datatype Row = Row(merchant: Option<MerchantId>, deletedAt: Option<Time>, payload: nat)

  /** A filter on the merchant column: a plain id, or anything else one may write there. */
  datatype MerchantFilter = Is(id: MerchantId) | Other(test: Option<MerchantId> -> bool)

  /** A where clause is a conjunction. `rest` stands for its other conditions. */
  datatype Where = Where(merchantId: Option<MerchantFilter>, deletedAt: Option<Option<Time> -> bool>, rest: Row -> bool)

  /** The columns a write sets; an absent one keeps its value, or takes its default. */
  datatype Data = Data(merchantId: Option<Option<MerchantId>>, deletedAt: Option<Option<Time>>, payload: Option<nat>)

  datatype Block = One(data: Data) | Many(rows: seq<Data>)

  datatype WriteArgs = WriteArgs(where_: Option<Where>, data: Option<Block>, create: Option<Data>, update: Option<Data>)

  datatype Result<T> = Ok(value: T) | TenantScopeError

  predicate Narrowed(model: Model) {
    model in TENANT_SCOPED_MODELS || model in TENANT_OPTIONAL_READ_MODELS
  }

  const NO_WHERE: Where := Where(None, None, (_: Row) => true)

  // -------------------------------------------------------------------- reads

  /** The tenant branch for the tenant root itself, keyed by the clause's `id`. */
  function EnforceMerchantRead(where_: Option<Where>, id: Option<MerchantId>,
                               scope: MerchantId): Result<Option<Where>> {
    if id != Some(scope) then TenantScopeError else Ok(where_)
  }

  function EnforceTenantScopeOnRead(scope: Scope, model: Model, where_: Option<Where>, id: Option<MerchantId>,
                                    isFindUnique: bool): Result<Option<Where>> {
    if scope.NoScope? then TenantScopeError
    else if scope.System? then Ok(where_)
    else if model == Merchant then EnforceMerchantRead(where_, id, scope.merchant)
    else if !Narrowed(model) then Ok(where_)
    else if isFindUnique then Ok(where_)
    else
      var w := if where_.Some? then where_.value else NO_WHERE;
      match w.merchantId
      case None => Ok(Some(w.(merchantId := Some(Is(scope.merchant)))))
      case Some(Is(m)) => if m == scope.merchant then Ok(where_) else TenantScopeError
      case Some(Other(_)) => TenantScopeError
  }

  function ApplySoftDeleteFilter(model: Model, where_: Option<Where>): Option<Where> {
    if model !in SOFT_DELETE_MODELS then where_
    else
      var w := if where_.Some? then where_.value else NO_WHERE;
      if w.deletedAt.Some? then where_ else Some(w.(deletedAt := Some((d: Option<Time>) => d.None?)))
  }

  function ApplyReadHooks(scope: Scope, model: Model, where_: Option<Where>, id: Option<MerchantId>,
                          isFindUnique: bool): Result<Option<Where>> {
    if model in UNSCOPED_MODELS then Ok(where_)
    else
      var next := EnforceTenantScopeOnRead(scope, model, where_, id, isFindUnique);
      if next.TenantScopeError? then TenantScopeError else Ok(ApplySoftDeleteFilter(model, next.value))
  }

  type Rows = map<RowId, Row>

  predicate Matches(where_: Option<Where>, row: Row) {
    where_.None?
    || (var w := where_.value;
        && (match w.merchantId
            case None => true
            case Some(Is(m)) => row.merchant == Some(m)
            case Some(Other(test)) => test(row.merchant))
        && (w.deletedAt.Some? ==> w.deletedAt.value(row.deletedAt))
        && w.rest(row))
  }

  /** The ids a read returns. */
  function Select(rows: Rows, where_: Option<Where>): set<RowId> {
    set id | id in rows && Matches(where_, rows[id])
  }

  function Partition(rows: Rows, merchant: MerchantId): Rows {
    map id | id in rows && rows[id].merchant == Some(merchant) :: rows[id]
  }

  /** Deleted customers, products and variants stay out of sight unless the clause asks. */
  predicate HidesDeleted(model: Model, where_: Option<Where>) {
    model in {Customer, Product, ProductVariant} && (where_.None? || where_.value.deletedAt.None?)
  }

  /** The clause names something other than the tenant in the merchant column. */
  predicate NamesOther(where_: Option<Where>, t: MerchantId) {
    where_.Some? && where_.value.merchantId.Some? && where_.value.merchantId.value != Is(t)
  }

  /** Without a scope only sessions can be read; the system scope reads anything; a tenant reads
      its own root by id, the tables that are not of a tenant, any row by a unique key (which is
      not narrowed), and of its tables what does not name another tenant. */
  lemma ReadRefusedIff(scope: Scope, model: Model, where_: Option<Where>, id: Option<MerchantId>, isFindUnique: bool)
    ensures ApplyReadHooks(scope, model, where_, id, isFindUnique).TenantScopeError?
            <==> && model != Session
                 && (|| scope.NoScope?
                     || (scope.Tenant? && model == Merchant && id != Some(scope.merchant))
                     || (scope.Tenant? && Narrowed(model) && !isFindUnique && NamesOther(where_, scope.merchant)))
  {
    assert !Narrowed(Merchant) && !Narrowed(Session);
  }

  /** A rewritten read of any table equals the same read, soft-delete filter included, on the
      tenant's partition; and it is refused exactly if the clause names anything but the
      tenant in the merchant column. */
  lemma ReadIsPartitionRead(t: MerchantId, model: Model, where_: Option<Where>, id: Option<MerchantId>, rows: Rows)
    requires Narrowed(model)
    ensures var r := ApplyReadHooks(Tenant(t), model, where_, id, false);
            && (r.TenantScopeError? <==>
                  where_.Some? && where_.value.merchantId.Some? && where_.value.merchantId.value != Is(t))
            && (r.Ok? ==> Select(rows, r.value) == Select(Partition(rows, t), ApplySoftDeleteFilter(model, where_)))
            && (r.Ok? ==>
                  forall i :: i in Select(rows, r.value) <==>
                    && i in rows && rows[i].merchant == Some(t) && Matches(where_, rows[i])
                    && (HidesDeleted(model, where_) ==> rows[i].deletedAt.None?))
  {
    assert model != Merchant && model !in UNSCOPED_MODELS;
    var r := ApplyReadHooks(Tenant(t), model, where_, id, false);
    if r.Ok? {
      forall i
        ensures i in Select(rows, r.value) <==> i in Select(Partition(rows, t), ApplySoftDeleteFilter(model, where_))
        ensures i in Select(rows, r.value) <==>
                && i in rows && rows[i].merchant == Some(t) && Matches(where_, rows[i])
                && (HidesDeleted(model, where_) ==> rows[i].deletedAt.None?)
      {
        if i in rows { RewrittenMatches(t, model, where_, id, rows[i]); }
      }
    }
  }

  lemma RewrittenMatches(t: MerchantId, model: Model, where_: Option<Where>, id: Option<MerchantId>, row: Row)
    requires Narrowed(model) && ApplyReadHooks(Tenant(t), model, where_, id, false).Ok?
    ensures Matches(ApplyReadHooks(Tenant(t), model, where_, id, false).value, row)
            <==> row.merchant == Some(t) && Matches(ApplySoftDeleteFilter(model, where_), row)
  {
    assert model != Merchant && model !in UNSCOPED_MODELS;
  }

  /** Rewriting a rewritten read changes nothing. */
  lemma ReadRewritingIsIdempotent(scope: Scope, model: Model, where_: Option<Where>, id: Option<MerchantId>,
                                  isFindUnique: bool)
    ensures var r := ApplyReadHooks(scope, model, where_, id, isFindUnique);
            r.Ok? ==> ApplyReadHooks(scope, model, r.value, id, isFindUnique) == r
  {
    if model !in UNSCOPED_MODELS {
      var r1 := EnforceTenantScopeOnRead(scope, model, where_, id, isFindUnique);
      if r1.Ok? {
        SoftFilterKeepsMerchant(model, r1.value);
      }
    }
  }

  lemma SoftFilterKeepsMerchant(model: Model, where_: Option<Where>)
    ensures var w := ApplySoftDeleteFilter(model, where_);
            && ApplySoftDeleteFilter(model, w) == w
            && (where_.Some? ==> w.Some? && w.value.merchantId == where_.value.merchantId)
            && (where_.None? && w.Some? ==> w.value.merchantId.None?)
  {
  }

  // ------------------------------------------------------------------- writes

  function InjectIntoRow(data: Data, scope: MerchantId): Result<Data> {
    if data.merchantId.None? then Ok(data.(merchantId := Some(Some(scope))))
    else if data.merchantId.value != Some(scope) then TenantScopeError
    else Ok(data)
  }

  function InjectIntoRows(rows: seq<Data>, scope: MerchantId): Result<seq<Data>> {
    if rows == [] then Ok([])
    else
      var first, rest := InjectIntoRow(rows[0], scope), InjectIntoRows(rows[1..], scope);
      if first.TenantScopeError? || rest.TenantScopeError? then TenantScopeError else Ok([first.value] + rest.value)
  }

  function InjectIntoBlock(block: Option<Block>, scope: MerchantId): Result<Option<Block>> {
    match block
    case None => Ok(None)
    case Some(One(data)) =>
      var r := InjectIntoRow(data, scope);
      if r.TenantScopeError? then TenantScopeError else Ok(Some(One(r.value)))
    case Some(Many(rows)) =>
      var r := InjectIntoRows(rows, scope);
      if r.TenantScopeError? then TenantScopeError else Ok(Some(Many(r.value)))
  }

  function InjectIntoCreate(create: Option<Data>, scope: MerchantId): Result<Option<Data>> {
    if create.None? then Ok(None)
    else
      var r := InjectIntoRow(create.value, scope);
      if r.TenantScopeError? then TenantScopeError else Ok(Some(r.value))
  }

  /** The update block of an upsert may not move a row to another tenant. */
  predicate UpdateStays(update: Option<Data>, scope: MerchantId) {
    update.Some? ==> update.value.merchantId.None? || update.value.merchantId.value == Some(scope)
  }

  /** Only a clause that is there is narrowed. */
  function NarrowWhere(where_: Option<Where>, scope: MerchantId): Result<Option<Where>> {
    if where_.None? then Ok(None)
    else
      match where_.value.merchantId
      case None => Ok(Some(where_.value.(merchantId := Some(Is(scope)))))
      case Some(Is(m)) => if m == scope then Ok(where_) else TenantScopeError
      case Some(Other(_)) => TenantScopeError
  }

  /** The tenant branch of the write hook, for a model of the tenant. */
  function NarrowWrite(args: WriteArgs, scope: MerchantId): Result<WriteArgs> {
    var data := InjectIntoBlock(args.data, scope);
    var create := InjectIntoCreate(args.create, scope);
    var where_ := NarrowWhere(args.where_, scope);
    if data.Ok? && create.Ok? && where_.Ok? && UpdateStays(args.update, scope) then
      Ok(WriteArgs(where_.value, data.value, create.value, args.update))
    else TenantScopeError
  }

  /** `targetId` is the id that a write to the Merchant table names, if any. */
  function ApplyWriteHooks(scope: Scope, model: Model, args: WriteArgs,
                           targetId: Option<MerchantId>): Result<WriteArgs> {
    if model in UNSCOPED_MODELS then Ok(args)
    else if scope.NoScope? then TenantScopeError
    else if scope.System? then Ok(args)
    else if model == Merchant then if targetId in {None, Some(scope.merchant)} then Ok(args) else TenantScopeError
    else if !Narrowed(model) then Ok(args)
    else NarrowWrite(args, scope.merchant)
  }

  /** The write operations of the client, and what each makes of a table. `target` is the
      row a unique clause finds, `newIds` the ids of new rows. */
  datatype Operation = Create | CreateMany | Update | UpdateMany | Upsert | Delete | DeleteMany

  predicate WellFormed(op: Operation, args: WriteArgs) {
    match op
    case Create => args.data.Some? && args.data.value.One?
    case CreateMany => args.data.Some? && args.data.value.Many?
    case Update => args.where_.Some? && args.data.Some? && args.data.value.One?
    case UpdateMany => args.data.Some? && args.data.value.One?
    case Upsert => args.where_.Some? && args.create.Some? && args.update.Some?
    case Delete => args.where_.Some?
    case DeleteMany => true
  }

  /** How many ids an operation may need for new rows. */
  function NewIds(op: Operation, args: WriteArgs): nat
    requires WellFormed(op, args)
  {
    match op
    case Create => 1
    case CreateMany => |args.data.value.rows|
    case Upsert => 1
    case _ => 0
  }

  function NewRow(d: Data): Row {
    Row(if d.merchantId.Some? then d.merchantId.value else None,
        if d.deletedAt.Some? then d.deletedAt.value else None,
        if d.payload.Some? then d.payload.value else 0)
  }

  function Edit(row: Row, d: Data): Row {
    Row(if d.merchantId.Some? then d.merchantId.value else row.merchant,
        if d.deletedAt.Some? then d.deletedAt.value else row.deletedAt,
        if d.payload.Some? then d.payload.value else row.payload)
  }

  function Insert(rows: Rows, data: seq<Data>, newIds: seq<RowId>): Rows
    requires |data| <= |newIds|
  {
    if data == [] then rows else Insert(rows, data[1..], newIds[1..])[newIds[0] := NewRow(data[0])]
  }

  function Effect(rows: Rows, op: Operation, args: WriteArgs, target: RowId, newIds: seq<RowId>): Rows
    requires WellFormed(op, args)
    requires NewIds(op, args) <= |newIds|
  {
    var hit := target in rows && Matches(args.where_, rows[target]);
    match op
    case Create => Insert(rows, [args.data.value.data], newIds)
    case CreateMany => Insert(rows, args.data.value.rows, newIds)
    case Update => if hit then rows[target := Edit(rows[target], args.data.value.data)] else rows
    case UpdateMany =>
      map id | id in rows :: if Matches(args.where_, rows[id]) then Edit(rows[id], args.data.value.data) else rows[id]
    case Upsert =>
      if hit then rows[target := Edit(rows[target], args.update.value)]
      else Insert(rows, [args.create.value], newIds)
    case Delete => if hit then rows - {target} else rows
    case DeleteMany => rows - Select(rows, args.where_)
  }

  /** No row of another tenant changes, and every row that is new or changed is the tenant's. */
  ghost predicate Confined(rows: Rows, rows': Rows, merchant: MerchantId) {
    && (forall id :: id in rows && rows[id].merchant != Some(merchant) ==> id in rows' && rows'[id] == rows[id])
    && (forall id :: id in rows' && !(id in rows && rows'[id] == rows[id]) ==> rows'[id].merchant == Some(merchant))
  }

  lemma {:induction false} InjectedRows(rows: seq<Data>, scope: MerchantId)
    ensures var r := InjectIntoRows(rows, scope);
            r.Ok? ==> |r.value| == |rows| && forall i :: 0 <= i < |r.value| ==>
                r.value[i].merchantId == Some(Some(scope))
    decreases |rows|
  {
    if rows != [] {
      InjectedRows(rows[1..], scope);
    }
  }

  lemma {:induction false} InsertIsConfined(rows: Rows, data: seq<Data>, newIds: seq<RowId>, merchant: MerchantId)
    requires |data| <= |newIds| && forall i :: 0 <= i < |newIds| ==> newIds[i] !in rows
    requires forall i :: 0 <= i < |data| ==> data[i].merchantId == Some(Some(merchant))
    ensures Confined(rows, Insert(rows, data, newIds), merchant)
    decreases |data|
  {
    if data != [] {
      InsertIsConfined(rows, data[1..], newIds[1..], merchant);
    }
  }

  /** A row to be written says that it is another tenant's. */
  predicate IsForeign(d: Data, t: MerchantId) {
    d.merchantId.Some? && d.merchantId.value != Some(t)
  }

  function OwnedBy(d: Data, t: MerchantId): Data {
    d.(merchantId := Some(Some(t)))
  }

  /** The arguments with the tenant filled in on every row to be written. */
  function Owned(args: WriteArgs, t: MerchantId): WriteArgs {
    var data := match args.data
      case None => None
      case Some(One(d)) => Some(One(OwnedBy(d, t)))
      case Some(Many(ds)) => Some(Many(seq(|ds|, i requires 0 <= i < |ds| => OwnedBy(ds[i], t))));
    args.(data := data, create := if args.create.None? then None else Some(OwnedBy(args.create.value, t)))
  }

  lemma {:induction false} RowsOwned(rows: seq<Data>, t: MerchantId)
    ensures InjectIntoRows(rows, t).TenantScopeError? <==> exists i :: 0 <= i < |rows| && IsForeign(rows[i], t)
    ensures InjectIntoRows(rows, t).Ok? ==>
              InjectIntoRows(rows, t).value == seq(|rows|, i requires 0 <= i < |rows| => OwnedBy(rows[i], t))
    decreases |rows|
  {
    if rows != [] {
      RowsOwned(rows[1..], t);
      assert forall i :: 0 < i < |rows| ==> rows[i] == rows[1..][i - 1];
    }
  }

  /** A write names another tenant on a row to be written, on an edit, or in its clause. */
  ghost predicate WritesOther(args: WriteArgs, t: MerchantId) {
    || NamesOther(args.where_, t)
    || (args.data.Some? && args.data.value.One? && IsForeign(args.data.value.data, t))
    || (args.data.Some? && args.data.value.Many?
        && exists i :: 0 <= i < |args.data.value.rows| && IsForeign(args.data.value.rows[i], t))
    || (args.create.Some? && IsForeign(args.create.value, t))
    || (args.update.Some? && IsForeign(args.update.value, t))
  }

  /** Without a scope only sessions can be written; the system scope writes anything; a tenant
      may not write another's root, nor a row of its tables that names another tenant. */
  lemma WriteRefusedIff(scope: Scope, model: Model, args: WriteArgs, targetId: Option<MerchantId>)
    ensures ApplyWriteHooks(scope, model, args, targetId).TenantScopeError?
            <==> && model != Session
                 && (|| scope.NoScope?
                     || (scope.Tenant? && model == Merchant && targetId.Some? && targetId.value != scope.merchant)
                     || (scope.Tenant? && Narrowed(model) && WritesOther(args, scope.merchant)))
  {
    assert !Narrowed(Merchant) && !Narrowed(Session);
    if scope.Tenant? && args.data.Some? && args.data.value.Many? {
      RowsOwned(args.data.value.rows, scope.merchant);
    }
  }

  /** A rewritten write does to the tenant's partition what the caller's own arguments, with the
      tenant filled in, would do to it. */
  lemma WriteIsPartitionWrite(t: MerchantId, model: Model, op: Operation, args: WriteArgs,
                              targetId: Option<MerchantId>, rows: Rows, target: RowId, newIds: seq<RowId>)
    requires Narrowed(model) && WellFormed(op, args)
    requires NewIds(op, args) <= |newIds|
    requires forall i :: 0 <= i < |newIds| ==> newIds[i] !in rows
    requires op.UpdateMany? || op.DeleteMany? ==> args.where_.Some?
    requires ApplyWriteHooks(Tenant(t), model, args, targetId).Ok?
    ensures var args' := ApplyWriteHooks(Tenant(t), model, args, targetId).value;
            && WellFormed(op, args') && NewIds(op, args') == NewIds(op, args)
            && WellFormed(op, Owned(args, t)) && NewIds(op, Owned(args, t)) == NewIds(op, args)
            && Partition(Effect(rows, op, args', target, newIds), t)
               == Effect(Partition(rows, t), op, Owned(args, t), target, newIds)
  {
    assert model != Merchant && model !in UNSCOPED_MODELS;
    NarrowedArgs(args, t);
    if args.data.Some? && args.data.value.Many? { RowsOwned(args.data.value.rows, t); }
    var args', owned := NarrowWrite(args, t).value, Owned(args, t);
    assert args'.data == owned.data && args'.create == owned.create && owned.where_ == args.where_;
    hide NarrowWrite, Owned, Matches, Insert;
    match op {
      case Create => InsertInPartition(rows, [args'.data.value.data], newIds, t);
      case CreateMany => InsertInPartition(rows, args'.data.value.rows, newIds, t);
      case Upsert => InsertInPartition(rows, [args'.create.value], newIds, t);
      case _ =>
    }
  }

  lemma {:induction false} InsertInPartition(rows: Rows, data: seq<Data>, newIds: seq<RowId>, t: MerchantId)
    requires |data| <= |newIds|
    requires forall i :: 0 <= i < |data| ==> data[i].merchantId == Some(Some(t))
    ensures Partition(Insert(rows, data, newIds), t) == Insert(Partition(rows, t), data, newIds)
    decreases |data|
  {
    if data != [] { InsertInPartition(rows, data[1..], newIds[1..], t); }
  }

  /** What narrowing guarantees of each part of the arguments. */
  lemma NarrowedArgs(args: WriteArgs, t: MerchantId)
    ensures var r := NarrowWrite(args, t);
            r.Ok? ==>
              && (args.where_.Some? <==> r.value.where_.Some?)
              && (forall row :: args.where_.Some? ==>
                    (Matches(r.value.where_, row) <==> row.merchant == Some(t) && Matches(args.where_, row)))
              && (args.data.None? <==> r.value.data.None?)
              && (r.value.data.Some? ==> match r.value.data.value
                    case One(d) => args.data.value.One? && d.merchantId == Some(Some(t))
                    case Many(ds) => args.data.value.Many? && |ds| == |args.data.value.rows|
                                     && forall i :: 0 <= i < |ds| ==> ds[i].merchantId == Some(Some(t)))
              && (args.create.Some? <==> r.value.create.Some?)
              && (r.value.create.Some? ==> r.value.create.value.merchantId == Some(Some(t)))
              && r.value.update == args.update && UpdateStays(args.update, t)
  {
    if args.data.Some? && args.data.value.Many? {
      InjectedRows(args.data.value.rows, t);
    }
  }

  /** A rewritten write stays in the tenant's partition, for every operation and every table,
      provided that a bulk write carries a where clause. */
  lemma WriteStaysInTenant(t: MerchantId, model: Model, op: Operation, args: WriteArgs, targetId: Option<MerchantId>,
                           rows: Rows, target: RowId, newIds: seq<RowId>)
    requires Narrowed(model) && WellFormed(op, args)
    requires NewIds(op, args) <= |newIds|
    requires forall i :: 0 <= i < |newIds| ==> newIds[i] !in rows
    requires op.UpdateMany? || op.DeleteMany? ==> args.where_.Some?
    requires ApplyWriteHooks(Tenant(t), model, args, targetId).Ok?
    ensures var args' := ApplyWriteHooks(Tenant(t), model, args, targetId).value;
            && WellFormed(op, args') && NewIds(op, args') == NewIds(op, args)
            && Confined(rows, Effect(rows, op, args', target, newIds), t)
  {
    assert model != Merchant && model !in UNSCOPED_MODELS;
    NarrowedArgs(args, t);
    var args' := NarrowWrite(args, t).value;
    match op {
      case Create => InsertIsConfined(rows, [args'.data.value.data], newIds, t);
      case CreateMany => InsertIsConfined(rows, args'.data.value.rows, newIds, t);
      case Upsert => InsertIsConfined(rows, [args'.create.value], newIds, t);
      case _ =>
    }
  }

  /** A bulk write is confined whatever the table holds if and only if it carries a where
      clause: the hook narrows a clause that is there and does not add one. */
  lemma BulkWriteConfinedIffWhere(t: MerchantId, model: Model, op: Operation, args: WriteArgs,
                                  targetId: Option<MerchantId>)
    requires Narrowed(model) && WellFormed(op, args) && (op.UpdateMany? || op.DeleteMany?)
    requires ApplyWriteHooks(Tenant(t), model, args, targetId).Ok?
    ensures var args' := ApplyWriteHooks(Tenant(t), model, args, targetId).value;
            && WellFormed(op, args')
            && (args.where_.Some? <==> forall rows: Rows :: Confined(rows, Effect(rows, op, args', 0, []), t))
  {
    assert model != Merchant && model !in UNSCOPED_MODELS;
    NarrowedArgs(args, t);
    var args' := NarrowWrite(args, t).value;
    if args.where_.Some? {
      forall rows: Rows
        ensures Confined(rows, Effect(rows, op, args', 0, []), t)
      {
        WriteStaysInTenant(t, model, op, args, targetId, rows, 0, []);
      }
    } else {
      var foreign: Rows := map[0 := Row(Some(t + 1), None, 0)];
      assert foreign[0].merchant != Some(t);
      assert !Confined(foreign, Effect(foreign, op, args', 0, []), t);
    }
  }

  /** Rewriting a rewritten write changes nothing. */
  lemma WriteRewritingIsIdempotent(scope: Scope, model: Model, args: WriteArgs, targetId: Option<MerchantId>)
    ensures var r := ApplyWriteHooks(scope, model, args, targetId);
            r.Ok? ==> ApplyWriteHooks(scope, model, r.value, targetId) == r
  {
    if scope.Tenant? && Narrowed(model) {
      if args.data.Some? && args.data.value.Many? {
        InjectedRows(args.data.value.rows, scope.merchant);
        var r := InjectIntoRows(args.data.value.rows, scope.merchant);
        if r.Ok? { AlreadyInjected(r.value, scope.merchant); }
      }
    }
  }

  lemma {:induction false} AlreadyInjected(rows: seq<Data>, scope: MerchantId)
    requires forall i :: 0 <= i < |rows| ==> rows[i].merchantId == Some(Some(scope))
    ensures InjectIntoRows(rows, scope) == Ok(rows)
    decreases |rows|
  {
    if rows != [] {
      AlreadyInjected(rows[1..], scope);
      assert rows == [rows[0]] + rows[1..];
    }
  }
}
