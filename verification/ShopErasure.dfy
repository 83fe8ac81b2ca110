/** `processShopRedact`: erase a whole tenant in many short transactions, table by table and
    chunk by chunk, then delete the merchant row and let the cascade take what is left.
    The process may die after any transaction and start over. */
module ShopErasure {
  import opened Collections

  type MerchantId = nat
  type RowId = nat
  type SessionId = nat

  /** The tenant tables, in the order of the chunked deletes. */
  datatype Table =
    | OrderLineItem | Order | CampaignTarget | MessageEvent | Message | AiGeneration | CustomerScore | Suppression
    | ProductVariant | Product | Customer | Campaign | OutboxEvent | IdempotencyKey | BackfillJob | AiSpendBucket
    | MessageQuotaBucket | MerchantSettings | BillingSubscription

  const SHOP_REDACT_TABLES_IN_ORDER: seq<Table> := [
    OrderLineItem, Order, CampaignTarget, MessageEvent, Message, AiGeneration, CustomerScore, Suppression,
    ProductVariant, Product, Customer, Campaign, OutboxEvent, IdempotencyKey, BackfillJob, AiSpendBucket,
    MessageQuotaBucket, MerchantSettings, BillingSubscription
  ]

  const SOFT_DELETE_TABLES: set<Table> := {Customer, Product, ProductVariant}

  datatype Key = Key(table: Table, id: RowId)

  datatype Row = Row(merchant: MerchantId, softDeleted: bool)

  /** Compliance and forensic rows: kept for good, their merchant set to null on its deletion. */
  datatype LogModel = AuditLog | WebhookLog

  datatype Action = ShopRedact | ShopRedactIdempotent | OtherAction(code: nat)

  datatype LogRow = LogRow(model: LogModel, merchant: Option<MerchantId>, shop: string, action: Action)

  datatype Db = Db(
    rows: map<Key, Row>,
    merchants: map<MerchantId, string>,
    sessions: map<SessionId, string>,
    logs: seq<LogRow>
  )

  /** Foreign keys and the unique shop. */
  ghost predicate Sound(d: Db) {
    && (forall k :: k in d.rows ==> d.rows[k].merchant in d.merchants)
    && (forall m, n :: m in d.merchants && n in d.merchants && d.merchants[m] == d.merchants[n] ==> m == n)
  }

  /** What the soft-delete filter lets a read of this table see of the tenant's rows. */
  function VisibleOf(rows: map<Key, Row>, merchant: MerchantId, table: Table): set<Key> {
    set k | k in rows && k.table == table && rows[k].merchant == merchant
         && (table in SOFT_DELETE_TABLES ==> !rows[k].softDeleted)
  }

  function RowsOf(rows: map<Key, Row>, merchant: MerchantId): set<Key> {
    set k | k in rows && rows[k].merchant == merchant
  }

  predicate LogKept(r: LogRow, r': LogRow, merchant: MerchantId) {
    r' == r || (r.merchant == Some(merchant) && r' == r.(merchant := None))
  }

  /** What erasing a tenant, wholly or in part, may do to a database: take rows of that tenant
      and sessions of its shop, add log rows, and null the tenant's id in the log. */
  ghost predicate Erodes(d: Db, d': Db, merchant: MerchantId, shop: string) {
    && (forall k :: k in d'.rows ==> k in d.rows && d'.rows[k] == d.rows[k])
    && (forall k :: k in d.rows && d.rows[k].merchant != merchant ==> k in d'.rows)
    && (forall m :: m in d'.merchants ==> m in d.merchants && d'.merchants[m] == d.merchants[m])
    && (forall m :: m in d.merchants && m != merchant ==> m in d'.merchants)
    && (forall i :: i in d'.sessions ==> i in d.sessions && d'.sessions[i] == d.sessions[i])
    && (forall i :: i in d.sessions && d.sessions[i] != shop ==> i in d'.sessions)
    && |d.logs| <= |d'.logs|
    && (forall i :: 0 <= i < |d.logs| ==> LogKept(d.logs[i], d'.logs[i], merchant))
  }

  lemma ErodesTwice(d: Db, d1: Db, d2: Db, merchant: MerchantId, shop: string)
    requires Erodes(d, d1, merchant, shop) && Erodes(d1, d2, merchant, shop)
    ensures Erodes(d, d2, merchant, shop)
  {
    forall i | 0 <= i < |d.logs|
      ensures LogKept(d.logs[i], d2.logs[i], merchant)
    {
      assert LogKept(d.logs[i], d1.logs[i], merchant) && LogKept(d1.logs[i], d2.logs[i], merchant);
    }
  }

  /** Nothing of the tenant is left. */
  ghost predicate Erased(d: Db, merchant: MerchantId, shop: string) {
    && merchant !in d.merchants
    && (forall k :: k in d.rows ==> d.rows[k].merchant != merchant)
    && (forall i :: i in d.sessions ==> d.sessions[i] != shop)
  }

  /** Once the merchant is gone its rows and sessions are gone, whoever started over. */
  ghost predicate GoneTogether(d: Db, merchant: MerchantId, shop: string) {
    merchant !in d.merchants ==> Erased(d, merchant, shop)
  }

  /** The transactions a process still gets through; None if it does not die. */
  type Life = Option<nat>

  function Spend(life: Life): Life
    requires life != Some(0)
  {
    if life.None? then None else Some(life.value - 1)
  }

  /** The rows a chunk takes: as many of the visible ones as the batch size allows. */
  predicate IsChunk(ids: set<Key>, visible: set<Key>, batchSize: nat) {
    ids <= visible && |ids| <= batchSize && (|ids| < batchSize ==> ids == visible)
  }

  lemma {:induction false} ChunkExists(visible: set<Key>, batchSize: nat)
    ensures exists ids :: IsChunk(ids, visible, batchSize)
    decreases batchSize
  {
    if batchSize == 0 {
      assert IsChunk({}, visible, 0);
    } else {
      ChunkExists(visible, batchSize - 1);
      var ids :| IsChunk(ids, visible, batchSize - 1);
      assert visible == ids + (visible - ids);
      if visible - ids == {} {
        assert IsChunk(ids, visible, batchSize);
      } else {
        var k :| k in visible - ids;
        assert IsChunk(ids + {k}, visible, batchSize);
      }
    }
  }

  /** Rounds of the chunk loop that all come back full, so that each asks for another. */
  predicate FullRounds(rows: map<Key, Row>, merchant: MerchantId, table: Table, batchSize: nat, chunks: seq<set<Key>>)
    decreases |chunks|
  {
    chunks == [] ||
    (&& IsChunk(chunks[0], VisibleOf(rows, merchant, table), batchSize) && |chunks[0]| == batchSize
     && FullRounds(rows - chunks[0], merchant, table, batchSize, chunks[1..]))
  }

  function AfterRounds(rows: map<Key, Row>, chunks: seq<set<Key>>): map<Key, Row>
    decreases |chunks|
  {
    if chunks == [] then rows else AfterRounds(rows - chunks[0], chunks[1..])
  }

  /** With a batch size of zero every round takes nothing and asks for another. */
  lemma {:induction false} ZeroBatchStands(rows: map<Key, Row>, merchant: MerchantId, table: Table, n: nat)
    returns (chunks: seq<set<Key>>)
    ensures |chunks| == n && FullRounds(rows, merchant, table, 0, chunks) && AfterRounds(rows, chunks) == rows
  {
    if n == 0 {
      chunks := [];
    } else {
      var rest := ZeroBatchStands(rows, merchant, table, n - 1);
      chunks := [{}] + rest;
      assert rows - {} == rows && chunks[1..] == rest;
    }
  }

  /** With a positive one the full rounds take the visible rows, so they run out. */
  lemma {:induction false} RoundsRunOut(rows: map<Key, Row>, merchant: MerchantId, table: Table, batchSize: nat,
                                        chunks: seq<set<Key>>)
    requires batchSize >= 1 && FullRounds(rows, merchant, table, batchSize, chunks)
    ensures |chunks| <= |VisibleOf(rows, merchant, table)|
    decreases |chunks|
  {
    if chunks != [] {
      RoundsRunOut(rows - chunks[0], merchant, table, batchSize, chunks[1..]);
      var before := VisibleOf(rows, merchant, table);
      assert VisibleOf(rows - chunks[0], merchant, table) == before - chunks[0];
      assert |before - chunks[0]| == |before| - |chunks[0]|;
    }
  }

  /** The chunk loop can go through n rounds and ask for one more. */
  ghost predicate GoesOn(rows: map<Key, Row>, merchant: MerchantId, table: Table, batchSize: nat, n: nat) {
    exists chunks :: |chunks| == n && FullRounds(rows, merchant, table, batchSize, chunks)
  }

  /** The chunk loop goes on for ever on a table if and only if the batch size is zero, and
      then it never takes a row. */
  lemma ZeroBatchNeverEnds(rows: map<Key, Row>, merchant: MerchantId, table: Table, batchSize: nat)
    ensures (forall n: nat :: GoesOn(rows, merchant, table, batchSize, n)) <==> batchSize == 0
    ensures batchSize == 0 ==> forall chunks :: FullRounds(rows, merchant, table, batchSize, chunks) ==>
              AfterRounds(rows, chunks) == rows
  {
    if batchSize == 0 {
      forall n: nat
        ensures GoesOn(rows, merchant, table, batchSize, n)
      {
        var chunks := ZeroBatchStands(rows, merchant, table, n);
      }
      forall chunks | FullRounds(rows, merchant, table, 0, chunks)
        ensures AfterRounds(rows, chunks) == rows
      {
        ZeroRoundsTakeNothing(rows, merchant, table, chunks);
      }
    } else {
      var n := |VisibleOf(rows, merchant, table)| + 1;
      if GoesOn(rows, merchant, table, batchSize, n) {
        var chunks :| |chunks| == n && FullRounds(rows, merchant, table, batchSize, chunks);
        RoundsRunOut(rows, merchant, table, batchSize, chunks);
      }
    }
  }

  lemma {:induction false} ZeroRoundsTakeNothing(rows: map<Key, Row>, merchant: MerchantId, table: Table,
                                                 chunks: seq<set<Key>>)
    requires FullRounds(rows, merchant, table, 0, chunks)
    ensures AfterRounds(rows, chunks) == rows
    decreases |chunks|
  {
    if chunks != [] {
      assert chunks[0] == {} && rows - {} == rows;
      ZeroRoundsTakeNothing(rows, merchant, table, chunks[1..]);
    }
  }

  class Store {
    var rows: map<Key, Row>
    var merchants: map<MerchantId, string>
    var sessions: map<SessionId, string>
    var logs: seq<LogRow>

    function Whole(): Db
      reads this
    {
      Db(rows, merchants, sessions, logs)
    }

    /** One table, chunk after chunk while chunks come back full. With a positive batch size
        it ends, and what is left of the tenant in this table is exactly what the soft-delete
        filter hides. */
    method ChunkedDeleteTenant(merchant: MerchantId, table: Table, batchSize: nat,
                               life: Life) returns (alive: bool, rest: Life)
      requires batchSize >= 1
      modifies `rows
      ensures forall k :: k in rows ==> k in old(rows) && rows[k] == old(rows[k])
      ensures forall k :: k in old(rows) && k !in rows ==> k in VisibleOf(old(rows), merchant, table)
      ensures alive ==> VisibleOf(rows, merchant, table) == {}
      ensures life.None? ==> alive && rest.None?
    {
      rest := life;
      var more := true;
      while more
        invariant forall k :: k in rows ==> k in old(rows) && rows[k] == old(rows[k])
        invariant forall k :: k in old(rows) && k !in rows ==> k in VisibleOf(old(rows), merchant, table)
        invariant !more ==> VisibleOf(rows, merchant, table) == {}
        invariant life.None? ==> rest.None?
        decreases |VisibleOf(rows, merchant, table)|, more
      {
        if rest == Some(0) {
          return false, rest;
        }
        rest := Spend(rest);
        var visible := VisibleOf(rows, merchant, table);
        ChunkExists(visible, batchSize);
        var ids :| IsChunk(ids, visible, batchSize);
        rows := rows - ids;
        more := |ids| == batchSize;
        assert VisibleOf(rows, merchant, table) == visible - ids;
      }
      alive := true;
    }

    /** A one-to-one table needs no chunks. */
    method DeleteOneToOne(merchant: MerchantId, table: Table, life: Life) returns (alive: bool, rest: Life)
      requires table !in SOFT_DELETE_TABLES
      modifies `rows
      ensures forall k :: k in rows ==> k in old(rows) && rows[k] == old(rows[k])
      ensures forall k :: k in old(rows) && k !in rows ==> k in VisibleOf(old(rows), merchant, table)
      ensures alive ==> VisibleOf(rows, merchant, table) == {}
      ensures life.None? ==> alive && rest.None?
    {
      if life == Some(0) {
        return false, life;
      }
      rows := rows - VisibleOf(rows, merchant, table);
      return true, Spend(life);
    }

    /** Step 3: every table in order. */
    method DeleteTables(merchant: MerchantId, batchSize: nat, life: Life) returns (alive: bool, rest: Life)
      requires batchSize >= 1
      modifies `rows
      ensures forall k :: k in rows ==> k in old(rows) && rows[k] == old(rows[k])
      ensures forall k :: k in old(rows) && k !in rows ==> old(rows[k].merchant) == merchant
      ensures alive ==> forall k :: k in rows && rows[k].merchant == merchant ==>
              rows[k].softDeleted && k.table in {Customer, Product, ProductVariant}
      ensures forall k, child :: k in old(rows) && k !in rows && References(child, k.table) ==>
                VisibleOf(rows, merchant, child) == {}
      ensures life.None? ==> alive && rest.None?
    {
      hide References, VisibleOf, SHOP_REDACT_TABLES_IN_ORDER;
      rest := life;
      ChildrenGone(rows, rows, merchant, 0);
      for i := 0 to |SHOP_REDACT_TABLES_IN_ORDER|
        invariant forall k :: k in rows ==> k in old(rows) && rows[k] == old(rows[k])
        invariant forall k :: k in old(rows) && k !in rows ==> old(rows[k].merchant) == merchant
        invariant forall j :: 0 <= j < i ==> VisibleOf(rows, merchant, SHOP_REDACT_TABLES_IN_ORDER[j]) == {}
        invariant forall k :: k in old(rows) && k !in rows ==> Position(k.table) < i
        invariant life.None? ==> rest.None?
      {
        var table := SHOP_REDACT_TABLES_IN_ORDER[i];
        ghost var rows0 := rows;
        EachTableOnce(i);
        if table == MerchantSettings || table == BillingSubscription {
          alive, rest := DeleteOneToOne(merchant, table, rest);
        } else {
          alive, rest := ChunkedDeleteTenant(merchant, table, batchSize, rest);
        }
        StaysEmpty(rows0, rows, merchant, table, i);
        if !alive {
          ChildrenGone(old(rows), rows, merchant, i);
          return;
        }
      }
      alive := true;
      ChildrenGone(old(rows), rows, merchant, |SHOP_REDACT_TABLES_IN_ORDER|);
      NothingVisible(rows, merchant);
    }

    /** The merchant row goes, its rows with it, and the log forgets whose it was. */
    method HardDelete(merchant: MerchantId)
      modifies this
      ensures rows == old(rows) - RowsOf(old(rows), merchant)
      ensures merchants == old(merchants) - {merchant} && sessions == old(sessions)
      ensures |logs| == |old(logs)|
      ensures forall i :: 0 <= i < |logs| ==>
                logs[i] == if old(logs[i]).merchant == Some(merchant) then old(logs[i]).(merchant := None)
                            else old(logs[i])
    {
      rows := rows - RowsOf(rows, merchant);
      merchants := merchants - {merchant};
      logs := seq(|logs|, i requires 0 <= i < |logs| reads this =>
        if logs[i].merchant == Some(merchant) then logs[i].(merchant := None) else logs[i]);
    }

    /** Sessions are the shop's, not the tenant's. */
    method DeleteSessions(shop: string)
      modifies `sessions
      ensures sessions == DropSessions(old(sessions), shop)
    {
      sessions := DropSessions(sessions, shop);
    }

    /** The whole erasure of one shop. A run that gets to do anything at all logs the erasure
        before it deletes, wherever it dies; if the merchant is already gone it logs a tombstone. */
    method ProcessShopRedact(shop: string, batchSize: nat, life: Life) returns (finished: bool)
      requires batchSize >= 1 && Sound(Whole())
      modifies this
      ensures Sound(Whole())
      ensures life.None? ==> finished
      ensures (forall m :: m in old(merchants) ==> old(merchants[m]) != shop) ==>
                && rows == old(rows) && merchants == old(merchants) && sessions == old(sessions)
                && logs == if finished then old(logs) + [LogRow(AuditLog, None, shop, ShopRedactIdempotent)]
                           else old(logs)
      ensures forall m :: m in old(merchants) && old(merchants[m]) == shop ==>
                && Erodes(old(Whole()), Whole(), m, shop)
                && GoneTogether(Whole(), m, shop)
                && (finished ==> Erased(Whole(), m, shop))
                && (life != Some(0) ==>
                      && |logs| > |old(logs)|
                      && logs[|old(logs)|] == LogRow(AuditLog, if finished then None else Some(m), shop, ShopRedact))
      ensures life == Some(0) ==> Whole() == old(Whole())
    {
      if life == Some(0) {
        return false;
      }
      var rest := Spend(life);
      var found := set m | m in merchants && merchants[m] == shop;
      assert forall m :: m in merchants && merchants[m] == shop ==> m in found;
      if found == {} {
        logs := logs + [LogRow(AuditLog, None, shop, ShopRedactIdempotent)];
        return true;
      }
      var merchant :| merchant in found;
      finished := EraseMerchant(merchant, shop, batchSize, rest);
    }

    method EraseMerchant(merchant: MerchantId, shop: string, batchSize: nat, life: Life) returns (finished: bool)
      requires batchSize >= 1 && Sound(Whole()) && merchant in merchants && merchants[merchant] == shop
      modifies this
      ensures Sound(Whole())
      ensures life.None? ==> finished
      ensures Erodes(old(Whole()), Whole(), merchant, shop) && GoneTogether(Whole(), merchant, shop)
      ensures finished ==> Erased(Whole(), merchant, shop)
      ensures |logs| > |old(logs)|
      ensures logs[|old(logs)|] == LogRow(AuditLog, if finished then None else Some(merchant), shop, ShopRedact)
    {
      hide Erodes, Erased, RowsOf, DropSessions, LogKept, Sound;
      ghost var d0 := Whole();
      logs := logs + [LogRow(AuditLog, Some(merchant), shop, ShopRedact)];
      var alive, rest := DeleteTables(merchant, batchSize, life);
      PartlyErodes(d0, Whole(), merchant, shop);
      if !alive || rest == Some(0) {
        return false;
      }
      rest := Spend(rest);
      ghost var d1 := Whole();
      DeleteSessions(shop);
      SessionsErode(d0, d1, merchant, shop);
      if rest == Some(0) {
        return false;
      }
      ghost var d2 := Whole();
      HardDelete(merchant);
      DeletionErases(d0, d2, Whole(), merchant, shop);
      finished := true;
    }

    /** Any number of runs that die somewhere, then one that does not: the tenant is gone,
        every other tenant's rows, merchants and sessions are untouched, and every log row
        is still there. */
    method EraseThroughCrashes(merchant: MerchantId, shop: string, batchSize: nat, lives: seq<nat>)
      requires batchSize >= 1 && Sound(Whole()) && merchant in merchants && merchants[merchant] == shop
      modifies this
      ensures Erased(Whole(), merchant, shop) && Erodes(old(Whole()), Whole(), merchant, shop)
    {
      for i := 0 to |lives|
        invariant Sound(Whole()) && Erodes(old(Whole()), Whole(), merchant, shop)
            && GoneTogether(Whole(), merchant, shop)
      {
        ghost var before := Whole();
        var finished := ProcessShopRedact(shop, batchSize, Some(lives[i]));
        StartOver(old(Whole()), before, Whole(), merchant, shop);
      }
      ghost var before := Whole();
      var finished := ProcessShopRedact(shop, batchSize, None);
      StartOver(old(Whole()), before, Whole(), merchant, shop);
    }
  }

  function DropSessions(sessions: map<SessionId, string>, shop: string): map<SessionId, string> {
    map i | i in sessions && sessions[i] != shop :: sessions[i]
  }

  /** The audit row and the chunked deletes. */
  lemma PartlyErodes(d: Db, d': Db, merchant: MerchantId, shop: string)
    requires Sound(d)
    requires d'.merchants == d.merchants && d'.sessions == d.sessions && d.logs <= d'.logs
    requires forall k :: k in d'.rows ==> k in d.rows && d'.rows[k] == d.rows[k]
    requires forall k :: k in d.rows && k !in d'.rows ==> d.rows[k].merchant == merchant
    ensures Erodes(d, d', merchant, shop) && Sound(d')
  {
  }

  lemma SessionsErode(d0: Db, d1: Db, merchant: MerchantId, shop: string)
    requires Erodes(d0, d1, merchant, shop) && Sound(d1)
    ensures var d2 := d1.(sessions := DropSessions(d1.sessions, shop));
            Erodes(d0, d2, merchant, shop) && Sound(d2) && (forall i :: i in d2.sessions ==> d2.sessions[i] != shop)
  {
    assert Erodes(d1, d1.(sessions := DropSessions(d1.sessions, shop)), merchant, shop);
    ErodesTwice(d0, d1, d1.(sessions := DropSessions(d1.sessions, shop)), merchant, shop);
  }

  /** The cascade is what makes the erasure complete: soft-deleted rows are still there until now. */
  lemma DeletionErases(d0: Db, d1: Db, d2: Db, merchant: MerchantId, shop: string)
    requires Erodes(d0, d1, merchant, shop) && Sound(d1) && (forall i :: i in d1.sessions ==> d1.sessions[i] != shop)
    requires d2.rows == d1.rows - RowsOf(d1.rows, merchant)
    requires d2.merchants == d1.merchants - {merchant} && d2.sessions == d1.sessions
    requires |d2.logs| == |d1.logs|
    requires forall i :: 0 <= i < |d2.logs| ==>
               d2.logs[i] == if d1.logs[i].merchant == Some(merchant) then d1.logs[i].(merchant := None) else d1.logs[i]
    ensures Erodes(d0, d2, merchant, shop) && Erased(d2, merchant, shop) && Sound(d2)
  {
    assert Erodes(d1, d2, merchant, shop);
    ErodesTwice(d0, d1, d2, merchant, shop);
  }

  /** A run that finds the merchant erodes further; one that finds it gone only logs. */
  lemma StartOver(d0: Db, d1: Db, d2: Db, merchant: MerchantId, shop: string)
    requires Sound(d0) && Sound(d1) && merchant in d0.merchants && d0.merchants[merchant] == shop
    requires Erodes(d0, d1, merchant, shop) && GoneTogether(d1, merchant, shop)
    requires (forall m :: m in d1.merchants ==> d1.merchants[m] != shop) ==>
               d2 == d1.(logs := d2.logs) && d1.logs <= d2.logs
    requires forall m :: m in d1.merchants && d1.merchants[m] == shop ==>
             Erodes(d1, d2, m, shop) && GoneTogether(d2, m, shop)
    ensures Erodes(d0, d2, merchant, shop) && GoneTogether(d2, merchant, shop)
  {
    if merchant in d1.merchants {
      ErodesTwice(d0, d1, d2, merchant, shop);
    } else {
      assert Erodes(d1, d2, merchant, shop);
      ErodesTwice(d0, d1, d2, merchant, shop);
    }
  }

  /** Where a table stands in the order. */
  function Position(t: Table): nat {
    match t
    case OrderLineItem => 0
    case Order => 1
    case CampaignTarget => 2
    case MessageEvent => 3
    case Message => 4
    case AiGeneration => 5
    case CustomerScore => 6
    case Suppression => 7
    case ProductVariant => 8
    case Product => 9
    case Customer => 10
    case Campaign => 11
    case OutboxEvent => 12
    case IdempotencyKey => 13
    case BackfillJob => 14
    case AiSpendBucket => 15
    case MessageQuotaBucket => 16
    case MerchantSettings => 17
    case BillingSubscription => 18
  }

  /** The foreign keys among the tenant tables. */
  predicate References(child: Table, parent: Table) {
    match child
    case OrderLineItem => parent in {Order, Product, ProductVariant}
    case Order => parent == Customer
    case CampaignTarget => parent in {Campaign, Message, Customer}
    case MessageEvent => parent == Message
    case Message => parent in {AiGeneration, Customer, Campaign}
    case AiGeneration => parent == Customer
    case CustomerScore => parent == Customer
    case Suppression => parent == Customer
    case ProductVariant => parent == Product
    case _ => false
  }

  /** A table that is cleared stays so, and a chunk takes rows of its own table alone. */
  lemma StaysEmpty(rows0: map<Key, Row>, rows: map<Key, Row>, merchant: MerchantId, table: Table, i: nat)
    requires i <= |SHOP_REDACT_TABLES_IN_ORDER|
    requires forall k :: k in rows ==> k in rows0 && rows[k] == rows0[k]
    requires forall k :: k in rows0 && k !in rows ==> k in VisibleOf(rows0, merchant, table)
    ensures forall j :: 0 <= j < i && VisibleOf(rows0, merchant, SHOP_REDACT_TABLES_IN_ORDER[j]) == {} ==>
              VisibleOf(rows, merchant, SHOP_REDACT_TABLES_IN_ORDER[j]) == {}
    ensures forall k :: k in rows0 && k !in rows ==> k.table == table && rows0[k].merchant == merchant
  {
    forall j | 0 <= j < i
      ensures VisibleOf(rows, merchant, SHOP_REDACT_TABLES_IN_ORDER[j])
              <= VisibleOf(rows0, merchant, SHOP_REDACT_TABLES_IN_ORDER[j])
    {
    }
  }

  /** The order takes children before parents. */
  lemma ChildrenGone(rows0: map<Key, Row>, rows: map<Key, Row>, merchant: MerchantId, i: nat)
    requires i <= |SHOP_REDACT_TABLES_IN_ORDER|
    requires forall j :: 0 <= j < i ==> VisibleOf(rows, merchant, SHOP_REDACT_TABLES_IN_ORDER[j]) == {}
    requires forall k :: k in rows0 && k !in rows ==> Position(k.table) <= i
    ensures forall k, child :: k in rows0 && k !in rows && References(child, k.table) ==>
              VisibleOf(rows, merchant, child) == {}
  {
    hide VisibleOf;
    forall k, child | k in rows0 && k !in rows && References(child, k.table)
      ensures VisibleOf(rows, merchant, child) == {}
    {
      EveryTableIsListed(child);
      assert Position(child) < i;
    }
  }

  lemma NothingVisible(rows: map<Key, Row>, merchant: MerchantId)
    requires forall j :: 0 <= j < |SHOP_REDACT_TABLES_IN_ORDER| ==>
               VisibleOf(rows, merchant, SHOP_REDACT_TABLES_IN_ORDER[j]) == {}
    ensures forall k :: k in rows && rows[k].merchant == merchant ==>
              rows[k].softDeleted && k.table in {Customer, Product, ProductVariant}
  {
    forall k | k in rows && rows[k].merchant == merchant
      ensures rows[k].softDeleted && k.table in {Customer, Product, ProductVariant}
    {
      EveryTableIsListed(k.table);
      assert k !in VisibleOf(rows, merchant, SHOP_REDACT_TABLES_IN_ORDER[Position(k.table)]);
    }
  }

  lemma EachTableOnce(i: nat)
    requires i < |SHOP_REDACT_TABLES_IN_ORDER|
    ensures Position(SHOP_REDACT_TABLES_IN_ORDER[i]) == i
  {
  }

  lemma EveryTableIsListed(t: Table)
    ensures Position(t) < |SHOP_REDACT_TABLES_IN_ORDER| && SHOP_REDACT_TABLES_IN_ORDER[Position(t)] == t
  {
  }
}
