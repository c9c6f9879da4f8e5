/** What every transaction of the protocol keeps, whatever the interleaving. */
module Invariants {
  import opened Records
  import opened DeliveryOrder
  import opened Protocol
  import D = Delivery

  type Plan = map<Id, set<Hash>>

  // ---- the invariant, in pieces ----

  ghost predicate BatchShape(batches: map<Id, Batch>, plan: Plan, markets: map<Id, Market>) {
    && plan.Keys == batches.Keys
    && forall b :: b in batches ==> batches[b].expected == |plan[b]| && plan[b] != {} && batches[b].market in markets
  }

  ghost predicate LedgerShape(ledger: map<(Id, Hash), Resolution>, plan: Plan) {
    forall k :: k in ledger ==> k.0 in plan && k.1 in plan[k.0]
  }

  ghost predicate ItemShape(items: map<Id, Item>, batches: map<Id, Batch>, markets: map<Id, Market>) {
    forall i :: i in items ==>
      && items[i].market in markets
      && (items[i].batch.Some? ==>
            items[i].batch.value in batches && batches[items[i].batch.value].market == items[i].market)
  }

  ghost predicate HeldShape(held: set<Id>, items: map<Id, Item>, batches: map<Id, Batch>) {
    forall i :: i in held ==>
      i in items && items[i].batch.Some?
      && items[i].batch.value in batches && batches[items[i].batch.value].status == Closed
  }

  /** References between the tables, and what a batch was opened for. */
  ghost predicate Shape(db: Db, plan: Plan) {
    && BatchShape(db.batches, plan, db.markets)
    && LedgerShape(db.ledger, plan)
    && ItemShape(db.items, db.batches, db.markets)
    && HeldShape(db.held, db.items, db.batches)
  }

  ghost function Rows(ledger: map<(Id, Hash), Resolution>, slots: set<Hash>, b: Id): set<Hash> {
    set h | h in slots && (b, h) in ledger
  }

  ghost predicate BatchCounted(batch: Batch, rows: set<Hash>) {
    && batch.resolved <= |rows| <= batch.expected
    && (batch.status == Open ==> batch.resolved == |rows| < batch.expected)
  }

  /** The counter agrees with the ledger while the batch is open and never overtakes it. */
  ghost predicate Counted(batches: map<Id, Batch>, ledger: map<(Id, Hash), Resolution>, plan: Plan) {
    forall b :: b in batches && b in plan ==> BatchCounted(batches[b], Rows(ledger, plan[b], b))
  }

  ghost predicate Lists(logs: map<Id, D.Machine>, l: Id, i: Id) {
    l in logs && i in logs[l].row.itemIds
  }

  ghost predicate Listed(logs: map<Id, D.Machine>, i: Id) {
    exists l :: Lists(logs, l, i)
  }

  /** A delivery log is the sorted listing of one closed batch, or one late item under a key of its own. */
  ghost predicate RowOk(row: Log, items: map<Id, Item>, batches: map<Id, Batch>, markets: map<Id, Market>) {
    && row.itemIds != [] && Distinct(row.itemIds)
    && row.market in markets
    && (forall i :: i in row.itemIds ==> i in items && items[i].market == row.market)
    && Ordered(items, row.itemIds)
    && (row.batchId in batches ==>
          && batches[row.batchId].status == Closed && batches[row.batchId].market == row.market
          && forall i :: i in row.itemIds ==> items[i].batch == Some(row.batchId))
    && (row.batchId !in batches ==> |row.itemIds| == 1)
  }

  ghost predicate RowsOk(logs: map<Id, D.Machine>, items: map<Id, Item>,
                         batches: map<Id, Batch>, markets: map<Id, Market>) {
    && (forall l :: l in logs ==> RowOk(logs[l].row, items, batches, markets))
    && (forall l, k :: l in logs && k in logs && l != k ==> logs[l].row.batchId != logs[k].row.batchId)
  }

  ghost predicate MachinesOk(logs: map<Id, D.Machine>, c: Config) {
    forall l :: l in logs ==> D.MachineOk(logs[l], c.maxAttempts)
  }

  ghost predicate Waiting(db: Db, i: Id) {
    && i in db.items && db.items[i].batch.Some?
    && db.items[i].batch.value in db.batches && db.batches[db.items[i].batch.value].status == Open
  }

  /** No item is listed by two logs. */
  ghost predicate UniqueLister(logs: map<Id, D.Machine>) {
    forall i, l, k :: Lists(logs, l, i) && Lists(logs, k, i) ==> l == k
  }

  /** A stored item waits under its open batch, or is held by a straggler, or is listed: never two
  of these, and never listed by two logs. */
  ghost predicate Exclusive(db: Db) {
    && (forall i :: Waiting(db, i) || i in db.held ==> !Listed(db.logs, i))
    && UniqueLister(db.logs)
  }

  ghost predicate DbInv(db: Db, plan: Plan, c: Config) {
    && Shape(db, plan)
    && Counted(db.batches, db.ledger, plan)
    && RowsOk(db.logs, db.items, db.batches, db.markets)
    && MachinesOk(db.logs, c)
    && Exclusive(db)
  }

  // ---- settling a slot ----

  /** What a job hands to the ledger: a slot of the batch, and an item stored for that batch that
  nothing has listed or picked up yet. */
  ghost predicate SettlePre(db: Db, plan: Plan, b: Id, slot: Hash, r: Resolution, supply: Supply) {
    && b in plan && slot in plan[b] && SettleOk(db, b, slot, supply)
    && (r.item.Some? ==>
          && r.item.value in db.items && db.items[r.item.value].batch == Some(b)
          && !Listed(db.logs, r.item.value))
  }

  lemma SettleKeepsShape(db: Db, plan: Plan, b: Id, slot: Hash, r: Resolution, supply: Supply)
    requires Shape(db, plan) && SettlePre(db, plan, b, slot, r, supply)
    ensures Shape(Settle(db, b, slot, r, supply), plan)
  {
  }

  lemma NewRow(ledger: map<(Id, Hash), Resolution>, slots: set<Hash>, b: Id, slot: Hash, r: Resolution, other: Id)
    ensures Rows(ledger[(b, slot) := r], slots, other) ==
            Rows(ledger, slots, other) + if other == b && slot in slots then {slot} else {}
  {
  }

  lemma RowsBound(ledger: map<(Id, Hash), Resolution>, slots: set<Hash>, b: Id)
    ensures |Rows(ledger, slots, b)| <= |slots|
  {
    assert slots == Rows(ledger, slots, b) + (slots - Rows(ledger, slots, b));
  }

  lemma SettleKeepsCounted(db: Db, plan: Plan, b: Id, slot: Hash, r: Resolution, supply: Supply)
    requires Shape(db, plan) && SettlePre(db, plan, b, slot, r, supply)
    requires Counted(db.batches, db.ledger, plan)
    ensures Counted(SettledBatches(db, b, slot), SettledLedger(db, b, slot, r), plan)
  {
    var batches', ledger' := SettledBatches(db, b, slot), SettledLedger(db, b, slot, r);
    forall x | x in batches' && x in plan ensures BatchCounted(batches'[x], Rows(ledger', plan[x], x)) {
      assert BatchCounted(db.batches[x], Rows(db.ledger, plan[x], x));
      NewRow(db.ledger, plan[x], b, slot, r, x);
      RowsBound(ledger', plan[x], x);
    }
  }

  // ---- inserting a log ----

  /** Inserting a row that lists only unlisted items, under an unused key. */
  lemma AddLogKeepsRows(logs: map<Id, D.Machine>, items: map<Id, Item>,
                        batches: map<Id, Batch>, markets: map<Id, Market>,
                        market: Id, key: Id, ids: seq<Id>, supply: Supply)
    requires RowsOk(logs, items, batches, markets)
    requires supply.log !in logs && forall l :: l in logs ==> logs[l].row.batchId != key
    requires RowOk(NewLog(market, key, ids, supply.now), items, batches, markets)
    ensures RowsOk(AddLog(logs, market, key, ids, supply), items, batches, markets)
  {
  }

  lemma AddLogKeepsMachines(logs: map<Id, D.Machine>, c: Config, market: Id, key: Id, ids: seq<Id>, supply: Supply)
    requires MachinesOk(logs, c) && Distinct(ids)
    ensures MachinesOk(AddLog(logs, market, key, ids, supply), c)
  {
    D.NewMachineOk(NewLog(market, key, ids, supply.now), c.maxAttempts);
  }

  lemma AddLogListing(logs: map<Id, D.Machine>, market: Id, key: Id, ids: seq<Id>, supply: Supply, i: Id)
    requires supply.log !in logs
    ensures Listed(AddLog(logs, market, key, ids, supply), i) <==> Listed(logs, i) || i in ids
  {
    var logs' := AddLog(logs, market, key, ids, supply);
    if i in ids {
      assert Lists(logs', supply.log, i);
    }
    if Listed(logs, i) {
      var l :| Lists(logs, l, i);
      assert Lists(logs', l, i);
    }
    if Listed(logs', i) {
      var l :| Lists(logs', l, i);
      assert l == supply.log || Lists(logs, l, i);
    }
  }

  lemma AddLogKeepsUnique(logs: map<Id, D.Machine>, market: Id, key: Id, ids: seq<Id>, supply: Supply)
    requires UniqueLister(logs) && supply.log !in logs
    requires forall i :: i in ids ==> !Listed(logs, i)
    ensures UniqueLister(AddLog(logs, market, key, ids, supply))
  {
    var logs' := AddLog(logs, market, key, ids, supply);
    forall i, l, k | Lists(logs', l, i) && Lists(logs', k, i) ensures l == k {
      assert l == supply.log || Lists(logs, l, i);
      assert k == supply.log || Lists(logs, k, i);
    }
  }

  // ---- closing a batch ----

  /** Closing an open batch, or counting in it, disturbs no existing row. */
  lemma BatchUpdateKeepsRows(logs: map<Id, D.Machine>, items: map<Id, Item>,
                             batches: map<Id, Batch>, markets: map<Id, Market>,
                             b: Id, batch: Batch)
    requires RowsOk(logs, items, batches, markets)
    requires b in batches && batches[b].status == Open && batch.market == batches[b].market
    ensures RowsOk(logs, items, batches[b := batch], markets)
    ensures forall l :: l in logs ==> logs[l].row.batchId != b
  {
  }

  lemma ListingRow(db: Db, b: Id, supply: Supply)
    requires b in db.batches && db.batches[b].market in db.markets && ListingOk(db, b, supply) && supply.listing != []
    requires db.batches[b].status == Closed
    ensures RowOk(NewLog(db.batches[b].market, b, supply.listing, supply.now), db.items, db.batches, db.markets)
  {
    assert forall i :: i in supply.listing ==> i in Elements(supply.listing);
  }

  /** The close itself: whatever closes the batch, the tables stay in order. */
  lemma CloseKeepsLogs(db: Db, c: Config, b: Id, batch: Batch, supply: Supply)
    requires b in db.batches && db.batches[b].status == Open && db.batches[b].market in db.markets
    requires batch.market == db.batches[b].market && batch.status == Closed
    requires ListingOk(db, b, supply)
    requires RowsOk(db.logs, db.items, db.batches, db.markets) && MachinesOk(db.logs, c) && Exclusive(db)
    ensures var logs := Finalize(db.logs, batch.market, b, supply);
            && RowsOk(logs, db.items, db.batches[b := batch], db.markets)
            && MachinesOk(logs, c)
            && UniqueLister(logs)
            && (forall i :: Listed(logs, i) <==> Listed(db.logs, i) || i in BatchItems(db, b))
  {
    BatchUpdateKeepsRows(db.logs, db.items, db.batches, db.markets, b, batch);
    assert forall i :: i in supply.listing <==> i in Elements(supply.listing);
    if supply.listing != [] {
      var closed := db.(batches := db.batches[b := batch]);
      assert BatchItems(closed, b) == BatchItems(db, b);
      ListingRow(closed, b, supply);
      AddLogKeepsRows(db.logs, db.items, closed.batches, db.markets, batch.market, b, supply.listing, supply);
      AddLogKeepsMachines(db.logs, c, batch.market, b, supply.listing, supply);
      forall i | i in supply.listing ensures !Listed(db.logs, i) {
        assert Waiting(db, i);
      }
      AddLogKeepsUnique(db.logs, batch.market, b, supply.listing, supply);
      forall i
        ensures Listed(AddLog(db.logs, batch.market, b, supply.listing, supply), i) <==>
                Listed(db.logs, i) || i in supply.listing
      {
        AddLogListing(db.logs, batch.market, b, supply.listing, supply, i);
      }
    }
  }

  lemma SettleKeepsLogs(db: Db, plan: Plan, c: Config, b: Id, slot: Hash, r: Resolution, supply: Supply)
    requires DbInv(db, plan, c) && SettlePre(db, plan, b, slot, r, supply)
    ensures var db' := Settle(db, b, slot, r, supply);
            && RowsOk(db'.logs, db'.items, db'.batches, db'.markets)
            && MachinesOk(db'.logs, c)
            && Exclusive(db')
  {
    var db' := Settle(db, b, slot, r, supply);
    if Completes(db, b, slot) {
      CloseKeepsLogs(db, c, b, Count(db.batches[b]), supply);
      forall i | Waiting(db', i) || i in db'.held ensures !Listed(db'.logs, i) {
        assert Waiting(db', i) ==> Waiting(db, i) && i !in BatchItems(db, b);
        assert i in db.held ==> i !in BatchItems(db, b);
      }
    } else {
      if Counts(db, b, slot) {
        BatchUpdateKeepsRows(db.logs, db.items, db.batches, db.markets, b, Count(db.batches[b]));
      }
      forall i | Waiting(db', i) || i in db'.held ensures !Listed(db'.logs, i) {
        assert Waiting(db', i) ==> Waiting(db, i);
      }
    }
  }

  lemma SettleKeepsDb(db: Db, plan: Plan, c: Config, b: Id, slot: Hash, r: Resolution, supply: Supply)
    requires DbInv(db, plan, c) && SettlePre(db, plan, b, slot, r, supply)
    ensures DbInv(Settle(db, b, slot, r, supply), plan, c)
  {
    SettleKeepsShape(db, plan, b, slot, r, supply);
    SettleKeepsCounted(db, plan, b, slot, r, supply);
    SettleKeepsLogs(db, plan, c, b, slot, r, supply);
  }

  // ---- the other transactions ----

  lemma CloseKeepsShape(db: Db, plan: Plan, b: Id, logs: map<Id, D.Machine>)
    requires Shape(db, plan) && b in db.batches
    ensures Shape(db.(batches := db.batches[b := db.batches[b].(status := Closed)], logs := logs), plan)
  {
  }

  lemma CloseKeepsCounted(batches: map<Id, Batch>, ledger: map<(Id, Hash), Resolution>, plan: Plan, b: Id)
    requires Counted(batches, ledger, plan) && b in batches
    ensures Counted(batches[b := batches[b].(status := Closed)], ledger, plan)
  {
    var batches' := batches[b := batches[b].(status := Closed)];
    forall x | x in batches' && x in plan ensures BatchCounted(batches'[x], Rows(ledger, plan[x], x)) {
      assert BatchCounted(batches[x], Rows(ledger, plan[x], x));
    }
  }

  lemma ForceCloseKeepsDb(db: Db, plan: Plan, c: Config, b: Id, supply: Supply)
    requires DbInv(db, plan, c) && b in db.batches
    requires db.batches[b].status == Open ==> ListingOk(db, b, supply)
    ensures DbInv(ForceClose(db, b, supply), plan, c)
  {
    if db.batches[b].status == Open {
      var db' := ForceClose(db, b, supply);
      CloseKeepsShape(db, plan, b, db'.logs);
      CloseKeepsCounted(db.batches, db.ledger, plan, b);
      CloseKeepsLogs(db, c, b, db.batches[b].(status := Closed), supply);
      forall i | Waiting(db', i) || i in db'.held ensures !Listed(db'.logs, i) {
        assert Waiting(db', i) ==> Waiting(db, i) && i !in BatchItems(db, b);
        assert i in db.held ==> i !in BatchItems(db, b);
      }
    }
  }

  /** One item under a key of its own, whether it was held by a straggler or has no batch at all. */
  lemma SoloKeepsDb(db: Db, plan: Plan, c: Config, i: Id, supply: Supply)
    requires DbInv(db, plan, c) && i in db.items && SoloOk(db, supply)
    requires !Listed(db.logs, i) && !Waiting(db, i)
    ensures DbInv(Solo(db, i, supply), plan, c)
  {
    var db' := Solo(db, i, supply);
    var market := db.items[i].market;
    AddLogKeepsRows(db.logs, db.items, db.batches, db.markets, market, supply.key, [i], supply);
    AddLogKeepsMachines(db.logs, c, market, supply.key, [i], supply);
    AddLogKeepsUnique(db.logs, market, supply.key, [i], supply);
    forall x | Waiting(db', x) || x in db'.held ensures !Listed(db'.logs, x) {
      AddLogListing(db.logs, market, supply.key, [i], supply, x);
      assert Waiting(db', x) ==> Waiting(db, x);
    }
  }

  lemma WithItemKeepsRows(db: Db, i: Id, item: Item)
    requires RowsOk(db.logs, db.items, db.batches, db.markets) && i !in db.items
    ensures RowsOk(db.logs, db.items[i := item], db.batches, db.markets) && !Listed(db.logs, i)
  {
    forall l | l in db.logs
      ensures i !in db.logs[l].row.itemIds && RowOk(db.logs[l].row, db.items[i := item], db.batches, db.markets)
    {
      assert RowOk(db.logs[l].row, db.items, db.batches, db.markets);
    }
  }

  lemma WithItemKeepsDb(db: Db, plan: Plan, c: Config, i: Id, item: Item)
    requires DbInv(db, plan, c) && i !in db.items && item.market in db.markets
    requires item.batch.Some? ==> item.batch.value in db.batches && db.batches[item.batch.value].market == item.market
    ensures DbInv(WithItem(db, i, item), plan, c) && !Listed(db.logs, i)
  {
    var db' := WithItem(db, i, item);
    WithItemKeepsRows(db, i, item);
    forall x | Waiting(db', x) || x in db'.held ensures !Listed(db'.logs, x) {
      assert Waiting(db', x) ==> x == i || Waiting(db, x);
    }
  }

  lemma OpenBatchKeepsCounted(db: Db, plan: Plan, b: Id, batch: Batch, slots: set<Hash>)
    requires Shape(db, plan) && Counted(db.batches, db.ledger, plan) && b !in db.batches
    requires batch.market in db.markets && slots != {} && batch.expected == |slots| && batch.resolved == 0
    ensures var db' := db.(batches := db.batches[b := batch]);
            Shape(db', plan[b := slots]) && Counted(db'.batches, db.ledger, plan[b := slots])
  {
    var plan' := plan[b := slots];
    forall x | x in db.batches[b := batch] && x in plan'
      ensures BatchCounted(db.batches[b := batch][x], Rows(db.ledger, plan'[x], x))
    {
      if x == b {
        assert Rows(db.ledger, slots, b) == {} by {
          assert forall h :: (b, h) in db.ledger ==> (b, h).0 in plan;
        }
      } else {
        assert BatchCounted(db.batches[x], Rows(db.ledger, plan[x], x));
      }
    }
  }

  lemma OpenBatchKeepsExclusive(db: Db, b: Id, batch: Batch)
    requires ItemShape(db.items, db.batches, db.markets) && b !in db.batches && Exclusive(db)
    ensures Exclusive(db.(batches := db.batches[b := batch]))
  {
    var db' := db.(batches := db.batches[b := batch]);
    forall x | Waiting(db', x) || x in db'.held ensures !Listed(db'.logs, x) {
      assert Waiting(db', x) ==> Waiting(db, x);
    }
  }

  lemma OpenBatchKeepsRows(db: Db, b: Id, batch: Batch)
    requires RowsOk(db.logs, db.items, db.batches, db.markets) && FreshKey(db, b)
    ensures RowsOk(db.logs, db.items, db.batches[b := batch], db.markets)
  {
  }

  lemma OpenBatchKeepsDb(db: Db, plan: Plan, c: Config, b: Id, market: Id, slots: set<Hash>, now: Time)
    requires DbInv(db, plan, c) && FreshKey(db, b) && market in db.markets && slots != {}
    ensures DbInv(db.(batches := db.batches[b := Batch(market, |slots|, 0, Open, now)]), plan[b := slots], c)
  {
    var batch := Batch(market, |slots|, 0, Open, now);
    OpenBatchKeepsCounted(db, plan, b, batch, slots);
    OpenBatchKeepsExclusive(db, b, batch);
    OpenBatchKeepsRows(db, b, batch);
    hide RowsOk, Shape, Counted, MachinesOk, Exclusive;
  }

  // ---- delivery ----

  lemma StepKeepsIdentity(m: D.Machine, step: D.Event, maxAttempts: int)
    requires D.ProgressOk(m) && D.CanStep(m, step)
    ensures D.Identical(D.Step(m, step, maxAttempts).row, m.row)
  {
  }

  /** Deliveries change neither where an item is listed nor the dates it is sorted by. */
  ghost predicate SameListing(logs: map<Id, D.Machine>, logs': map<Id, D.Machine>) {
    logs'.Keys == logs.Keys && forall l :: l in logs ==> D.Identical(logs'[l].row, logs[l].row)
  }

  ghost predicate SameItem(a: Item, b: Item) {
    a.market == b.market && a.batch == b.batch && a.urlHash == b.urlHash && a.title == b.title && a.vector == b.vector
    && a.published == b.published && a.discovered == b.discovered
  }

  ghost predicate SameItems(items: map<Id, Item>, items': map<Id, Item>) {
    items'.Keys == items.Keys && forall i :: i in items ==> SameItem(items'[i], items[i])
  }

  lemma SameRow(row: Log, row': Log, items: map<Id, Item>, items': map<Id, Item>,
                batches: map<Id, Batch>, markets: map<Id, Market>)
    requires RowOk(row, items, batches, markets) && D.Identical(row', row) && SameItems(items, items')
    ensures RowOk(row', items', batches, markets)
  {
    assert row'.itemIds == row.itemIds;
    forall j, k | 0 <= j < k < |row.itemIds|
      ensures MayPrecede(items'[row.itemIds[j]], items'[row.itemIds[k]])
    {
      var a, b := row.itemIds[j], row.itemIds[k];
      assert a in items && b in items && SameItem(items'[a], items[a]) && SameItem(items'[b], items[b]);
      assert MayPrecede(items[a], items[b]);
    }
  }

  lemma SameListingKeepsRows(logs: map<Id, D.Machine>, logs': map<Id, D.Machine>,
                             items: map<Id, Item>, items': map<Id, Item>,
                             batches: map<Id, Batch>, markets: map<Id, Market>)
    requires RowsOk(logs, items, batches, markets) && SameListing(logs, logs') && SameItems(items, items')
    ensures RowsOk(logs', items', batches, markets)
    ensures forall i, l :: Lists(logs', l, i) <==> Lists(logs, l, i)
    ensures forall i :: Listed(logs', i) <==> Listed(logs, i)
  {
    forall l | l in logs' ensures RowOk(logs'[l].row, items', batches, markets) {
      assert l in logs;
      SameRow(logs[l].row, logs'[l].row, items, items', batches, markets);
    }
    forall i, l ensures Lists(logs', l, i) <==> Lists(logs, l, i) {
      assert l in logs ==> D.Identical(logs'[l].row, logs[l].row);
    }
  }

  lemma WorkKeepsListing(db: Db, c: Config, l: Id, step: D.Event)
    requires MachinesOk(db.logs, c) && WorkOk(db, l, step)
    ensures var logs' := db.logs[l := D.Step(db.logs[l], step, c.maxAttempts)];
            SameListing(db.logs, logs') && MachinesOk(logs', c)
  {
    StepKeepsIdentity(db.logs[l], step, c.maxAttempts);
    D.StepKeepsMachine(db.logs[l], step, c.maxAttempts);
  }

  /** What no step of a delivery touches. */
  ghost predicate WorkFrame(db: Db, db': Db) {
    && db'.batches == db.batches && db'.ledger == db.ledger && db'.held == db.held
    && db'.markets.Keys == db.markets.Keys && SameItems(db.items, db'.items)
  }

  lemma FinishEffect(db: Db, c: Config, l: Id)
    requires WorkOk(db, l, D.Finish)
    ensures WorkFrame(db, WorkStep(db, l, D.Finish, c))
    ensures WorkStep(db, l, D.Finish, c).logs == db.logs[l := D.Step(db.logs[l], D.Finish, c.maxAttempts)]
  {
    hide D.Step, Advance, Newest;
  }

  lemma MidwayEffect(db: Db, c: Config, l: Id, step: D.Event)
    requires WorkOk(db, l, step) && !step.Finish?
    ensures WorkFrame(db, WorkStep(db, l, step, c))
    ensures WorkStep(db, l, step, c).logs == db.logs[l := D.Step(db.logs[l], step, c.maxAttempts)]
  {
    hide D.Step;
  }

  lemma WorkEffect(db: Db, c: Config, l: Id, step: D.Event)
    requires MachinesOk(db.logs, c) && WorkOk(db, l, step)
    ensures var db' := WorkStep(db, l, step, c);
            WorkFrame(db, db') && SameListing(db.logs, db'.logs) && MachinesOk(db'.logs, c)
  {
    hide SameListing, MachinesOk, WorkFrame, D.Step, WorkStep;
    WorkKeepsListing(db, c, l, step);
    if step.Finish? {
      FinishEffect(db, c, l);
    } else {
      MidwayEffect(db, c, l, step);
    }
  }

  lemma WorkKeepsDb(db: Db, plan: Plan, c: Config, l: Id, step: D.Event)
    requires DbInv(db, plan, c) && WorkOk(db, l, step)
    ensures DbInv(WorkStep(db, l, step, c), plan, c)
  {
    var db' := WorkStep(db, l, step, c);
    WorkEffect(db, c, l, step);
    OtherMarkets(db, db', plan, c);
  }

  lemma MarketsKeepRows(logs: map<Id, D.Machine>, items: map<Id, Item>, batches: map<Id, Batch>,
                        markets: map<Id, Market>, markets': map<Id, Market>)
    requires RowsOk(logs, items, batches, markets) && markets'.Keys == markets.Keys
    ensures RowsOk(logs, items, batches, markets')
  {
    forall l | l in logs ensures RowOk(logs[l].row, items, batches, markets') {
      assert RowOk(logs[l].row, items, batches, markets);
    }
  }

  lemma SameItemsKeepShape(db: Db, db': Db, plan: Plan)
    requires Shape(db, plan) && WorkFrame(db, db')
    ensures Shape(db', plan)
    ensures forall i :: Waiting(db', i) <==> Waiting(db, i)
  {
  }

  lemma SameListedKeepExclusive(db: Db, db': Db)
    requires Exclusive(db) && db'.held == db.held
    requires forall i :: Waiting(db', i) <==> Waiting(db, i)
    requires forall i, l :: Lists(db'.logs, l, i) <==> Lists(db.logs, l, i)
    requires forall i :: Listed(db'.logs, i) <==> Listed(db.logs, i)
    ensures Exclusive(db')
  {
    hide Lists, Listed, Waiting;
  }

  /** Nothing else looks at what deliveries and market switches change. */
  lemma OtherMarkets(db: Db, db': Db, plan: Plan, c: Config)
    requires DbInv(db, plan, c) && WorkFrame(db, db')
    requires SameListing(db.logs, db'.logs) && MachinesOk(db'.logs, c)
    ensures DbInv(db', plan, c)
  {
    SameListingKeepsRows(db.logs, db'.logs, db.items, db'.items, db.batches, db.markets);
    MarketsKeepRows(db'.logs, db'.items, db.batches, db.markets, db'.markets);
    SameItemsKeepShape(db, db', plan);
    SameListedKeepExclusive(db, db');
    hide Shape, RowsOk, Exclusive, MachinesOk, SameListing, SameItems;
  }
}
