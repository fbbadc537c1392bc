/**
 Every transaction body keeps the custody invariant.
 */
module CustodyKeeps {
  import opened Common
  import opened Seqs
  import opened Sums
  import opened CustodyModel
  import opened CustodyInvariant

  lemma GrowsTransitive(a: DB, b: DB, c: DB)
    requires Grows(a, b) && Grows(b, c)
    ensures Grows(a, c)
  {
    HistoryTransitive(a, b, c);
    hide InventoryGrows, DeliveriesGrow, TransfersGrow;
  }

  lemma HistoryTransitive(a: DB, b: DB, c: DB)
    requires Grows(a, b) && Grows(b, c)
    ensures InventoryGrows(a.inventory, c.inventory)
    ensures DeliveriesGrow(a.deliveries, c.deliveries)
    ensures TransfersGrow(a.transfers, c.transfers)
  {
    hide FarmersGrow, BatchesGrow, MapGrows, LotsGrow;
  }

  // ---------------------------------------------------------------------------
  // Deliveries
  // ---------------------------------------------------------------------------

  // A delivery of the batch's cooperative that is in no batch yet.
  predicate Assignable(db: DB, b: Id, d: Id)
    requires b in db.batches
  {
    d in db.deliveries && db.deliveries[d].batch == None && db.deliveries[d].coop == db.batches[b].coop
  }

  // Deliveries attached to a batch, their weight added to it.
  ghost function Attach(db: DB, b: Id, ids: set<Id>): DB
    requires b in db.batches && ids <= db.deliveries.Keys
  {
    var batch := db.batches[b];
    db.(deliveries := AttachDeliveries(db.deliveries, b, ids),
        batches := db.batches[b := batch.(weight := batch.weight + Sum(WeightsOf(db.deliveries, ids)))])
  }

  // An assignment is accepted exactly when the batch exists, no id is repeated, and every id is
  // assignable; then it attaches all of them.
  lemma AssignAccepted(db: DB, b: Id, ids: seq<Id>)
    ensures AssignTx(db, b, ids).Ok? <==>
      b in db.batches && NoDuplicates(ids) && forall d :: d in ids ==> Assignable(db, b, d)
    ensures AssignTx(db, b, ids).Ok? ==> AssignTx(db, b, ids).value == Attach(db, b, Elements(ids))
  {
    if b in db.batches {
      var found, all := EligibleDeliveries(db, b, ids), Elements(ids);
      DistinctCount(ids);
      SubsetCount(found, all);
      if |found| == |ids| {
        assert found == all;
        forall d | d in ids ensures Assignable(db, b, d) {
          assert d in found;
        }
      } else if forall d :: d in ids ==> Assignable(db, b, d) {
        assert found == all;
      }
    }
  }

  lemma AttachedWeights(deliveries: map<Id, Delivery>, b: Id, ids: set<Id>, c: Id)
    requires ids <= deliveries.Keys && forall d :: d in ids ==> deliveries[d].batch == None
    ensures AssignedWeight(AttachDeliveries(deliveries, b, ids), c)
         == AssignedWeight(deliveries, c) + if c == b then Sum(WeightsOf(deliveries, ids)) else 0
  {
    var after := AttachDeliveries(deliveries, b, ids);
    if c == b {
      var added := WeightsOf(deliveries, ids);
      assert AssignedWeights(after, b) == AssignedWeights(deliveries, b) + added;
      SumUnion(AssignedWeights(deliveries, b), added);
    } else {
      assert AssignedWeights(after, c) == AssignedWeights(deliveries, c);
    }
  }

  // A batch row rewritten under the same status, no lighter than before.
  predicate Rewrites(db: DB, b: Id, batch: Batch) {
    && b in db.batches
    && batch.status == db.batches[b].status
    && batch.weight >= db.batches[b].weight
    && batch.coop == db.batches[b].coop
  }

  lemma RewriteGrows(db: DB, b: Id, batch: Batch)
    requires Rewrites(db, b, batch)
    ensures BatchesGrow(db.batches, db.batches[b := batch]) && StatusesStep(db.batches, db.batches[b := batch])
  {
  }

  lemma RewriteRefers(db: DB, b: Id, batch: Batch)
    requires References(db) && Rewrites(db, b, batch)
    ensures References(db.(batches := db.batches[b := batch]))
  {
  }

  lemma RewriteKeeps(db: DB, b: Id, batch: Batch)
    requires Inv(db) && Rewrites(db, b, batch)
    ensures var batches := db.batches[b := batch];
      && References(db.(batches := batches))
      && Shelves(batches, db.inventory)
      && EvidenceOfProcessing(batches, db.processing) && EvidenceOfStorage(batches, db.inventory)
      && SoldAgrees(batches, db.transfers)
  {
    RewriteRefers(db, b, batch);
    RewriteEvidence(db, b, batch);
    hide References, EvidenceOfProcessing, EvidenceOfStorage, SoldAgrees;
  }

  lemma RewriteEvidence(db: DB, b: Id, batch: Batch)
    requires Inv(db) && Rewrites(db, b, batch)
    ensures var batches := db.batches[b := batch];
      && EvidenceOfProcessing(batches, db.processing) && EvidenceOfStorage(batches, db.inventory)
      && SoldAgrees(batches, db.transfers)
  {
    hide References, Shelves, ProcessedBatches, StoredBatches, ConfirmedBatches;
  }

  lemma AttachRefers(db: DB, b: Id, ids: set<Id>)
    requires References(db) && b in db.batches
    requires forall d :: d in ids ==> Assignable(db, b, d)
    ensures References(db.(deliveries := AttachDeliveries(db.deliveries, b, ids)))
  {
  }

  lemma AttachGrows(db: DB, b: Id, ids: set<Id>)
    requires b in db.batches && forall d :: d in ids ==> Assignable(db, b, d)
    ensures DeliveriesGrow(db.deliveries, AttachDeliveries(db.deliveries, b, ids))
  {
  }

  lemma AttachConserves(db: DB, b: Id, ids: set<Id>)
    requires WeightsConserved(db.batches, db.deliveries) && b in db.batches
    requires ids <= db.deliveries.Keys && forall d :: d in ids ==> Assignable(db, b, d)
    ensures var weight := db.batches[b].weight + Sum(WeightsOf(db.deliveries, ids));
      WeightsConserved(db.batches[b := db.batches[b].(weight := weight)], AttachDeliveries(db.deliveries, b, ids))
  {
    forall c { AttachedWeights(db.deliveries, b, ids, c); }
  }

  lemma AttachKeeps(db: DB, b: Id, ids: set<Id>)
    requires Inv(db) && b in db.batches && ids <= db.deliveries.Keys
    requires forall d :: d in ids ==> Assignable(db, b, d)
    ensures Kept(db, Attach(db, b, ids))
  {
    hide References, Shelves, WithinCapacity, WeightsConserved, EvidenceOfProcessing, EvidenceOfStorage, SoldAgrees;
    hide FarmersGrow, BatchesGrow, DeliveriesGrow, MapGrows, InventoryGrows, TransfersGrow, LotsGrow, StatusesStep;
    var batch := db.batches[b].(weight := db.batches[b].weight + Sum(WeightsOf(db.deliveries, ids)));
    GrowsReflexive(db);
    RewriteGrows(db, b, batch);
    RewriteKeeps(db, b, batch);
    AttachRefers(db.(batches := db.batches[b := batch]), b, ids);
    AttachGrows(db, b, ids);
    AttachConserves(db, b, ids);
  }

  lemma AssignKeeps(db: DB, b: Id, ids: seq<Id>)
    requires Inv(db) && AssignTx(db, b, ids).Ok?
    ensures Kept(db, AssignTx(db, b, ids).value)
  {
    AssignAccepted(db, b, ids);
    AttachKeeps(db, b, Elements(ids));
  }

  lemma UnassignedConserves(batches: map<Id, Batch>, deliveries: map<Id, Delivery>, d: Id, delivery: Delivery)
    requires WeightsConserved(batches, deliveries) && d !in deliveries && delivery.batch == None
    ensures WeightsConserved(batches, deliveries[d := delivery])
  {
    forall b ensures AssignedWeights(deliveries[d := delivery], b) == AssignedWeights(deliveries, b) {
    }
  }

  lemma CreateDeliveryKeeps(db: DB, d: Id, delivery: Delivery)
    requires Inv(db) && d !in db.deliveries && delivery.batch == None
    requires delivery.farmer in db.farmers && db.farmers[delivery.farmer].coop == delivery.coop
    ensures Kept(db, db.(deliveries := db.deliveries[d := delivery]))
  {
    var after := db.deliveries[d := delivery];
    GrowsReflexive(db);
    assert DeliveriesGrow(db.deliveries, after) && References(db.(deliveries := after)) by {
      DeliveryRefers(db, d, delivery);
    }
    UnassignedConserves(db.batches, db.deliveries, d, delivery);
  }

  lemma DeliveryRefers(db: DB, d: Id, delivery: Delivery)
    requires References(db) && d !in db.deliveries && delivery.batch == None
    requires delivery.farmer in db.farmers && db.farmers[delivery.farmer].coop == delivery.coop
    ensures DeliveriesGrow(db.deliveries, db.deliveries[d := delivery])
    ensures References(db.(deliveries := db.deliveries[d := delivery]))
  {
  }

  // ---------------------------------------------------------------------------
  // Rows that carry no weight
  // ---------------------------------------------------------------------------

  lemma NewBatchKeeps(db: DB, b: Id, batch: Batch)
    requires Inv(db) && b !in db.batches && batch.status == Registered && batch.weight == 0
    ensures var batches := db.batches[b := batch];
      && BatchesGrow(db.batches, batches) && StatusesStep(db.batches, batches)
      && References(db.(batches := batches)) && Shelves(batches, db.inventory)
  {
    hide WithinCapacity, WeightsConserved, EvidenceOfProcessing, EvidenceOfStorage, SoldAgrees;
  }

  lemma NewBatchEvidence(db: DB, b: Id, batch: Batch)
    requires Inv(db) && b !in db.batches && batch.status == Registered
    ensures var batches := db.batches[b := batch];
      && EvidenceOfProcessing(batches, db.processing) && EvidenceOfStorage(batches, db.inventory)
      && SoldAgrees(batches, db.transfers)
  {
    hide WithinCapacity, WeightsConserved, Shelves, DeliveriesRefer, ProcessingRefers, InventoryRefers, LotsRefer;
  }

  lemma CreateBatchKeeps(db: DB, b: Id, coop: Id)
    requires Inv(db) && b !in db.batches
    ensures Kept(db, db.(batches := db.batches[b := Batch(coop, Registered, 0, false)]))
  {
    GrowsReflexive(db);
    NewBatchKeeps(db, b, Batch(coop, Registered, 0, false));
    NewBatchEvidence(db, b, Batch(coop, Registered, 0, false));
    NewBatchWeighs(db, b, Batch(coop, Registered, 0, false));
    hide Shelves, WithinCapacity, WeightsConserved, EvidenceOfProcessing, EvidenceOfStorage, SoldAgrees, References;
    hide BatchesGrow, StatusesStep;
  }

  lemma NewBatchWeighs(db: DB, b: Id, batch: Batch)
    requires Inv(db) && b !in db.batches && batch.weight == 0
    ensures WeightsConserved(db.batches[b := batch], db.deliveries)
  {
    hide Shelves, WithinCapacity, EvidenceOfProcessing, EvidenceOfStorage, SoldAgrees;
    assert AssignedWeights(db.deliveries, b) == map[];
  }

  lemma DeleteBatchKeeps(db: DB, b: Id)
    requires Inv(db) && b in db.batches
    ensures Kept(db, db.(batches := db.batches[b := db.batches[b].(deleted := true)]))
  {
    GrowsReflexive(db);
    RewriteGrows(db, b, db.batches[b].(deleted := true));
    RewriteKeeps(db, b, db.batches[b].(deleted := true));
  }

  lemma CreateFarmerKeeps(db: DB, f: Id, farmer: Farmer)
    requires Inv(db) && (f in db.farmers ==> db.farmers[f].coop == farmer.coop)
    ensures Kept(db, db.(farmers := db.farmers[f := farmer]))
  {
    GrowsReflexive(db);
  }

  lemma CreateWarehouseKeeps(db: DB, w: Id, warehouse: Warehouse)
    requires Inv(db) && w !in db.warehouses
    ensures Kept(db, db.(warehouses := db.warehouses[w := warehouse]))
  {
    GrowsReflexive(db);
    assert WithinCapacity(db.warehouses[w := warehouse], db.inventory) by {
      assert OpenWeights(db.inventory, w) == map[];
    }
  }

  lemma CreateLotKeeps(db: DB, l: Id, lot: Lot)
    requires Inv(db) && lot.members <= db.batches.Keys
    requires l in db.lots ==> lot.members == db.lots[l].members && lot.coop == db.lots[l].coop
    ensures Kept(db, db.(lots := db.lots[l := lot]))
  {
    GrowsReflexive(db);
  }

  // A processing record changes no status by itself.
  lemma RecordKeeps(db: DB, record: Id, b: Id)
    requires Inv(db) && record !in db.processing && b in db.batches
    ensures Kept(db, db.(processing := db.processing[record := b]))
  {
    GrowsReflexive(db);
    var after := db.processing[record := b];
    assert ProcessedBatches(db.processing) <= ProcessedBatches(after) by {
      forall c | c in ProcessedBatches(db.processing) ensures c in ProcessedBatches(after) {
        var r :| r in db.processing && db.processing[r] == c;
        assert r in after && after[r] == c;
      }
    }
  }

  lemma ProcessKeeps(db: DB, b: Id, seen: Status, record: Id, now: Time)
    requires Inv(db) && record !in db.processing && b in db.batches
    requires ProcessTx(db, b, seen, record, now).Ok?
    ensures Kept(db, ProcessTx(db, b, seen, record, now).value)
  {
    var recorded := db.(processing := db.processing[record := b]);
    RecordKeeps(db, record, b);
    if seen == Registered {
      TransitionKeeps(recorded, b, InProcessing, now);
      GrowsTransitive(db, recorded, Transition(recorded, b, InProcessing, now).value);
    }
  }

  // ---------------------------------------------------------------------------
  // Warehouses
  // ---------------------------------------------------------------------------

  // Closing rows, and nothing else.
  ghost predicate Closes(m: map<Id, InventoryRow>, n: map<Id, InventoryRow>) {
    n.Keys == m.Keys && InventoryGrows(m, n)
  }

  lemma ClosingKeepsShelves(batches: map<Id, Batch>, warehouses: map<Id, Warehouse>, m: map<Id, InventoryRow>, n: map<Id, InventoryRow>)
    requires Closes(m, n) && Shelves(batches, m) && InventoryRefers(batches, warehouses, m)
    ensures Shelves(batches, n) && InventoryRefers(batches, warehouses, n)
  {
    assert OpenRows(n) <= OpenRows(m);
    assert forall r :: r in n ==> n[r].(removedAt := None) == m[r].(removedAt := None);
  }

  lemma ClosingKeepsCapacity(warehouses: map<Id, Warehouse>, m: map<Id, InventoryRow>, n: map<Id, InventoryRow>)
    requires Closes(m, n) && WithinCapacity(warehouses, m)
    ensures WithinCapacity(warehouses, n)
  {
    forall w { ClosingFrees(m, n, w); }
  }

  lemma ClosingKeepsEvidence(batches: map<Id, Batch>, m: map<Id, InventoryRow>, n: map<Id, InventoryRow>)
    requires Closes(m, n) && EvidenceOfStorage(batches, m)
    ensures EvidenceOfStorage(batches, n)
  {
    assert forall r :: r in m ==> n[r].batch == m[r].batch;
    assert StoredBatches(n) == StoredBatches(m);
  }

  lemma RemoveCloses(m: map<Id, InventoryRow>, row: Id, now: Time)
    requires row in m
    ensures Closes(m, m[row := m[row].(removedAt := Some(now))])
  {
  }

  lemma RemoveKeeps(db: DB, row: Id, now: Time)
    requires Inv(db) && row in db.inventory
    ensures Kept(db, RemoveTx(db, row, now).value)
  {
    var after := db.inventory[row := db.inventory[row].(removedAt := Some(now))];
    GrowsReflexive(db);
    RemoveCloses(db.inventory, row, now);
    ClosingKeepsShelves(db.batches, db.warehouses, db.inventory, after);
    ClosingKeepsCapacity(db.warehouses, db.inventory, after);
    ClosingKeepsEvidence(db.batches, db.inventory, after);
  }

  // The row the store transaction adds once the batch is IN_STORAGE.
  lemma ShelvingKeepsShelves(db: DB, row: Id, added: InventoryRow)
    requires Shelves(db.batches, db.inventory) && References(db)
    requires row !in db.inventory && added.warehouse in db.warehouses && added.batch in db.batches
    requires added.removedAt == None && !HasOpenRow(db.inventory, added.batch)
    requires db.batches[added.batch].status == InStorage && added.weight <= db.batches[added.batch].weight
    ensures var after := db.inventory[row := added];
      && InventoryGrows(db.inventory, after)
      && Shelves(db.batches, after)
      && References(db.(inventory := after))
  {
    assert OpenRows(db.inventory[row := added]) == OpenRows(db.inventory) + {row};
  }

  lemma ShelvingKeepsCapacity(warehouses: map<Id, Warehouse>, m: map<Id, InventoryRow>, row: Id, added: InventoryRow)
    requires WithinCapacity(warehouses, m) && row !in m && added.removedAt == None && added.warehouse in warehouses
    requires warehouses[added.warehouse].capacity.Some? ==>
      added.weight <= warehouses[added.warehouse].capacity.value - OpenLoad(m, added.warehouse)
    ensures WithinCapacity(warehouses, m[row := added])
  {
    forall w { StoringLoads(m, row, added, w); }
  }

  lemma StoredGrows(m: map<Id, InventoryRow>, row: Id, added: InventoryRow)
    requires row !in m
    ensures StoredBatches(m[row := added]) == StoredBatches(m) + {added.batch}
  {
    var n := m[row := added];
    forall b | b in StoredBatches(m) ensures b in StoredBatches(n) {
      var r :| r in m && m[r].batch == b;
      assert r in n && n[r].batch == b;
    }
    assert row in n;
  }

  lemma ShelvingKeepsEvidence(batches: map<Id, Batch>, processing: map<Id, Id>, m: map<Id, InventoryRow>, n: map<Id, InventoryRow>, b: Id)
    requires b in batches && EvidenceOfStorage(batches, m) && EvidenceOfProcessing(batches, processing)
    requires batches[b].status == InStorage || InStorage in Allowed(batches[b].status)
    requires StoredBatches(n) == StoredBatches(m) + {b}
    ensures var after := batches[b := batches[b].(status := InStorage)];
      EvidenceOfProcessing(after, processing) && EvidenceOfStorage(after, n)
  {
  }

  // The transition into storage, before the row that witnesses it.
  lemma StoreStatusKeeps(db: DB, b: Id, now: Time)
    requires Inv(db) && Transition(db, b, InStorage, now).Ok?
    ensures var n := Transition(db, b, InStorage, now).value;
      && n == db.(batches := db.batches[b := db.batches[b].(status := InStorage)])
      && Grows(db, n) && StatusesStep(db.batches, n.batches)
      && References(n) && Shelves(n.batches, n.inventory)
      && WeightsConserved(n.batches, n.deliveries)
      && SoldAgrees(n.batches, n.transfers)
  {
    if db.batches[b].status == InStorage {
      GrowsReflexive(db);
      assert db.batches[b := db.batches[b].(status := InStorage)] == db.batches;
    } else {
      StatusGrows(db, b, InStorage, now);
      StatusKeepsReferences(db, b, InStorage, now);
      StatusKeepsShelves(db, b, InStorage, now);
      StatusKeepsWeights(db, b, InStorage, now);
      StatusKeepsSold(db, b, InStorage, now);
    }
  }

  // A store acts on a capacity and a total read before its transaction.  Capacities never change
  // and totals never shrink, so the stale values are safe.
  lemma StoreKeeps(db: DB, w: Id, b: Id, weight: nat, capacity: Option<nat>, total: nat, row: Id, now: Time)
    requires Inv(db) && row !in db.inventory && w in db.warehouses && db.warehouses[w].capacity == capacity
    requires b in db.batches && total <= db.batches[b].weight
    requires StoreTx(db, w, b, weight, capacity, total, row, now).Ok?
    ensures Kept(db, StoreTx(db, w, b, weight, capacity, total, row, now).value)
  {
    hide References, Shelves, WithinCapacity, WeightsConserved, EvidenceOfProcessing, EvidenceOfStorage, SoldAgrees;
    hide FarmersGrow, BatchesGrow, DeliveriesGrow, MapGrows, InventoryGrows, TransfersGrow, LotsGrow, StatusesStep;
    var stored := Transition(db, b, InStorage, now).value;
    var added := InventoryRow(w, b, weight, now, None);
    StoreStatusKeeps(db, b, now);
    ShelvingKeepsShelves(stored, row, added);
    ShelvingKeepsCapacity(db.warehouses, db.inventory, row, added);
    StoredGrows(db.inventory, row, added);
    ShelvingKeepsEvidence(db.batches, db.processing, db.inventory, db.inventory[row := added], b);
    InventoryGrowsOn(db, stored, stored.(inventory := db.inventory[row := added]));
  }

  lemma InventoryGrowsOn(a: DB, b: DB, c: DB)
    requires Grows(a, b) && a.inventory == b.inventory && c == b.(inventory := c.inventory)
    requires InventoryGrows(b.inventory, c.inventory)
    ensures Grows(a, c)
  {
  }

  // ---------------------------------------------------------------------------
  // Transfers
  // ---------------------------------------------------------------------------

  lemma OpenTransfersKeeps(db: DB, issued: map<Id, Id>, now: Time)
    requires Inv(db) && issued.Keys !! db.transfers.Keys && issued.Values <= db.batches.Keys
    ensures Kept(db, OpenTransfers(db, issued, now))
  {
    hide Shelves, WithinCapacity, WeightsConserved, EvidenceOfProcessing, EvidenceOfStorage;
    hide DeliveriesRefer, ProcessingRefers, InventoryRefers, LotsRefer, OpenTransfers;
    GrowsReflexive(db);
    OpenedTransfers(db, issued, now);
  }

  lemma OpenedTransfers(db: DB, issued: map<Id, Id>, now: Time)
    requires TransfersRefer(db.batches, db.transfers) && issued.Keys !! db.transfers.Keys && issued.Values <= db.batches.Keys
    ensures var n := OpenTransfers(db, issued, now);
      && n == db.(transfers := n.transfers)
      && TransfersGrow(db.transfers, n.transfers) && TransfersRefer(db.batches, n.transfers)
      && ConfirmedBatches(n.transfers) == ConfirmedBatches(db.transfers)
  {
    var after := OpenTransfers(db, issued, now).transfers;
    assert forall t :: t in issued ==> issued[t] in issued.Values;
    forall b | b in ConfirmedBatches(db.transfers) ensures b in ConfirmedBatches(after) {
      var t :| t in db.transfers && db.transfers[t].status == Confirmed && db.transfers[t].batch == b;
      assert t in after && after[t] == db.transfers[t];
    }
  }

  lemma ConfirmingConfirms(m: map<Id, Transfer>, t: Id, now: Time)
    requires t in m && m[t].status == Pending
    ensures var n := m[t := m[t].(status := Confirmed, transferredAt := now)];
      TransfersGrow(m, n) && ConfirmedBatches(n) == ConfirmedBatches(m) + {m[t].batch}
  {
    var n := m[t := m[t].(status := Confirmed, transferredAt := now)];
    forall b | b in ConfirmedBatches(m) ensures b in ConfirmedBatches(n) {
      var u :| u in m && m[u].status == Confirmed && m[u].batch == b;
      assert u in n && n[u] == m[u];
    }
    assert t in n;
  }

  lemma SellingKeepsSold(batches: map<Id, Batch>, m: map<Id, Transfer>, n: map<Id, Transfer>, b: Id)
    requires SoldAgrees(batches, m) && b in batches && ConfirmedBatches(n) == ConfirmedBatches(m) + {b}
    ensures SoldAgrees(batches[b := batches[b].(status := Sold)], n) || batches[b].status == Exported
    ensures batches[b].status == Sold ==> SoldAgrees(batches, n)
  {
  }

  lemma ConfirmKeeps(db: DB, t: Id, now: Time)
    requires Inv(db) && ConfirmTx(db, t, now).Ok?
    ensures Kept(db, ConfirmTx(db, t, now).value)
  {
    var b := db.transfers[t].batch;
    var after := db.transfers[t := db.transfers[t].(status := Confirmed, transferredAt := now)];
    var stamped := db.(transfers := after);
    GrowsReflexive(db);
    ConfirmingConfirms(db.transfers, t, now);
    assert References(stamped);
    SellingKeepsSold(db.batches, db.transfers, after, b);
    if db.batches[b].status != Sold {
      var n := SetStatus(stamped, b, Sold, now);
      StatusKeepsReferences(stamped, b, Sold, now);
      StatusKeepsShelves(stamped, b, Sold, now);
      StatusKeepsCapacity(stamped, b, Sold, now);
      StatusKeepsWeights(stamped, b, Sold, now);
      StatusKeepsEvidence(stamped, b, Sold, now);
      StatusGrows(stamped, b, Sold, now);
      GrowsTransitive(db, stamped, n);
    }
  }

  lemma {:induction false} ConfirmEachKeeps(db: DB, ts: seq<Id>, now: Time)
    requires Inv(db) && ConfirmEach(db, ts, now).Ok?
    ensures Inv(ConfirmEach(db, ts, now).value) && Grows(db, ConfirmEach(db, ts, now).value)
    decreases |ts|
  {
    if ts == [] {
      GrowsReflexive(db);
    } else {
      var front := ts[..|ts| - 1];
      var d := ConfirmEach(db, front, now).value;
      ConfirmEachKeeps(db, front, now);
      ConfirmKeeps(d, ts[|ts| - 1], now);
      GrowsTransitive(db, d, ConfirmEach(db, ts, now).value);
    }
  }
}
