/**
 What every transaction body keeps: the invariant of the custody tables, and the part of a state
 that never changes again.
 */
module CustodyInvariant {
  import opened Common
  import opened Sums
  import opened CustodyModel

  // Foreign keys, and the cooperative of a delivery: that of its farmer and of its batch.
  ghost predicate DeliveriesRefer(farmers: map<Id, Farmer>, batches: map<Id, Batch>, deliveries: map<Id, Delivery>) {
    forall d :: d in deliveries ==>
      && deliveries[d].farmer in farmers
      && farmers[deliveries[d].farmer].coop == deliveries[d].coop
      && (deliveries[d].batch.Some? ==>
            && deliveries[d].batch.value in batches
            && batches[deliveries[d].batch.value].coop == deliveries[d].coop)
  }

  ghost predicate ProcessingRefers(batches: map<Id, Batch>, processing: map<Id, Id>) {
    forall r :: r in processing ==> processing[r] in batches
  }

  ghost predicate InventoryRefers(
    batches: map<Id, Batch>, warehouses: map<Id, Warehouse>, inventory: map<Id, InventoryRow>)
  {
    forall r :: r in inventory ==> inventory[r].batch in batches && inventory[r].warehouse in warehouses
  }

  ghost predicate TransfersRefer(batches: map<Id, Batch>, transfers: map<Id, Transfer>) {
    forall t :: t in transfers ==> transfers[t].batch in batches
  }

  ghost predicate LotsRefer(batches: map<Id, Batch>, lots: map<Id, Lot>) {
    forall l :: l in lots ==> lots[l].members <= batches.Keys
  }

  // Coffee on a shelf belongs to a batch IN_STORAGE.
  ghost predicate OpenRowsInStorage(batches: map<Id, Batch>, inventory: map<Id, InventoryRow>) {
    forall r :: r in OpenRows(inventory) ==>
      inventory[r].batch in batches && batches[inventory[r].batch].status == InStorage
  }

  // The partial unique index: one open row per batch.
  ghost predicate OneOpenRow(inventory: map<Id, InventoryRow>) {
    forall r, q :: r in OpenRows(inventory) && q in OpenRows(inventory) && inventory[r].batch == inventory[q].batch ==> r == q
  }

  ghost predicate RowsWithinBatch(batches: map<Id, Batch>, inventory: map<Id, InventoryRow>) {
    forall r :: r in inventory ==>
      inventory[r].batch in batches && inventory[r].weight <= batches[inventory[r].batch].weight
  }

  ghost predicate Shelves(batches: map<Id, Batch>, inventory: map<Id, InventoryRow>) {
    && OpenRowsInStorage(batches, inventory)
    && OneOpenRow(inventory)
    && RowsWithinBatch(batches, inventory)
  }

  ghost predicate WithinCapacity(warehouses: map<Id, Warehouse>, inventory: map<Id, InventoryRow>) {
    forall w :: w in warehouses && warehouses[w].capacity.Some? ==>
      OpenLoad(inventory, w) <= warehouses[w].capacity.value
  }

  ghost predicate WeightsConserved(batches: map<Id, Batch>, deliveries: map<Id, Delivery>) {
    forall b :: b in batches ==> batches[b].weight == AssignedWeight(deliveries, b)
  }

  // Status as evidence: a batch past REGISTERED was processed, one past PROCESSED was stored.
  ghost predicate EvidenceOfProcessing(batches: map<Id, Batch>, processing: map<Id, Id>) {
    forall b :: b in batches && batches[b].status !in {Registered, Rejected} ==> b in ProcessedBatches(processing)
  }

  ghost predicate EvidenceOfStorage(batches: map<Id, Batch>, inventory: map<Id, InventoryRow>) {
    forall b :: b in batches && batches[b].status in {InStorage, InTransit, Sold, Exported} ==> b in StoredBatches(inventory)
  }

  // The two views of "sold".
  ghost predicate SoldAgrees(batches: map<Id, Batch>, transfers: map<Id, Transfer>) {
    forall b :: b in batches ==> (batches[b].status in {Sold, Exported} <==> b in ConfirmedBatches(transfers))
  }

  ghost predicate References(db: DB) {
    && DeliveriesRefer(db.farmers, db.batches, db.deliveries)
    && ProcessingRefers(db.batches, db.processing)
    && InventoryRefers(db.batches, db.warehouses, db.inventory)
    && TransfersRefer(db.batches, db.transfers)
    && LotsRefer(db.batches, db.lots)
  }

  ghost predicate Inv(db: DB) {
    && References(db)
    && Shelves(db.batches, db.inventory)
    && WithinCapacity(db.warehouses, db.inventory)
    && WeightsConserved(db.batches, db.deliveries)
    && EvidenceOfProcessing(db.batches, db.processing)
    && EvidenceOfStorage(db.batches, db.inventory)
    && SoldAgrees(db.batches, db.transfers)
  }

  // ---------------------------------------------------------------------------
  // What only ever grows.
  // ---------------------------------------------------------------------------

  // One status step, or none.
  predicate StatusStep(s: Status, s': Status) {
    s == s' || s' in Allowed(s)
  }

  // Every status a batch can still show, however many steps it takes.
  function Later(s: Status): set<Status> {
    match s
    case Registered => {Registered, InProcessing, Processed, InStorage, InTransit, Sold, Exported, Rejected}
    case InProcessing => {InProcessing, Processed, InStorage, InTransit, Sold, Exported, Rejected}
    case Processed => {Processed, InStorage, InTransit, Sold, Exported, Rejected}
    case InStorage | InTransit => {InStorage, InTransit, Sold, Exported, Rejected}
    case Sold => {Sold, Exported}
    case Exported => {Exported}
    case Rejected => {Rejected}
  }

  ghost predicate BatchesGrow(m: map<Id, Batch>, n: map<Id, Batch>) {
    forall b :: b in m ==>
      && b in n
      && m[b].coop == n[b].coop
      && m[b].weight <= n[b].weight
      && n[b].status in Later(m[b].status)
  }

  ghost predicate DeliveriesGrow(m: map<Id, Delivery>, n: map<Id, Delivery>) {
    forall d :: d in m ==>
      && d in n
      && (m[d].batch.Some? ==> n[d] == m[d])
      && n[d].(batch := None) == m[d].(batch := None)
  }

  ghost predicate InventoryGrows(m: map<Id, InventoryRow>, n: map<Id, InventoryRow>) {
    forall r :: r in m ==>
      && r in n
      && (m[r].removedAt.Some? ==> n[r].removedAt.Some?)
      && n[r].(removedAt := None) == m[r].(removedAt := None)
  }

  ghost predicate TransfersGrow(m: map<Id, Transfer>, n: map<Id, Transfer>) {
    forall t :: t in m ==>
      && t in n
      && n[t].batch == m[t].batch
      && (m[t].status != Pending ==> n[t] == m[t])
  }

  ghost predicate FarmersGrow(m: map<Id, Farmer>, n: map<Id, Farmer>) {
    forall f :: f in m ==> f in n && n[f].coop == m[f].coop
  }

  ghost predicate LotsGrow(m: map<Id, Lot>, n: map<Id, Lot>) {
    forall l :: l in m ==> l in n && n[l].members == m[l].members && n[l].coop == m[l].coop
  }

  ghost predicate MapGrows<V(!new)>(m: map<Id, V>, n: map<Id, V>) {
    forall k :: k in m ==> k in n && n[k] == m[k]
  }

  ghost predicate Grows(m: DB, n: DB) {
    && FarmersGrow(m.farmers, n.farmers)
    && BatchesGrow(m.batches, n.batches)
    && DeliveriesGrow(m.deliveries, n.deliveries)
    && MapGrows(m.processing, n.processing)
    && MapGrows(m.warehouses, n.warehouses)
    && InventoryGrows(m.inventory, n.inventory)
    && TransfersGrow(m.transfers, n.transfers)
    && LotsGrow(m.lots, n.lots)
  }

  // One transaction: each batch takes at most one step of the table, new batches are REGISTERED.
  ghost predicate StatusesStep(m: map<Id, Batch>, n: map<Id, Batch>) {
    forall b :: b in n ==> if b in m then StatusStep(m[b].status, n[b].status) else n[b].status == Registered
  }

  ghost predicate Kept(db: DB, next: DB) {
    Inv(next) && Grows(db, next) && StatusesStep(db.batches, next.batches)
  }

  // ---------------------------------------------------------------------------
  // Warehouse loads
  // ---------------------------------------------------------------------------

  // Closing rows frees space.
  lemma ClosingFrees(m: map<Id, InventoryRow>, n: map<Id, InventoryRow>, w: Id)
    requires InventoryGrows(m, n) && n.Keys == m.Keys
    ensures OpenLoad(n, w) <= OpenLoad(m, w)
  {
    SumMonotone(OpenWeights(n, w), OpenWeights(m, w));
  }

  lemma StoringLoads(m: map<Id, InventoryRow>, row: Id, added: InventoryRow, w: Id)
    requires row !in m && added.removedAt == None
    ensures OpenLoad(m[row := added], w) == OpenLoad(m, w) + if added.warehouse == w then added.weight else 0
  {
    var n := m[row := added];
    if added.warehouse == w {
      assert OpenWeights(n, w) == OpenWeights(m, w)[row := added.weight];
      SumInsert(OpenWeights(m, w), row, added.weight);
    } else {
      assert OpenWeights(n, w) == OpenWeights(m, w);
    }
  }

  // ---------------------------------------------------------------------------
  // Status writes
  // ---------------------------------------------------------------------------

  lemma GrowsReflexive(db: DB)
    ensures Grows(db, db) && StatusesStep(db.batches, db.batches)
  {
  }

  // Leaving storage closes the batch's rows, so the shelves stay consistent.
  lemma StatusKeepsShelves(db: DB, b: Id, s: Status, now: Time)
    requires b in db.batches && s in Allowed(db.batches[b].status)
    requires Shelves(db.batches, db.inventory)
    ensures var n := SetStatus(db, b, s, now); Shelves(n.batches, n.inventory)
  {
    var n := SetStatus(db, b, s, now);
    assert OpenRows(n.inventory) <= OpenRows(db.inventory);
  }

  lemma StatusKeepsCapacity(db: DB, b: Id, s: Status, now: Time)
    requires b in db.batches && WithinCapacity(db.warehouses, db.inventory)
    ensures var n := SetStatus(db, b, s, now); WithinCapacity(n.warehouses, n.inventory)
  {
    var n := SetStatus(db, b, s, now);
    forall w ensures OpenLoad(n.inventory, w) <= OpenLoad(db.inventory, w) {
      ClosingFrees(db.inventory, n.inventory, w);
    }
  }

  // What does not depend on the status.
  lemma StatusKeepsReferences(db: DB, b: Id, s: Status, now: Time)
    requires b in db.batches
    requires References(db)
    ensures References(SetStatus(db, b, s, now))
  {
    assert SetStatus(db, b, s, now).inventory.Keys == db.inventory.Keys;
  }

  lemma StatusKeepsWeights(db: DB, b: Id, s: Status, now: Time)
    requires b in db.batches && WeightsConserved(db.batches, db.deliveries)
    ensures var n := SetStatus(db, b, s, now); WeightsConserved(n.batches, n.deliveries)
  {
  }

  lemma StatusGrows(db: DB, b: Id, s: Status, now: Time)
    requires b in db.batches && s in Allowed(db.batches[b].status)
    ensures Grows(db, SetStatus(db, b, s, now))
    ensures StatusesStep(db.batches, SetStatus(db, b, s, now).batches)
  {
  }

  lemma StatusKeepsEvidence(db: DB, b: Id, s: Status, now: Time)
    requires b in db.batches && s in Allowed(db.batches[b].status)
    requires s in {InProcessing, Processed} ==> b in ProcessedBatches(db.processing)
    requires s == InStorage ==> b in StoredBatches(db.inventory)
    requires EvidenceOfProcessing(db.batches, db.processing) && EvidenceOfStorage(db.batches, db.inventory)
    ensures var n := SetStatus(db, b, s, now);
      EvidenceOfProcessing(n.batches, n.processing) && EvidenceOfStorage(n.batches, n.inventory)
  {
    var n := SetStatus(db, b, s, now);
    assert n.inventory.Keys == db.inventory.Keys;
    assert forall r :: r in db.inventory ==> n.inventory[r].batch == db.inventory[r].batch;
    assert StoredBatches(n.inventory) == StoredBatches(db.inventory);
  }

  lemma StatusKeepsSold(db: DB, b: Id, s: Status, now: Time)
    requires b in db.batches && s in Allowed(db.batches[b].status) && s != Sold
    requires SoldAgrees(db.batches, db.transfers)
    ensures var n := SetStatus(db, b, s, now); SoldAgrees(n.batches, n.transfers)
  {
  }

  // A status write from outside the sale and storage paths keeps everything.
  lemma TransitionKeeps(db: DB, b: Id, s: Status, now: Time)
    requires Inv(db) && s !in {Sold, InStorage} && Transition(db, b, s, now).Ok?
    ensures Kept(db, Transition(db, b, s, now).value)
  {
    hide References, Shelves, WithinCapacity, WeightsConserved, EvidenceOfProcessing, EvidenceOfStorage, SoldAgrees;
    hide FarmersGrow, BatchesGrow, DeliveriesGrow, MapGrows, InventoryGrows, TransfersGrow, LotsGrow, StatusesStep;
    if db.batches[b].status == s {
      GrowsReflexive(db);
    } else {
      StatusKeepsShelves(db, b, s, now);
      StatusKeepsCapacity(db, b, s, now);
      StatusKeepsReferences(db, b, s, now);
      StatusKeepsWeights(db, b, s, now);
      StatusGrows(db, b, s, now);
      StatusKeepsEvidence(db, b, s, now);
      StatusKeepsSold(db, b, s, now);
    }
  }
}
