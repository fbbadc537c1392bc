/**
 A scoped caller's requests, worked through the row policies and worked on the whole tables: the
 same answer and the same effect, and no effect outside the caller's cooperative.
 */
module TenantWrites {
  import opened Common
  import opened Seqs
  import opened CustodyModel
  import opened CustodyInvariant
  import opened CustodyLots
  import opened CustodySystem
  import opened CustodyRuns
  import opened TenantIsolation

  // Every row the task names belongs to cooperative k.
  ghost predicate TaskOf(db: DB, k: Id, task: Task) {
    match task
    case AddFarmerTask(coop) => coop == k
    case DeleteFarmerTask(f) => f in db.farmers && db.farmers[f].coop == k
    case AddWarehouseTask(coop, _) => coop == k
    case AddBatchTask(coop) => coop == k
    case AddDeliveryTask(_, coop, _) => coop == k
    case AssignTask(b, _) => InCoopOf(db.batches, k, b)
    case ProcessTask(b, _) => InCoopOf(db.batches, k, b)
    case StoreTask(w, b, _, _, _) => w in db.warehouses && db.warehouses[w].coop == k && InCoopOf(db.batches, k, b)
    case RemoveTask(r) => r in db.inventory && InCoopOf(db.batches, k, db.inventory[r].batch)
    case UpdateStatusTask(b, _) => InCoopOf(db.batches, k, b)
    case OpenTransferTask(b) => InCoopOf(db.batches, k, b)
    case ConfirmTransferTask(t) => t in db.transfers && InCoopOf(db.batches, k, db.transfers[t].batch)
    case AddLotTask(coop, members) => coop == k && forall b :: b in members ==> InCoopOf(db.batches, k, b)
    case SellLotTask(_, members) => forall b :: b in members ==> InCoopOf(db.batches, k, b)
    case ConfirmLotTask(l, pending) =>
      && l in db.lots && db.lots[l].coop == k
      && forall t :: t in pending ==> t in db.transfers && InCoopOf(db.batches, k, db.transfers[t].batch)
  }

  lemma TaskStaysOf(db: DB, n: DB, k: Id, task: Task)
    requires Grows(db, n) && TaskOf(db, k, task)
    ensures TaskOf(n, k, task)
  {
  }

  lemma WholeLots(k: Id, db: DB, l: Id)
    requires LotsWithinCoop(db) && l in db.lots && db.lots[l].coop == k
    ensures l in Slice(k, db).lots && Slice(k, db).lots[l] == db.lots[l]
    ensures PendingOf(Slice(k, db), db.lots[l].members) == PendingOf(db, db.lots[l].members)
  {
  }

  lemma BeginOf(k: Id, db: DB, q: Request)
    requires LotsWithinCoop(db) && Begin(db, Caller(false, Some(k)), q).Ok?
    ensures TaskOf(db, k, Begin(db, Caller(false, Some(k)), q).value)
  {
  }

  lemma LotInView(k: Id, db: DB, q: Request)
    requires (q.AddLot? || q.SellLot? || q.ConfirmLot?) && Begin(Slice(k, db), Caller(false, Some(k)), q).Ok?
    ensures TaskOf(db, k, Begin(Slice(k, db), Caller(false, Some(k)), q).value)
  {
  }

  // What is accepted on the view names rows in view only, however the tables mix cooperatives.
  lemma BeginInView(k: Id, db: DB, q: Request)
    requires Begin(Slice(k, db), Caller(false, Some(k)), q).Ok?
    ensures TaskOf(db, k, Begin(Slice(k, db), Caller(false, Some(k)), q).value)
  {
    if q.AddLot? || q.SellLot? || q.ConfirmLot? {
      LotInView(k, db, q);
      hide Begin, TaskOf;
    }
  }

  // First phase: the policies hide nothing a scoped caller's request is decided on.
  lemma BeginThroughPolicies(k: Id, db: DB, q: Request)
    requires LotsWithinCoop(db)
    ensures var who := Caller(false, Some(k));
      && (Begin(Slice(k, db), who, q).Ok? <==> Begin(db, who, q).Ok?)
      && (Begin(db, who, q).Ok? ==> Begin(Slice(k, db), who, q) == Begin(db, who, q))
  {
    if q.AddLot? || q.SellLot? || q.ConfirmLot? {
      LotThroughPolicies(k, db, q);
      hide Begin;
    }
  }

  lemma LotThroughPolicies(k: Id, db: DB, q: Request)
    requires LotsWithinCoop(db) && (q.AddLot? || q.SellLot? || q.ConfirmLot?)
    ensures var who := Caller(false, Some(k));
      && (Begin(Slice(k, db), who, q).Ok? <==> Begin(db, who, q).Ok?)
      && (Begin(db, who, q).Ok? ==> Begin(Slice(k, db), who, q) == Begin(db, who, q))
  {
    match q
    case SellLot(l) => if l in db.lots && db.lots[l].coop == k { WholeLots(k, db, l); }
    case ConfirmLot(l) => if l in db.lots && db.lots[l].coop == k { WholeLots(k, db, l); }
    case _ =>
  }

  // ---------------------------------------------------------------------------
  // Slices of changed tables
  // ---------------------------------------------------------------------------

  ghost predicate SameCoops(m: map<Id, Batch>, n: map<Id, Batch>) {
    m.Keys == n.Keys && forall b :: b in m ==> n[b].coop == m[b].coop
  }

  // What hangs off the batches stays where it is as long as no batch changes hands.
  lemma ChildrenStay(k: Id, m: map<Id, Batch>, n: map<Id, Batch>, db: DB)
    requires SameCoops(m, n)
    ensures ProcessingIn(k, n, db.processing) == ProcessingIn(k, m, db.processing)
    ensures InventoryIn(k, n, db.inventory) == InventoryIn(k, m, db.inventory)
    ensures TransfersIn(k, n, db.transfers) == TransfersIn(k, m, db.transfers)
    ensures LotsIn(k, n, db.lots) == LotsIn(k, m, db.lots)
  {
    forall b ensures InCoopOf(n, k, b) <==> InCoopOf(m, k, b) {}
    hide InCoopOf, SameCoops;
    forall l | l in db.lots ensures MembersIn(k, n, db.lots[l].members) == MembersIn(k, m, db.lots[l].members) {}
  }

  lemma BatchSlice(k: Id, batches: map<Id, Batch>, b: Id, row: Batch)
    requires row.coop == k && (b in batches ==> batches[b].coop == k)
    ensures BatchesIn(k, batches[b := row]) == BatchesIn(k, batches)[b := row]
  {
  }

  lemma CloseSlice(k: Id, batches: map<Id, Batch>, inventory: map<Id, InventoryRow>, bs: set<Id>, now: Time)
    ensures InventoryIn(k, batches, CloseRows(inventory, bs, now)) == CloseRows(InventoryIn(k, batches, inventory), bs, now)
  {
  }

  lemma ProcessedSlice(k: Id, db: DB, b: Id)
    requires InCoopOf(db.batches, k, b)
    ensures b in ProcessedBatches(ProcessingIn(k, db.batches, db.processing)) <==> b in ProcessedBatches(db.processing)
  {
    if r :| r in db.processing && db.processing[r] == b {
      assert r in ProcessingIn(k, db.batches, db.processing);
    }
  }

  lemma SetStatusSlice(k: Id, db: DB, b: Id, s: Status, now: Time)
    requires InCoopOf(db.batches, k, b)
    ensures Slice(k, SetStatus(db, b, s, now)) == SetStatus(Slice(k, db), b, s, now)
  {
    hide ProcessingIn, InventoryIn, TransfersIn, LotsIn, CloseRows;
    var n := SetStatus(db, b, s, now);
    BatchSlice(k, db.batches, b, n.batches[b]);
    ChildrenStay(k, db.batches, n.batches, n);
    CloseSlice(k, db.batches, db.inventory, {b}, now);
  }

  lemma TransitionSlice(k: Id, db: DB, b: Id, s: Status, now: Time)
    requires InCoopOf(db.batches, k, b)
    ensures Transition(Slice(k, db), b, s, now).Ok? <==> Transition(db, b, s, now).Ok?
    ensures Transition(db, b, s, now).Ok? ==> Transition(Slice(k, db), b, s, now).value == Slice(k, Transition(db, b, s, now).value)
  {
    hide ProcessingIn, InventoryIn, TransfersIn, LotsIn, SetStatus, ProcessedBatches;
    ProcessedSlice(k, db, b);
    SetStatusSlice(k, db, b, s, now);
  }

  // ---------------------------------------------------------------------------
  // Slices of the transaction bodies
  // ---------------------------------------------------------------------------

  lemma AssignSlice(k: Id, db: DB, b: Id, ids: seq<Id>)
    requires InCoopOf(db.batches, k, b)
    ensures AssignTx(Slice(k, db), b, ids).Ok? <==> AssignTx(db, b, ids).Ok?
    ensures AssignTx(db, b, ids).Ok? ==> AssignTx(Slice(k, db), b, ids).value == Slice(k, AssignTx(db, b, ids).value)
  {
    hide ProcessingIn, InventoryIn, TransfersIn, LotsIn;
    var slice, found := Slice(k, db), EligibleDeliveries(db, b, ids);
    assert EligibleDeliveries(slice, b, ids) == found;
    assert WeightsOf(slice.deliveries, found) == WeightsOf(db.deliveries, found);
    if AssignTx(db, b, ids).Ok? {
      hide EligibleDeliveries, WeightsOf;
      var n := AssignTx(db, b, ids).value;
      BatchSlice(k, db.batches, b, n.batches[b]);
      ChildrenStay(k, db.batches, n.batches, db);
      AttachSlice(k, db.deliveries, b, Elements(ids));
    }
  }

  lemma AttachSlice(k: Id, deliveries: map<Id, Delivery>, b: Id, ids: set<Id>)
    ensures DeliveriesIn(k, AttachDeliveries(deliveries, b, ids)) == AttachDeliveries(DeliveriesIn(k, deliveries), b, ids)
  {
  }

  lemma ProcessSlice(k: Id, db: DB, b: Id, seen: Status, record: Id, now: Time)
    requires InCoopOf(db.batches, k, b)
    ensures ProcessTx(Slice(k, db), b, seen, record, now).Ok? <==> ProcessTx(db, b, seen, record, now).Ok?
    ensures ProcessTx(db, b, seen, record, now).Ok? ==>
      ProcessTx(Slice(k, db), b, seen, record, now).value == Slice(k, ProcessTx(db, b, seen, record, now).value)
  {
    hide InventoryIn, TransfersIn, LotsIn, Transition;
    var recorded := db.(processing := db.processing[record := b]);
    assert Slice(k, recorded).processing == Slice(k, db).processing[record := b];
    TransitionSlice(k, recorded, b, InProcessing, now);
  }

  // The capacity check: within a cooperative that stores only its own batches, the rows the
  // policies leave in view carry the whole load.
  lemma LoadSlice(k: Id, db: DB, w: Id)
    requires InventoryWithinCoop(db) && w in db.warehouses && db.warehouses[w].coop == k
    ensures OpenLoad(InventoryIn(k, db.batches, db.inventory), w) == OpenLoad(db.inventory, w)
  {
    assert OpenWeights(InventoryIn(k, db.batches, db.inventory), w) == OpenWeights(db.inventory, w);
  }

  lemma OpenRowSlice(k: Id, db: DB, b: Id)
    requires InCoopOf(db.batches, k, b)
    ensures HasOpenRow(InventoryIn(k, db.batches, db.inventory), b) <==> HasOpenRow(db.inventory, b)
  {
    if r :| r in OpenRows(db.inventory) && db.inventory[r].batch == b {
      assert r in OpenRows(InventoryIn(k, db.batches, db.inventory));
    }
  }

  lemma StoreSlice(k: Id, db: DB, w: Id, b: Id, weight: nat, capacity: Option<nat>, total: nat, row: Id, now: Time)
    requires w in db.warehouses && db.warehouses[w].coop == k && InCoopOf(db.batches, k, b)
    requires capacity.Some? ==> InventoryWithinCoop(db)
    ensures var r, q := StoreTx(Slice(k, db), w, b, weight, capacity, total, row, now), StoreTx(db, w, b, weight, capacity, total, row, now);
      (r.Ok? <==> q.Ok?) && (q.Ok? ==> r.value == Slice(k, q.value))
  {
    hide InventoryWithinCoop, OpenLoad, HasOpenRow, Transition, ProcessingIn, TransfersIn, LotsIn;
    if capacity.Some? { LoadSlice(k, db, w); }
    OpenRowSlice(k, db, b);
    TransitionSlice(k, db, b, InStorage, now);
    var t := Transition(db, b, InStorage, now);
    if t.Ok? {
      TransitionCoops(db, b, InStorage, now);
      InsertRowSlice(k, t.value.batches, t.value.inventory, row, InventoryRow(w, b, weight, now, None));
    }
  }

  lemma TransitionCoops(db: DB, b: Id, s: Status, now: Time)
    requires Transition(db, b, s, now).Ok?
    ensures SameCoops(db.batches, Transition(db, b, s, now).value.batches)
  {
  }

  lemma InsertRowSlice(k: Id, batches: map<Id, Batch>, inventory: map<Id, InventoryRow>, r: Id, row: InventoryRow)
    requires InCoopOf(batches, k, row.batch)
    ensures InventoryIn(k, batches, inventory[r := row]) == InventoryIn(k, batches, inventory)[r := row]
  {
  }

  lemma StampSlice(k: Id, batches: map<Id, Batch>, transfers: map<Id, Transfer>, t: Id, row: Transfer)
    requires InCoopOf(batches, k, row.batch)
    ensures TransfersIn(k, batches, transfers[t := row]) == TransfersIn(k, batches, transfers)[t := row]
  {
  }

  lemma ConfirmSlice(k: Id, db: DB, t: Id, now: Time)
    requires t in db.transfers && InCoopOf(db.batches, k, db.transfers[t].batch)
    ensures ConfirmTx(Slice(k, db), t, now).Ok? <==> ConfirmTx(db, t, now).Ok?
    ensures ConfirmTx(db, t, now).Ok? ==> ConfirmTx(Slice(k, db), t, now).value == Slice(k, ConfirmTx(db, t, now).value)
  {
    hide InventoryIn, ProcessingIn, LotsIn, Transition;
    var row := db.transfers[t].(status := Confirmed, transferredAt := now);
    StampSlice(k, db.batches, db.transfers, t, row);
    TransitionSlice(k, db.(transfers := db.transfers[t := row]), row.batch, Sold, now);
  }

  function Issue(issued: map<Id, Id>, now: Time): map<Id, Transfer> {
    map t | t in issued :: Transfer(issued[t], Pending, now)
  }

  lemma IssuedSlice(k: Id, batches: map<Id, Batch>, transfers: map<Id, Transfer>, issued: map<Id, Id>, now: Time)
    requires forall t :: t in issued ==> InCoopOf(batches, k, issued[t])
    ensures TransfersIn(k, batches, transfers + Issue(issued, now)) == TransfersIn(k, batches, transfers) + Issue(issued, now)
  {
  }

  lemma OpenTransfersSlice(k: Id, db: DB, issued: map<Id, Id>, now: Time)
    requires forall t :: t in issued ==> InCoopOf(db.batches, k, issued[t])
    ensures Slice(k, OpenTransfers(db, issued, now)) == OpenTransfers(Slice(k, db), issued, now)
  {
    assert forall m :: OpenTransfers(m, issued, now) == m.(transfers := m.transfers + Issue(issued, now));
    hide OpenTransfers, InCoopOf, TransfersIn, ProcessingIn, InventoryIn, LotsIn;
    IssuedSlice(k, db.batches, db.transfers, issued, now);
  }

  lemma ConfirmableSlice(k: Id, db: DB, t: Id)
    requires t in db.transfers && InCoopOf(db.batches, k, db.transfers[t].batch)
    ensures Confirmable(Slice(k, db), t) <==> Confirmable(db, t)
  {
  }

  lemma BatchesOfSlice(k: Id, db: DB, ts: set<Id>)
    requires forall t :: t in ts ==> t in db.transfers && InCoopOf(db.batches, k, db.transfers[t].batch)
    ensures BatchesOf(Slice(k, db), ts) == BatchesOf(db, ts) && Leaving(Slice(k, db), ts) == Leaving(db, ts)
    ensures forall b :: b in BatchesOf(db, ts) ==> InCoopOf(db.batches, k, b)
  {
    assert forall t :: t in ts ==> t in Slice(k, db).transfers;
  }

  lemma ConfirmAllSlice(k: Id, db: DB, ts: set<Id>, now: Time)
    requires forall t :: t in ts ==> t in db.transfers && InCoopOf(db.batches, k, db.transfers[t].batch)
    ensures Slice(k, ConfirmAll(db, ts, now)) == ConfirmAll(Slice(k, db), ts, now)
  {
    hide BatchesOf, Leaving, CloseRows, ProcessingIn, InventoryIn, LotsIn;
    var n := ConfirmAll(db, ts, now);
    BatchesOfSlice(k, db, ts);
    ChildrenStay(k, db.batches, n.batches, n);
    CloseSlice(k, db.batches, db.inventory, Leaving(db, ts), now);
    assert TransfersIn(k, db.batches, n.transfers) == ConfirmAll(Slice(k, db), ts, now).transfers;
    assert BatchesIn(k, n.batches) == ConfirmAll(Slice(k, db), ts, now).batches;
  }

  lemma ConfirmSaleSlice(k: Id, db: DB, l: Id, ts: seq<Id>, now: Time)
    requires NoDuplicates(ts) && l in db.lots && db.lots[l].coop == k
    requires forall t :: t in ts ==> t in db.transfers && InCoopOf(db.batches, k, db.transfers[t].batch)
    ensures ConfirmSaleTx(Slice(k, db), l, ts, now).Ok? <==> ConfirmSaleTx(db, l, ts, now).Ok?
    ensures ConfirmSaleTx(db, l, ts, now).Ok? ==>
      ConfirmSaleTx(Slice(k, db), l, ts, now).value == Slice(k, ConfirmSaleTx(db, l, ts, now).value)
  {
    hide ConfirmSaleTx, ConfirmAll, Confirmable, NoDuplicates;
    var slice := Slice(k, db);
    ConfirmSaleExact(db, l, ts, now);
    ConfirmSaleExact(slice, l, ts, now);
    forall t | t in ts { ConfirmableSlice(k, db, t); }
    ConfirmAllSlice(k, db, Elements(ts), now);
    if ConfirmSaleTx(db, l, ts, now).Ok? {
      ConfirmAllCoops(db, Elements(ts), now);
      SoldLotSlice(k, db, ConfirmAll(db, Elements(ts), now), l);
    }
  }

  lemma SoldLotSlice(k: Id, db: DB, d: DB, l: Id)
    requires l in db.lots && db.lots[l].coop == k
    requires SameCoops(db.batches, d.batches)
    ensures Slice(k, d.(lots := db.lots[l := db.lots[l].(status := LotSold)]))
         == Slice(k, d).(lots := Slice(k, db).lots[l := Slice(k, db).lots[l].(status := LotSold)])
  {
    hide ProcessingIn, InventoryIn, TransfersIn, BatchesIn, DeliveriesIn;
    ChildrenStay(k, db.batches, d.batches, db);
    var lots := db.lots[l := db.lots[l].(status := LotSold)];
    assert LotsIn(k, db.batches, lots) == LotsIn(k, db.batches, db.lots)[l := LotsIn(k, db.batches, db.lots)[l].(status := LotSold)];
    ChildrenStay(k, db.batches, d.batches, db.(lots := lots));
  }

  lemma ConfirmAllCoops(db: DB, ts: set<Id>, now: Time)
    ensures SameCoops(db.batches, ConfirmAll(db, ts, now).batches)
  {
  }

  // ---------------------------------------------------------------------------
  // Creations
  // ---------------------------------------------------------------------------

  // A new batch has nothing hanging off it yet.
  lemma NewBatchChildren(k: Id, db: DB, b: Id, row: Batch)
    requires References(db) && b !in db.batches
    ensures ProcessingIn(k, db.batches[b := row], db.processing) == ProcessingIn(k, db.batches, db.processing)
    ensures InventoryIn(k, db.batches[b := row], db.inventory) == InventoryIn(k, db.batches, db.inventory)
    ensures TransfersIn(k, db.batches[b := row], db.transfers) == TransfersIn(k, db.batches, db.transfers)
    ensures LotsIn(k, db.batches[b := row], db.lots) == LotsIn(k, db.batches, db.lots)
  {
    hide DeliveriesRefer;
    var batches := db.batches[b := row];
    forall l | l in db.lots ensures MembersIn(k, batches, db.lots[l].members) == MembersIn(k, db.batches, db.lots[l].members) {}
  }

  lemma FarmerSlice(k: Id, farmers: map<Id, Farmer>, f: Id, row: Farmer)
    requires row.coop == k
    ensures FarmersIn(k, farmers[f := row]) == FarmersIn(k, farmers)[f := row]
  {
  }

  lemma WarehouseSlice(k: Id, warehouses: map<Id, Warehouse>, w: Id, row: Warehouse)
    requires row.coop == k
    ensures WarehousesIn(k, warehouses[w := row]) == WarehousesIn(k, warehouses)[w := row]
  {
  }

  lemma DeliverySlice(k: Id, deliveries: map<Id, Delivery>, d: Id, row: Delivery)
    requires row.coop == k
    ensures DeliveriesIn(k, deliveries[d := row]) == DeliveriesIn(k, deliveries)[d := row]
  {
  }

  lemma CreationSlice(k: Id, db: DB, task: Task, x: Supply)
    requires References(db) && TaskOf(db, k, task) && Supplies(db, task, x)
    requires task.AddFarmerTask? || task.DeleteFarmerTask? || task.AddWarehouseTask? || task.AddBatchTask? || task.AddDeliveryTask?
    ensures Finish(Slice(k, db), task, x).Ok? && Finish(db, task, x).Ok?
    ensures Slice(k, Finish(db, task, x).value) == Finish(Slice(k, db), task, x).value
  {
    match task
    case AddFarmerTask(_) =>
      hide References, FarmersIn, ProcessingIn, InventoryIn, TransfersIn, LotsIn;
      FarmerSlice(k, db.farmers, x.id, Farmer(k, false));
    case DeleteFarmerTask(f) =>
      hide References, ProcessingIn, InventoryIn, TransfersIn, LotsIn;
      FarmerSlice(k, db.farmers, f, db.farmers[f].(deleted := true));
    case AddWarehouseTask(_, capacity) =>
      hide References, WarehousesIn, ProcessingIn, InventoryIn, TransfersIn, LotsIn;
      WarehouseSlice(k, db.warehouses, x.id, Warehouse(k, capacity));
    case AddBatchTask(_) =>
      hide References, BatchesIn, ProcessingIn, InventoryIn, TransfersIn, LotsIn;
      NewBatchChildren(k, db, x.id, Batch(k, Registered, 0, false));
      BatchSlice(k, db.batches, x.id, Batch(k, Registered, 0, false));
    case AddDeliveryTask(f, _, weight) =>
      hide References, DeliveriesIn, ProcessingIn, InventoryIn, TransfersIn, LotsIn;
      DeliverySlice(k, db.deliveries, x.id, Delivery(f, k, weight, None));
    case _ =>
  }

  lemma LotSlice(k: Id, db: DB, l: Id, members: set<Id>)
    requires forall b :: b in members ==> InCoopOf(db.batches, k, b)
    ensures LotsIn(k, db.batches, db.lots[l := Lot(k, LotOpen, members)]) == LotsIn(k, db.batches, db.lots)[l := Lot(k, LotOpen, members)]
  {
    assert MembersIn(k, db.batches, members) == members;
  }

  lemma RemoveSlice(k: Id, db: DB, r: Id, now: Time)
    requires r in db.inventory && InCoopOf(db.batches, k, db.inventory[r].batch)
    ensures RemoveTx(Slice(k, db), r, now).Ok? && RemoveTx(db, r, now).Ok?
    ensures Slice(k, RemoveTx(db, r, now).value) == RemoveTx(Slice(k, db), r, now).value
  {
    InsertRowSlice(k, db.batches, db.inventory, r, db.inventory[r].(removedAt := Some(now)));
  }

  // What the platform supplies is as good for the slice: an id new to a table is new to a part of it.
  lemma SuppliesSlice(k: Id, db: DB, task: Task, x: Supply)
    requires Supplies(db, task, x)
    ensures Supplies(Slice(k, db), task, x)
  {
  }

  // Second phase: the transaction of a scoped caller has the same outcome under the policies as on
  // the whole tables, and what it leaves in view is the view of what it leaves.  Only the capacity
  // check of a store needs shelves that do not mix cooperatives.
  lemma FinishThroughPolicies(k: Id, db: DB, task: Task, x: Supply)
    requires References(db) && TaskOf(db, k, task) && Supplies(db, task, x)
    requires task.StoreTask? && task.capacity.Some? ==> InventoryWithinCoop(db)
    ensures Finish(Slice(k, db), task, x).Ok? <==> Finish(db, task, x).Ok?
    ensures Finish(db, task, x).Ok? ==> Finish(Slice(k, db), task, x).value == Slice(k, Finish(db, task, x).value)
  {
    hide References, InventoryWithinCoop, Slice, InCoopOf;
    hide AssignTx, ProcessTx, StoreTx, RemoveTx, Transition, ConfirmTx, ConfirmSaleTx, OpenTransfers;
    match task
    case AssignTask(b, ds) => AssignSlice(k, db, b, ds);
    case ProcessTask(b, seen) => ProcessSlice(k, db, b, seen, x.id, x.now);
    case StoreTask(w, b, weight, capacity, total) => StoreSlice(k, db, w, b, weight, capacity, total, x.id, x.now);
    case RemoveTask(r) => RemoveSlice(k, db, r, x.now);
    case UpdateStatusTask(b, s) => TransitionSlice(k, db, b, s, x.now);
    case OpenTransferTask(b) => OpenTransfersSlice(k, db, map[x.id := b], x.now);
    case ConfirmTransferTask(t) => ConfirmSlice(k, db, t, x.now);
    case AddLotTask(coop, members) => AddLotSlice(k, db, x.id, members);
    case SellLotTask(_, members) => OpenTransfersSlice(k, db, x.transferIds, x.now);
    case ConfirmLotTask(l, _) => ConfirmSaleSlice(k, db, l, x.order, x.now);
    case _ => CreationSlice(k, db, task, x);
  }

  lemma AddLotSlice(k: Id, db: DB, l: Id, members: set<Id>)
    requires forall b :: b in members ==> InCoopOf(db.batches, k, b)
    ensures Slice(k, db.(lots := db.lots[l := Lot(k, LotOpen, members)]))
         == Slice(k, db).(lots := Slice(k, db).lots[l := Lot(k, LotOpen, members)])
  {
    hide LotsIn;
    LotSlice(k, db, l, members);
  }

  // ---------------------------------------------------------------------------
  // Nothing happens elsewhere
  // ---------------------------------------------------------------------------

  lemma CloseElsewhere(j: Id, k: Id, batches: map<Id, Batch>, inventory: map<Id, InventoryRow>, bs: set<Id>, now: Time)
    requires j != k && forall b :: b in bs ==> InCoopOf(batches, k, b)
    ensures InventoryIn(j, batches, CloseRows(inventory, bs, now)) == InventoryIn(j, batches, inventory)
  {
  }

  lemma BatchElsewhere(j: Id, batches: map<Id, Batch>, b: Id, row: Batch)
    requires row.coop != j && (b in batches ==> batches[b].coop != j)
    ensures BatchesIn(j, batches[b := row]) == BatchesIn(j, batches)
  {
  }

  lemma TransitionElsewhere(j: Id, k: Id, db: DB, b: Id, s: Status, now: Time)
    requires j != k && InCoopOf(db.batches, k, b) && Transition(db, b, s, now).Ok?
    ensures Slice(j, Transition(db, b, s, now).value) == Slice(j, db)
  {
    hide BatchesIn, ProcessingIn, InventoryIn, TransfersIn, LotsIn, CloseRows, ProcessedBatches;
    var n := Transition(db, b, s, now).value;
    BatchElsewhere(j, db.batches, b, db.batches[b].(status := s));
    ChildrenStay(j, db.batches, n.batches, n);
    CloseElsewhere(j, k, db.batches, db.inventory, {b}, now);
  }

  lemma AssignElsewhere(j: Id, k: Id, db: DB, b: Id, ids: seq<Id>)
    requires j != k && InCoopOf(db.batches, k, b) && AssignTx(db, b, ids).Ok?
    ensures Slice(j, AssignTx(db, b, ids).value) == Slice(j, db)
  {
    hide BatchesIn, ProcessingIn, InventoryIn, TransfersIn, LotsIn, WeightsOf;
    var n, found := AssignTx(db, b, ids).value, EligibleDeliveries(db, b, ids);
    BatchElsewhere(j, db.batches, b, n.batches[b]);
    ChildrenStay(j, db.batches, n.batches, db);
    assert found <= Elements(ids);
    DistinctCount(ids);
    SubsetCount(found, Elements(ids));
    assert DeliveriesIn(j, AttachDeliveries(db.deliveries, b, found)) == DeliveriesIn(j, db.deliveries);
  }

  lemma RecordElsewhere(j: Id, k: Id, batches: map<Id, Batch>, processing: map<Id, Id>, record: Id, b: Id)
    requires j != k && InCoopOf(batches, k, b) && record !in processing
    ensures ProcessingIn(j, batches, processing[record := b]) == ProcessingIn(j, batches, processing)
  {
  }

  lemma ProcessElsewhere(j: Id, k: Id, db: DB, b: Id, seen: Status, record: Id, now: Time)
    requires j != k && InCoopOf(db.batches, k, b) && record !in db.processing && ProcessTx(db, b, seen, record, now).Ok?
    ensures Slice(j, ProcessTx(db, b, seen, record, now).value) == Slice(j, db)
  {
    hide ProcessingIn, InventoryIn, TransfersIn, LotsIn, Transition;
    var recorded := db.(processing := db.processing[record := b]);
    RecordElsewhere(j, k, db.batches, db.processing, record, b);
    if seen == Registered { TransitionElsewhere(j, k, recorded, b, InProcessing, now); }
  }

  lemma RowElsewhere(j: Id, k: Id, batches: map<Id, Batch>, inventory: map<Id, InventoryRow>, r: Id, row: InventoryRow)
    requires j != k && InCoopOf(batches, k, row.batch) && (r in inventory ==> InCoopOf(batches, k, inventory[r].batch))
    ensures InventoryIn(j, batches, inventory[r := row]) == InventoryIn(j, batches, inventory)
  {
  }

  lemma StoreElsewhere(j: Id, k: Id, db: DB, w: Id, b: Id, weight: nat, capacity: Option<nat>, total: nat, row: Id, now: Time)
    requires j != k && InCoopOf(db.batches, k, b) && row !in db.inventory
    requires StoreTx(db, w, b, weight, capacity, total, row, now).Ok?
    ensures Slice(j, StoreTx(db, w, b, weight, capacity, total, row, now).value) == Slice(j, db)
  {
    hide OpenLoad, HasOpenRow, ProcessingIn, InventoryIn, TransfersIn, LotsIn, ProcessedBatches;
    var stored := Transition(db, b, InStorage, now).value;
    TransitionElsewhere(j, k, db, b, InStorage, now);
    RowElsewhere(j, k, stored.batches, stored.inventory, row, InventoryRow(w, b, weight, now, None));
  }

  lemma StampElsewhere(j: Id, k: Id, batches: map<Id, Batch>, transfers: map<Id, Transfer>, t: Id, row: Transfer)
    requires j != k && t in transfers && InCoopOf(batches, k, row.batch) && transfers[t].batch == row.batch
    ensures TransfersIn(j, batches, transfers[t := row]) == TransfersIn(j, batches, transfers)
  {
  }

  lemma ConfirmElsewhere(j: Id, k: Id, db: DB, t: Id, now: Time)
    requires j != k && t in db.transfers && InCoopOf(db.batches, k, db.transfers[t].batch) && ConfirmTx(db, t, now).Ok?
    ensures Slice(j, ConfirmTx(db, t, now).value) == Slice(j, db)
  {
    hide InventoryIn, ProcessingIn, TransfersIn, LotsIn, Transition;
    var row := db.transfers[t].(status := Confirmed, transferredAt := now);
    StampElsewhere(j, k, db.batches, db.transfers, t, row);
    TransitionElsewhere(j, k, db.(transfers := db.transfers[t := row]), row.batch, Sold, now);
  }

  lemma OpenTransfersElsewhere(j: Id, k: Id, db: DB, issued: map<Id, Id>, now: Time)
    requires j != k && issued.Keys !! db.transfers.Keys && forall t :: t in issued ==> InCoopOf(db.batches, k, issued[t])
    ensures Slice(j, OpenTransfers(db, issued, now)) == Slice(j, db)
  {
    hide InventoryIn, ProcessingIn, LotsIn;
    assert TransfersIn(j, db.batches, OpenTransfers(db, issued, now).transfers) == TransfersIn(j, db.batches, db.transfers);
  }

  lemma ConfirmAllElsewhere(j: Id, k: Id, db: DB, ts: set<Id>, now: Time)
    requires j != k && forall t :: t in ts ==> t in db.transfers && InCoopOf(db.batches, k, db.transfers[t].batch)
    ensures Slice(j, ConfirmAll(db, ts, now)) == Slice(j, db)
  {
    hide BatchesOf, CloseRows, ProcessingIn, InventoryIn, LotsIn;
    var n := ConfirmAll(db, ts, now);
    BatchesOfSlice(k, db, ts);
    ChildrenStay(j, db.batches, n.batches, n);
    CloseElsewhere(j, k, db.batches, db.inventory, Leaving(db, ts), now);
    assert TransfersIn(j, db.batches, n.transfers) == TransfersIn(j, db.batches, db.transfers);
    assert BatchesIn(j, n.batches) == BatchesIn(j, db.batches);
  }

  lemma ConfirmSaleElsewhere(j: Id, k: Id, db: DB, l: Id, ts: seq<Id>, now: Time)
    requires j != k && NoDuplicates(ts) && l in db.lots && db.lots[l].coop == k
    requires forall t :: t in ts ==> t in db.transfers && InCoopOf(db.batches, k, db.transfers[t].batch)
    requires ConfirmSaleTx(db, l, ts, now).Ok?
    ensures Slice(j, ConfirmSaleTx(db, l, ts, now).value) == Slice(j, db)
  {
    hide ConfirmSaleTx, Confirmable, NoDuplicates, BatchesOf, CloseRows, Leaving, InventoryIn, ProcessingIn, TransfersIn, InCoopOf;
    var d := ConfirmAll(db, Elements(ts), now);
    ConfirmSaleExact(db, l, ts, now);
    ConfirmAllElsewhere(j, k, db, Elements(ts), now);
    assert LotsIn(j, d.batches, db.lots[l := db.lots[l].(status := LotSold)]) == LotsIn(j, d.batches, d.lots);
  }

  lemma CreationElsewhere(j: Id, k: Id, db: DB, task: Task, x: Supply)
    requires j != k && References(db) && TaskOf(db, k, task) && Supplies(db, task, x)
    requires task.AddFarmerTask? || task.DeleteFarmerTask? || task.AddWarehouseTask? || task.AddBatchTask? || task.AddDeliveryTask?
    ensures Slice(j, Finish(db, task, x).value) == Slice(j, db)
  {
    hide References, ProcessingIn, InventoryIn, TransfersIn, LotsIn;
    var n := Finish(db, task, x).value;
    if task.AddBatchTask? { NewBatchChildren(j, db, x.id, Batch(k, Registered, 0, false)); }
    assert FarmersIn(j, n.farmers) == FarmersIn(j, db.farmers);
    assert BatchesIn(j, n.batches) == BatchesIn(j, db.batches);
    assert WarehousesIn(j, n.warehouses) == WarehousesIn(j, db.warehouses);
    assert DeliveriesIn(j, n.deliveries) == DeliveriesIn(j, db.deliveries);
  }

  lemma AddLotElsewhere(j: Id, k: Id, db: DB, l: Id, lot: Lot)
    requires j != k && lot.coop == k && l !in db.lots
    ensures Slice(j, db.(lots := db.lots[l := lot])) == Slice(j, db)
  {
    hide InventoryIn, ProcessingIn, TransfersIn;
  }

  // A scoped caller's transaction leaves every other cooperative's rows exactly as they were.
  lemma FinishElsewhere(j: Id, k: Id, db: DB, task: Task, x: Supply)
    requires j != k && References(db) && TaskOf(db, k, task) && Supplies(db, task, x) && Finish(db, task, x).Ok?
    ensures Slice(j, Finish(db, task, x).value) == Slice(j, db)
  {
    hide References, Slice, InCoopOf;
    hide AssignTx, ProcessTx, StoreTx, Transition, ConfirmTx, ConfirmSaleTx, OpenTransfers;
    match task
    case AssignTask(b, ds) => AssignElsewhere(j, k, db, b, ds);
    case ProcessTask(b, seen) => ProcessElsewhere(j, k, db, b, seen, x.id, x.now);
    case StoreTask(w, b, weight, capacity, total) => StoreElsewhere(j, k, db, w, b, weight, capacity, total, x.id, x.now);
    case RemoveTask(r) => RemoveElsewhere(j, k, db, r, x.now);
    case UpdateStatusTask(b, s) => TransitionElsewhere(j, k, db, b, s, x.now);
    case OpenTransferTask(b) => OpenTransfersElsewhere(j, k, db, map[x.id := b], x.now);
    case ConfirmTransferTask(t) => ConfirmElsewhere(j, k, db, t, x.now);
    case AddLotTask(coop, members) => AddLotElsewhere(j, k, db, x.id, Lot(k, LotOpen, members));
    case SellLotTask(_, members) => OpenTransfersElsewhere(j, k, db, x.transferIds, x.now);
    case ConfirmLotTask(l, _) => ConfirmSaleElsewhere(j, k, db, l, x.order, x.now);
    case _ => CreationElsewhere(j, k, db, task, x);
  }

  lemma RemoveElsewhere(j: Id, k: Id, db: DB, r: Id, now: Time)
    requires j != k && r in db.inventory && InCoopOf(db.batches, k, db.inventory[r].batch)
    ensures Slice(j, RemoveTx(db, r, now).value) == Slice(j, db)
  {
    RowElsewhere(j, k, db.batches, db.inventory, r, db.inventory[r].(removedAt := Some(now)));
  }
}
