/**
 Reachable states that show what the custody rules do not rule out, built request by request from
 empty tables.
 */
module CustodyWitness {
  import opened Common
  import opened Seqs
  import opened Sums
  import opened CustodyModel
  import opened CustodyInvariant
  import opened CustodyLots
  import opened CustodySystem

  // ---------------------------------------------------------------------------
  // Runs, one request at a time
  // ---------------------------------------------------------------------------

  ghost predicate Reachable(s: System) {
    exists run: seq<System> :: IsRun(run) && run[|run| - 1] == s
  }

  lemma ReachableInv(s: System)
    requires Reachable(s)
    ensures Inv(s.db)
  {
    var run: seq<System> :| IsRun(run) && run[|run| - 1] == s;
    RunKeeps(run, |run| - 1);
  }

  lemma ReachStart()
    ensures Reachable(START)
  {
    assert IsRun([START]);
  }

  lemma ReachStep(s: System, a: Action, n: System)
    requires Reachable(s) && Next(s, a, n)
    ensures Reachable(n)
  {
    var run: seq<System> :| IsRun(run) && run[|run| - 1] == s;
    var longer := run + [n];
    assert Steps(s, n);
    forall i | 0 < i < |longer| ensures Steps(longer[i - 1], longer[i]) {
      if i < |run| { assert longer[i - 1] == run[i - 1] && longer[i] == run[i]; }
    }
    assert longer[|longer| - 1] == n;
  }

  // Nothing in flight.
  function Quiet(db: DB, unscoped: bool): System {
    System(db, multiset{}, unscoped)
  }

  // A request that arrives and finishes with nothing in between.
  lemma Serve(db: DB, unscoped: bool, who: Caller, q: Request, task: Task, x: Supply, n: DB)
    requires Reachable(Quiet(db, unscoped)) && Begin(db, who, q) == Ok(task)
    requires Supplies(db, task, x) && Finish(db, task, x) == Ok(n)
    ensures Reachable(Quiet(n, unscoped || who.superAdmin))
  {
    hide Reachable, Begin, Finish, Supplies;
    var between := System(db, multiset{task}, unscoped || who.superAdmin);
    assert multiset{} + multiset{task} == multiset{task};
    assert multiset{task} - multiset{task} == multiset{};
    assert Next(Quiet(db, unscoped), Arrive(who, q), between);
    ReachStep(Quiet(db, unscoped), Arrive(who, q), between);
    assert Next(between, Commit(task, x), Quiet(n, unscoped || who.superAdmin));
    ReachStep(between, Commit(task, x), Quiet(n, unscoped || who.superAdmin));
  }

  function Clerk(coop: Id): Caller { Caller(false, Some(coop)) }

  function At(now: Time, id: Id): Supply { Supply(now, id, map[], []) }

  // ---------------------------------------------------------------------------
  // A batch made ready for storage
  // ---------------------------------------------------------------------------

  lemma AssignOne(db: DB, b: Id, d: Id)
    requires b in db.batches && d in db.deliveries && db.deliveries[d].batch == None
    requires db.deliveries[d].coop == db.batches[b].coop
    ensures AssignTx(db, b, [d]) == Ok(db.(
      deliveries := db.deliveries[d := db.deliveries[d].(batch := Some(b))],
      batches := db.batches[b := db.batches[b].(weight := db.batches[b].weight + db.deliveries[d].weight)]))
  {
    assert EligibleDeliveries(db, b, [d]) == {d};
    assert Elements([d]) == {d};
    assert WeightsOf(db.deliveries, {d}) == map[][d := db.deliveries[d].weight];
    SumInsert(map[], d, db.deliveries[d].weight);
    assert AttachDeliveries(db.deliveries, b, {d}) == db.deliveries[d := db.deliveries[d].(batch := Some(b))];
  }

  function Prepared(db: DB, b: Id, d: Id): DB
    requires b in db.batches && d in db.deliveries
  {
    db.(deliveries := db.deliveries[d := db.deliveries[d].(batch := Some(b))],
        batches := db.batches[b := Batch(db.batches[b].coop, Processed, db.deliveries[d].weight, false)],
        processing := db.processing[b := b])
  }

  predicate Waits(db: DB, b: Id, d: Id) {
    && b in db.batches && db.batches[b] == Batch(db.batches[b].coop, Registered, 0, false) && b !in db.processing
    && d in db.deliveries && db.deliveries[d].batch == None && db.deliveries[d].coop == db.batches[b].coop
  }

  lemma ProcessOne(db: DB, b: Id)
    requires b in db.batches && !db.batches[b].deleted && db.batches[b].status == Registered
    ensures ProcessTx(db, b, Registered, b, 0) == Ok(db.(
      batches := db.batches[b := db.batches[b].(status := InProcessing)], processing := db.processing[b := b]))
  {
    var recorded := db.(processing := db.processing[b := b]);
    assert recorded.processing[b] == b;
    assert b in ProcessedBatches(recorded.processing);
  }

  lemma CompleteOne(db: DB, b: Id)
    requires b in db.batches && !db.batches[b].deleted && db.batches[b].status == InProcessing
    requires b in db.processing && db.processing[b] == b
    ensures UpdateStatusTx(db, b, Processed, 0) == Ok(db.(batches := db.batches[b := db.batches[b].(status := Processed)]))
  {
    assert b in ProcessedBatches(db.processing);
  }

  // Assign, process, complete.
  lemma Prepare(db: DB, b: Id, d: Id)
    requires Reachable(Quiet(db, false)) && Waits(db, b, d)
    ensures Reachable(Quiet(Prepared(db, b, d), false))
  {
    hide Reachable, AssignTx, ProcessTx, UpdateStatusTx;
    var who := Clerk(db.batches[b].coop);
    var filled := db.(deliveries := db.deliveries[d := db.deliveries[d].(batch := Some(b))],
                      batches := db.batches[b := Batch(db.batches[b].coop, Registered, db.deliveries[d].weight, false)]);
    AssignOne(db, b, d);
    Serve(db, false, who, Assign(b, [d]), AssignTask(b, [d]), At(0, 0), filled);
    ProcessAndComplete(filled, b);
    assert filled.batches[b := Batch(db.batches[b].coop, Processed, db.deliveries[d].weight, false)]
        == db.batches[b := Batch(db.batches[b].coop, Processed, db.deliveries[d].weight, false)];
  }

  lemma ProcessAndComplete(db: DB, b: Id)
    requires Reachable(Quiet(db, false)) && b in db.batches && b !in db.processing
    requires !db.batches[b].deleted && db.batches[b].status == Registered
    ensures Reachable(Quiet(
      db.(batches := db.batches[b := db.batches[b].(status := Processed)], processing := db.processing[b := b]), false))
  {
    hide Reachable, AssignTx, ProcessTx, UpdateStatusTx;
    var who := Clerk(db.batches[b].coop);
    ProcessOne(db, b);
    var started := ProcessTx(db, b, Registered, b, 0).value;
    Serve(db, false, who, Process(b), ProcessTask(b, Registered), At(0, b), started);
    CompleteOne(started, b);
    var done := UpdateStatusTx(started, b, Processed, 0).value;
    Serve(started, false, who, UpdateStatus(b, Processed), UpdateStatusTask(b, Processed), At(0, 0), done);
    assert done.batches == db.batches[b := db.batches[b].(status := Processed)];
  }

  // ---------------------------------------------------------------------------
  // Two batches of 10, ready for storage
  // ---------------------------------------------------------------------------

  // Batch 1 belongs to cooperative 1, as does the warehouse; batch 2 belongs to cooperative k.
  function Delivered(k: Id, capacity: nat): DB {
    DB(map[1 := Farmer(1, false), 2 := Farmer(k, false)],
       map[1 := Batch(1, Registered, 0, false), 2 := Batch(k, Registered, 0, false)],
       map[1 := Delivery(1, 1, 10, None), 2 := Delivery(2, k, 10, None)],
       map[], map[1 := Warehouse(1, Some(capacity))], map[], map[], map[])
  }

  function TwoBatches(k: Id, capacity: nat): DB {
    Delivered(k, capacity).(
      batches := map[1 := Batch(1, Processed, 10, false), 2 := Batch(k, Processed, 10, false)],
      deliveries := map[1 := Delivery(1, 1, 10, Some(1)), 2 := Delivery(2, k, 10, Some(2))],
      processing := map[1 := 1, 2 := 2])
  }

  lemma ReachDelivered(k: Id, capacity: nat)
    ensures Reachable(Quiet(Delivered(k, capacity), false))
  {
    hide Reachable;
    ReachStart();
    var a := EMPTY.(farmers := EMPTY.farmers[1 := Farmer(1, false)]);
    Serve(EMPTY, false, Clerk(1), AddFarmer(1), AddFarmerTask(1), At(0, 1), a);
    var b := a.(farmers := a.farmers[2 := Farmer(k, false)]);
    Serve(a, false, Clerk(k), AddFarmer(k), AddFarmerTask(k), At(0, 2), b);
    var c := b.(warehouses := b.warehouses[1 := Warehouse(1, Some(capacity))]);
    Serve(b, false, Clerk(1), AddWarehouse(1, Some(capacity)), AddWarehouseTask(1, Some(capacity)), At(0, 1), c);
    ReachDeliveries(k, c);
    assert Delivered(k, capacity) == WithDeliveries(k, c);
  }

  function WithDeliveries(k: Id, db: DB): DB {
    db.(batches := db.batches[1 := Batch(1, Registered, 0, false)][2 := Batch(k, Registered, 0, false)],
        deliveries := db.deliveries[1 := Delivery(1, 1, 10, None)][2 := Delivery(2, k, 10, None)])
  }

  lemma ReachDeliveries(k: Id, db: DB)
    requires Reachable(Quiet(db, false)) && db.batches == map[] && db.deliveries == map[]
    requires db.farmers == map[1 := Farmer(1, false), 2 := Farmer(k, false)]
    ensures Reachable(Quiet(WithDeliveries(k, db), false))
  {
    hide Reachable;
    var a := db.(batches := db.batches[1 := Batch(1, Registered, 0, false)]);
    Serve(db, false, Clerk(1), AddBatch(1), AddBatchTask(1), At(0, 1), a);
    var b := a.(batches := a.batches[2 := Batch(k, Registered, 0, false)]);
    Serve(a, false, Clerk(k), AddBatch(k), AddBatchTask(k), At(0, 2), b);
    var c := b.(deliveries := b.deliveries[1 := Delivery(1, 1, 10, None)]);
    Serve(b, false, Clerk(1), AddDelivery(1, 1, 10), AddDeliveryTask(1, 1, 10), At(0, 1), c);
    var d := c.(deliveries := c.deliveries[2 := Delivery(2, k, 10, None)]);
    Serve(c, false, Clerk(k), AddDelivery(2, k, 10), AddDeliveryTask(2, k, 10), At(0, 2), d);
  }

  lemma ReachTwoBatches(k: Id, capacity: nat)
    ensures Reachable(Quiet(TwoBatches(k, capacity), false))
  {
    hide Reachable;
    var db := Delivered(k, capacity);
    ReachDelivered(k, capacity);
    Prepare(db, 1, 1);
    var half := Prepared(db, 1, 1);
    Prepare(half, 2, 2);
    assert Prepared(half, 2, 2) == TwoBatches(k, capacity);
  }

  // ---------------------------------------------------------------------------
  // Storing
  // ---------------------------------------------------------------------------

  function Stored(db: DB, b: Id): DB
    requires b in db.batches
  {
    db.(batches := db.batches[b := db.batches[b].(status := InStorage)],
        inventory := db.inventory[b := InventoryRow(1, b, 10, 0, None)])
  }

  lemma StoreOne(db: DB, b: Id, capacity: nat)
    requires b in db.batches && !db.batches[b].deleted && db.batches[b].status == Processed && db.batches[b].weight == 10
    requires b !in db.inventory && !HasOpenRow(db.inventory, b) && OpenLoad(db.inventory, 1) + 10 <= capacity
    ensures StoreTx(db, 1, b, 10, Some(capacity), 10, b, 0) == Ok(Stored(db, b))
    ensures OpenLoad(Stored(db, b).inventory, 1) == OpenLoad(db.inventory, 1) + 10
  {
    hide HasOpenRow, Sum;
    StoringLoads(db.inventory, b, InventoryRow(1, b, 10, 0, None), 1);
  }

  lemma ReachStored(db: DB, unscoped: bool, who: Caller, b: Id, capacity: nat)
    requires Reachable(Quiet(db, unscoped))
    requires 1 in db.warehouses && db.warehouses[1] == Warehouse(1, Some(capacity)) && Owns(who, 1)
    requires b in db.batches && Owns(who, db.batches[b].coop)
    requires db.batches[b] == Batch(db.batches[b].coop, Processed, 10, false)
    requires b !in db.inventory && !HasOpenRow(db.inventory, b) && OpenLoad(db.inventory, 1) + 10 <= capacity
    ensures Reachable(Quiet(Stored(db, b), unscoped || who.superAdmin))
  {
    hide Reachable, HasOpenRow, OpenLoad, StoreTx, Stored;
    StoreOne(db, b, capacity);
    Serve(db, unscoped, who, Store(1, b, 10), StoreTask(1, b, 10, Some(capacity), 10), At(0, b), Stored(db, b));
  }

  // ---------------------------------------------------------------------------
  // A lot half sold
  // ---------------------------------------------------------------------------

  function Shelved(): DB {
    TwoBatches(1, 20).(
      batches := map[1 := Batch(1, InStorage, 10, false), 2 := Batch(1, InStorage, 10, false)],
      inventory := map[1 := InventoryRow(1, 1, 10, 0, None), 2 := InventoryRow(1, 2, 10, 0, None)])
  }

  // Both batches on the shelf and in a lot; batch 1 got a transfer of its own, and the lot was
  // never put up for sale.
  function HalfSoldLot(): DB {
    Shelved().(lots := map[1 := Lot(1, LotOpen, {1, 2})], transfers := map[1 := Transfer(1, Pending, 0)])
  }

  lemma ReachShelved()
    ensures Reachable(Quiet(Shelved(), false))
  {
    hide Reachable, Sum;
    var db := TwoBatches(1, 20);
    ReachTwoBatches(1, 20);
    assert OpenWeights(db.inventory, 1) == map[];
    NothingWeighsNothing();
    ReachStored(db, false, Clerk(1), 1, 20);
    StoreOne(db, 1, 20);
    assert !HasOpenRow(Stored(db, 1).inventory, 2);
    ReachStored(Stored(db, 1), false, Clerk(1), 2, 20);
    assert Stored(Stored(db, 1), 2) == Shelved();
  }

  lemma NothingWeighsNothing()
    ensures Sum<Id>(map[]) == 0
  {
  }

  lemma LotAccepted()
    ensures Begin(Shelved(), Clerk(1), AddLot([1, 2])) == Ok(AddLotTask(1, {1, 2}))
  {
    var db, ids := Shelved(), [1, 2];
    assert Elements(ids) == {1, 2} by { assert ids[0] == 1 && ids[1] == 2; }
    assert NoDuplicates(ids);
    forall b | b in ids ensures Live(db, b) && Owns(Clerk(1), db.batches[b].coop) && !HasStatus(db, b, {Sold, Exported, Rejected}) {
      assert b == 1 || b == 2;
    }
    assert db.batches[ids[0]].coop == 1;
  }

  lemma ReachHalfSoldLot()
    ensures Reachable(Quiet(HalfSoldLot(), false))
  {
    hide Reachable;
    var db := Shelved();
    ReachShelved();
    LotAccepted();
    var lotted := db.(lots := db.lots[1 := Lot(1, LotOpen, {1, 2})]);
    Serve(db, false, Clerk(1), AddLot([1, 2]), AddLotTask(1, {1, 2}), At(0, 1), lotted);
    assert OpenTransfers(lotted, map[1 := 1], 0) == HalfSoldLot();
    Serve(lotted, false, Clerk(1), OpenTransfer(1), OpenTransferTask(1), At(0, 1), HalfSoldLot());
  }

  lemma HalfSoldLotAsked(who: Caller)
    requires Owns(who, 1)
    ensures Begin(HalfSoldLot(), who, ConfirmLot(1)) == Ok(ConfirmLotTask(1, {1}))
  {
    assert PendingOf(HalfSoldLot(), {1, 2}) == {1};
  }

  lemma HalfSoldLotConfirmed()
    ensures NoDuplicates([1]) && Elements([1]) == {1}
    ensures var r := ConfirmSaleTx(HalfSoldLot(), 1, [1], 5);
      r.Ok? && 1 in r.value.lots && r.value.lots[1].status == LotSold && IsSold(r.value, 1) && !IsSold(r.value, 2)
  {
    hide ConfirmSaleTx, CloseRows;
    var db := HalfSoldLot();
    assert Elements([1]) == {1};
    assert Confirmable(db, 1);
    ConfirmSaleExact(db, 1, [1], 5);
    assert BatchesOf(db, {1}) == {1};
  }

  // A lot may be marked SOLD with a member still on the shelf: from this reachable state its
  // confirmation is accepted, commits, and leaves batch 2 where it was.
  lemma LotSoldWithoutEveryMember(who: Caller)
    requires Owns(who, 1)
    ensures Reachable(Quiet(HalfSoldLot(), false))
    ensures Begin(HalfSoldLot(), who, ConfirmLot(1)) == Ok(ConfirmLotTask(1, {1}))
    ensures var x := Supply(5, 0, map[], [1]); var r := Finish(HalfSoldLot(), ConfirmLotTask(1, {1}), x);
      && Supplies(HalfSoldLot(), ConfirmLotTask(1, {1}), x)
      && r.Ok? && 1 in r.value.lots && r.value.lots[1].status == LotSold
      && IsSold(r.value, 1) && !IsSold(r.value, 2)
  {
    HalfSoldLotAsked(who);
    HalfSoldLotConfirmed();
    hide Reachable, Begin, ConfirmSaleTx, HalfSoldLot;
    ReachHalfSoldLot();
  }

  // ---------------------------------------------------------------------------
  // From the shelf to export
  // ---------------------------------------------------------------------------

  // Batch 1 of the shelf with a pending transfer, on the road, sold and shipped.
  function Travelled(s: Status, transfer: TransferStatus): DB {
    HalfSoldLot().(batches := HalfSoldLot().batches[1 := Batch(1, s, 10, false)],
                   inventory := HalfSoldLot().inventory[1 := InventoryRow(1, 1, 10, 0, Some(3))],
                   transfers := map[1 := Transfer(1, transfer, if transfer == Pending then 0 else 4)])
  }

  lemma Rewritten(a: Batch, b: Batch)
    ensures HalfSoldLot().batches[1 := a][1 := b] == HalfSoldLot().batches[1 := b]
  {
  }

  lemma Departs()
    ensures UpdateStatusTx(HalfSoldLot(), 1, InTransit, 3) == Ok(Travelled(InTransit, Pending))
  {
    assert CloseRows(HalfSoldLot().inventory, {1}, 3) == Travelled(InTransit, Pending).inventory;
  }

  lemma Sells()
    ensures ConfirmTx(Travelled(InTransit, Pending), 1, 4) == Ok(Travelled(Sold, Confirmed))
  {
    var db := Travelled(InTransit, Pending);
    Rewritten(Batch(1, InTransit, 10, false), Batch(1, Sold, 10, false));
    assert CloseRows(db.inventory, {1}, 4) == db.inventory;
    assert db.transfers[1 := Transfer(1, Confirmed, 4)] == Travelled(Sold, Confirmed).transfers;
  }

  lemma Ships()
    ensures UpdateStatusTx(Travelled(Sold, Confirmed), 1, Exported, 5) == Ok(Travelled(Exported, Confirmed))
  {
    Rewritten(Batch(1, Sold, 10, false), Batch(1, Exported, 10, false));
  }

  lemma ReachMove(db: DB, s: Status, now: Time, n: DB)
    requires Reachable(Quiet(db, false)) && Live(db, 1) && db.batches[1].coop == 1 && UpdateStatusTx(db, 1, s, now) == Ok(n)
    ensures Reachable(Quiet(n, false))
  {
    hide Reachable, UpdateStatusTx;
    Serve(db, false, Clerk(1), UpdateStatus(1, s), UpdateStatusTask(1, s), At(now, 0), n);
  }

  lemma ReachConfirm(db: DB, now: Time, n: DB)
    requires Reachable(Quiet(db, false)) && 1 in db.transfers && db.transfers[1].status == Pending
    requires db.transfers[1].batch in db.batches && db.batches[db.transfers[1].batch].coop == 1 && ConfirmTx(db, 1, now) == Ok(n)
    ensures Reachable(Quiet(n, false))
  {
    hide Reachable, ConfirmTx;
    Serve(db, false, Clerk(1), ConfirmTransfer(1), ConfirmTransferTask(1), At(now, 0), n);
  }

  lemma BatchesOfLot()
    ensures Live(HalfSoldLot(), 1) && HalfSoldLot().batches[1].coop == 1
  {
  }

  lemma BatchOneIs(s: Status, t: TransferStatus)
    ensures var db := Travelled(s, t); 1 in db.batches && db.batches[1] == Batch(1, s, 10, false) && 1 in db.transfers
  {
  }

  // A run takes a batch all the way: stored, in transit, sold, exported.
  lemma ReachExported()
    ensures Reachable(Quiet(Travelled(InTransit, Pending), false))
    ensures Reachable(Quiet(Travelled(Sold, Confirmed), false))
    ensures Reachable(Quiet(Travelled(Exported, Confirmed), false))
  {
    hide Reachable, UpdateStatusTx, ConfirmTx, HalfSoldLot;
    var a, b, c := Travelled(InTransit, Pending), Travelled(Sold, Confirmed), Travelled(Exported, Confirmed);
    ReachHalfSoldLot();
    Departs();
    BatchOneIs(InTransit, Pending);
    BatchOneIs(Sold, Confirmed);
    assert Live(HalfSoldLot(), 1) && HalfSoldLot().batches[1].coop == 1 by { BatchesOfLot(); }
    ReachMove(HalfSoldLot(), InTransit, 3, a);
    Sells();
    ReachConfirm(a, 4, b);
    Ships();
    ReachMove(b, Exported, 5, c);
  }
}
