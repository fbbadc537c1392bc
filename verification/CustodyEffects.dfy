/**
 What every transaction body does: when it goes through, and the tables it leaves, column by column.
 */
module CustodyEffects {
  import opened Common
  import opened Seqs
  import opened Sums
  import opened CustodyModel
  import opened CustodyInvariant
  import opened CustodyKeeps
  import opened CustodySystem

  // ---------------------------------------------------------------------------
  // Status
  // ---------------------------------------------------------------------------

  // The arrows of the lifecycle, written out.
  const LIFECYCLE: set<(Status, Status)> := {
    (Registered, InProcessing), (Registered, Rejected),
    (InProcessing, Processed), (InProcessing, Rejected),
    (Processed, InStorage), (Processed, Rejected),
    (InStorage, InTransit), (InStorage, Sold), (InStorage, Rejected),
    (InTransit, Sold), (InTransit, InStorage),
    (Sold, Exported)
  }

  // The batch is there, and has the status already or may move to it with its records in place.
  predicate MayBecome(db: DB, b: Id, s: Status) {
    && b in db.batches && !db.batches[b].deleted
    && (db.batches[b].status == s
        || ((db.batches[b].status, s) in LIFECYCLE
            && (s in {InProcessing, Processed} ==> exists r :: r in db.processing && db.processing[r] == b)))
  }

  // `n` is `db` with the status of b written, and its open rows closed if that takes it off the shelf.
  predicate StatusWritten(db: DB, n: DB, b: Id, s: Status, now: Time)
    requires b in db.batches
  {
    && n == db.(batches := n.batches, inventory := n.inventory)
    && n.batches == db.batches[b := db.batches[b].(status := s)]
    && n.inventory.Keys == db.inventory.Keys
    && forall r :: r in db.inventory ==> n.inventory[r] == RowAfter(db.inventory[r], db.batches[b].status, b, s, now)
  }

  function RowAfter(row: InventoryRow, was: Status, b: Id, s: Status, now: Time): InventoryRow {
    if was != s && s in {InTransit, Sold, Rejected} && row.batch == b && row.removedAt == None
    then row.(removedAt := Some(now)) else row
  }

  lemma Arrows(s: Status, s': Status)
    ensures s' in Allowed(s) <==> (s, s') in LIFECYCLE
  {
  }

  lemma Recorded(db: DB, b: Id)
    ensures b in ProcessedBatches(db.processing) <==> exists r :: r in db.processing && db.processing[r] == b
  {
    if b in ProcessedBatches(db.processing) {
      var r :| r in db.processing && db.processing[r] == b;
    }
  }

  lemma SetStatusWrites(db: DB, b: Id, s: Status, now: Time)
    requires b in db.batches
    ensures db.batches[b].status != s ==> StatusWritten(db, SetStatus(db, b, s, now), b, s, now)
    ensures db.batches[b].status == s ==> StatusWritten(db, db, b, s, now)
  {
    assert db.batches[b].status == s ==> db.batches[b := db.batches[b].(status := s)] == db.batches;
  }

  lemma TransitionExactly(db: DB, b: Id, s: Status, now: Time)
    ensures Transition(db, b, s, now).Ok? <==> MayBecome(db, b, s)
    ensures Transition(db, b, s, now).Ok? ==> StatusWritten(db, Transition(db, b, s, now).value, b, s, now)
    ensures Transition(db, b, s, now).Err? ==>
      Transition(db, b, s, now).error == if b in db.batches && !db.batches[b].deleted then BadRequest else NotFound
  {
    hide SetStatus, StatusWritten, Allowed, ProcessedBatches;
    if b in db.batches {
      Arrows(db.batches[b].status, s);
      SetStatusWrites(db, b, s, now);
    }
    Recorded(db, b);
  }

  // The status endpoint: the same, but never to SOLD or IN_STORAGE, not even from there.
  lemma UpdateStatusExactly(db: DB, b: Id, s: Status, now: Time)
    ensures UpdateStatusTx(db, b, s, now).Ok? <==> s !in {Sold, InStorage} && MayBecome(db, b, s)
    ensures UpdateStatusTx(db, b, s, now).Ok? ==> StatusWritten(db, UpdateStatusTx(db, b, s, now).value, b, s, now)
  {
    hide Transition, MayBecome, StatusWritten;
    TransitionExactly(db, b, s, now);
  }

  // ---------------------------------------------------------------------------
  // Deliveries and processing
  // ---------------------------------------------------------------------------

  function WeightsNamed(deliveries: map<Id, Delivery>, ids: seq<Id>): map<Id, nat> {
    map d | d in ids && d in deliveries :: deliveries[d].weight
  }

  // An assignment, delivery by delivery.
  lemma AssignExactly(db: DB, b: Id, ids: seq<Id>)
    ensures AssignTx(db, b, ids).Ok? <==>
      && b in db.batches && NoDuplicates(ids)
      && forall d :: d in ids ==>
           d in db.deliveries && db.deliveries[d].batch == None && db.deliveries[d].coop == db.batches[b].coop
    ensures AssignTx(db, b, ids).Ok? ==>
      var n := AssignTx(db, b, ids).value;
      && n == db.(batches := n.batches, deliveries := n.deliveries)
      && n.deliveries.Keys == db.deliveries.Keys
      && (forall d :: d in db.deliveries ==>
            n.deliveries[d] == if d in ids then db.deliveries[d].(batch := Some(b)) else db.deliveries[d])
      && n.batches.Keys == db.batches.Keys
      && (forall c :: c in db.batches && c != b ==> n.batches[c] == db.batches[c])
      && n.batches[b].(weight := db.batches[b].weight) == db.batches[b]
      && n.batches[b].weight == db.batches[b].weight + Sum(WeightsNamed(db.deliveries, ids))
  {
    hide AssignTx, Attach;
    AssignAccepted(db, b, ids);
    if AssignTx(db, b, ids).Ok? { AttachExactly(db, b, ids); }
  }

  lemma AttachExactly(db: DB, b: Id, ids: seq<Id>)
    requires b in db.batches && Elements(ids) <= db.deliveries.Keys
    ensures var n := Attach(db, b, Elements(ids));
      && n == db.(batches := n.batches, deliveries := n.deliveries)
      && n.deliveries.Keys == db.deliveries.Keys
      && (forall d :: d in db.deliveries ==>
            n.deliveries[d] == if d in ids then db.deliveries[d].(batch := Some(b)) else db.deliveries[d])
      && n.batches.Keys == db.batches.Keys
      && (forall c :: c in db.batches && c != b ==> n.batches[c] == db.batches[c])
      && n.batches[b].(weight := db.batches[b].weight) == db.batches[b]
      && n.batches[b].weight == db.batches[b].weight + Sum(WeightsNamed(db.deliveries, ids))
  {
    hide Sum;
    assert WeightsOf(db.deliveries, Elements(ids)) == WeightsNamed(db.deliveries, ids);
  }

  // The record, and the one transition that goes with it when the batch was read as REGISTERED.
  lemma ProcessExactly(db: DB, b: Id, seen: Status, record: Id, now: Time)
    requires record !in db.processing && b in db.batches
    ensures ProcessTx(db, b, seen, record, now).Ok? <==>
      (seen == Registered ==> !db.batches[b].deleted && db.batches[b].status in {Registered, InProcessing})
    ensures ProcessTx(db, b, seen, record, now).Ok? ==>
      var n := ProcessTx(db, b, seen, record, now).value;
      n == db.(processing := db.processing[record := b],
               batches := if seen == Registered then db.batches[b := db.batches[b].(status := InProcessing)] else db.batches)
  {
    hide Transition, SetStatus;
    var recorded := db.(processing := db.processing[record := b]);
    assert recorded.processing[record] == b;
    TransitionExactly(recorded, b, InProcessing, now);
    if seen == Registered && ProcessTx(db, b, seen, record, now).Ok? {
      assert ProcessTx(db, b, seen, record, now).value.inventory == db.inventory;
    }
  }

  // ---------------------------------------------------------------------------
  // Shelves
  // ---------------------------------------------------------------------------

  // A store goes through when the batch is on no shelf, the weight is within the total and the space
  // left, and the batch may be IN_STORAGE; it adds one open row.
  lemma StoreExactly(db: DB, w: Id, b: Id, weight: nat, capacity: Option<nat>, total: nat, row: Id, now: Time)
    requires row !in db.inventory
    ensures var q := StoreTx(db, w, b, weight, capacity, total, row, now);
      && (q.Ok? <==>
            && (forall r :: r in db.inventory && db.inventory[r].batch == b ==> db.inventory[r].removedAt.Some?)
            && weight <= total
            && (capacity.Some? ==> OpenLoad(db.inventory, w) + weight <= capacity.value)
            && b in db.batches && !db.batches[b].deleted && db.batches[b].status in {Processed, InTransit, InStorage})
      && (q.Ok? ==> q.value == db.(
            batches := db.batches[b := db.batches[b].(status := InStorage)],
            inventory := db.inventory[row := InventoryRow(w, b, weight, now, None)]))
  {
    hide Transition, OpenLoad;
    TransitionExactly(db, b, InStorage, now);
    NoOpenRow(db.inventory, b);
    hide HasOpenRow;
    if Transition(db, b, InStorage, now).Ok? {
      assert Transition(db, b, InStorage, now).value.inventory == db.inventory;
    }
  }

  lemma NoOpenRow(inventory: map<Id, InventoryRow>, b: Id)
    ensures !HasOpenRow(inventory, b) <==> forall r :: r in inventory && inventory[r].batch == b ==> inventory[r].removedAt.Some?
  {
    if !HasOpenRow(inventory, b) {
      forall r | r in inventory && inventory[r].batch == b ensures inventory[r].removedAt.Some? {
        assert r !in OpenRows(inventory);
      }
    }
  }

  // Closing a row takes it off its shelf and no other, and its weight off the load of its warehouse.
  lemma ClosedRow(m: map<Id, InventoryRow>, r: Id, now: Time, w: Id)
    requires r in m
    ensures var n := m[r := m[r].(removedAt := Some(now))];
      && OpenRows(n) == OpenRows(m) - {r}
      && OpenLoad(n, w) + (if r in OpenRows(m) && m[r].warehouse == w then m[r].weight else 0) == OpenLoad(m, w)
  {
    var n := m[r := m[r].(removedAt := Some(now))];
    if r in OpenRows(m) && m[r].warehouse == w {
      SumRemove(OpenWeights(m, w), r);
      assert OpenWeights(m, w) - {r} == OpenWeights(n, w);
    } else {
      assert OpenWeights(n, w) == OpenWeights(m, w);
    }
  }

  // A check-out goes through for every row, stamps it, and touches nothing else.
  lemma RemoveExactly(db: DB, r: Id, x: Supply)
    requires r in db.inventory
    ensures Finish(db, RemoveTask(r), x).Ok?
    ensures var n := Finish(db, RemoveTask(r), x).value;
      && n == db.(inventory := n.inventory)
      && n.inventory.Keys == db.inventory.Keys
      && n.inventory[r] == db.inventory[r].(removedAt := Some(x.now))
      && (forall q :: q in db.inventory && q != r ==> n.inventory[q] == db.inventory[q])
      && OpenRows(n.inventory) == OpenRows(db.inventory) - {r}
  {
    ClosedRow(db.inventory, r, x.now, 0);
  }

  // What that frees: the row's weight in its warehouse, and the batch for another shelf.
  lemma RemoveFrees(db: DB, r: Id, x: Supply)
    requires Inv(db) && r in db.inventory
    ensures var n, row := Finish(db, RemoveTask(r), x).value, db.inventory[r];
      && OpenLoad(n.inventory, row.warehouse) + (if row.removedAt == None then row.weight else 0)
         == OpenLoad(db.inventory, row.warehouse)
      && (row.removedAt == None ==> forall q :: q in n.inventory && n.inventory[q].batch == row.batch ==> n.inventory[q].removedAt.Some?)
  {
    hide WithinCapacity, WeightsConserved, EvidenceOfProcessing, EvidenceOfStorage, SoldAgrees, References;
    hide OpenRowsInStorage, RowsWithinBatch, OpenLoad;
    var row := db.inventory[r];
    ClosedRow(db.inventory, r, x.now, row.warehouse);
    if row.removedAt == None {
      forall q | q in db.inventory && q != r && db.inventory[q].batch == row.batch ensures db.inventory[q].removedAt.Some? {
        assert r in OpenRows(db.inventory);
        assert q !in OpenRows(db.inventory);
      }
    }
  }

  // A checked-out batch may be stored again in a warehouse with room for it.
  lemma RestoredAfterRemoval(db: DB, r: Id, x: Supply, w: Id, weight: nat, capacity: Option<nat>, row: Id, now: Time)
    requires Inv(db) && r in db.inventory && db.inventory[r].removedAt == None && row !in db.inventory
    requires var b := db.inventory[r].batch; b in db.batches && !db.batches[b].deleted && weight <= db.batches[b].weight
    requires capacity.Some? ==> OpenLoad(Finish(db, RemoveTask(r), x).value.inventory, w) + weight <= capacity.value
    ensures var n, b := Finish(db, RemoveTask(r), x).value, db.inventory[r].batch;
      StoreTx(n, w, b, weight, capacity, db.batches[b].weight, row, now).Ok?
  {
    OnShelf(db, r);
    RemoveFrees(db, r, x);
    RemoveExactly(db, r, x);
    hide Inv, OpenLoad, Finish;
    var n, b := Finish(db, RemoveTask(r), x).value, db.inventory[r].batch;
    StoreExactly(n, w, b, weight, capacity, db.batches[b].weight, row, now);
  }

  lemma OnShelf(db: DB, r: Id)
    requires Inv(db) && r in db.inventory && db.inventory[r].removedAt == None
    ensures db.inventory[r].batch in db.batches && db.batches[db.inventory[r].batch].status == InStorage
  {
    assert r in OpenRows(db.inventory);
  }

  // ---------------------------------------------------------------------------
  // Transfers
  // ---------------------------------------------------------------------------

  // One confirmation: the transfer stamped, its batch SOLD and off the shelf.
  lemma ConfirmExactly(db: DB, t: Id, now: Time)
    ensures ConfirmTx(db, t, now).Ok? <==>
      && t in db.transfers && db.transfers[t].status == Pending
      && db.transfers[t].batch in db.batches && !db.batches[db.transfers[t].batch].deleted
      && db.batches[db.transfers[t].batch].status in {InStorage, InTransit, Sold}
    ensures ConfirmTx(db, t, now).Ok? ==>
      StatusWritten(db.(transfers := db.transfers[t := Transfer(db.transfers[t].batch, Confirmed, now)]),
                    ConfirmTx(db, t, now).value, db.transfers[t].batch, Sold, now)
  {
    if t in db.transfers {
      var stamped := db.(transfers := db.transfers[t := Transfer(db.transfers[t].batch, Confirmed, now)]);
      TransitionExactly(stamped, db.transfers[t].batch, Sold, now);
      hide Transition, StatusWritten;
    }
  }

  // Opening transfers adds one PENDING row per id, for its batch, and changes nothing else.
  lemma OpenExactly(db: DB, issued: map<Id, Id>, now: Time)
    requires issued.Keys !! db.transfers.Keys
    ensures var n := OpenTransfers(db, issued, now);
      && n == db.(transfers := n.transfers)
      && n.transfers.Keys == db.transfers.Keys + issued.Keys
      && (forall t :: t in db.transfers ==> n.transfers[t] == db.transfers[t])
      && (forall t :: t in issued ==> n.transfers[t] == Transfer(issued[t], Pending, now))
  {
  }

  // ---------------------------------------------------------------------------
  // Creations
  // ---------------------------------------------------------------------------

  ghost predicate Adds<V(!new)>(m: map<Id, V>, n: map<Id, V>, k: Id, v: V) {
    && n.Keys == m.Keys + {k} && n[k] == v
    && forall j :: j in m && j != k ==> n[j] == m[j]
  }

  // Each creation adds one row as asked for, to one table.
  lemma CreationsExactly(db: DB, task: Task, x: Supply)
    ensures task.AddFarmerTask? ==>
      var r := Finish(db, task, x);
      r.Ok? && r.value == db.(farmers := r.value.farmers) && Adds(db.farmers, r.value.farmers, x.id, Farmer(task.coop, false))
    ensures task.AddWarehouseTask? ==>
      var r := Finish(db, task, x);
      && r.Ok? && r.value == db.(warehouses := r.value.warehouses)
      && Adds(db.warehouses, r.value.warehouses, x.id, Warehouse(task.coop, task.capacity))
    ensures task.AddBatchTask? ==>
      var r := Finish(db, task, x);
      && r.Ok? && r.value == db.(batches := r.value.batches)
      && Adds(db.batches, r.value.batches, x.id, Batch(task.coop, Registered, 0, false))
    ensures task.AddDeliveryTask? ==>
      var r := Finish(db, task, x);
      && r.Ok? && r.value == db.(deliveries := r.value.deliveries)
      && Adds(db.deliveries, r.value.deliveries, x.id, Delivery(task.farmer, task.coop, task.weight, None))
    ensures task.AddLotTask? ==>
      var r := Finish(db, task, x);
      && r.Ok? && r.value == db.(lots := r.value.lots)
      && Adds(db.lots, r.value.lots, x.id, Lot(task.coop, LotOpen, task.members))
    ensures task.DeleteFarmerTask? && task.farmer in db.farmers ==>
      var r := Finish(db, task, x);
      && r.Ok? && r.value == db.(farmers := r.value.farmers)
      && Adds(db.farmers, r.value.farmers, task.farmer, db.farmers[task.farmer].(deleted := true))
  {
  }
}
