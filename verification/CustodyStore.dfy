/**
 The transaction bodies as the services run them, statement by statement on the tables, proved
 against the functions of CustodyModel.  A method that fails half way is rolled back by the
 enclosing transaction, which restores the tables it started from.
 */
module CustodyStore {
  import opened Common
  import opened Seqs
  import opened Sums
  import opened CustodyModel
  import opened CustodyInvariant
  import opened CustodyKeeps
  import opened CustodyLots

  class Store {
    var farmers: map<Id, Farmer>
    var batches: map<Id, Batch>
    var deliveries: map<Id, Delivery>
    var processing: map<Id, Id>
    var warehouses: map<Id, Warehouse>
    var inventory: map<Id, InventoryRow>
    var transfers: map<Id, Transfer>
    var lots: map<Id, Lot>

    function Db(): DB
      reads this
    {
      DB(farmers, batches, deliveries, processing, warehouses, inventory, transfers, lots)
    }

    constructor ()
      ensures Db() == EMPTY && Inv(Db())
    {
      farmers, batches, deliveries, processing := map[], map[], map[], map[];
      warehouses, inventory, transfers, lots := map[], map[], map[], map[];
    }

    // ROLLBACK
    method Restore(db: DB)
      modifies this
      ensures Db() == db
    {
      farmers, batches, deliveries, processing := db.farmers, db.batches, db.deliveries, db.processing;
      warehouses, inventory, transfers, lots := db.warehouses, db.inventory, db.transfers, db.lots;
    }

    method TransitionBatchStatus(b: Id, newStatus: Status, now: Time) returns (r: Result<Status, Error>)
      modifies this
      ensures r.Ok? <==> Transition(old(Db()), b, newStatus, now).Ok?
      ensures r.Ok? ==> Db() == Transition(old(Db()), b, newStatus, now).value && r.value == old(Db()).batches[b].status
      ensures r.Err? ==> Db() == old(Db())
    {
      if b !in batches || batches[b].deleted {
        return Err(NotFound);
      }
      var previous := batches[b].status;
      if previous == newStatus {
        return Ok(previous);
      }
      if newStatus !in Allowed(previous) {
        return Err(BadRequest);
      }
      if newStatus == InProcessing || newStatus == Processed {
        var records := set r | r in processing && processing[r] == b;
        assert records == {} <==> b !in ProcessedBatches(processing) by {
          if b in ProcessedBatches(processing) {
            var r :| r in processing && processing[r] == b;
            assert r in records;
          }
        }
        var recordCount := |records|;
        if recordCount == 0 {
          return Err(BadRequest);
        }
      }
      batches := batches[b := batches[b].(status := newStatus)];
      if newStatus == Sold || newStatus == InTransit || newStatus == Rejected {
        inventory := CloseRows(inventory, {b}, now);
      }
      return Ok(previous);
    }

    // The weight of the deliveries found.
    method SumWeights(ids: set<Id>) returns (total: nat)
      requires ids <= deliveries.Keys
      ensures total == Sum(WeightsOf(deliveries, ids))
    {
      total := 0;
      var left := ids;
      ghost var done: set<Id> := {};
      assert WeightsOf(deliveries, done) == map[];
      while left != {}
        invariant left + done == ids && left !! done
        invariant total == Sum(WeightsOf(deliveries, done))
        decreases |left|
      {
        var d :| d in left;
        assert WeightsOf(deliveries, done + {d}) == WeightsOf(deliveries, done)[d := deliveries[d].weight];
        SumInsert(WeightsOf(deliveries, done), d, deliveries[d].weight);
        total := total + deliveries[d].weight;
        left, done := left - {d}, done + {d};
      }
      assert done == ids;
    }

    method AssignDeliveriesToBatch(b: Id, ids: seq<Id>) returns (r: Result<Id, Error>)
      modifies this
      ensures r.Ok? <==>
        && b in old(batches) && NoDuplicates(ids)
        && forall d :: d in ids ==> Assignable(old(Db()), b, d)
      ensures r.Ok? ==> AssignTx(old(Db()), b, ids) == Ok(Db())
      ensures r.Err? ==> Db() == old(Db())
    {
      AssignAccepted(Db(), b, ids);
      if b !in batches {
        return Err(NotFound);
      }
      var found := EligibleDeliveries(Db(), b, ids);
      if |found| != |ids| {
        return Err(BadRequest);
      }
      var added := SumWeights(found);
      deliveries := AttachDeliveries(deliveries, b, Elements(ids));
      batches := batches[b := batches[b].(weight := batches[b].weight + added)];
      return Ok(b);
    }

    method RecordProcessing(b: Id, seen: Status, record: Id, now: Time) returns (r: Result<Id, Error>)
      modifies this
      ensures r.Ok? <==> ProcessTx(old(Db()), b, seen, record, now).Ok?
      ensures Db() == if r.Ok? then ProcessTx(old(Db()), b, seen, record, now).value else old(Db())
    {
      var saved := Db();
      processing := processing[record := b];
      if seen == Registered {
        var moved := TransitionBatchStatus(b, InProcessing, now);
        if moved.Err? {
          Restore(saved);
          return Err(moved.error);
        }
      }
      return Ok(record);
    }

    // The weight of the open rows of a warehouse.
    method CurrentLoad(w: Id) returns (load: nat)
      ensures load == OpenLoad(inventory, w)
    {
      load := 0;
      var left := OpenRows(inventory);
      ghost var done: set<Id> := {};
      assert LoadOf(inventory, w, done) == map[];
      while left != {}
        invariant left + done == OpenRows(inventory) && left !! done
        invariant load == Sum(LoadOf(inventory, w, done))
        decreases |left|
      {
        var r :| r in left;
        LoadOneMore(inventory, w, done, r);
        if inventory[r].warehouse == w {
          load := load + inventory[r].weight;
        }
        left, done := left - {r}, done + {r};
      }
      assert done == OpenRows(inventory);
      assert LoadOf(inventory, w, done) == OpenWeights(inventory, w);
    }

    method StoreBatch(w: Id, b: Id, weight: nat, capacity: Option<nat>, total: nat, row: Id, now: Time)
      returns (r: Result<Id, Error>)
      modifies this
      ensures r.Ok? <==> StoreTx(old(Db()), w, b, weight, capacity, total, row, now).Ok?
      ensures r.Ok? ==> Db() == StoreTx(old(Db()), w, b, weight, capacity, total, row, now).value
      ensures r.Err? ==> Db() == old(Db())
    {
      if HasOpenRow(inventory, b) {
        return Err(BadRequest);
      }
      if weight > total {
        return Err(BadRequest);
      }
      if capacity.Some? {
        var load := CurrentLoad(w);
        if weight > capacity.value - load {
          return Err(BadRequest);
        }
      }
      var moved := TransitionBatchStatus(b, InStorage, now);
      if moved.Err? {
        return Err(moved.error);
      }
      inventory := inventory[row := InventoryRow(w, b, weight, now, None)];
      return Ok(row);
    }

    // On an Err the tables may be half written: the caller's transaction rolls back.
    method ConfirmTransferInTx(t: Id, now: Time) returns (r: Result<Id, Error>)
      modifies this
      ensures r.Ok? <==> ConfirmTx(old(Db()), t, now).Ok?
      ensures r.Ok? ==> Db() == ConfirmTx(old(Db()), t, now).value
    {
      if t !in transfers {
        return Err(NotFound);
      }
      if transfers[t].status != Pending {
        return Err(BadRequest);
      }
      transfers := transfers[t := transfers[t].(status := Confirmed, transferredAt := now)];
      var moved := TransitionBatchStatus(transfers[t].batch, Sold, now);
      if moved.Err? {
        return Err(moved.error);
      }
      return Ok(t);
    }

    // All or nothing, with the exact condition for all.
    method ConfirmSale(lot: Id, pending: seq<Id>, now: Time) returns (r: Result<seq<Id>, Error>)
      requires NoDuplicates(pending)
      modifies this
      ensures r.Ok? <==> lot in old(lots) && forall t :: t in pending ==> Confirmable(old(Db()), t)
      ensures r.Ok? ==>
        && r.value == pending
        && Db() == ConfirmAll(old(Db()), Elements(pending), now).(
             lots := old(lots)[lot := old(lots)[lot].(status := LotSold)])
      ensures r.Err? ==> Db() == old(Db())
    {
      ConfirmSaleExact(Db(), lot, pending, now);
      var saved := Db();
      var confirmed: seq<Id> := [];
      for i := 0 to |pending|
        invariant confirmed == pending[..i]
        invariant ConfirmEach(saved, pending[..i], now) == Ok(Db())
      {
        assert pending[..i + 1][..i] == pending[..i];
        var one := ConfirmTransferInTx(pending[i], now);
        if one.Err? {
          FirstErrorAborts(saved, pending, i, now);
          Restore(saved);
          return Err(one.error);
        }
        confirmed := confirmed + [pending[i]];
      }
      assert pending[..|pending|] == pending;
      if lot !in lots {
        Restore(saved);
        return Err(NotFound);
      }
      lots := lots[lot := lots[lot].(status := LotSold)];
      return Ok(confirmed);
    }
  }

  function LoadOf(inventory: map<Id, InventoryRow>, w: Id, rows: set<Id>): map<Id, nat>
    requires rows <= inventory.Keys
  {
    map r | r in rows && inventory[r].warehouse == w :: inventory[r].weight
  }

  lemma LoadOneMore(inventory: map<Id, InventoryRow>, w: Id, rows: set<Id>, r: Id)
    requires rows <= inventory.Keys && r in inventory && r !in rows
    ensures Sum(LoadOf(inventory, w, rows + {r}))
         == Sum(LoadOf(inventory, w, rows)) + if inventory[r].warehouse == w then inventory[r].weight else 0
  {
    if inventory[r].warehouse == w {
      assert LoadOf(inventory, w, rows + {r}) == LoadOf(inventory, w, rows)[r := inventory[r].weight];
      SumInsert(LoadOf(inventory, w, rows), r, inventory[r].weight);
    } else {
      assert LoadOf(inventory, w, rows + {r}) == LoadOf(inventory, w, rows);
    }
  }

  lemma {:induction false} FirstErrorAborts(db: DB, ts: seq<Id>, i: nat, now: Time)
    requires i < |ts| && ConfirmEach(db, ts[..i + 1], now).Err?
    ensures ConfirmEach(db, ts, now).Err?
    decreases |ts|
  {
    if i + 1 == |ts| {
      assert ts[..i + 1] == ts;
    } else {
      assert ts[..|ts| - 1][..i + 1] == ts[..i + 1];
      FirstErrorAborts(db, ts[..|ts| - 1], i, now);
    }
  }
}
