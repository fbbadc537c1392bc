/**
 The custody tables (farmers, batches, deliveries, processing records, warehouses, inventory,
 transfers, lots) and the transaction bodies that write them, as functions from one table state
 to the next.  Weights are integer hundredths of a kilogram: the columns are DECIMAL(_, 2).
 */
module CustodyModel {
  import opened Common
  import opened Seqs
  import opened Sums

  type Id = nat
  type Time = nat

  datatype Status =
    | Registered | InProcessing | Processed | InStorage
    | InTransit | Sold | Exported | Rejected

  // The lifecycle table: which statuses a batch may move to.
  function Allowed(s: Status): set<Status> {
    match s
    case Registered => {InProcessing, Rejected}
    case InProcessing => {Processed, Rejected}
    case Processed => {InStorage, Rejected}
    case InStorage => {InTransit, Sold, Rejected}
    case InTransit => {Sold, InStorage}
    case Sold => {Exported}
    case Exported => {}
    case Rejected => {}
  }

  datatype Farmer = Farmer(coop: Id, deleted: bool)
  datatype Batch = Batch(coop: Id, status: Status, weight: nat, deleted: bool)
  datatype Delivery = Delivery(farmer: Id, coop: Id, weight: nat, batch: Option<Id>)
  datatype Warehouse = Warehouse(coop: Id, capacity: Option<nat>)
  datatype InventoryRow =
    InventoryRow(warehouse: Id, batch: Id, weight: nat, storedAt: Time, removedAt: Option<Time>)
  datatype TransferStatus = Pending | Confirmed | Declined
  datatype Transfer = Transfer(batch: Id, status: TransferStatus, transferredAt: Time)
  datatype LotStatus = LotOpen | LotSold
  datatype Lot = Lot(coop: Id, status: LotStatus, members: set<Id>)

  datatype DB = DB(
    farmers: map<Id, Farmer>,
    batches: map<Id, Batch>,
    deliveries: map<Id, Delivery>,
    processing: map<Id, Id>,  // record id to batch id
    warehouses: map<Id, Warehouse>,
    inventory: map<Id, InventoryRow>,
    transfers: map<Id, Transfer>,
    lots: map<Id, Lot>)

  const EMPTY: DB := DB(map[], map[], map[], map[], map[], map[], map[], map[])

  datatype Error = NotFound | BadRequest | Forbidden

  // ---------------------------------------------------------------------------
  // Queries
  // ---------------------------------------------------------------------------

  predicate Live(db: DB, b: Id) {
    b in db.batches && !db.batches[b].deleted
  }

  function ProcessedBatches(processing: map<Id, Id>): set<Id> {
    set r | r in processing :: processing[r]
  }

  // Batches that have an inventory row, open or closed: those stored at least once.
  function StoredBatches(inventory: map<Id, InventoryRow>): set<Id> {
    set r | r in inventory :: inventory[r].batch
  }

  function ConfirmedBatches(transfers: map<Id, Transfer>): set<Id> {
    set t | t in transfers && transfers[t].status == Confirmed :: transfers[t].batch
  }

  // The rows behind "current stock": not checked out yet.
  function OpenRows(inventory: map<Id, InventoryRow>): set<Id> {
    set r | r in inventory && inventory[r].removedAt == None
  }

  predicate HasOpenRow(inventory: map<Id, InventoryRow>, b: Id) {
    exists r :: r in OpenRows(inventory) && inventory[r].batch == b
  }

  function OpenWeights(inventory: map<Id, InventoryRow>, w: Id): map<Id, nat> {
    map r | r in OpenRows(inventory) && inventory[r].warehouse == w :: inventory[r].weight
  }

  ghost function OpenLoad(inventory: map<Id, InventoryRow>, w: Id): nat {
    Sum(OpenWeights(inventory, w))
  }

  function AssignedWeights(deliveries: map<Id, Delivery>, b: Id): map<Id, nat> {
    map d | d in deliveries && deliveries[d].batch == Some(b) :: deliveries[d].weight
  }

  ghost function AssignedWeight(deliveries: map<Id, Delivery>, b: Id): nat {
    Sum(AssignedWeights(deliveries, b))
  }

  // ---------------------------------------------------------------------------
  // Transaction bodies.  Each is one atomic step; an Err is a rollback.
  // ---------------------------------------------------------------------------

  function CloseRows(inventory: map<Id, InventoryRow>, bs: set<Id>, now: Time): map<Id, InventoryRow> {
    map r | r in inventory ::
      if inventory[r].batch in bs && inventory[r].removedAt == None
      then inventory[r].(removedAt := Some(now)) else inventory[r]
  }

  function SetStatus(db: DB, b: Id, s: Status, now: Time): DB
    requires b in db.batches
  {
    db.(batches := db.batches[b := db.batches[b].(status := s)],
        inventory := if s in {Sold, InTransit, Rejected} then CloseRows(db.inventory, {b}, now) else db.inventory)
  }

  // The single chokepoint for status writes.
  function Transition(db: DB, b: Id, s: Status, now: Time): Result<DB, Error> {
    if !Live(db, b) then Err(NotFound)
    else if db.batches[b].status == s then Ok(db)
    else if s !in Allowed(db.batches[b].status) then Err(BadRequest)
    else if s in {InProcessing, Processed} && b !in ProcessedBatches(db.processing) then Err(BadRequest)
    else Ok(SetStatus(db, b, s, now))
  }

  // The status endpoint: everything but SOLD and IN_STORAGE.
  function UpdateStatusTx(db: DB, b: Id, s: Status, now: Time): Result<DB, Error> {
    if s in {Sold, InStorage} then Err(BadRequest) else Transition(db, b, s, now)
  }

  // Attach un-batched deliveries and roll their weight up into the batch.
  function EligibleDeliveries(db: DB, b: Id, ids: seq<Id>): set<Id>
    requires b in db.batches
  {
    set d | d in ids && d in db.deliveries && db.deliveries[d].batch == None
            && db.deliveries[d].coop == db.batches[b].coop
  }

  function AttachDeliveries(deliveries: map<Id, Delivery>, b: Id, ids: set<Id>): map<Id, Delivery> {
    map d | d in deliveries :: if d in ids then deliveries[d].(batch := Some(b)) else deliveries[d]
  }

  function WeightsOf(deliveries: map<Id, Delivery>, ids: set<Id>): map<Id, nat>
    requires ids <= deliveries.Keys
  {
    map d | d in ids :: deliveries[d].weight
  }

  ghost function AssignTx(db: DB, b: Id, ids: seq<Id>): Result<DB, Error> {
    if b !in db.batches then Err(NotFound)
    else
      var found := EligibleDeliveries(db, b, ids);
      if |found| != |ids| then Err(BadRequest)
      else
        var added := Sum(WeightsOf(db.deliveries, found));
        Ok(db.(deliveries := AttachDeliveries(db.deliveries, b, Elements(ids)),
               batches := db.batches[b := db.batches[b].(weight := db.batches[b].weight + added)]))
  }

  // A processing run: the record, then REGISTERED -> IN_PROCESSING when the status read before
  // the transaction was REGISTERED.
  function ProcessTx(db: DB, b: Id, seen: Status, record: Id, now: Time): Result<DB, Error> {
    var recorded := db.(processing := db.processing[record := b]);
    if seen == Registered then Transition(recorded, b, InProcessing, now) else Ok(recorded)
  }

  // Store a batch.  The capacity and the batch total were read before the transaction; the open
  // row and the current load are read inside it.
  ghost function StoreTx(db: DB, w: Id, b: Id, weight: nat, capacity: Option<nat>, total: nat, row: Id, now: Time)
    : Result<DB, Error>
  {
    if HasOpenRow(db.inventory, b) then Err(BadRequest)
    else if weight > total then Err(BadRequest)
    else if capacity.Some? && weight > capacity.value - OpenLoad(db.inventory, w) then Err(BadRequest)
    else
      match Transition(db, b, InStorage, now)
      case Err(e) => Err(e)
      case Ok(stored) =>
        Ok(stored.(inventory := stored.inventory[row := InventoryRow(w, b, weight, now, None)]))
  }

  function RemoveTx(db: DB, row: Id, now: Time): Result<DB, Error> {
    if row !in db.inventory then Err(NotFound)
    else Ok(db.(inventory := db.inventory[row := db.inventory[row].(removedAt := Some(now))]))
  }

  // Confirm one transfer: stamp it, then drive its batch to SOLD.
  function ConfirmTx(db: DB, t: Id, now: Time): Result<DB, Error> {
    if t !in db.transfers then Err(NotFound)
    else if db.transfers[t].status != Pending then Err(BadRequest)
    else
      var stamped := db.transfers[t].(status := Confirmed, transferredAt := now);
      Transition(db.(transfers := db.transfers[t := stamped]), stamped.batch, Sold, now)
  }

  // The loop of a lot confirmation: one transfer after the other, the first error aborts.
  function ConfirmEach(db: DB, ts: seq<Id>, now: Time): Result<DB, Error>
    decreases |ts|
  {
    if ts == [] then Ok(db)
    else
      match ConfirmEach(db, ts[..|ts| - 1], now)
      case Err(e) => Err(e)
      case Ok(d) => ConfirmTx(d, ts[|ts| - 1], now)
  }

  function ConfirmSaleTx(db: DB, lot: Id, ts: seq<Id>, now: Time): Result<DB, Error> {
    match ConfirmEach(db, ts, now)
    case Err(e) => Err(e)
    case Ok(d) =>
      if lot !in d.lots then Err(NotFound)
      else Ok(d.(lots := d.lots[lot := d.lots[lot].(status := LotSold)]))
  }

  // Open one PENDING transfer per member; `issued` maps each new transfer id to its batch.
  function OpenTransfers(db: DB, issued: map<Id, Id>, now: Time): DB {
    db.(transfers := db.transfers + map t | t in issued :: Transfer(issued[t], Pending, now))
  }
}
