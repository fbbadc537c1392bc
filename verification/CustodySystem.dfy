/**
 The handlers as a concurrent system.  A request first reads the tables outside its transaction
 and is accepted or refused on what it saw; an accepted request becomes a task that carries those
 values, and its transaction runs later, after any number of other steps.  Requests see whole tables
 here, as they do when the database connection is not subject to the row policies; PolicySystem and
 PolicyRuns are about the same machine with the policies in force.
 */
module CustodySystem {
  import opened Common
  import opened Seqs
  import opened CustodyModel
  import opened CustodyInvariant
  import opened CustodyKeeps
  import opened CustodyLots

  // ---------------------------------------------------------------------------
  // Requests and what their first phase reads
  // ---------------------------------------------------------------------------

  datatype Caller = Caller(superAdmin: bool, coop: Option<Id>)

  // assertOwnership
  predicate Owns(who: Caller, coop: Id) {
    who.superAdmin || who.coop == Some(coop)
  }

  datatype Request =
    | AddFarmer(coop: Id)
    | DeleteFarmer(farmer: Id)
    | AddWarehouse(coop: Id, capacity: Option<nat>)
    | AddBatch(coop: Id)
    | AddDelivery(farmer: Id, coop: Id, weight: nat)
    | Assign(batch: Id, deliveries: seq<Id>)
    | Process(batch: Id)
    | Store(warehouse: Id, batch: Id, weight: nat)
    | Remove(row: Id)
    | UpdateStatus(batch: Id, status: Status)
    | OpenTransfer(batch: Id)
    | ConfirmTransfer(transfer: Id)
    | AddLot(batches: seq<Id>)
    | SellLot(lot: Id)
    | ConfirmLot(lot: Id)

  // An accepted request, with the values it read.
  datatype Task =
    | AddFarmerTask(coop: Id)
    | DeleteFarmerTask(farmer: Id)
    | AddWarehouseTask(coop: Id, capacity: Option<nat>)
    | AddBatchTask(coop: Id)
    | AddDeliveryTask(farmer: Id, coop: Id, weight: nat)
    | AssignTask(batch: Id, deliveries: seq<Id>)
    | ProcessTask(batch: Id, seen: Status)
    | StoreTask(warehouse: Id, batch: Id, weight: nat, capacity: Option<nat>, total: nat)
    | RemoveTask(row: Id)
    | UpdateStatusTask(batch: Id, status: Status)
    | OpenTransferTask(batch: Id)
    | ConfirmTransferTask(transfer: Id)
    | AddLotTask(coop: Id, members: set<Id>)
    | SellLotTask(lot: Id, members: set<Id>)
    | ConfirmLotTask(lot: Id, pending: set<Id>)

  function PendingOf(db: DB, members: set<Id>): set<Id> {
    set t | t in db.transfers && db.transfers[t].status == Pending && db.transfers[t].batch in members
  }

  predicate HasStatus(db: DB, b: Id, statuses: set<Status>) {
    b in db.batches && db.batches[b].status in statuses
  }

  function OnBatch(db: DB, who: Caller, b: Id, task: Task): Result<Task, Error> {
    if !Live(db, b) then Err(NotFound)
    else if !Owns(who, db.batches[b].coop) then Err(Forbidden)
    else Ok(task)
  }

  function InCoop(who: Caller, coop: Id, task: Task): Result<Task, Error> {
    if Owns(who, coop) then Ok(task) else Err(Forbidden)
  }

  // The first phase of every handler.
  function Begin(db: DB, who: Caller, q: Request): Result<Task, Error> {
    match q
    case AddFarmer(coop) => InCoop(who, coop, AddFarmerTask(coop))
    case DeleteFarmer(f) =>
      if f !in db.farmers || db.farmers[f].deleted then Err(NotFound)
      else InCoop(who, db.farmers[f].coop, DeleteFarmerTask(f))
    case AddWarehouse(coop, capacity) => InCoop(who, coop, AddWarehouseTask(coop, capacity))
    case AddBatch(coop) => InCoop(who, coop, AddBatchTask(coop))
    case AddDelivery(f, coop, weight) =>
      if !Owns(who, coop) then Err(Forbidden)
      else if f !in db.farmers || db.farmers[f].deleted || db.farmers[f].coop != coop then Err(BadRequest)
      else Ok(AddDeliveryTask(f, coop, weight))
    case Assign(b, ds) => if ds == [] then Err(BadRequest) else OnBatch(db, who, b, AssignTask(b, ds))
    case Process(b) => OnBatch(db, who, b, ProcessTask(b, if Live(db, b) then db.batches[b].status else Registered))
    case Store(w, b, weight) =>
      if w !in db.warehouses || !Live(db, b) then Err(NotFound)
      else if !Owns(who, db.warehouses[w].coop) || !Owns(who, db.batches[b].coop) then Err(Forbidden)
      else Ok(StoreTask(w, b, weight, db.warehouses[w].capacity, db.batches[b].weight))
    case Remove(r) =>
      if r !in db.inventory || db.inventory[r].batch !in db.batches then Err(NotFound)
      else if !Owns(who, db.batches[db.inventory[r].batch].coop) then Err(Forbidden)
      else if db.inventory[r].removedAt.Some? then Err(BadRequest)
      else Ok(RemoveTask(r))
    case UpdateStatus(b, s) => OnBatch(db, who, b, UpdateStatusTask(b, s))
    case OpenTransfer(b) => OnBatch(db, who, b, OpenTransferTask(b))
    case ConfirmTransfer(t) =>
      if t !in db.transfers || db.transfers[t].batch !in db.batches then Err(NotFound)
      else if !Owns(who, db.batches[db.transfers[t].batch].coop) then Err(Forbidden)
      else if db.transfers[t].status != Pending then Err(BadRequest)
      else Ok(ConfirmTransferTask(t))
    case AddLot(bs) =>
      if |bs| < 2 || !NoDuplicates(bs) then Err(BadRequest)
      else if exists b :: b in bs && !Live(db, b) then Err(NotFound)
      else if exists b :: b in bs && !Owns(who, db.batches[b].coop) then Err(Forbidden)
      else if exists b :: b in bs && HasStatus(db, b, {Sold, Exported, Rejected}) then Err(BadRequest)
      else
        assert bs[0] in bs;
        Ok(AddLotTask(db.batches[bs[0]].coop, Elements(bs)))
    case SellLot(l) =>
      if l !in db.lots then Err(NotFound)
      else if !Owns(who, db.lots[l].coop) then Err(Forbidden)
      else if db.lots[l].status == LotSold || db.lots[l].members == {} then Err(BadRequest)
      else if exists b :: b in db.lots[l].members && !HasStatus(db, b, {InStorage, InTransit}) then Err(BadRequest)
      else if PendingOf(db, db.lots[l].members) != {} then Err(BadRequest)
      else Ok(SellLotTask(l, db.lots[l].members))
    case ConfirmLot(l) =>
      if l !in db.lots then Err(NotFound)
      else if !Owns(who, db.lots[l].coop) then Err(Forbidden)
      else if db.lots[l].status == LotSold || db.lots[l].members == {} then Err(BadRequest)
      else if PendingOf(db, db.lots[l].members) == {} then Err(BadRequest)
      else Ok(ConfirmLotTask(l, PendingOf(db, db.lots[l].members)))
  }

  // ---------------------------------------------------------------------------
  // The second phase
  // ---------------------------------------------------------------------------

  // What the platform supplies to a transaction: the clock, a fresh id for the row it inserts, one
  // per transfer a lot sale opens, and the order in which a query returned its rows.
  datatype Supply = Supply(now: Time, id: Id, transferIds: map<Id, Id>, order: seq<Id>)

  // The ids are new, and the order lists what the query found.
  predicate Supplies(db: DB, task: Task, x: Supply) {
    match task
    case AddFarmerTask(_) => x.id !in db.farmers
    case AddWarehouseTask(_, _) => x.id !in db.warehouses
    case AddBatchTask(_) => x.id !in db.batches
    case AddDeliveryTask(_, _, _) => x.id !in db.deliveries
    case ProcessTask(_, _) => x.id !in db.processing
    case StoreTask(_, _, _, _, _) => x.id !in db.inventory
    case OpenTransferTask(_) => x.id !in db.transfers
    case AddLotTask(_, _) => x.id !in db.lots
    case SellLotTask(_, members) =>
      && x.transferIds.Keys !! db.transfers.Keys
      && x.transferIds.Values == members
      && |x.transferIds| == |members|
    case ConfirmLotTask(_, pending) => NoDuplicates(x.order) && Elements(x.order) == pending
    case _ => true
  }

  ghost function Finish(db: DB, task: Task, x: Supply): Result<DB, Error> {
    match task
    case AddFarmerTask(coop) => Ok(db.(farmers := db.farmers[x.id := Farmer(coop, false)]))
    case DeleteFarmerTask(f) =>
      if f !in db.farmers then Err(NotFound)
      else Ok(db.(farmers := db.farmers[f := db.farmers[f].(deleted := true)]))
    case AddWarehouseTask(coop, capacity) => Ok(db.(warehouses := db.warehouses[x.id := Warehouse(coop, capacity)]))
    case AddBatchTask(coop) => Ok(db.(batches := db.batches[x.id := Batch(coop, Registered, 0, false)]))
    case AddDeliveryTask(f, coop, weight) =>
      Ok(db.(deliveries := db.deliveries[x.id := Delivery(f, coop, weight, None)]))
    case AssignTask(b, ds) => AssignTx(db, b, ds)
    case ProcessTask(b, seen) => ProcessTx(db, b, seen, x.id, x.now)
    case StoreTask(w, b, weight, capacity, total) => StoreTx(db, w, b, weight, capacity, total, x.id, x.now)
    case RemoveTask(r) => RemoveTx(db, r, x.now)
    case UpdateStatusTask(b, s) => UpdateStatusTx(db, b, s, x.now)
    case OpenTransferTask(b) => Ok(OpenTransfers(db, map[x.id := b], x.now))
    case ConfirmTransferTask(t) => ConfirmTx(db, t, x.now)
    case AddLotTask(coop, members) => Ok(db.(lots := db.lots[x.id := Lot(coop, LotOpen, members)]))
    case SellLotTask(_, _) => Ok(OpenTransfers(db, x.transferIds, x.now))
    case ConfirmLotTask(l, _) => ConfirmSaleTx(db, l, x.order, x.now)
  }

  // ---------------------------------------------------------------------------
  // The system
  // ---------------------------------------------------------------------------

  // `unscoped` records whether a SUPER_ADMIN, who is bound to no cooperative, has made a request.
  datatype System = System(db: DB, tasks: multiset<Task>, unscoped: bool)

  datatype Action =
    | Arrive(who: Caller, request: Request)
    | Commit(task: Task, supply: Supply)
    | SoftDelete(batch: Id)  // by an operator: no handler sets the flag

  ghost predicate Next(s: System, a: Action, n: System) {
    match a
    case Arrive(who, q) =>
      var r := Begin(s.db, who, q);
      n == s.(tasks := if r.Ok? then s.tasks + multiset{r.value} else s.tasks, unscoped := s.unscoped || who.superAdmin)
    case Commit(task, x) =>
      && task in s.tasks
      && Supplies(s.db, task, x)
      && var r := Finish(s.db, task, x);
         n == s.(db := if r.Ok? then r.value else s.db, tasks := s.tasks - multiset{task})
    case SoftDelete(b) =>
      && b in s.db.batches
      && n == s.(db := s.db.(batches := s.db.batches[b := s.db.batches[b].(deleted := true)]))
  }

  ghost predicate Steps(s: System, n: System) {
    exists a :: Next(s, a, n)
  }

  const START: System := System(EMPTY, multiset{}, false)

  ghost predicate IsRun(run: seq<System>) {
    && run != [] && run[0] == START
    && forall i :: 0 < i < |run| ==> Steps(run[i - 1], run[i])
  }

  // ---------------------------------------------------------------------------
  // Stale reads stay safe
  // ---------------------------------------------------------------------------

  // What remains true of the values a task carries, whatever runs before it.
  ghost predicate StillSafe(db: DB, task: Task) {
    match task
    case DeleteFarmerTask(f) => f in db.farmers
    case AddDeliveryTask(f, coop, _) => f in db.farmers && db.farmers[f].coop == coop
    case AssignTask(b, _) => b in db.batches
    case ProcessTask(b, _) => b in db.batches
    case StoreTask(w, b, _, capacity, total) =>
      && w in db.warehouses && db.warehouses[w].capacity == capacity
      && b in db.batches && total <= db.batches[b].weight
    case RemoveTask(r) => r in db.inventory
    case UpdateStatusTask(b, _) => b in db.batches
    case OpenTransferTask(b) => b in db.batches
    case ConfirmTransferTask(t) => t in db.transfers
    case AddLotTask(_, members) => members <= db.batches.Keys
    case SellLotTask(l, members) => l in db.lots && members <= db.lots[l].members
    case ConfirmLotTask(l, pending) =>
      l in db.lots && forall t :: t in pending ==> t in db.transfers && db.transfers[t].batch in db.lots[l].members
    case _ => true
  }

  ghost predicate SystemInv(s: System) {
    Inv(s.db) && forall task :: task in s.tasks ==> StillSafe(s.db, task)
  }

  lemma SafetyLasts(db: DB, n: DB, task: Task)
    requires Grows(db, n) && StillSafe(db, task)
    ensures StillSafe(n, task)
  {
  }

  lemma BeginReads(db: DB, who: Caller, q: Request)
    requires References(db) && Begin(db, who, q).Ok?
    ensures StillSafe(db, Begin(db, who, q).value)
  {
  }

  lemma BeginSafe(db: DB, who: Caller, q: Request)
    requires Inv(db) && Begin(db, who, q).Ok?
    ensures StillSafe(db, Begin(db, who, q).value)
  {
    hide Begin, StillSafe, References;
    BeginReads(db, who, q);
  }

  lemma LotMembersExist(db: DB, l: Id, members: set<Id>)
    requires Inv(db) && l in db.lots && members <= db.lots[l].members
    ensures members <= db.batches.Keys
  {
  }

  lemma FinishKeeps(db: DB, task: Task, x: Supply)
    requires Inv(db) && StillSafe(db, task) && Supplies(db, task, x) && Finish(db, task, x).Ok?
    ensures Kept(db, Finish(db, task, x).value)
  {
    hide Inv, Kept;
    hide AssignTx, ProcessTx, StoreTx, UpdateStatusTx, ConfirmTx, ConfirmSaleTx, OpenTransfers;
    match task
    case AddFarmerTask(coop) => CreateFarmerKeeps(db, x.id, Farmer(coop, false));
    case DeleteFarmerTask(f) => CreateFarmerKeeps(db, f, db.farmers[f].(deleted := true));
    case AddWarehouseTask(coop, capacity) => CreateWarehouseKeeps(db, x.id, Warehouse(coop, capacity));
    case AddBatchTask(coop) => CreateBatchKeeps(db, x.id, coop);
    case AddDeliveryTask(f, coop, weight) => CreateDeliveryKeeps(db, x.id, Delivery(f, coop, weight, None));
    case AssignTask(b, ds) => AssignKeeps(db, b, ds);
    case ProcessTask(b, seen) => ProcessKeeps(db, b, seen, x.id, x.now);
    case StoreTask(w, b, weight, capacity, total) => StoreKeeps(db, w, b, weight, capacity, total, x.id, x.now);
    case RemoveTask(r) => RemoveKeeps(db, r, x.now);
    case UpdateStatusTask(b, s) => UpdateStatusKeeps(db, b, s, x.now);
    case OpenTransferTask(b) => OpenTransfersKeeps(db, map[x.id := b], x.now);
    case ConfirmTransferTask(t) => ConfirmKeeps(db, t, x.now);
    case AddLotTask(coop, members) => CreateLotKeeps(db, x.id, Lot(coop, LotOpen, members));
    case SellLotTask(l, members) => LotMembersExist(db, l, members); OpenTransfersKeeps(db, x.transferIds, x.now);
    case ConfirmLotTask(l, _) => ConfirmSaleKeeps(db, l, x.order, x.now);
  }

  lemma UpdateStatusKeeps(db: DB, b: Id, s: Status, now: Time)
    requires Inv(db) && UpdateStatusTx(db, b, s, now).Ok?
    ensures Kept(db, UpdateStatusTx(db, b, s, now).value)
  {
    TransitionKeeps(db, b, s, now);
  }

  lemma TasksStaySafe(s: System, n: System)
    requires SystemInv(s) && Kept(s.db, n.db)
    requires forall task :: task in n.tasks ==> task in s.tasks || StillSafe(n.db, task)
    ensures SystemInv(n)
  {
    hide Inv, Grows, StatusesStep, StillSafe;
    forall task | task in n.tasks ensures StillSafe(n.db, task) {
      if task in s.tasks { SafetyLasts(s.db, n.db, task); }
    }
  }

  // Every step, whatever is in flight, keeps the invariant and only lets the tables grow.
  lemma StepKeeps(s: System, a: Action, n: System)
    requires SystemInv(s) && Next(s, a, n)
    ensures SystemInv(n) && Kept(s.db, n.db)
  {
    hide Inv, Grows, StatusesStep, Begin, Finish, StillSafe, Supplies;
    GrowsReflexive(s.db);
    match a {
      case Arrive(who, q) =>
        if Begin(s.db, who, q).Ok? { BeginSafe(s.db, who, q); }
      case Commit(task, x) =>
        if Finish(s.db, task, x).Ok? { FinishKeeps(s.db, task, x); }
      case SoftDelete(b) =>
        DeleteBatchKeeps(s.db, b);
    }
    assert Kept(s.db, n.db);
    TasksStaySafe(s, n);
  }

  lemma StartsSafe()
    ensures SystemInv(START)
  {
  }

  // Main theorem: where requests see whole tables, every reachable state satisfies the invariant.
  lemma {:induction false} RunKeeps(run: seq<System>, i: nat)
    requires IsRun(run) && i < |run|
    ensures SystemInv(run[i])
  {
    if i == 0 {
      StartsSafe();
    } else {
      hide Next, SystemInv, Kept;
      RunKeeps(run, i - 1);
      assert Steps(run[i - 1], run[i]);
      var a :| Next(run[i - 1], a, run[i]);
      StepKeeps(run[i - 1], a, run[i]);
    }
  }
}
