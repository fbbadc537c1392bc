/**
 The custody machine with the row policies in force, over whole runs: every caller, SUPER_ADMIN,
 clerk or farmer, reads and writes through the policies, and any number of requests are in flight.
 Everything CustodySystem keeps is kept, but for capacity, which holds of each cooperative's own
 stock, and of all of it exactly where the check sees all of it.
 */
module PolicySystem {
  import opened Common
  import opened Seqs
  import opened Sums
  import opened Roles
  import opened CustodyModel
  import opened CustodyInvariant
  import opened CustodyKeeps
  import opened CustodyLots
  import opened CustodySystem
  import opened CustodyRuns
  import opened RowVisibility
  import opened TenantIsolation
  import opened TenantWrites
  import opened PolicyModel

  // An accepted request and who made it.
  datatype Job = Job(user: User, task: Task)

  datatype Site = Site(db: DB, jobs: multiset<Job>, unscoped: bool)

  datatype Move =
    | Ask(user: User, request: Request)
    | Perform(job: Job, supply: Supply)
    | Drop(batch: Id)  // a soft delete, by an operator

  ghost predicate Moves(s: Site, a: Move, n: Site) {
    match a
    case Ask(u, q) =>
      var r := Begin(ViewOf(u, s.db), CallerOf(u), q);
      n == s.(jobs := if r.Ok? then s.jobs + multiset{Job(u, r.value)} else s.jobs, unscoped := s.unscoped || u.role == SuperAdmin)
    case Perform(job, x) =>
      && job in s.jobs
      && Supplies(s.db, job.task, x)
      && var r := FinishAs(job.user, s.db, job.task, x);
         n == s.(db := if r.Ok? then r.value else s.db, jobs := s.jobs - multiset{job})
    case Drop(b) =>
      && b in s.db.batches
      && n == s.(db := s.db.(batches := s.db.batches[b := s.db.batches[b].(deleted := true)]))
  }

  ghost predicate Follows(s: Site, n: Site) {
    exists a :: Moves(s, a, n)
  }

  const NEW_SITE: Site := Site(EMPTY, multiset{}, false)

  ghost predicate IsSiteRun(run: seq<Site>) {
    && run != [] && run[0] == NEW_SITE
    && forall i :: 0 < i < |run| ==> Follows(run[i - 1], run[i])
  }

  // ---------------------------------------------------------------------------
  // The invariant without capacity
  // ---------------------------------------------------------------------------

  ghost predicate Custody(db: DB) {
    && References(db)
    && Shelves(db.batches, db.inventory)
    && WeightsConserved(db.batches, db.deliveries)
    && EvidenceOfProcessing(db.batches, db.processing)
    && EvidenceOfStorage(db.batches, db.inventory)
    && SoldAgrees(db.batches, db.transfers)
  }

  // The same tables with no limits declared.
  function Unlimited(warehouses: map<Id, Warehouse>): map<Id, Warehouse> {
    map w | w in warehouses :: warehouses[w].(capacity := None)
  }

  function Uncapped(db: DB): DB {
    db.(warehouses := Unlimited(db.warehouses))
  }

  function Uncap(task: Task): Task {
    match task
    case StoreTask(w, b, weight, _, total) => StoreTask(w, b, weight, None, total)
    case AddWarehouseTask(coop, _) => AddWarehouseTask(coop, None)
    case _ => task
  }

  lemma CustodyIsUncapped(db: DB)
    ensures Custody(db) <==> Inv(Uncapped(db))
  {
    hide Shelves, WeightsConserved, EvidenceOfProcessing, EvidenceOfStorage, SoldAgrees, DeliveriesRefer;
    hide ProcessingRefers, TransfersRefer, LotsRefer, OpenLoad;
  }

  lemma TransitionUncapped(db: DB, b: Id, s: Status, now: Time)
    ensures Transition(Uncapped(db), b, s, now).Ok? <==> Transition(db, b, s, now).Ok?
    ensures Transition(db, b, s, now).Ok? ==> Transition(Uncapped(db), b, s, now).value == Uncapped(Transition(db, b, s, now).value)
  {
  }

  lemma AssignUncapped(db: DB, b: Id, ids: seq<Id>)
    ensures AssignTx(Uncapped(db), b, ids).Ok? <==> AssignTx(db, b, ids).Ok?
    ensures AssignTx(db, b, ids).Ok? ==> AssignTx(Uncapped(db), b, ids).value == Uncapped(AssignTx(db, b, ids).value)
  {
    if b in db.batches {
      assert EligibleDeliveries(Uncapped(db), b, ids) == EligibleDeliveries(db, b, ids);
    }
  }

  lemma StoreUncapped(db: DB, w: Id, b: Id, weight: nat, total: nat, row: Id, now: Time)
    ensures var r, q := StoreTx(Uncapped(db), w, b, weight, None, total, row, now), StoreTx(db, w, b, weight, None, total, row, now);
      (r.Ok? <==> q.Ok?) && (q.Ok? ==> r.value == Uncapped(q.value))
  {
    hide Transition, HasOpenRow;
    TransitionUncapped(db, b, InStorage, now);
  }

  lemma ProcessUncapped(db: DB, b: Id, seen: Status, record: Id, now: Time)
    ensures var r, q := ProcessTx(Uncapped(db), b, seen, record, now), ProcessTx(db, b, seen, record, now);
      (r.Ok? <==> q.Ok?) && (q.Ok? ==> r.value == Uncapped(q.value))
  {
    hide Transition;
    TransitionUncapped(db.(processing := db.processing[record := b]), b, InProcessing, now);
  }

  lemma ConfirmUncapped(db: DB, t: Id, now: Time)
    ensures ConfirmTx(Uncapped(db), t, now).Ok? <==> ConfirmTx(db, t, now).Ok?
    ensures ConfirmTx(db, t, now).Ok? ==> ConfirmTx(Uncapped(db), t, now).value == Uncapped(ConfirmTx(db, t, now).value)
  {
    hide Transition;
    if t in db.transfers {
      var row := db.transfers[t].(status := Confirmed, transferredAt := now);
      TransitionUncapped(db.(transfers := db.transfers[t := row]), row.batch, Sold, now);
    }
  }

  lemma ConfirmSaleUncapped(db: DB, l: Id, ts: seq<Id>, now: Time)
    requires NoDuplicates(ts)
    ensures ConfirmSaleTx(Uncapped(db), l, ts, now).Ok? <==> ConfirmSaleTx(db, l, ts, now).Ok?
    ensures ConfirmSaleTx(db, l, ts, now).Ok? ==>
      ConfirmSaleTx(Uncapped(db), l, ts, now).value == Uncapped(ConfirmSaleTx(db, l, ts, now).value)
  {
    hide ConfirmSaleTx, NoDuplicates;
    ConfirmSaleExact(db, l, ts, now);
    ConfirmSaleExact(Uncapped(db), l, ts, now);
    forall t ensures Confirmable(Uncapped(db), t) <==> Confirmable(db, t) {}
    hide Confirmable;
    assert BatchesOf(Uncapped(db), Elements(ts)) == BatchesOf(db, Elements(ts));
    assert Leaving(Uncapped(db), Elements(ts)) == Leaving(db, Elements(ts));
  }

  // No transaction looks at the limits, once the check is set aside.
  lemma FinishUncapped(db: DB, task: Task, x: Supply)
    requires Supplies(db, task, x)
    ensures Finish(Uncapped(db), Uncap(task), x).Ok? <==> Finish(db, Lax(task), x).Ok?
    ensures Finish(db, Lax(task), x).Ok? ==>
      && Finish(Uncapped(db), Uncap(task), x).value == Uncapped(Finish(db, Lax(task), x).value)
      && MapGrows(db.warehouses, Finish(db, Lax(task), x).value.warehouses)
  {
    if Finish(db, Lax(task), x).Ok? { FinishWarehouses(db, task, x); }
    hide AssignTx, ProcessTx, StoreTx, Transition, ConfirmTx, ConfirmSaleTx, MapGrows;
    match task
    case AddWarehouseTask(coop, capacity) =>
      assert Unlimited(db.warehouses[x.id := Warehouse(coop, capacity)]) == Unlimited(db.warehouses)[x.id := Warehouse(coop, None)];
    case AssignTask(b, ds) => hide Unlimited; AssignUncapped(db, b, ds);
    case ProcessTask(b, seen) => hide Unlimited; ProcessUncapped(db, b, seen, x.id, x.now);
    case StoreTask(w, b, weight, _, total) => hide Unlimited; StoreUncapped(db, w, b, weight, total, x.id, x.now);
    case UpdateStatusTask(b, s) => hide Unlimited; TransitionUncapped(db, b, s, x.now);
    case ConfirmTransferTask(t) => hide Unlimited; ConfirmUncapped(db, t, x.now);
    case ConfirmLotTask(l, _) => hide Unlimited; ConfirmSaleUncapped(db, l, x.order, x.now);
    case _ => hide Unlimited;
  }

  lemma FinishWarehouses(db: DB, task: Task, x: Supply)
    requires Supplies(db, task, x) && Finish(db, Lax(task), x).Ok?
    ensures MapGrows(db.warehouses, Finish(db, Lax(task), x).value.warehouses)
  {
    if task.ConfirmLotTask? {
      hide ConfirmSaleTx, Confirmable;
      ConfirmSaleExact(db, task.lot, x.order, x.now);
    }
  }

  lemma GrowsUncapped(db: DB, n: DB)
    requires Grows(Uncapped(db), Uncapped(n)) && MapGrows(db.warehouses, n.warehouses)
    ensures Grows(db, n)
  {
    hide FarmersGrow, BatchesGrow, DeliveriesGrow, InventoryGrows, TransfersGrow, LotsGrow;
    assert MapGrows(db.processing, n.processing);
  }

  // Set the capacity check aside, and every transaction keeps everything else.
  lemma LaxKeeps(db: DB, task: Task, x: Supply)
    requires Custody(db) && StillSafe(db, task) && Supplies(db, task, x) && Finish(db, Lax(task), x).Ok?
    ensures var n := Finish(db, Lax(task), x).value; Custody(n) && Grows(db, n) && StatusesStep(db.batches, n.batches)
  {
    SafeUncapped(db, task, x);
    hide Custody, Inv, Finish, Grows, StatusesStep, StillSafe, Supplies, MapGrows, Unlimited, Lax, Uncap;
    var n := Finish(db, Lax(task), x).value;
    CustodyIsUncapped(db);
    FinishUncapped(db, task, x);
    FinishKeeps(Uncapped(db), Uncap(task), x);
    CustodyIsUncapped(n);
    GrowsUncapped(db, n);
  }

  lemma SafeUncapped(db: DB, task: Task, x: Supply)
    requires StillSafe(db, task) && Supplies(db, task, x)
    ensures StillSafe(Uncapped(db), Uncap(task)) && Supplies(Uncapped(db), Uncap(task), x)
  {
  }

  lemma DropKeeps(db: DB, b: Id)
    requires Custody(db) && b in db.batches
    ensures var n := db.(batches := db.batches[b := db.batches[b].(deleted := true)]);
      Custody(n) && Grows(db, n) && StatusesStep(db.batches, n.batches)
  {
    hide Custody, Inv, Grows, StatusesStep, Unlimited;
    var n := db.(batches := db.batches[b := db.batches[b].(deleted := true)]);
    CustodyIsUncapped(db);
    DeleteBatchKeeps(Uncapped(db), b);
    assert Uncapped(n) == Uncapped(db).(batches := n.batches);
    CustodyIsUncapped(n);
    NothingElseGrows(db.warehouses);
    GrowsUncapped(db, n);
  }

  lemma NothingElseGrows(warehouses: map<Id, Warehouse>)
    ensures MapGrows(warehouses, warehouses)
  {
  }

  // ---------------------------------------------------------------------------
  // Capacity: each cooperative's own stock
  // ---------------------------------------------------------------------------

  // The open rows of w that carry the coffee of cooperative k.
  ghost function StockOf(k: Id, db: DB, w: Id): nat {
    OpenLoad(InventoryIn(k, db.batches, db.inventory), w)
  }

  ghost predicate OwnStockFits(db: DB) {
    forall w :: w in db.warehouses && db.warehouses[w].capacity.Some? ==>
      StockOf(db.warehouses[w].coop, db, w) <= db.warehouses[w].capacity.value
  }

  lemma StockShrinks(k: Id, m: DB, n: DB, w: Id)
    requires Grows(m, n) && InventoryRefers(m.batches, m.warehouses, m.inventory) && n.inventory.Keys == m.inventory.Keys
    ensures StockOf(k, n, w) <= StockOf(k, m, w)
  {
    StockShrinksOn(k, m.batches, m.inventory, n.batches, n.inventory, w);
  }

  lemma StockShrinksOn(
    k: Id, batches: map<Id, Batch>, m: map<Id, InventoryRow>, later: map<Id, Batch>, n: map<Id, InventoryRow>, w: Id)
    requires BatchesGrow(batches, later) && InventoryGrows(m, n) && n.Keys == m.Keys
    requires forall r :: r in m ==> m[r].batch in batches
    ensures OpenLoad(InventoryIn(k, later, n), w) <= OpenLoad(InventoryIn(k, batches, m), w)
  {
    SumMonotone(OpenWeights(InventoryIn(k, later, n), w), OpenWeights(InventoryIn(k, batches, m), w));
  }

  lemma NoStock(k: Id, db: DB, w: Id)
    requires InventoryRefers(db.batches, db.warehouses, db.inventory) && w !in db.warehouses
    ensures StockOf(k, db, w) == 0
  {
    assert OpenWeights(InventoryIn(k, db.batches, db.inventory), w) == map[];
  }

  lemma StockStored(k: Id, m: DB, n: DB, r: Id, row: InventoryRow, w: Id)
    requires SameCoops(m.batches, n.batches) && r !in m.inventory && n.inventory == m.inventory[r := row] && row.removedAt == None
    ensures StockOf(k, n, w) == StockOf(k, m, w) + if row.warehouse == w && InCoopOf(m.batches, k, row.batch) then row.weight else 0
  {
    hide OpenLoad;
    ChildrenStay(k, m.batches, n.batches, n);
    if InCoopOf(m.batches, k, row.batch) {
      InsertRowSlice(k, m.batches, m.inventory, r, row);
      StoringLoads(InventoryIn(k, m.batches, m.inventory), r, row, w);
    } else {
      assert InventoryIn(k, m.batches, n.inventory) == InventoryIn(k, m.batches, m.inventory);
    }
  }

  // A store adds one row and rewrites none.
  lemma StoreAdds(db: DB, w: Id, b: Id, weight: nat, total: nat, row: Id, now: Time)
    requires StoreTx(db, w, b, weight, None, total, row, now).Ok?
    ensures var n := StoreTx(db, w, b, weight, None, total, row, now).value;
      && SameCoops(db.batches, n.batches) && n.warehouses == db.warehouses
      && n.inventory == db.inventory[row := InventoryRow(w, b, weight, now, None)]
  {
    hide OpenLoad, HasOpenRow, ProcessedBatches;
  }

  lemma StoreKeepsStock(db: DB, task: Task, x: Supply)
    requires task.StoreTask? && OwnStockFits(db) && Supplies(db, task, x) && Finish(db, Lax(task), x).Ok?
    requires task.warehouse in db.warehouses && db.warehouses[task.warehouse].capacity == task.capacity
    requires var k := db.warehouses[task.warehouse].coop;
      InCoopOf(db.batches, k, task.batch) ==> CheckPasses(InventoryIn(k, db.batches, db.inventory), task)
    ensures OwnStockFits(Finish(db, Lax(task), x).value)
  {
    StoreAdds(db, task.warehouse, task.batch, task.weight, task.total, x.id, x.now);
    hide StoreTx, SameCoops, InCoopOf;
    var n := Finish(db, Lax(task), x).value;
    var row := InventoryRow(task.warehouse, task.batch, task.weight, x.now, None);
    forall w | w in n.warehouses && n.warehouses[w].capacity.Some?
      ensures StockOf(n.warehouses[w].coop, n, w) <= n.warehouses[w].capacity.value
    {
      StockStored(n.warehouses[w].coop, db, n, x.id, row, w);
    }
  }

  lemma OthersKeepStock(db: DB, task: Task, x: Supply)
    requires !task.StoreTask? && OwnStockFits(db) && References(db) && Supplies(db, task, x) && Finish(db, task, x).Ok?
    requires Grows(db, Finish(db, task, x).value)
    ensures OwnStockFits(Finish(db, task, x).value)
  {
    hide Finish, Supplies, StockOf;
    var n := Finish(db, task, x).value;
    forall r | r in n.inventory ensures r in db.inventory {
      if r !in db.inventory { NewRows(db, task, x, r); }
    }
    assert n.inventory.Keys == db.inventory.Keys;
    forall k, w { StockShrinks(k, db, n, w); }
    forall w | w in n.warehouses && n.warehouses[w].capacity.Some?
      ensures StockOf(n.warehouses[w].coop, n, w) <= n.warehouses[w].capacity.value
    {
      if w !in db.warehouses { NoStock(n.warehouses[w].coop, db, w); }
    }
  }

  // The whole stock, where no SUPER_ADMIN put anything on a shelf across cooperatives.
  lemma StoresStayWithinCoop(db: DB, task: Task, x: Supply)
    requires InventoryWithinCoop(db) && Supplies(db, task, x) && Finish(db, task, x).Ok? && Grows(db, Finish(db, task, x).value)
    requires task.StoreTask? ==>
      && task.batch in db.batches && task.warehouse in db.warehouses
      && db.batches[task.batch].coop == db.warehouses[task.warehouse].coop
    ensures InventoryWithinCoop(Finish(db, task, x).value)
  {
    hide Finish, Supplies;
    var n := Finish(db, task, x).value;
    forall r | r in n.inventory && r !in db.inventory { NewRows(db, task, x, r); }
  }
}
