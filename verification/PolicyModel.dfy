/**
 A request with the row policies in force: it reads through them, its transaction runs on what they
 show, and the rows it leaves behind must pass their checks.
 */
module PolicyModel {
  import opened Common
  import opened Roles
  import opened CustodyModel
  import opened CustodyInvariant
  import opened CustodySystem
  import opened CustodyRuns
  import opened RowVisibility
  import opened TenantIsolation
  import opened TenantWrites
  import opened TenantRuns
  import opened ShelfLoads

  function ViewOf(u: User, db: DB): DB {
    Seen(Pinned, ContextOf(u), db)
  }

  // What a transaction leaves in the tables: the rows in view as it left them, the others as they
  // were.  The members of a lot are rows of their own, which no transaction rewrites.
  function WriteBack(db: DB, after: DB): DB {
    DB(db.farmers + after.farmers,
       db.batches + after.batches,
       db.deliveries + after.deliveries,
       db.processing + after.processing,
       db.warehouses + after.warehouses,
       db.inventory + after.inventory,
       db.transfers + after.transfers,
       LotsBack(db.lots, after.lots))
  }

  function LotsBack(m: map<Id, Lot>, after: map<Id, Lot>): map<Id, Lot> {
    m + map l | l in after :: if l in m then m[l].(status := after[l].status) else after[l]
  }

  // The row checks, for a clerk: rows that appear or change are rows of the cooperative.
  ghost predicate WritesOwn(k: Id, m: DB, n: DB) {
    var before, after := Slice(k, m), Slice(k, n);
    && ChangesInView(m.farmers, n.farmers, before.farmers.Keys, after.farmers.Keys)
    && ChangesInView(m.batches, n.batches, before.batches.Keys, after.batches.Keys)
    && ChangesInView(m.deliveries, n.deliveries, before.deliveries.Keys, after.deliveries.Keys)
    && ChangesInView(m.processing, n.processing, before.processing.Keys, after.processing.Keys)
    && ChangesInView(m.warehouses, n.warehouses, before.warehouses.Keys, after.warehouses.Keys)
    && ChangesInView(m.inventory, n.inventory, before.inventory.Keys, after.inventory.Keys)
    && ChangesInView(m.transfers, n.transfers, before.transfers.Keys, after.transfers.Keys)
    && ChangesInView(m.lots, n.lots, before.lots.Keys, after.lots.Keys)
  }

  // A farmer passes only if nothing changed.
  ghost predicate RowChecksPass(u: User, m: DB, n: DB) {
    u.role == SuperAdmin || n == m || (IsClerk(u) && WritesOwn(u.coop.value, m, n))
  }

  ghost function FinishAs(u: User, db: DB, task: Task, x: Supply): Result<DB, Error> {
    match Finish(ViewOf(u, db), task, x)
    case Err(e) => Err(e)
    case Ok(after) => if RowChecksPass(u, db, WriteBack(db, after)) then Ok(WriteBack(db, after)) else Err(Forbidden)
  }

  // ---------------------------------------------------------------------------
  // A SUPER_ADMIN
  // ---------------------------------------------------------------------------

  lemma UnrestrictedSessions(c: Context)
    ensures Unrestricted(Pinned, c) == True <==> c.system || c.role == Some(SuperAdmin)
  {
  }

  lemma AdminRoots(c: Context, db: DB)
    requires Unrestricted(Pinned, c) == True
    ensures SeenFarmers(Pinned, c, db.farmers) == db.farmers
    ensures SeenDeliveries(Pinned, c, db.deliveries) == db.deliveries
    ensures SeenWarehouses(Pinned, c, db.warehouses) == db.warehouses
    ensures VisibleBatches(Pinned, c, db) == db.batches.Keys
  {
    hide Unrestricted, Contributed;
  }

  lemma AdminChildren(c: Context, visible: set<Id>, db: DB)
    requires Unrestricted(Pinned, c) == True
    ensures SeenProcessing(Pinned, c, visible, db.processing) == db.processing
    ensures SeenInventory(Pinned, c, visible, db.inventory) == db.inventory
    ensures SeenTransfers(Pinned, c, visible, db.transfers) == db.transfers
    ensures SeenLots(Pinned, c, visible, db.lots) == db.lots
  {
    hide Unrestricted;
    forall l | l in db.lots ensures SeenMembers(Pinned, c, visible, db.lots[l].members) == db.lots[l].members {}
  }

  // A system or SUPER_ADMIN session sees every row.
  lemma UnrestrictedSeesAll(c: Context, db: DB)
    requires c.system || c.role == Some(SuperAdmin)
    ensures Seen(Pinned, c, db) == db
  {
    hide SeenFarmers, SeenDeliveries, SeenWarehouses, SeenProcessing, SeenInventory, SeenTransfers, SeenLots, VisibleBatches;
    UnrestrictedSessions(c);
    AdminRoots(c, db);
    AdminChildren(c, db.batches.Keys, db);
  }

  lemma AdminSeesAll(u: User, db: DB)
    requires u.role == SuperAdmin
    ensures ViewOf(u, db) == db
  {
    hide Seen;
    UnrestrictedSeesAll(ContextOf(u), db);
  }

  lemma Overlay<V>(m: map<Id, V>, part: map<Id, V>, n: map<Id, V>)
    requires m.Keys <= n.Keys && part.Keys <= n.Keys
    requires forall r :: r in n ==> if r in part then part[r] == n[r] else r in m && m[r] == n[r]
    ensures m + part == n
  {
  }

  lemma WriteAll(db: DB, n: DB)
    requires Grows(db, n)
    ensures WriteBack(db, n) == n
  {
    KeysGrow(db, n);
    WriteAllLots(db, n);
    hide Grows;
    Overlay(db.farmers, n.farmers, n.farmers);
    Overlay(db.batches, n.batches, n.batches);
    Overlay(db.deliveries, n.deliveries, n.deliveries);
    Overlay(db.processing, n.processing, n.processing);
    Overlay(db.warehouses, n.warehouses, n.warehouses);
    Overlay(db.inventory, n.inventory, n.inventory);
    Overlay(db.transfers, n.transfers, n.transfers);
  }

  lemma WriteAllLots(db: DB, n: DB)
    requires Grows(db, n)
    ensures WriteBack(db, n).lots == n.lots
  {
    hide FarmersGrow, BatchesGrow, DeliveriesGrow, InventoryGrows, TransfersGrow, MapGrows;
  }

  // Nothing is out of a SUPER_ADMIN's view, and no check refuses.
  lemma FinishAsAdmin(u: User, db: DB, task: Task, x: Supply)
    requires u.role == SuperAdmin
    requires Finish(db, task, x).Ok? ==> Grows(db, Finish(db, task, x).value)
    ensures FinishAs(u, db, task, x) == Finish(db, task, x)
  {
    hide ViewOf, Finish, WriteBack, Grows;
    AdminSeesAll(u, db);
    if Finish(db, task, x).Ok? { WriteAll(db, Finish(db, task, x).value); }
  }

  // ---------------------------------------------------------------------------
  // The capacity check set aside
  // ---------------------------------------------------------------------------

  function Lax(task: Task): Task {
    if task.StoreTask? then task.(capacity := None) else task
  }

  ghost predicate CheckPasses(inventory: map<Id, InventoryRow>, task: Task) {
    task.StoreTask? ==> Fits(task.capacity, OpenLoad(inventory, task.warehouse), task.weight)
  }

  // A transaction goes through exactly when it would with no limit declared and the check passes on
  // the rows it reads.
  lemma FinishSplits(db: DB, task: Task, x: Supply)
    ensures Finish(db, task, x).Ok? <==> Finish(db, Lax(task), x).Ok? && CheckPasses(db.inventory, task)
    ensures Finish(db, task, x).Ok? ==> Finish(db, task, x).value == Finish(db, Lax(task), x).value
  {
    hide OpenLoad, Transition, HasOpenRow, AssignTx, ProcessTx, UpdateStatusTx, ConfirmTx, ConfirmSaleTx;
  }

  // ---------------------------------------------------------------------------
  // A clerk
  // ---------------------------------------------------------------------------

  ghost predicate NewLotsOwn(k: Id, m: DB, n: DB) {
    forall l :: l in n.lots && l !in m.lots ==>
      n.lots[l].coop == k && forall b :: b in n.lots[l].members ==> InCoopOf(n.batches, k, b)
  }

  lemma OwnLots(k: Id, m: DB, n: DB)
    requires OthersUntouched(k, m, n) && Grows(m, n) && NewLotsOwn(k, m, n)
    ensures forall l :: l in n.lots && n.lots[l].coop != k ==> l in m.lots && m.lots[l] == n.lots[l]
  {
    forall l | l in n.lots && n.lots[l].coop != k ensures l in m.lots && m.lots[l] == n.lots[l] {
      var j := n.lots[l].coop;
      assert Slice(j, n) == Slice(j, m);
      assert l in LotsIn(j, n.batches, n.lots) && l in LotsIn(j, m.batches, m.lots);
      assert LotsIn(j, n.batches, n.lots)[l].status == LotsIn(j, m.batches, m.lots)[l].status;
    }
  }

  lemma NewLotWhole(k: Id, m: DB, n: DB, l: Id)
    requires NewLotsOwn(k, m, n) && l in n.lots && l !in m.lots
    ensures l in LotsIn(k, n.batches, n.lots) && LotsIn(k, n.batches, n.lots)[l] == n.lots[l]
  {
    assert MembersIn(k, n.batches, n.lots[l].members) == n.lots[l].members;
  }

  lemma LotsWriteBack(k: Id, m: DB, n: DB)
    requires OthersUntouched(k, m, n) && Grows(m, n) && NewLotsOwn(k, m, n)
    ensures LotsBack(m.lots, LotsIn(k, n.batches, n.lots)) == n.lots
    ensures ChangesInView(m.lots, n.lots, LotsIn(k, m.batches, m.lots).Keys, LotsIn(k, n.batches, n.lots).Keys)
  {
    OwnLots(k, m, n);
    hide OthersUntouched, FarmersGrow, BatchesGrow, DeliveriesGrow, InventoryGrows, TransfersGrow, MapGrows, MembersIn;
    forall l | l in n.lots && l !in m.lots { NewLotWhole(k, m, n, l); }
    hide NewLotsOwn;
    var back := LotsBack(m.lots, LotsIn(k, n.batches, n.lots));
    forall l | l in n.lots ensures l in back && back[l] == n.lots[l] {}
  }

  lemma PartWriteBack<V(!new)>(m: map<Id, V>, n: map<Id, V>, before: set<Id>, part: map<Id, V>)
    requires ChangesInView(m, n, before, part.Keys) && m.Keys <= n.Keys && part.Keys <= n.Keys
    requires forall r :: r in part ==> part[r] == n[r]
    ensures m + part == n
  {
    Overlay(m, part, n);
  }

  lemma RootsWriteBack(k: Id, m: DB, n: DB)
    requires OthersUntouched(k, m, n) && Grows(m, n)
    ensures var back, before, after := WriteBack(m, Slice(k, n)), Slice(k, m), Slice(k, n);
      && back.farmers == n.farmers && back.batches == n.batches
      && back.deliveries == n.deliveries && back.warehouses == n.warehouses
      && ChangesInView(m.farmers, n.farmers, before.farmers.Keys, after.farmers.Keys)
      && ChangesInView(m.batches, n.batches, before.batches.Keys, after.batches.Keys)
      && ChangesInView(m.deliveries, n.deliveries, before.deliveries.Keys, after.deliveries.Keys)
      && ChangesInView(m.warehouses, n.warehouses, before.warehouses.Keys, after.warehouses.Keys)
  {
    RootsInView(k, m, n);
    KeysGrow(m, n);
    hide OthersUntouched, Grows, ChangesInView, ProcessingIn, InventoryIn, TransfersIn, LotsIn;
    PartWriteBack(m.farmers, n.farmers, FarmersIn(k, m.farmers).Keys, FarmersIn(k, n.farmers));
    PartWriteBack(m.batches, n.batches, BatchesIn(k, m.batches).Keys, BatchesIn(k, n.batches));
    PartWriteBack(m.deliveries, n.deliveries, DeliveriesIn(k, m.deliveries).Keys, DeliveriesIn(k, n.deliveries));
    PartWriteBack(m.warehouses, n.warehouses, WarehousesIn(k, m.warehouses).Keys, WarehousesIn(k, n.warehouses));
  }

  lemma ChildrenWriteBack(k: Id, m: DB, n: DB)
    requires OthersUntouched(k, m, n) && Grows(m, n) && References(m) && References(n)
    ensures var back, before, after := WriteBack(m, Slice(k, n)), Slice(k, m), Slice(k, n);
      && back.processing == n.processing && back.inventory == n.inventory && back.transfers == n.transfers
      && ChangesInView(m.processing, n.processing, before.processing.Keys, after.processing.Keys)
      && ChangesInView(m.inventory, n.inventory, before.inventory.Keys, after.inventory.Keys)
      && ChangesInView(m.transfers, n.transfers, before.transfers.Keys, after.transfers.Keys)
  {
    ChildrenInView(k, m, n);
    KeysGrow(m, n);
    hide OthersUntouched, Grows, References, ChangesInView, FarmersIn, BatchesIn, DeliveriesIn, WarehousesIn, LotsIn;
    PartWriteBack(m.processing, n.processing, ProcessingIn(k, m.batches, m.processing).Keys, ProcessingIn(k, n.batches, n.processing));
    PartWriteBack(m.inventory, n.inventory, InventoryIn(k, m.batches, m.inventory).Keys, InventoryIn(k, n.batches, n.inventory));
    PartWriteBack(m.transfers, n.transfers, TransfersIn(k, m.batches, m.transfers).Keys, TransfersIn(k, n.batches, n.transfers));
  }

  // A step that touches nothing outside the cooperative is restored from the view it leaves.
  lemma SliceWriteBack(k: Id, m: DB, n: DB)
    requires OthersUntouched(k, m, n) && Grows(m, n) && References(m) && References(n) && NewLotsOwn(k, m, n)
    ensures WriteBack(m, Slice(k, n)) == n && WritesOwn(k, m, n)
  {
    RootsWriteBack(k, m, n);
    ChildrenWriteBack(k, m, n);
    LotsWriteBack(k, m, n);
    hide OthersUntouched, Grows, References, NewLotsOwn, ChangesInView;
    hide FarmersIn, BatchesIn, DeliveriesIn, WarehousesIn, ProcessingIn, InventoryIn, TransfersIn, LotsIn;
  }

  lemma KeysGrow(m: DB, n: DB)
    requires Grows(m, n)
    ensures m.farmers.Keys <= n.farmers.Keys && m.batches.Keys <= n.batches.Keys && m.deliveries.Keys <= n.deliveries.Keys
    ensures m.warehouses.Keys <= n.warehouses.Keys && m.processing.Keys <= n.processing.Keys
    ensures m.inventory.Keys <= n.inventory.Keys && m.transfers.Keys <= n.transfers.Keys
  {
  }

  lemma LaxTask(db: DB, k: Id, task: Task, x: Supply)
    requires TaskOf(db, k, task) && Supplies(db, task, x)
    ensures TaskOf(db, k, Lax(task)) && Supplies(db, Lax(task), x)
  {
  }

  lemma NewLotsAreOwn(k: Id, db: DB, task: Task, x: Supply)
    requires TaskOf(db, k, task) && Supplies(db, task, x) && Finish(db, task, x).Ok? && Grows(db, Finish(db, task, x).value)
    ensures NewLotsOwn(k, db, Finish(db, task, x).value)
  {
    hide Finish, Supplies;
    var n := Finish(db, task, x).value;
    forall l | l in n.lots && l !in db.lots
      ensures n.lots[l].coop == k && forall b :: b in n.lots[l].members ==> InCoopOf(n.batches, k, b)
    {
      NewLots(db, task, x, l);
    }
  }

  // Through the policies a clerk's transaction does what it would do on the whole tables without a
  // capacity check, and it goes through exactly when that does and the check passes on the rows in
  // view.  Its row checks never refuse.
  lemma FinishAsClerk(u: User, db: DB, task: Task, x: Supply)
    requires IsClerk(u) && References(db) && TaskOf(db, u.coop.value, task) && Supplies(db, task, x)
    requires Finish(db, Lax(task), x).Ok? ==>
      Grows(db, Finish(db, Lax(task), x).value) && References(Finish(db, Lax(task), x).value)
    ensures FinishAs(u, db, task, x).Ok? <==>
      Finish(db, Lax(task), x).Ok? && CheckPasses(InventoryIn(u.coop.value, db.batches, db.inventory), task)
    ensures FinishAs(u, db, task, x).Ok? ==> FinishAs(u, db, task, x).value == Finish(db, Lax(task), x).value
  {
    hide Seen, Finish, Supplies, TaskOf, Grows, References, WriteBack, WritesOwn, CheckPasses, InventoryWithinCoop;
    var k := u.coop.value;
    StaffSeeTheSlice(u, k, db);
    assert Slice(k, db).inventory == InventoryIn(k, db.batches, db.inventory);
    hide Slice;
    LaxTask(db, k, task, x);
    FinishSplits(Slice(k, db), task, x);
    FinishThroughPolicies(k, db, Lax(task), x);
    if Finish(db, Lax(task), x).Ok? {
      var n := Finish(db, Lax(task), x).value;
      forall j | j != k { FinishElsewhere(j, k, db, Lax(task), x); }
      assert OthersUntouched(k, db, n);
      NewLotsAreOwn(k, db, Lax(task), x);
      SliceWriteBack(k, db, n);
    }
  }
}
