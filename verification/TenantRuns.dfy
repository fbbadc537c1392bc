/**
 Tenant isolation over whole runs, and the one mixture of cooperatives that undoes it: coffee a
 SUPER_ADMIN put on another cooperative's shelf.
 */
module TenantRuns {
  import opened Common
  import opened Sums
  import opened Roles
  import opened CustodyModel
  import opened CustodyInvariant
  import opened CustodySystem
  import opened CustodyRuns
  import opened CustodyWitness
  import opened RowVisibility
  import opened TenantIsolation
  import opened TenantWrites

  predicate IsClerk(u: User) {
    u.role !in {SuperAdmin, FarmerUser} && u.coop.Some?
  }

  lemma {:induction false} ScopedSoFar(run: seq<System>, i: nat, j: nat)
    requires IsRun(run) && i <= j < |run| && !run[j].unscoped
    ensures !run[i].unscoped
    decreases j
  {
    if i < j {
      assert Steps(run[j - 1], run[j]);
      var a :| Next(run[j - 1], a, run[j]);
      ScopedSoFar(run, i, j - 1);
    }
  }

  // What a run without SUPER_ADMIN requests offers to a request accepted at i and finishing at j.
  lemma AcceptedTask(run: seq<System>, i: nat, j: nat, k: Id, q: Request)
    requires IsRun(run) && i <= j < |run| && !run[j].unscoped
    ensures LotsWithinCoop(run[i].db) && LotsWithinCoop(run[j].db) && InventoryWithinCoop(run[j].db) && Inv(run[j].db)
    ensures Begin(run[i].db, Caller(false, Some(k)), q).Ok? ==>
      var task := Begin(run[i].db, Caller(false, Some(k)), q).value;
      TaskOf(run[j].db, k, task) && TaskWithinCoop(run[j].db, task)
  {
    hide Begin, TaskOf, Inv, Grows, LotsWithinCoop, InventoryWithinCoop, TaskWithinCoop, IsRun;
    ScopedSoFar(run, i, j);
    TenantsStayApart(run, i);
    TenantsStayApart(run, j);
    RunKeeps(run, j);
    RunGrows(run, i, j);
    if Begin(run[i].db, Caller(false, Some(k)), q).Ok? {
      var task := Begin(run[i].db, Caller(false, Some(k)), q).value;
      BeginOf(k, run[i].db, q);
      TaskStaysOf(run[i].db, run[j].db, k, task);
      BeginWithinCoop(run[i].db, Caller(false, Some(k)), q);
      TaskStaysWithinCoop(run[i].db, run[j].db, task);
    }
  }

  // A clerk whose every read and write goes through the policies gets the answers of a clerk
  // working on the whole tables, and leaves behind the same rows.
  lemma PoliciesAreTransparent(run: seq<System>, i: nat, j: nat, u: User, q: Request, x: Supply)
    requires IsRun(run) && i <= j < |run| && !run[j].unscoped && IsClerk(u)
    ensures var c, who := ContextOf(u), CallerOf(u);
      var first, answer := Begin(Seen(Pinned, c, run[i].db), who, q), Begin(run[i].db, who, q);
      && (first.Ok? <==> answer.Ok?)
      && (answer.Ok? ==> first == answer)
      && (answer.Ok? && Supplies(run[j].db, answer.value, x) ==>
            var second, outcome := Finish(Seen(Pinned, c, run[j].db), answer.value, x), Finish(run[j].db, answer.value, x);
            && Supplies(Seen(Pinned, c, run[j].db), answer.value, x)
            && (second.Ok? <==> outcome.Ok?)
            && (outcome.Ok? ==> second.value == Seen(Pinned, c, outcome.value)))
  {
    hide IsRun, Begin, Finish, Supplies, TaskOf, Shelves, WithinCapacity, WeightsConserved;
    hide EvidenceOfProcessing, EvidenceOfStorage, SoldAgrees, References, LotsWithinCoop, InventoryWithinCoop;
    hide Seen, Slice;
    var k := u.coop.value;
    AcceptedTask(run, i, j, k, q);
    StaffSeeTheSlice(u, k, run[i].db);
    StaffSeeTheSlice(u, k, run[j].db);
    BeginThroughPolicies(k, run[i].db, q);
    var answer := Begin(run[i].db, CallerOf(u), q);
    if answer.Ok? && Supplies(run[j].db, answer.value, x) {
      SuppliesSlice(k, run[j].db, answer.value, x);
      FinishThroughPolicies(k, run[j].db, answer.value, x);
      if Finish(run[j].db, answer.value, x).Ok? {
        StaffSeeTheSlice(u, k, Finish(run[j].db, answer.value, x).value);
      }
    }
  }

  // Nothing a caller of one cooperative does shows in any session of another, clerk or farmer.
  lemma OtherTenantsSeeNothing(run: seq<System>, i: nat, j: nat, who: Caller, q: Request, x: Supply, c: Context, other: Id)
    requires IsRun(run) && i <= j < |run| && !run[j].unscoped
    requires !who.superAdmin && Begin(run[i].db, who, q).Ok? && Scoped(c, other) && who.coop != Some(other)
    requires var task := Begin(run[i].db, who, q).value;
      Supplies(run[j].db, task, x) && Finish(run[j].db, task, x).Ok?
    ensures Seen(Pinned, c, Finish(run[j].db, Begin(run[i].db, who, q).value, x).value) == Seen(Pinned, c, run[j].db)
  {
    OwnersHaveACoop(run[i].db, who, q);
    hide IsRun, Begin, Finish, Supplies, TaskOf, Shelves, WithinCapacity, WeightsConserved;
    hide EvidenceOfProcessing, EvidenceOfStorage, SoldAgrees, References, LotsWithinCoop, InventoryWithinCoop;
    hide Seen, Slice, Scoped;
    var task := Begin(run[i].db, who, q).value;
    AcceptedTask(run, i, j, who.coop.value, q);
    FinishElsewhere(other, who.coop.value, run[j].db, task, x);
    ViewIsLocal(c, other, run[j].db);
    ViewIsLocal(c, other, Finish(run[j].db, task, x).value);
  }

  lemma OwnersHaveACoop(db: DB, who: Caller, q: Request)
    requires !who.superAdmin && Begin(db, who, q).Ok?
    ensures who.coop.Some? && who == Caller(false, who.coop)
  {
    match q
    case AddLot(bs) => assert bs[0] in bs;
    case _ =>
  }

  // ---------------------------------------------------------------------------
  // Write checks
  // ---------------------------------------------------------------------------

  // Rows that appear or change are in view: the old version before, the new version after.
  ghost predicate ChangesInView<V(!new)>(m: map<Id, V>, n: map<Id, V>, before: set<Id>, after: set<Id>) {
    forall r :: r in n && (r in m ==> n[r] != m[r]) ==> r in after && (r in m ==> r in before)
  }

  ghost predicate OthersUntouched(k: Id, m: DB, n: DB) {
    forall j :: j != k ==> Slice(j, n) == Slice(j, m)
  }

  lemma RootsInView(k: Id, m: DB, n: DB)
    requires OthersUntouched(k, m, n) && Grows(m, n)
    ensures ChangesInView(m.farmers, n.farmers, FarmersIn(k, m.farmers).Keys, FarmersIn(k, n.farmers).Keys)
    ensures ChangesInView(m.batches, n.batches, BatchesIn(k, m.batches).Keys, BatchesIn(k, n.batches).Keys)
    ensures ChangesInView(m.deliveries, n.deliveries, DeliveriesIn(k, m.deliveries).Keys, DeliveriesIn(k, n.deliveries).Keys)
    ensures ChangesInView(m.warehouses, n.warehouses, WarehousesIn(k, m.warehouses).Keys, WarehousesIn(k, n.warehouses).Keys)
  {
    forall j | j != k
      ensures FarmersIn(j, n.farmers) == FarmersIn(j, m.farmers) && BatchesIn(j, n.batches) == BatchesIn(j, m.batches)
      ensures DeliveriesIn(j, n.deliveries) == DeliveriesIn(j, m.deliveries)
      ensures WarehousesIn(j, n.warehouses) == WarehousesIn(j, m.warehouses)
    {
      assert Slice(j, n) == Slice(j, m);
    }
    forall f | f in n.farmers && n.farmers[f].coop != k ensures f in m.farmers && m.farmers[f] == n.farmers[f] {
      assert f in FarmersIn(n.farmers[f].coop, n.farmers);
    }
    forall b | b in n.batches && n.batches[b].coop != k ensures b in m.batches && m.batches[b] == n.batches[b] {
      assert b in BatchesIn(n.batches[b].coop, n.batches);
    }
    forall d | d in n.deliveries && n.deliveries[d].coop != k ensures d in m.deliveries && m.deliveries[d] == n.deliveries[d] {
      assert d in DeliveriesIn(n.deliveries[d].coop, n.deliveries);
    }
    forall w | w in n.warehouses && n.warehouses[w].coop != k ensures w in m.warehouses && m.warehouses[w] == n.warehouses[w] {
      assert w in WarehousesIn(n.warehouses[w].coop, n.warehouses);
    }
  }

  lemma ChildrenInView(k: Id, m: DB, n: DB)
    requires OthersUntouched(k, m, n) && Grows(m, n) && References(m) && References(n)
    ensures ChangesInView(m.inventory, n.inventory, InventoryIn(k, m.batches, m.inventory).Keys, InventoryIn(k, n.batches, n.inventory).Keys)
    ensures ChangesInView(m.transfers, n.transfers, TransfersIn(k, m.batches, m.transfers).Keys, TransfersIn(k, n.batches, n.transfers).Keys)
    ensures ChangesInView(m.processing, n.processing, ProcessingIn(k, m.batches, m.processing).Keys, ProcessingIn(k, n.batches, n.processing).Keys)
  {
    hide DeliveriesRefer, LotsRefer, FarmersGrow, DeliveriesGrow, LotsGrow;
    forall j | j != k
      ensures InventoryIn(j, n.batches, n.inventory) == InventoryIn(j, m.batches, m.inventory)
      ensures TransfersIn(j, n.batches, n.transfers) == TransfersIn(j, m.batches, m.transfers)
      ensures ProcessingIn(j, n.batches, n.processing) == ProcessingIn(j, m.batches, m.processing)
    {
      assert Slice(j, n) == Slice(j, m);
    }
    hide OthersUntouched;
    forall r | r in n.inventory && n.batches[n.inventory[r].batch].coop != k ensures r in m.inventory && m.inventory[r] == n.inventory[r] {
      assert r in InventoryIn(n.batches[n.inventory[r].batch].coop, n.batches, n.inventory);
    }
    forall t | t in n.transfers && n.batches[n.transfers[t].batch].coop != k ensures t in m.transfers && m.transfers[t] == n.transfers[t] {
      assert t in TransfersIn(n.batches[n.transfers[t].batch].coop, n.batches, n.transfers);
    }
    forall r | r in n.processing && n.batches[n.processing[r]].coop != k ensures r in m.processing && m.processing[r] == n.processing[r] {
      assert r in ProcessingIn(n.batches[n.processing[r]].coop, n.batches, n.processing);
    }
  }

  lemma LotsInView(k: Id, m: DB, n: DB)
    requires OthersUntouched(k, m, n) && Grows(m, n) && LotsWithinCoop(m) && LotsWithinCoop(n)
    ensures ChangesInView(m.lots, n.lots, LotsIn(k, m.batches, m.lots).Keys, LotsIn(k, n.batches, n.lots).Keys)
  {
    forall l | l in n.lots && n.lots[l].coop != k ensures l in m.lots && m.lots[l] == n.lots[l] {
      var j := n.lots[l].coop;
      assert Slice(j, n) == Slice(j, m);
      assert LotsIn(j, n.batches, n.lots) == LotsIn(j, m.batches, m.lots);
      assert l in LotsIn(j, n.batches, n.lots) && l in LotsIn(j, m.batches, m.lots);
      assert MembersIn(j, n.batches, n.lots[l].members) == n.lots[l].members;
      assert MembersIn(j, m.batches, m.lots[l].members) == m.lots[l].members;
    }
  }

  // The row checks on writes never refuse a clerk's accepted request: each row it adds or changes
  // was in view before, if it existed, and satisfies the check afterwards.
  lemma WritesPassTheChecks(run: seq<System>, i: nat, j: nat, u: User, q: Request, x: Supply)
    requires IsRun(run) && i <= j < |run| && !run[j].unscoped && IsClerk(u)
    requires Begin(run[i].db, CallerOf(u), q).Ok?
    requires var task := Begin(run[i].db, CallerOf(u), q).value;
      Supplies(run[j].db, task, x) && Finish(run[j].db, task, x).Ok?
    ensures var m, n := run[j].db, Finish(run[j].db, Begin(run[i].db, CallerOf(u), q).value, x).value;
      var before, after := Seen(Pinned, ContextOf(u), m), Seen(Pinned, ContextOf(u), n);
      && ChangesInView(m.farmers, n.farmers, before.farmers.Keys, after.farmers.Keys)
      && ChangesInView(m.batches, n.batches, before.batches.Keys, after.batches.Keys)
      && ChangesInView(m.deliveries, n.deliveries, before.deliveries.Keys, after.deliveries.Keys)
      && ChangesInView(m.warehouses, n.warehouses, before.warehouses.Keys, after.warehouses.Keys)
      && ChangesInView(m.processing, n.processing, before.processing.Keys, after.processing.Keys)
      && ChangesInView(m.inventory, n.inventory, before.inventory.Keys, after.inventory.Keys)
      && ChangesInView(m.transfers, n.transfers, before.transfers.Keys, after.transfers.Keys)
      && ChangesInView(m.lots, n.lots, before.lots.Keys, after.lots.Keys)
  {
    hide IsRun, Begin, Finish, Supplies, TaskOf, Shelves, WithinCapacity, WeightsConserved;
    hide EvidenceOfProcessing, EvidenceOfStorage, SoldAgrees, References, LotsWithinCoop, InventoryWithinCoop;
    hide Seen, ChangesInView, StillSafe, Grows, StatusesStep, TaskWithinCoop;
    hide FarmersIn, BatchesIn, DeliveriesIn, WarehousesIn, ProcessingIn, InventoryIn, TransfersIn, LotsIn;
    var k := u.coop.value;
    var task := Begin(run[i].db, CallerOf(u), q).value;
    var m, n := run[j].db, Finish(run[j].db, task, x).value;
    AcceptedTask(run, i, j, k, q);
    TaskIsSafe(run, i, j, CallerOf(u), q);
    FinishKeeps(m, task, x);
    FinishWithinCoop(m, task, x);
    forall other | other != k { FinishElsewhere(other, k, m, task, x); }
    assert OthersUntouched(k, m, n) by { hide Slice; }
    hide OthersUntouched;
    RootsInView(k, m, n);
    ChildrenInView(k, m, n);
    LotsInView(k, m, n);
    StaffSeeTheSlice(u, k, m);
    StaffSeeTheSlice(u, k, n);
  }

  lemma TaskIsSafe(run: seq<System>, i: nat, j: nat, who: Caller, q: Request)
    requires IsRun(run) && i <= j < |run| && Begin(run[i].db, who, q).Ok?
    ensures StillSafe(run[j].db, Begin(run[i].db, who, q).value)
  {
    hide IsRun, Begin, StillSafe, Inv, Grows;
    RunKeeps(run, i);
    RunGrows(run, i, j);
    BeginSafe(run[i].db, who, q);
    SafetyLasts(run[i].db, run[j].db, Begin(run[i].db, who, q).value);
  }

  // Who may leave a row behind, table by table.  Root tables (batches, deliveries, farmers, warehouses,
  // lots), and processing records, transfers, inventory rows and lot members: a clerk, where the batch
  // is in view; never a farmer.  Ledger and scan rows check for the batch in view and nothing else,
  // so a farmer may add those.
  lemma WhoMayWrite(u: User, db: DB, b: Id)
    requires u.role != SuperAdmin && b in db.batches
    ensures var c := ContextOf(u); var visible := VisibleBatches(Pinned, c, db);
      && (StaffPolicy(Pinned, c, db.batches[b].coop) == True <==> u.role != FarmerUser && b in visible)
      && (WriteChild(Pinned, c, visible, b) == True <==> u.role != FarmerUser && b in visible)
      && (WriteLedger(Pinned, c, visible, b) == True <==> b in visible)
  {
  }

  // ---------------------------------------------------------------------------
  // A mixture of cooperatives
  // ---------------------------------------------------------------------------

  // Warehouse 1 of cooperative 1, full with batch 2 of cooperative 2; batch 1 still waits.
  function Mixed(): DB {
    TwoBatches(2, 10).(
      batches := map[1 := Batch(1, Processed, 10, false), 2 := Batch(2, InStorage, 10, false)],
      inventory := map[2 := InventoryRow(1, 2, 10, 0, None)])
  }

  lemma BareLoad()
    ensures OpenLoad(TwoBatches(2, 10).inventory, 1) == 0
  {
    hide Sum;
    assert OpenWeights(TwoBatches(2, 10).inventory, 1) == map[];
    NothingWeighsNothing();
  }

  lemma MixedLoad()
    ensures OpenLoad(Mixed().inventory, 1) == 10
  {
    hide Sum;
    var none: map<Id, nat> := map[];
    assert OpenWeights(Mixed().inventory, 1) == none[2 := 10];
    SumInsert(none, 2, 10);
    NothingWeighsNothing();
  }

  // A run leads there: the SUPER_ADMIN's store across cooperatives is accepted.
  lemma ReachMixed()
    ensures Reachable(Quiet(Mixed(), true))
  {
    hide Reachable, OpenLoad;
    var db := TwoBatches(2, 10);
    ReachTwoBatches(2, 10);
    BareLoad();
    ReachStored(db, false, Caller(true, None), 2, 10);
    assert Stored(db, 2) == Mixed();
  }

  lemma OverfullLoad()
    ensures OpenLoad(Mixed().inventory[1 := InventoryRow(1, 1, 10, 1, None)], 1) == 20
  {
    hide OpenLoad;
    MixedLoad();
    StoringLoads(Mixed().inventory, 1, InventoryRow(1, 1, 10, 1, None), 1);
  }

  // A clerk of cooperative 1 then stores batch 1 in the same warehouse.  On the whole tables the
  // capacity check refuses it.  Under the policies the row of batch 2 is out of view, the check
  // passes, and the warehouse ends up holding 20.
  lemma HiddenLoadOverfills(u: User)
    requires IsClerk(u) && u.coop == Some(1)
    ensures Reachable(Quiet(Mixed(), true))
    ensures var view := Seen(Pinned, ContextOf(u), Mixed());
      var task, x := StoreTask(1, 1, 10, Some(10), 10), Supply(1, 1, map[], []);
      && Begin(view, CallerOf(u), Store(1, 1, 10)) == Ok(task)
      && Finish(Mixed(), task, x) == Err(BadRequest)
      && Finish(view, task, x).Ok?
      && var row := InventoryRow(1, 1, 10, 1, None);
         Finish(view, task, x).value.inventory == map[1 := row]
         && !WithinCapacity(Mixed().warehouses, Mixed().inventory[1 := row])
  {
    hide Seen, Reachable, Begin, Finish, Slice;
    ReachMixed();
    StaffSeeTheSlice(u, 1, Mixed());
    ClerkStoresInView();
    WholeTablesRefuse();
    OverfullLoad();
  }

  // What of it cooperative 1 sees.
  lemma MixedInView()
    ensures var view := Slice(1, Mixed());
      && view.inventory == map[]
      && view.warehouses == map[1 := Warehouse(1, Some(10))]
      && view.batches == map[1 := Batch(1, Processed, 10, false)]
  {
    hide FarmersIn, DeliveriesIn, ProcessingIn, TransfersIn, LotsIn;
  }

  lemma BareShelf(inventory: map<Id, InventoryRow>, w: Id)
    requires inventory == map[]
    ensures OpenLoad(inventory, w) == 0
  {
    hide Sum;
    assert OpenWeights(inventory, w) == map[];
    NothingWeighsNothing();
  }

  lemma ClerkStoresInView()
    ensures var view := Slice(1, Mixed()); var task, x := StoreTask(1, 1, 10, Some(10), 10), Supply(1, 1, map[], []);
      && Begin(view, Caller(false, Some(1)), Store(1, 1, 10)) == Ok(task)
      && Finish(view, task, x).Ok?
      && Finish(view, task, x).value.inventory == map[1 := InventoryRow(1, 1, 10, 1, None)]
  {
    hide OpenLoad, Slice;
    MixedInView();
    BareShelf(Slice(1, Mixed()).inventory, 1);
    assert !HasOpenRow(Slice(1, Mixed()).inventory, 1);
  }

  lemma WholeTablesRefuse()
    ensures Finish(Mixed(), StoreTask(1, 1, 10, Some(10), 10), Supply(1, 1, map[], [])) == Err(BadRequest)
  {
    hide OpenLoad;
    MixedLoad();
    assert !HasOpenRow(Mixed().inventory, 1);
  }

}
