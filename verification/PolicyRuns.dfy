/**
 What every run under the row policies keeps, and what becomes there of the two results that need
 the whole tables: the capacity of a warehouse, and the sale of a lot.
 */
module PolicyRuns {
  import opened Common
  import opened Roles
  import opened CustodyModel
  import opened CustodyInvariant
  import opened CustodyKeeps
  import opened CustodySystem
  import opened CustodyRuns
  import opened RowVisibility
  import opened TenantIsolation
  import opened TenantWrites
  import opened TenantRuns
  import opened ShelfLoads
  import opened PolicyModel
  import opened PolicySystem

  // A farmer's job changes nothing; anybody else's is safe on the tables, and a clerk's names rows of
  // the cooperative only.
  ghost predicate JobSafe(db: DB, job: Job) {
    job.user.role == FarmerUser
    || (StillSafe(db, job.task)
        && (job.user.role == SuperAdmin || (job.user.coop.Some? && TaskOf(db, job.user.coop.value, job.task))))
  }

  // As long as no SUPER_ADMIN has asked for anything, shelves do not mix cooperatives.
  ghost predicate Unmixed(s: Site) {
    && InventoryWithinCoop(s.db)
    && forall job :: job in s.jobs ==> job.user.role != SuperAdmin
  }

  ghost predicate SiteInv(s: Site) {
    && Custody(s.db)
    && OwnStockFits(s.db)
    && (!s.unscoped ==> Unmixed(s))
    && forall job :: job in s.jobs ==> JobSafe(s.db, job)
  }

  lemma LotReadInSlice(k: Id, db: DB, q: Request)
    requires (q.AddLot? || q.SellLot? || q.ConfirmLot?) && Begin(Slice(k, db), Caller(false, Some(k)), q).Ok?
    ensures StillSafe(db, Begin(Slice(k, db), Caller(false, Some(k)), q).value)
  {
  }

  lemma ReadInSlice(k: Id, db: DB, q: Request)
    requires Begin(Slice(k, db), Caller(false, Some(k)), q).Ok?
    ensures StillSafe(db, Begin(Slice(k, db), Caller(false, Some(k)), q).value)
  {
    if q.AddLot? || q.SellLot? || q.ConfirmLot? {
      LotReadInSlice(k, db, q);
      hide Begin, StillSafe;
    }
  }

  lemma CustodyRefers(db: DB)
    requires Custody(db)
    ensures References(db)
  {
  }

  lemma AskSafe(db: DB, u: User, q: Request)
    requires Custody(db) && Begin(ViewOf(u, db), CallerOf(u), q).Ok?
    ensures JobSafe(db, Job(u, Begin(ViewOf(u, db), CallerOf(u), q).value))
  {
    hide Begin, StillSafe, TaskOf, Custody, References, Seen;
    CustodyRefers(db);
    if u.role == SuperAdmin {
      AdminSeesAll(u, db);
      BeginReads(db, CallerOf(u), q);
    } else if u.role != FarmerUser {
      OwnersHaveACoop(ViewOf(u, db), CallerOf(u), q);
      var k := u.coop.value;
      StaffSeeTheSlice(u, k, db);
      BeginInView(k, db, q);
      ReadInSlice(k, db, q);
    }
  }

  lemma JobStaysSafe(db: DB, n: DB, job: Job)
    requires Grows(db, n) && JobSafe(db, job)
    ensures JobSafe(n, job)
  {
    hide Grows, StillSafe, TaskOf;
    if job.user.role != FarmerUser {
      SafetyLasts(db, n, job.task);
      if job.user.role != SuperAdmin { TaskStaysOf(db, n, job.user.coop.value, job.task); }
    }
  }

  ghost predicate StepKept(db: DB, n: DB) {
    Custody(n) && OwnStockFits(n) && Grows(db, n) && StatusesStep(db.batches, n.batches)
  }

  lemma NothingChanged(db: DB)
    requires Custody(db) && OwnStockFits(db)
    ensures StepKept(db, db)
  {
    hide Custody, OwnStockFits, Grows;
    GrowsReflexive(db);
  }

  lemma OwnCheckPasses(db: DB, k: Id, task: Task)
    requires CheckPasses(db.inventory, task)
    ensures CheckPasses(InventoryIn(k, db.batches, db.inventory), task)
  {
    hide OpenLoad;
    if task.StoreTask? { LoadInView(InventoryIn(k, db.batches, db.inventory), db.inventory, task.warehouse); }
  }

  lemma StockKept(db: DB, task: Task, x: Supply)
    requires OwnStockFits(db) && Custody(db) && StillSafe(db, task) && Supplies(db, task, x)
    requires Finish(db, Lax(task), x).Ok? && Grows(db, Finish(db, Lax(task), x).value)
    requires task.StoreTask? && InCoopOf(db.batches, db.warehouses[task.warehouse].coop, task.batch) ==>
      CheckPasses(InventoryIn(db.warehouses[task.warehouse].coop, db.batches, db.inventory), task)
    ensures OwnStockFits(Finish(db, Lax(task), x).value)
  {
    CustodyRefers(db);
    hide Finish, OwnStockFits, Custody, References, Grows, Supplies, CheckPasses;
    if task.StoreTask? {
      StoreKeepsStock(db, task, x);
    } else {
      OthersKeepStock(db, task, x);
    }
  }

  // A SUPER_ADMIN's transaction.
  lemma AdminKeeps(u: User, db: DB, task: Task, x: Supply)
    requires u.role == SuperAdmin && Custody(db) && OwnStockFits(db) && StillSafe(db, task) && Supplies(db, task, x)
    requires FinishAs(u, db, task, x).Ok?
    ensures StepKept(db, FinishAs(u, db, task, x).value)
    ensures FinishAs(u, db, task, x) == Finish(db, task, x)
  {
    hide Custody, OwnStockFits, FinishAs, Finish, Grows, StatusesStep, StillSafe, Supplies, CheckPasses, Lax;
    FinishSplits(db, task, x);
    if Finish(db, Lax(task), x).Ok? { LaxKeeps(db, task, x); }
    FinishAsAdmin(u, db, task, x);
    forall k { OwnCheckPasses(db, k, task); }
    StockKept(db, task, x) by { StoreNames(db, task); }
  }

  lemma StoreNames(db: DB, task: Task)
    requires StillSafe(db, task)
    ensures task.StoreTask? ==> task.warehouse in db.warehouses && task.batch in db.batches
  {
  }

  // A clerk's.
  lemma ClerkKeeps(u: User, db: DB, task: Task, x: Supply)
    requires IsClerk(u) && Custody(db) && OwnStockFits(db) && StillSafe(db, task) && TaskOf(db, u.coop.value, task)
    requires Supplies(db, task, x) && FinishAs(u, db, task, x).Ok?
    ensures StepKept(db, FinishAs(u, db, task, x).value)
    ensures Finish(db, Lax(task), x) == FinishAs(u, db, task, x)
    ensures InventoryWithinCoop(db) ==> InventoryWithinCoop(FinishAs(u, db, task, x).value)
  {
    CustodyRefers(db);
    ClerkStores(u.coop.value, db, task);
    LaxTask(db, u.coop.value, task, x);
    hide Custody, References, OwnStockFits, FinishAs, Finish, Grows, StatusesStep, StillSafe, Supplies, CheckPasses;
    hide TaskOf, InventoryWithinCoop;
    if Finish(db, Lax(task), x).Ok? {
      LaxKeeps(db, task, x);
      CustodyRefers(Finish(db, Lax(task), x).value);
    }
    FinishAsClerk(u, db, task, x);
    StockKept(db, task, x);
    if InventoryWithinCoop(db) { StoresStayWithinCoop(db, Lax(task), x); }
  }

  lemma ClerkStores(k: Id, db: DB, task: Task)
    requires TaskOf(db, k, task)
    ensures task.StoreTask? ==>
      && task.warehouse in db.warehouses && task.batch in db.batches
      && db.warehouses[task.warehouse].coop == k == db.batches[task.batch].coop
  {
  }

  // A farmer's leaves everything as it was.
  lemma FarmersWriteNothing(u: User, db: DB, task: Task, x: Supply)
    requires u.role == FarmerUser && FinishAs(u, db, task, x).Ok?
    ensures FinishAs(u, db, task, x).value == db
  {
  }

  lemma PerformKeeps(db: DB, job: Job, x: Supply)
    requires Custody(db) && OwnStockFits(db) && JobSafe(db, job) && Supplies(db, job.task, x)
    requires FinishAs(job.user, db, job.task, x).Ok?
    ensures var n := FinishAs(job.user, db, job.task, x).value;
      StepKept(db, n) && (job.user.role != SuperAdmin && InventoryWithinCoop(db) ==> InventoryWithinCoop(n))
  {
    hide Custody, OwnStockFits, FinishAs, StillSafe, TaskOf, Supplies, StepKept, InventoryWithinCoop;
    if job.user.role == FarmerUser {
      FarmersWriteNothing(job.user, db, job.task, x);
      NothingChanged(db);
    } else if job.user.role == SuperAdmin {
      AdminKeeps(job.user, db, job.task, x);
    } else {
      ClerkKeeps(job.user, db, job.task, x);
    }
  }

  lemma DropKeepsStock(db: DB, b: Id)
    requires Custody(db) && OwnStockFits(db) && b in db.batches
    ensures var n := db.(batches := db.batches[b := db.batches[b].(deleted := true)]);
      StepKept(db, n) && (InventoryWithinCoop(db) ==> InventoryWithinCoop(n))
  {
    var n := db.(batches := db.batches[b := db.batches[b].(deleted := true)]);
    DropKeeps(db, b);
    assert SameCoops(db.batches, n.batches);
    forall k { ChildrenStay(k, db.batches, n.batches, db); }
    hide Custody, Grows, StatusesStep, InventoryIn;
    forall k, w ensures StockOf(k, n, w) == StockOf(k, db, w) {
      ChildrenStay(k, db.batches, n.batches, db);
    }
  }

  lemma JobsStaySafe(s: Site, n: Site)
    requires SiteInv(s) && StepKept(s.db, n.db)
    requires forall job :: job in n.jobs ==> job in s.jobs || JobSafe(n.db, job)
    requires !n.unscoped ==> Unmixed(n)
    ensures SiteInv(n)
  {
    hide Custody, OwnStockFits, Grows, StatusesStep, JobSafe, Unmixed;
    forall job | job in n.jobs ensures JobSafe(n.db, job) {
      if job in s.jobs { JobStaysSafe(s.db, n.db, job); }
    }
  }

  // Any step: a request by anyone, a transaction by anyone, a soft delete.
  lemma MoveKeeps(s: Site, a: Move, n: Site)
    requires SiteInv(s) && Moves(s, a, n)
    ensures SiteInv(n) && Grows(s.db, n.db) && StatusesStep(s.db.batches, n.db.batches)
  {
    hide Custody, OwnStockFits, FinishAs, Begin, ViewOf, Grows, StatusesStep, JobSafe, Supplies, InventoryWithinCoop;
    NothingChanged(s.db);
    match a {
      case Ask(u, q) =>
        if Begin(ViewOf(u, s.db), CallerOf(u), q).Ok? { AskSafe(s.db, u, q); }
      case Perform(job, x) =>
        if FinishAs(job.user, s.db, job.task, x).Ok? { PerformKeeps(s.db, job, x); }
      case Drop(b) =>
        DropKeepsStock(s.db, b);
    }
    JobsStaySafe(s, n);
  }

  lemma NewSite()
    ensures SiteInv(NEW_SITE)
  {
  }

  // Main theorem: in every state reachable under the policies, with SUPER_ADMINs, clerks and farmers
  // in flight on stale reads, everything but capacity holds, each cooperative's own stock fits in its
  // warehouses, and while no SUPER_ADMIN has asked for anything the whole stock does.
  lemma {:induction false} SiteRunKeeps(run: seq<Site>, i: nat)
    requires IsSiteRun(run) && i < |run|
    ensures SiteInv(run[i])
    ensures Custody(run[i].db) && OwnStockFits(run[i].db)
    ensures !run[i].unscoped ==> WithinCapacity(run[i].db.warehouses, run[i].db.inventory)
  {
    hide Moves, SiteInv, Custody, OwnStockFits, WithinCapacity, Grows, StatusesStep;
    if i == 0 {
      NewSite();
    } else {
      SiteRunKeeps(run, i - 1);
      assert Follows(run[i - 1], run[i]);
      var a :| Moves(run[i - 1], a, run[i]);
      MoveKeeps(run[i - 1], a, run[i]);
    }
    SiteInvSays(run[i]);
    if !run[i].unscoped { UnmixedFits(run[i].db); }
  }

  lemma SiteInvSays(s: Site)
    requires SiteInv(s)
    ensures Custody(s.db) && OwnStockFits(s.db) && (!s.unscoped ==> InventoryWithinCoop(s.db))
  {
  }

  lemma {:induction false} SiteRunGrows(run: seq<Site>, i: nat, j: nat)
    requires IsSiteRun(run) && i <= j < |run|
    ensures Grows(run[i].db, run[j].db)
    decreases j
  {
    hide Grows, SiteInv, Moves, StatusesStep;
    if i == j {
      GrowsReflexive(run[i].db);
    } else {
      SiteRunGrows(run, i, j - 1);
      SiteRunKeeps(run, j - 1);
      assert Follows(run[j - 1], run[j]);
      var a :| Moves(run[j - 1], a, run[j]);
      MoveKeeps(run[j - 1], a, run[j]);
      GrowsTransitive(run[i].db, run[j - 1].db, run[j].db);
    }
  }

  // However a run has mixed cooperatives, a clerk's transaction shows in no session of another one.
  lemma OtherSessionsSeeNothing(run: seq<Site>, i: nat, job: Job, x: Supply, c: Context, other: Id)
    requires IsSiteRun(run) && i < |run| && job in run[i].jobs && IsClerk(job.user) && job.user.coop != Some(other)
    requires Supplies(run[i].db, job.task, x) && FinishAs(job.user, run[i].db, job.task, x).Ok? && Scoped(c, other)
    ensures Seen(Pinned, c, FinishAs(job.user, run[i].db, job.task, x).value) == Seen(Pinned, c, run[i].db)
  {
    var db, k := run[i].db, job.user.coop.value;
    SiteRunKeeps(run, i);
    JobIsSafe(run[i], job);
    LaxTask(db, k, job.task, x);
    hide IsSiteRun, SiteInv, Custody, References, OwnStockFits, FinishAs, Finish, Grows, StatusesStep, StillSafe, TaskOf, Supplies;
    hide Seen, Slice, Scoped, InventoryWithinCoop;
    CustodyRefers(db);
    ClerkKeeps(job.user, db, job.task, x);
    FinishElsewhere(other, k, db, Lax(job.task), x);
    ViewIsLocal(c, other, db);
    ViewIsLocal(c, other, FinishAs(job.user, db, job.task, x).value);
  }

  // Filter and policies list the same batches here too, however a run has mixed cooperatives.
  lemma ReadingsAgree(run: seq<Site>, i: nat, u: User, requested: Option<Id>, status: Option<Status>)
    requires IsSiteRun(run) && i < |run| && u.role != SuperAdmin
    ensures var db, view := run[i].db, ViewOf(u, run[i].db);
      && ListBatches(view, u, requested, status) == ListBatches(db, u, requested, status)
      && (ListBatches(db, u, requested, None).Ok? ==> LiveBatches(view) == ListBatches(db, u, requested, None).value)
      && (ListBatches(db, u, requested, None).Err? ==> view.batches == map[])
  {
    hide IsSiteRun, SiteInv, Custody, DeliveriesRefer, ListBatches, Seen, LiveBatches;
    SiteRunKeeps(run, i);
    CustodyRefers(run[i].db);
    FilterUnderPolicies(run[i].db, u, requested, status);
    NoFilterUnderPolicies(run[i].db, u, requested);
  }

  // ---------------------------------------------------------------------------
  // Capacity, exactly
  // ---------------------------------------------------------------------------

  // On the shelves of w there is coffee of cooperative k only, as far as it weighs anything.
  ghost predicate OnlyStockOf(k: Id, db: DB, w: Id) {
    forall r :: r in OpenRows(db.inventory) && db.inventory[r].warehouse == w && db.inventory[r].weight > 0 ==>
      InCoopOf(db.batches, k, db.inventory[r].batch)
  }

  lemma OnlyStockInView(k: Id, db: DB, w: Id)
    ensures PartOf(InventoryIn(k, db.batches, db.inventory), db.inventory)
    ensures AllInView(InventoryIn(k, db.batches, db.inventory), db.inventory, w) <==> OnlyStockOf(k, db, w)
  {
  }

  // Wherever a run under the policies has led, a warehouse that holds its own cooperative's coffee
  // only is not overfull.
  lemma OnlyOwnStockFits(run: seq<Site>, i: nat, w: Id)
    requires IsSiteRun(run) && i < |run| && w in run[i].db.warehouses && run[i].db.warehouses[w].capacity.Some?
    requires OnlyStockOf(run[i].db.warehouses[w].coop, run[i].db, w)
    ensures OpenLoad(run[i].db.inventory, w) <= run[i].db.warehouses[w].capacity.value
  {
    hide IsSiteRun, SiteInv, Custody, OpenLoad, OnlyStockOf, InventoryIn, AllInView;
    SiteRunKeeps(run, i);
    var db, k := run[i].db, run[i].db.warehouses[w].coop;
    OnlyStockInView(k, db, w);
    LoadInView(InventoryIn(k, db.batches, db.inventory), db.inventory, w);
  }

  lemma UnmixedFits(db: DB)
    requires InventoryWithinCoop(db) && OwnStockFits(db)
    ensures WithinCapacity(db.warehouses, db.inventory)
  {
    hide OpenLoad, InventoryIn, AllInView;
    forall w | w in db.warehouses && db.warehouses[w].capacity.Some? ensures OpenLoad(db.inventory, w) <= db.warehouses[w].capacity.value {
      var k := db.warehouses[w].coop;
      OnlyStockInView(k, db, w);
      LoadInView(InventoryIn(k, db.batches, db.inventory), db.inventory, w);
    }
  }

  // The exact condition of the check a clerk's store makes.  In a warehouse not overfull already:
  // every weight the check lets through leaves it so, exactly when the warehouse holds coffee of the
  // clerk's cooperative only.
  lemma ClerkCheckIsSound(k: Id, db: DB, w: Id, capacity: nat)
    requires OpenLoad(db.inventory, w) <= capacity
    ensures
      (forall weight: nat :: Fits(Some(capacity), StockOf(k, db, w), weight) ==> Fits(Some(capacity), OpenLoad(db.inventory, w), weight))
      <==> OnlyStockOf(k, db, w)
  {
    hide OpenLoad, InventoryIn, AllInView, OnlyStockOf;
    OnlyStockInView(k, db, w);
    CheckIsSound(InventoryIn(k, db.batches, db.inventory), db.inventory, w, capacity);
  }

  // And that check is the one that decides: a clerk's store goes through exactly when it would in a
  // warehouse without a limit and its weight fits on top of the stock in view; the load it leaves
  // is the whole load plus its weight.
  lemma ClerkStoreDecides(run: seq<Site>, i: nat, job: Job, x: Supply)
    requires IsSiteRun(run) && i < |run| && job in run[i].jobs && IsClerk(job.user) && job.task.StoreTask?
    requires Supplies(run[i].db, job.task, x)
    ensures var db, task := run[i].db, job.task; var r := FinishAs(job.user, db, task, x);
      && (r.Ok? <==> Finish(db, Lax(task), x).Ok? && Fits(task.capacity, StockOf(job.user.coop.value, db, task.warehouse), task.weight))
      && (r.Ok? ==> OpenLoad(r.value.inventory, task.warehouse) == OpenLoad(db.inventory, task.warehouse) + task.weight)
  {
    var db, task, k := run[i].db, job.task, job.user.coop.value;
    SiteRunKeeps(run, i);
    JobIsSafe(run[i], job);
    hide IsSiteRun, SiteInv, Custody, References, OwnStockFits, FinishAs, Finish, Grows, StatusesStep, StillSafe, TaskOf, OpenLoad;
    CustodyRefers(db);
    if Finish(db, Lax(task), x).Ok? {
      LaxKeeps(db, task, x);
      CustodyRefers(Finish(db, Lax(task), x).value);
      StoredLoad(db, task, x);
    }
    FinishAsClerk(job.user, db, task, x);
  }

  lemma JobIsSafe(s: Site, job: Job)
    requires SiteInv(s) && job in s.jobs && IsClerk(job.user)
    ensures StillSafe(s.db, job.task) && TaskOf(s.db, job.user.coop.value, job.task)
  {
    hide StillSafe, TaskOf, Custody, OwnStockFits, Unmixed;
    assert JobSafe(s.db, job);
  }

  lemma StoredLoad(db: DB, task: Task, x: Supply)
    requires task.StoreTask? && Supplies(db, task, x) && Finish(db, Lax(task), x).Ok?
    ensures OpenLoad(Finish(db, Lax(task), x).value.inventory, task.warehouse) == OpenLoad(db.inventory, task.warehouse) + task.weight
  {
    StoreAdds(db, task.warehouse, task.batch, task.weight, task.total, x.id, x.now);
    hide StoreTx, OpenLoad;
    StoringLoads(db.inventory, x.id, InventoryRow(task.warehouse, task.batch, task.weight, x.now, None), task.warehouse);
  }
}
