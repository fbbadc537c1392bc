/**
 Runs under the row policies in which a SUPER_ADMIN's mixture of cooperatives undoes a result: a
 warehouse overfilled by a clerk, and a lot marked SOLD by a clerk who does not see all of it.
 */
module PolicyWitness {
  import opened Common
  import opened Seqs
  import opened Sums
  import opened Roles
  import opened CustodyModel
  import opened CustodyInvariant
  import opened CustodyLots
  import opened CustodySystem
  import opened CustodyWitness
  import opened RowVisibility
  import opened TenantIsolation
  import opened TenantWrites
  import opened TenantRuns
  import opened PolicyModel
  import opened PolicySystem
  import opened PolicyRuns
  import opened PolicyLots

  ghost predicate SiteReachable(s: Site) {
    exists run: seq<Site> :: IsSiteRun(run) && run[|run| - 1] == s
  }

  // The tables with nothing in flight.
  ghost predicate TablesReachable(db: DB) {
    exists unscoped: bool :: SiteReachable(Site(db, multiset{}, unscoped))
  }

  lemma LongerRun(run: seq<Site>, n: Site)
    requires IsSiteRun(run) && Follows(run[|run| - 1], n)
    ensures IsSiteRun(run + [n])
  {
    hide Follows;
    var longer := run + [n];
    forall i | 0 < i < |longer| ensures Follows(longer[i - 1], longer[i]) {
      if i < |run| { assert longer[i - 1] == run[i - 1] && longer[i] == run[i]; }
    }
  }

  lemma SiteReachStep(s: Site, a: Move, n: Site)
    requires SiteReachable(s) && Moves(s, a, n)
    ensures SiteReachable(n)
  {
    hide Moves;
    var run: seq<Site> :| IsSiteRun(run) && run[|run| - 1] == s;
    assert Follows(s, n);
    LongerRun(run, n);
    assert (run + [n])[|run + [n]| - 1] == n;
  }

  // ---------------------------------------------------------------------------
  // A run on whole tables is one under the policies, with a SUPER_ADMIN making every request
  // ---------------------------------------------------------------------------

  const ROOT: User := User(SuperAdmin, None, None)

  // The same tasks in flight, all of them the SUPER_ADMIN's.
  ghost predicate SameTasks(tasks: multiset<Task>, jobs: multiset<Job>) {
    && (forall job :: job in jobs ==> job.user == ROOT)
    && forall task :: jobs[Job(ROOT, task)] == tasks[task]
  }

  lemma OneMoreTask(tasks: multiset<Task>, jobs: multiset<Job>, task: Task)
    requires SameTasks(tasks, jobs)
    ensures SameTasks(tasks + multiset{task}, jobs + multiset{Job(ROOT, task)})
  {
  }

  lemma OneTaskLess(tasks: multiset<Task>, jobs: multiset<Job>, task: Task)
    requires SameTasks(tasks, jobs) && task in tasks
    ensures Job(ROOT, task) in jobs
    ensures SameTasks(tasks - multiset{task}, jobs - multiset{Job(ROOT, task)})
  {
    assert jobs[Job(ROOT, task)] == tasks[task];
  }

  ghost predicate Mirrored(s: System) {
    exists jobs: multiset<Job>, unscoped: bool :: SameTasks(s.tasks, jobs) && SiteReachable(Site(s.db, jobs, unscoped))
  }

  lemma AdminMayToo(db: DB, who: Caller, q: Request)
    requires Begin(db, who, q).Ok?
    ensures Begin(db, CallerOf(ROOT), q) == Begin(db, who, q)
  {
  }

  lemma MirrorArrive(s: System, who: Caller, q: Request, n: System)
    requires Mirrored(s) && CustodySystem.Next(s, Arrive(who, q), n)
    ensures Mirrored(n)
  {
    hide Begin, SiteReachable, ViewOf, SameTasks;
    var jobs: multiset<Job>, unscoped: bool :| SameTasks(s.tasks, jobs) && SiteReachable(Site(s.db, jobs, unscoped));
    if Begin(s.db, who, q).Ok? {
      AdminMayToo(s.db, who, q);
      AdminSeesAll(ROOT, s.db);
      var task := Begin(s.db, who, q).value;
      OneMoreTask(s.tasks, jobs, task);
      SiteReachStep(Site(s.db, jobs, unscoped), Ask(ROOT, q), Site(s.db, jobs + multiset{Job(ROOT, task)}, true));
    }
  }

  lemma TaskIsSafeIn(s: System, task: Task)
    requires SystemInv(s) && task in s.tasks
    ensures Inv(s.db) && StillSafe(s.db, task)
  {
  }

  lemma RootFinishes(db: DB, task: Task, x: Supply)
    requires Inv(db) && StillSafe(db, task) && Supplies(db, task, x)
    ensures FinishAs(ROOT, db, task, x) == Finish(db, task, x)
  {
    hide Finish, FinishAs, Supplies, StillSafe, Inv, Grows, StatusesStep;
    if Finish(db, task, x).Ok? { FinishKeeps(db, task, x); }
    FinishAsAdmin(ROOT, db, task, x);
  }

  lemma MirrorCommit(s: System, task: Task, x: Supply, n: System)
    requires Mirrored(s) && SystemInv(s) && CustodySystem.Next(s, Commit(task, x), n)
    ensures Mirrored(n)
  {
    hide SameTasks, SystemInv, Finish, SiteReachable, FinishAs, Supplies, StillSafe, Inv;
    var jobs: multiset<Job>, unscoped: bool :| SameTasks(s.tasks, jobs) && SiteReachable(Site(s.db, jobs, unscoped));
    OneTaskLess(s.tasks, jobs, task);
    TaskIsSafeIn(s, task);
    RootFinishes(s.db, task, x);
    SiteReachStep(Site(s.db, jobs, unscoped), Perform(Job(ROOT, task), x), Site(n.db, jobs - multiset{Job(ROOT, task)}, unscoped));
  }

  lemma MirrorDelete(s: System, b: Id, n: System)
    requires Mirrored(s) && CustodySystem.Next(s, SoftDelete(b), n)
    ensures Mirrored(n)
  {
    var jobs: multiset<Job>, unscoped: bool :| SameTasks(s.tasks, jobs) && SiteReachable(Site(s.db, jobs, unscoped));
    hide SiteReachable;
    SiteReachStep(Site(s.db, jobs, unscoped), Drop(b), Site(n.db, jobs, unscoped));
  }

  lemma MirrorStart()
    ensures Mirrored(START)
  {
    assert IsSiteRun([NEW_SITE]);
    assert SiteReachable(Site(EMPTY, multiset{}, false));
    assert SameTasks(START.tasks, multiset{});
  }

  // Everything reachable on whole tables is reachable under the policies.
  lemma {:induction false} RunIsMirrored(run: seq<System>, i: nat)
    requires IsRun(run) && i < |run|
    ensures Mirrored(run[i])
  {
    hide CustodySystem.Next, SystemInv, Mirrored;
    if i == 0 {
      MirrorStart();
    } else {
      RunIsMirrored(run, i - 1);
      RunKeeps(run, i - 1);
      assert Steps(run[i - 1], run[i]);
      var a :| CustodySystem.Next(run[i - 1], a, run[i]);
      match a {
        case Arrive(who, q) => MirrorArrive(run[i - 1], who, q, run[i]);
        case Commit(task, x) => MirrorCommit(run[i - 1], task, x, run[i]);
        case SoftDelete(b) => MirrorDelete(run[i - 1], b, run[i]);
      }
    }
  }

  lemma TablesAreReachable(db: DB, unscoped: bool)
    requires Reachable(Quiet(db, unscoped))
    ensures TablesReachable(db)
  {
    var run: seq<System> :| IsRun(run) && run[|run| - 1] == Quiet(db, unscoped);
    RunIsMirrored(run, |run| - 1);
    hide IsRun, SiteReachable;
    var jobs: multiset<Job>, flag: bool :| SameTasks(multiset{}, jobs) && SiteReachable(Site(db, jobs, flag));
    NoTasksNoJobs(jobs);
  }

  lemma NoTasksNoJobs(jobs: multiset<Job>)
    requires SameTasks(multiset{}, jobs)
    ensures jobs == multiset{}
  {
    forall job ensures jobs[job] == 0 {
      if job.user == ROOT { assert job == Job(ROOT, job.task); }
    }
  }

  // A request by anyone that arrives and finishes with nothing in between.
  lemma ServeAs(db: DB, u: User, q: Request, task: Task, x: Supply, n: DB)
    requires TablesReachable(db) && Begin(ViewOf(u, db), CallerOf(u), q) == Ok(task)
    requires Supplies(db, task, x) && FinishAs(u, db, task, x) == Ok(n)
    ensures TablesReachable(n)
  {
    hide SiteReachable, Begin, Supplies, FinishAs, ViewOf;
    var unscoped: bool :| SiteReachable(Site(db, multiset{}, unscoped));
    var flag := unscoped || u.role == SuperAdmin;
    assert multiset{} + multiset{Job(u, task)} == multiset{Job(u, task)};
    assert multiset{Job(u, task)} - multiset{Job(u, task)} == multiset{};
    SiteReachStep(Site(db, multiset{}, unscoped), Ask(u, q), Site(db, multiset{Job(u, task)}, flag));
    SiteReachStep(Site(db, multiset{Job(u, task)}, flag), Perform(Job(u, task), x), Site(n, multiset{}, flag));
  }

  lemma CustodyReached(db: DB)
    requires TablesReachable(db)
    ensures Custody(db) && OwnStockFits(db)
  {
    hide Custody, OwnStockFits, SiteInv, Follows;
    var unscoped: bool :| SiteReachable(Site(db, multiset{}, unscoped));
    var run: seq<Site> :| IsSiteRun(run) && run[|run| - 1] == Site(db, multiset{}, unscoped);
    SiteRunKeeps(run, |run| - 1);
  }

  // ---------------------------------------------------------------------------
  // The overfilled warehouse
  // ---------------------------------------------------------------------------

  // The clerk's store goes through on what it sees, and its row joins the ones it does not see.
  lemma ClerkOverfills(u: User) returns (n: DB)
    requires IsClerk(u) && u.coop == Some(1)
    ensures TablesReachable(Mixed()) && TablesReachable(n)
    ensures 1 in n.warehouses && n.warehouses[1].capacity == Some(10) && OpenLoad(n.inventory, 1) == 20
  {
    hide TablesReachable, OpenLoad, FinishAs, Finish, Begin, Seen, Grows, Custody, OwnStockFits, StatusesStep;
    var db, task, x := Mixed(), StoreTask(1, 1, 10, Some(10), 10), Supply(1, 1, map[], []);
    HiddenLoadOverfills(u);
    ReachMixed();
    TablesAreReachable(db, true);
    CustodyReached(db);
    OverfillGoesThrough(u);
    n := FinishAs(u, db, task, x).value;
    ServeAs(db, u, Store(1, 1, 10), task, x, n);
  }

  lemma OverfillGoesThrough(u: User)
    requires IsClerk(u) && u.coop == Some(1) && Custody(Mixed())
    requires Finish(ViewOf(u, Mixed()), StoreTask(1, 1, 10, Some(10), 10), Supply(1, 1, map[], [])).Ok?
    ensures Supplies(Mixed(), StoreTask(1, 1, 10, Some(10), 10), Supply(1, 1, map[], []))
    ensures var r := FinishAs(u, Mixed(), StoreTask(1, 1, 10, Some(10), 10), Supply(1, 1, map[], []));
      r.Ok? && 1 in r.value.warehouses && r.value.warehouses[1].capacity == Some(10) && OpenLoad(r.value.inventory, 1) == 20
  {
    hide OpenLoad, Seen, Grows, Custody, StatusesStep, References, Transition, HasOpenRow, FinishAs, CheckPasses;
    var db, task, x := Mixed(), StoreTask(1, 1, 10, Some(10), 10), Supply(1, 1, map[], []);
    CustodyRefers(db);
    StaffSeeTheSlice(u, 1, db);
    FinishSplits(Slice(1, db), task, x);
    FinishThroughPolicies(1, db, Lax(task), x);
    LaxKeeps(db, task, x);
    CustodyRefers(Finish(db, Lax(task), x).value);
    FinishAsClerk(u, db, task, x);
    StoreAdds(db, 1, 1, 10, 10, 1, 1);
    OverfullLoad();
  }

  // ---------------------------------------------------------------------------
  // The lot sold in part
  // ---------------------------------------------------------------------------

  // Lot 1 of cooperative 1 with batch 2 of cooperative 2 in it; both members are pending.
  function MixedLot(): DB {
    TwoBatches(2, 20).(
      batches := map[1 := Batch(1, InStorage, 10, false), 2 := Batch(2, InStorage, 10, false)],
      inventory := map[1 := InventoryRow(1, 1, 10, 0, None), 2 := InventoryRow(1, 2, 10, 0, None)],
      lots := map[1 := Lot(1, LotOpen, {1, 2})],
      transfers := map[1 := Transfer(1, Pending, 0), 2 := Transfer(2, Pending, 0)])
  }

  function MixedShelf(): DB {
    MixedLot().(lots := map[], transfers := map[])
  }

  lemma ReachMixedShelf()
    ensures Reachable(Quiet(MixedShelf(), true))
  {
    hide Reachable, Sum;
    var db, admin := TwoBatches(2, 20), Caller(true, None);
    ReachTwoBatches(2, 20);
    assert OpenWeights(db.inventory, 1) == map[];
    NothingWeighsNothing();
    ReachStored(db, false, admin, 1, 20);
    StoreOne(db, 1, 20);
    assert !HasOpenRow(Stored(db, 1).inventory, 2);
    ReachStored(Stored(db, 1), true, admin, 2, 20);
    assert Stored(Stored(db, 1), 2) == MixedShelf();
  }

  lemma MixedLotAccepted()
    ensures Begin(MixedShelf(), Caller(true, None), AddLot([1, 2])) == Ok(AddLotTask(1, {1, 2}))
  {
    var db, ids := MixedShelf(), [1, 2];
    assert Elements(ids) == {1, 2} by { assert ids[0] == 1 && ids[1] == 2; }
    assert NoDuplicates(ids);
    forall b | b in ids ensures Live(db, b) && !HasStatus(db, b, {Sold, Exported, Rejected}) {
      assert b == 1 || b == 2;
    }
    assert db.batches[ids[0]].coop == 1;
  }

  function LotOnOffer(): DB {
    MixedShelf().(lots := map[1 := Lot(1, LotOpen, {1, 2})])
  }

  lemma MixedLotOffered()
    ensures Begin(LotOnOffer(), Caller(true, None), SellLot(1)) == Ok(SellLotTask(1, {1, 2}))
  {
    assert PendingOf(LotOnOffer(), {1, 2}) == {};
  }

  lemma MixedLotForSale()
    ensures var task, x := SellLotTask(1, {1, 2}), Supply(0, 0, map[1 := 1, 2 := 2], []);
      Supplies(LotOnOffer(), task, x) && Finish(LotOnOffer(), task, x) == Ok(MixedLot())
  {
    hide OpenTransfers;
    MixedLotOpened();
  }

  lemma MixedLotOpened()
    ensures var ids: map<Id, Id> := map[1 := 1, 2 := 2];
      ids.Values == {1, 2} && |ids| == 2 && OpenTransfers(LotOnOffer(), ids, 0) == MixedLot()
  {
    var ids: map<Id, Id> := map[1 := 1, 2 := 2];
    assert ids.Values == {1, 2} by { assert ids[1] == 1 && ids[2] == 2; }
  }

  lemma ReachMixedLot()
    ensures Reachable(Quiet(MixedLot(), true))
  {
    hide Reachable, Begin, Finish, Supplies;
    var db := MixedShelf();
    ReachMixedShelf();
    MixedLotAccepted();
    var lotted := LotOnOffer();
    MixedLotCreated();
    Serve(db, true, Caller(true, None), AddLot([1, 2]), AddLotTask(1, {1, 2}), At(0, 1), lotted);
    MixedLotOffered();
    MixedLotForSale();
    Serve(lotted, true, Caller(true, None), SellLot(1), SellLotTask(1, {1, 2}), Supply(0, 0, map[1 := 1, 2 := 2], []), MixedLot());
  }

  lemma MixedLotCreated()
    ensures Supplies(MixedShelf(), AddLotTask(1, {1, 2}), At(0, 1))
    ensures Finish(MixedShelf(), AddLotTask(1, {1, 2}), At(0, 1)) == Ok(LotOnOffer())
  {
  }

  lemma MixedLotInView()
    ensures var db := MixedLot();
      && LotsIn(1, db.batches, db.lots) == map[1 := Lot(1, LotOpen, {1})]
      && 2 !in BatchesIn(1, db.batches)
  {
    assert MembersIn(1, MixedLot().batches, {1, 2}) == {1};
  }

  lemma MixedTransfersInView()
    ensures TransfersIn(1, MixedLot().batches, MixedLot().transfers) == map[1 := Transfer(1, Pending, 0)]
  {
  }

  // A clerk of cooperative 1 asks to confirm: batch 2 and its transfer are out of view.
  lemma ClerkAsks(u: User)
    requires IsClerk(u) && u.coop == Some(1)
    ensures Begin(ViewOf(u, MixedLot()), CallerOf(u), ConfirmLot(1)) == Ok(ConfirmLotTask(1, {1}))
    ensures !InViewOf(u, MixedLot(), 2)
  {
    hide Seen, FarmersIn, BatchesIn, DeliveriesIn, ProcessingIn, WarehousesIn, InventoryIn, TransfersIn, LotsIn, MixedLot;
    StaffSeeTheSlice(u, 1, MixedLot());
    MixedLotInView();
    MixedTransfersInView();
    assert PendingOf(Slice(1, MixedLot()), {1}) == {1};
  }

  lemma SaleGoesThrough()
    ensures Elements([1]) == {1} && Supplies(MixedLot(), ConfirmLotTask(1, {1}), Supply(5, 0, map[], [1]))
    ensures Finish(MixedLot(), ConfirmLotTask(1, {1}), Supply(5, 0, map[], [1])).Ok?
  {
    hide ConfirmSaleTx;
    assert Elements([1]) == {1};
    assert Confirmable(MixedLot(), 1);
    ConfirmSaleExact(MixedLot(), 1, [1], 5);
  }

  // Under the policies every member pending is not enough: the clerk's confirmation commits and marks
  // the lot SOLD, with batch 2 still in storage.
  lemma ClerkSellsInPart(u: User) returns (n: DB)
    requires IsClerk(u) && u.coop == Some(1)
    ensures TablesReachable(MixedLot()) && TablesReachable(n)
    ensures forall b :: b in {1, 2} ==> HasPending(MixedLot(), b)
    ensures 1 in n.lots && n.lots[1].status == LotSold && n.lots[1].members == {1, 2} && !IsSold(n, 2)
  {
    hide TablesReachable, FinishAs, Finish, Begin, Supplies, ViewOf, Grows, Custody, OwnStockFits, StatusesStep, References, Lax, InViewOf;
    var db, task, x := MixedLot(), ConfirmLotTask(1, {1}), Supply(5, 0, map[], [1]);
    ReachMixedLot();
    TablesAreReachable(db, true);
    CustodyReached(db);
    CustodyRefers(db);
    ClerkAsks(u);
    SaleGoesThrough();
    assert db.transfers[1].batch == 1 && db.transfers[2].batch == 2;
    SaleAsClerk(u);
    n := FinishAs(u, db, task, x).value;
    ServeAs(db, u, ConfirmLot(1), task, x, n);
  }

  lemma SaleAsClerk(u: User)
    requires IsClerk(u) && u.coop == Some(1) && Custody(MixedLot())
    ensures var r := FinishAs(u, MixedLot(), ConfirmLotTask(1, {1}), Supply(5, 0, map[], [1]));
      r.Ok? && 1 in r.value.lots && r.value.lots[1] == Lot(1, LotSold, {1, 2}) && !IsSold(r.value, 2)
  {
    hide FinishAs, Custody, Grows, StatusesStep, References, ConfirmSaleTx, OpenLoad, BatchesOf;
    var db, task, x := MixedLot(), ConfirmLotTask(1, {1}), Supply(5, 0, map[], [1]);
    SaleGoesThrough();
    CustodyRefers(db);
    LaxKeeps(db, task, x);
    CustodyRefers(Finish(db, task, x).value);
    FinishAsClerk(u, db, task, x);
    ConfirmSaleExact(db, 1, [1], 5);
    assert BatchesOf(db, {1}) == {1} by { OnlyBatchOne(); }
  }

  lemma OnlyBatchOne()
    ensures BatchesOf(MixedLot(), {1}) == {1}
  {
  }
}
