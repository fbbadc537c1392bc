/**
 Consequences over whole runs: provenance, conservation of weight, tenancy, and what becomes of a
 lot whose sale was opened and confirmed.
 */
module CustodyRuns {
  import opened Common
  import opened Sums
  import opened CustodyModel
  import opened CustodyInvariant
  import opened CustodyKeeps
  import opened CustodyLots
  import opened CustodySystem

  // Nothing recorded is ever lost or rewritten, over any stretch of any run.
  lemma {:induction false} RunGrows(run: seq<System>, i: nat, j: nat)
    requires IsRun(run) && i <= j < |run|
    ensures Grows(run[i].db, run[j].db)
    decreases j
  {
    hide Grows, SystemInv;
    if i == j {
      GrowsReflexive(run[i].db);
    } else {
      RunGrows(run, i, j - 1);
      RunKeeps(run, j - 1);
      assert Steps(run[j - 1], run[j]);
      var a :| Next(run[j - 1], a, run[j]);
      StepKeeps(run[j - 1], a, run[j]);
      GrowsTransitive(run[i].db, run[j - 1].db, run[j].db);
    }
  }

  // A batch enters REGISTERED, and from one state to the next follows the lifecycle table.
  lemma StatusFollowsTable(run: seq<System>, i: nat)
    requires IsRun(run) && 0 < i < |run|
    ensures StatusesStep(run[i - 1].db.batches, run[i].db.batches)
  {
    hide StatusesStep, SystemInv, Inv, Grows;
    RunKeeps(run, i - 1);
    assert Steps(run[i - 1], run[i]);
    var a :| Next(run[i - 1], a, run[i]);
    StepKeeps(run[i - 1], a, run[i]);
  }

  // EXPORTED and REJECTED are final, and coffee once SOLD can only be EXPORTED.
  lemma FinalStatuses(run: seq<System>, i: nat, j: nat, b: Id)
    requires IsRun(run) && i <= j < |run| && b in run[i].db.batches
    ensures b in run[j].db.batches
    ensures var s, s' := run[i].db.batches[b].status, run[j].db.batches[b].status;
      && (s in {Exported, Rejected} ==> s' == s)
      && (s == Sold ==> s' in {Sold, Exported})
      && (s != Registered ==> s' != Registered)
  {
    RunGrows(run, i, j);
  }

  // Every status is backed by its records: processing, storage, sale.
  lemma StatusIsEvidence(run: seq<System>, i: nat, b: Id)
    requires IsRun(run) && i < |run| && b in run[i].db.batches
    ensures var db := run[i].db; var s := db.batches[b].status;
      && (s !in {Registered, Rejected} ==> exists r :: r in db.processing && db.processing[r] == b)
      && (s in {InStorage, InTransit, Sold, Exported} ==> exists r :: r in db.inventory && db.inventory[r].batch == b)
      && (s in {Sold, Exported} <==>
            exists t :: t in db.transfers && db.transfers[t].batch == b && db.transfers[t].status == Confirmed)
      && (s != InStorage ==> forall r :: r in db.inventory && db.inventory[r].batch == b ==> db.inventory[r].removedAt.Some?)
  {
    RunKeeps(run, i);
    var db := run[i].db;
    if b in ConfirmedBatches(db.transfers) {
      var t :| t in db.transfers && db.transfers[t].status == Confirmed && db.transfers[t].batch == b;
    }
    forall r | r in db.inventory && db.inventory[r].batch == b && db.inventory[r].removedAt == None
      ensures db.batches[b].status == InStorage
    {
      assert r in OpenRows(db.inventory);
    }
  }

  // ---------------------------------------------------------------------------
  // Weight
  // ---------------------------------------------------------------------------

  function BatchWeights(batches: map<Id, Batch>): map<Id, nat> {
    map b | b in batches :: batches[b].weight
  }

  function DeliveryWeights(deliveries: map<Id, Delivery>): map<Id, nat> {
    map d | d in deliveries :: deliveries[d].weight
  }

  function Waiting(deliveries: map<Id, Delivery>): map<Id, nat> {
    map d | d in deliveries && deliveries[d].batch == None :: deliveries[d].weight
  }

  function Batched(deliveries: map<Id, Delivery>): map<Id, nat> {
    map d | d in deliveries && deliveries[d].batch.Some? :: deliveries[d].weight
  }

  function BatchOf(deliveries: map<Id, Delivery>): map<Id, Id> {
    map d | d in deliveries && deliveries[d].batch.Some? :: deliveries[d].batch.value
  }

  lemma BatchedOrWaiting(deliveries: map<Id, Delivery>)
    ensures Sum(DeliveryWeights(deliveries)) == Sum(Batched(deliveries)) + Sum(Waiting(deliveries))
  {
    assert DeliveryWeights(deliveries) == Batched(deliveries) + Waiting(deliveries);
    SumUnion(Batched(deliveries), Waiting(deliveries));
  }

  lemma BatchedByBatch(batches: map<Id, Batch>, deliveries: map<Id, Delivery>)
    requires WeightsConserved(batches, deliveries)
    ensures GroupTotals(Batched(deliveries), BatchOf(deliveries), batches.Keys) == BatchWeights(batches)
  {
    forall b | b in batches ensures Sum(GroupOf(Batched(deliveries), BatchOf(deliveries), b)) == batches[b].weight {
      assert GroupOf(Batched(deliveries), BatchOf(deliveries), b) == AssignedWeights(deliveries, b);
    }
  }

  // Every kilogram delivered is in exactly one batch total or still waiting to be assigned.
  lemma WeightConservation(run: seq<System>, i: nat)
    requires IsRun(run) && i < |run|
    ensures var db := run[i].db;
      Sum(DeliveryWeights(db.deliveries)) == Sum(BatchWeights(db.batches)) + Sum(Waiting(db.deliveries))
  {
    hide IsRun, Batched, BatchOf, BatchWeights, DeliveryWeights, Waiting, WeightsConserved;
    hide Shelves, WithinCapacity, EvidenceOfProcessing, EvidenceOfStorage, SoldAgrees;
    RunKeeps(run, i);
    var db := run[i].db;
    BatchedOrWaiting(db.deliveries);
    BatchedByBatch(db.batches, db.deliveries);
    OwnersExist(db.farmers, db.batches, db.deliveries);
    SumByGroup(Batched(db.deliveries), BatchOf(db.deliveries), db.batches.Keys);
  }

  lemma OwnersExist(farmers: map<Id, Farmer>, batches: map<Id, Batch>, deliveries: map<Id, Delivery>)
    requires DeliveriesRefer(farmers, batches, deliveries)
    ensures Batched(deliveries).Keys == BatchOf(deliveries).Keys
    ensures forall d :: d in Batched(deliveries) ==> BatchOf(deliveries)[d] in batches
  {
  }

  // A delivery once assigned stays in its batch, and a batch never gets lighter.
  lemma AssignmentIsFinal(run: seq<System>, i: nat, j: nat, d: Id)
    requires IsRun(run) && i <= j < |run| && d in run[i].db.deliveries && run[i].db.deliveries[d].batch.Some?
    ensures d in run[j].db.deliveries && run[j].db.deliveries[d] == run[i].db.deliveries[d]
    ensures var b := run[i].db.deliveries[d].batch.value;
      b in run[i].db.batches && b in run[j].db.batches && run[i].db.batches[b].weight <= run[j].db.batches[b].weight
  {
    RunGrows(run, i, j);
    RunKeeps(run, i);
  }

  // ---------------------------------------------------------------------------
  // Shelves
  // ---------------------------------------------------------------------------

  // Where requests see whole tables, whatever stale values the stores in flight carry: coffee on a shelf
  // is IN_STORAGE, on one shelf, within its batch's weight, and no warehouse is over capacity.
  lemma ShelvesTellTheTruth(run: seq<System>, i: nat)
    requires IsRun(run) && i < |run|
    ensures var db := run[i].db;
      && (forall r :: r in db.inventory ==>
            && db.inventory[r].batch in db.batches
            && db.inventory[r].weight <= db.batches[db.inventory[r].batch].weight
            && (db.inventory[r].removedAt == None ==> db.batches[db.inventory[r].batch].status == InStorage))
      && (forall r, q :: r in db.inventory && q in db.inventory && r != q && db.inventory[r].batch == db.inventory[q].batch ==>
            db.inventory[r].removedAt.Some? || db.inventory[q].removedAt.Some?)
      && (forall w :: w in db.warehouses && db.warehouses[w].capacity.Some? ==>
            OpenLoad(db.inventory, w) <= db.warehouses[w].capacity.value)
  {
    RunKeeps(run, i);
    var db := run[i].db;
    assert forall r :: r in db.inventory && db.inventory[r].removedAt == None ==> r in OpenRows(db.inventory);
  }

  // ---------------------------------------------------------------------------
  // Tenancy: a scoped caller never ties together rows of two cooperatives
  // ---------------------------------------------------------------------------

  ghost predicate InventoryWithinCoop(db: DB) {
    forall r :: r in db.inventory ==>
      && db.inventory[r].batch in db.batches && db.inventory[r].warehouse in db.warehouses
      && db.batches[db.inventory[r].batch].coop == db.warehouses[db.inventory[r].warehouse].coop
  }

  ghost predicate LotsWithinCoop(db: DB) {
    forall l, b :: l in db.lots && b in db.lots[l].members ==> b in db.batches && db.batches[b].coop == db.lots[l].coop
  }

  ghost predicate TaskWithinCoop(db: DB, task: Task) {
    match task
    case StoreTask(w, b, _, _, _) => b in db.batches && w in db.warehouses && db.batches[b].coop == db.warehouses[w].coop
    case AddLotTask(coop, members) => forall b :: b in members ==> b in db.batches && db.batches[b].coop == coop
    case _ => true
  }

  ghost predicate WithinCoop(s: System) {
    && InventoryWithinCoop(s.db)
    && LotsWithinCoop(s.db)
    && forall task :: task in s.tasks ==> TaskWithinCoop(s.db, task)
  }

  lemma BeginWithinCoop(db: DB, who: Caller, q: Request)
    requires Begin(db, who, q).Ok? && !who.superAdmin
    ensures TaskWithinCoop(db, Begin(db, who, q).value)
  {
  }

  // The only rows a transaction adds to the inventory are those of a store.
  lemma NewRows(db: DB, task: Task, x: Supply, r: Id)
    requires Supplies(db, task, x) && Finish(db, task, x).Ok? && r in Finish(db, task, x).value.inventory && r !in db.inventory
    ensures task.StoreTask?
    ensures var row := Finish(db, task, x).value.inventory[r]; row.warehouse == task.warehouse && row.batch == task.batch
  {
    if task.ConfirmLotTask? {
      hide ConfirmEach, Confirmable;
      ConfirmEachExact(db, x.order, x.now);
    }
  }

  lemma NewLots(db: DB, task: Task, x: Supply, l: Id)
    requires Supplies(db, task, x) && Finish(db, task, x).Ok? && l in Finish(db, task, x).value.lots && l !in db.lots
    ensures task.AddLotTask?
    ensures var lot := Finish(db, task, x).value.lots[l]; lot.coop == task.coop && lot.members == task.members
  {
    if task.ConfirmLotTask? {
      hide ConfirmEach, Confirmable;
      ConfirmEachExact(db, x.order, x.now);
    }
  }

  lemma FinishWithinCoop(db: DB, task: Task, x: Supply)
    requires InventoryWithinCoop(db) && LotsWithinCoop(db) && TaskWithinCoop(db, task)
    requires Supplies(db, task, x) && Finish(db, task, x).Ok? && Grows(db, Finish(db, task, x).value)
    ensures InventoryWithinCoop(Finish(db, task, x).value) && LotsWithinCoop(Finish(db, task, x).value)
  {
    hide Finish, Supplies;
    var n := Finish(db, task, x).value;
    forall r | r in n.inventory && r !in db.inventory { NewRows(db, task, x, r); }
    forall l | l in n.lots && l !in db.lots { NewLots(db, task, x, l); }
  }

  lemma TaskStaysWithinCoop(db: DB, n: DB, task: Task)
    requires Grows(db, n) && TaskWithinCoop(db, task)
    ensures TaskWithinCoop(n, task)
  {
  }

  lemma DeleteWithinCoop(db: DB, b: Id)
    requires InventoryWithinCoop(db) && LotsWithinCoop(db) && b in db.batches
    ensures var n := db.(batches := db.batches[b := db.batches[b].(deleted := true)]);
      InventoryWithinCoop(n) && LotsWithinCoop(n)
  {
  }

  lemma StepWithinCoop(s: System, a: Action, n: System)
    requires Next(s, a, n) && !n.unscoped && Grows(s.db, n.db)
    requires WithinCoop(s)
    ensures WithinCoop(n) && !s.unscoped
  {
    hide Begin, Finish, Supplies, Grows, InventoryWithinCoop, LotsWithinCoop, TaskWithinCoop;
    match a {
      case Arrive(who, q) =>
        if Begin(s.db, who, q).Ok? { BeginWithinCoop(s.db, who, q); }
      case Commit(task, x) =>
        if Finish(s.db, task, x).Ok? { FinishWithinCoop(s.db, task, x); }
      case SoftDelete(b) =>
        DeleteWithinCoop(s.db, b);
    }
    forall task | task in n.tasks ensures TaskWithinCoop(n.db, task) {
      if task in s.tasks { TaskStaysWithinCoop(s.db, n.db, task); }
    }
  }

  // As long as no SUPER_ADMIN has made a request, inventory rows and lots never mix cooperatives.
  lemma {:induction false} TenantsStayApart(run: seq<System>, i: nat)
    requires IsRun(run) && i < |run| && !run[i].unscoped
    ensures WithinCoop(run[i])
  {
    hide Grows, WithinCoop, SystemInv;
    if i == 0 {
      NothingYet();
    } else {
      assert Steps(run[i - 1], run[i]);
      var a :| Next(run[i - 1], a, run[i]);
      TenantsStayApart(run, i - 1);
      RunKeeps(run, i - 1);
      StepKeeps(run[i - 1], a, run[i]);
      StepWithinCoop(run[i - 1], a, run[i]);
    }
  }

  lemma NothingYet()
    ensures WithinCoop(START)
  {
  }

  // ---------------------------------------------------------------------------
  // The sale of a lot, from opening to confirmation
  // ---------------------------------------------------------------------------

  predicate EveryMemberPending(db: DB, members: set<Id>) {
    forall b :: b in members ==> exists t :: t in db.transfers && db.transfers[t].batch == b && db.transfers[t].status == Pending
  }

  // `sell`, seeing whole tables, opens a transfer for every member.
  lemma SellOpensEveryMember(db: DB, task: Task, x: Supply)
    requires task.SellLotTask? && Supplies(db, task, x)
    ensures Finish(db, task, x).Ok? && EveryMemberPending(Finish(db, task, x).value, task.members)
  {
    var n := Finish(db, task, x).value;
    forall b | b in task.members
      ensures exists t :: t in n.transfers && n.transfers[t].batch == b && n.transfers[t].status == Pending
    {
      var t :| t in x.transferIds && x.transferIds[t] == b;
      assert t in n.transfers;
    }
  }

  // On whole tables: if every member had a pending transfer when the confirmation was requested, and the
  // confirmation later commits, then every member is SOLD, however much ran in between.
  lemma ConfirmedLotIsSold(run: seq<System>, i: nat, j: nat, who: Caller, l: Id, x: Supply)
    requires IsRun(run) && i <= j < |run|
    requires Begin(run[i].db, who, ConfirmLot(l)).Ok? && EveryMemberPending(run[i].db, run[i].db.lots[l].members)
    requires var task := Begin(run[i].db, who, ConfirmLot(l)).value;
      Supplies(run[j].db, task, x) && Finish(run[j].db, task, x).Ok?
    ensures var n := Finish(run[j].db, Begin(run[i].db, who, ConfirmLot(l)).value, x).value;
      && l in n.lots && n.lots[l].status == LotSold
      && n.lots[l].members == run[i].db.lots[l].members
      && forall b :: b in n.lots[l].members ==> IsSold(n, b)
  {
    hide SystemInv, Confirmable, ConfirmSaleTx, Grows, EveryMemberPending;
    hide Shelves, WithinCapacity, WeightsConserved, EvidenceOfProcessing, EvidenceOfStorage, SoldAgrees, References;
    RunGrows(run, i, j);
    RunKeeps(run, j);
    InvOf(run[j]);
    LotsLast(run[i].db, run[j].db, l);
    ConfirmSaleExact(run[j].db, l, x.order, x.now);
    LotSoldMeansMembersSold(run[j].db, l, x.order, x.now);
    PendingCovers(run[i].db, run[j].db, run[i].db.lots[l].members);
  }

  lemma LotsLast(m: DB, n: DB, l: Id)
    requires Grows(m, n) && l in m.lots
    ensures l in n.lots && n.lots[l].members == m.lots[l].members
  {
  }

  lemma PendingCovers(m: DB, n: DB, members: set<Id>)
    requires Grows(m, n) && EveryMemberPending(m, members)
    ensures members <= BatchesOf(n, PendingOf(m, members))
  {
    forall b | b in members ensures b in BatchesOf(n, PendingOf(m, members)) {
      var t :| t in m.transfers && m.transfers[t].batch == b && m.transfers[t].status == Pending;
      assert t in n.transfers && n.transfers[t].batch == b;
    }
  }

  lemma InvOf(s: System)
    requires SystemInv(s)
    ensures Inv(s.db)
  {
  }
}
