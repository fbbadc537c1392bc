/**
 The sale of a lot under the row policies.  A lot may have members of another cooperative, put there
 by a SUPER_ADMIN; a clerk's session does not see them.
 */
module PolicyLots {
  import opened Common
  import opened Seqs
  import opened Roles
  import opened CustodyModel
  import opened CustodyInvariant
  import opened CustodyLots
  import opened CustodySystem
  import opened CustodyRuns
  import opened RowVisibility
  import opened TenantIsolation
  import opened TenantWrites
  import opened PolicyModel
  import opened PolicySystem
  import opened PolicyRuns

  predicate InViewOf(u: User, db: DB, b: Id) {
    b in ViewOf(u, db).batches
  }

  predicate HasPending(db: DB, b: Id) {
    exists t :: t in db.transfers && db.transfers[t].batch == b && db.transfers[t].status == Pending
  }

  // A job accepted at i is still safe at j.
  lemma AcceptedJob(run: seq<Site>, i: nat, j: nat, u: User, q: Request)
    requires IsSiteRun(run) && i <= j < |run| && Begin(ViewOf(u, run[i].db), CallerOf(u), q).Ok?
    ensures Grows(run[i].db, run[j].db) && Custody(run[j].db) && OwnStockFits(run[j].db)
    ensures JobSafe(run[j].db, Job(u, Begin(ViewOf(u, run[i].db), CallerOf(u), q).value))
  {
    hide IsSiteRun, SiteInv, Custody, OwnStockFits, Grows, JobSafe, Begin, ViewOf;
    SiteRunKeeps(run, i);
    SiteRunKeeps(run, j);
    SiteRunGrows(run, i, j);
    AskSafe(run[i].db, u, q);
    JobStaysSafe(run[i].db, run[j].db, Job(u, Begin(ViewOf(u, run[i].db), CallerOf(u), q).value));
  }

  // What a transaction that goes through leaves, whoever runs it.
  lemma JobEffect(db: DB, job: Job, x: Supply)
    requires Custody(db) && OwnStockFits(db) && JobSafe(db, job) && Supplies(db, job.task, x)
    requires job.user.role != FarmerUser && FinishAs(job.user, db, job.task, x).Ok?
    ensures Finish(db, Lax(job.task), x) == FinishAs(job.user, db, job.task, x)
  {
    hide Custody, OwnStockFits, FinishAs, Finish, StillSafe, TaskOf, Supplies, StepKept, InventoryWithinCoop, CheckPasses;
    if job.user.role == SuperAdmin {
      AdminKeeps(job.user, db, job.task, x);
      FinishSplits(db, job.task, x);
    } else {
      ClerkKeeps(job.user, db, job.task, x);
    }
  }

  // What the view holds of a lot, its members and their transfers.
  lemma ViewOfLot(u: User, db: DB, l: Id)
    requires u.role != FarmerUser && (u.role == SuperAdmin || u.coop.Some?) && References(db) && l in ViewOf(u, db).lots
    ensures l in db.lots
    ensures forall b :: b in ViewOf(u, db).lots[l].members <==> b in db.lots[l].members && InViewOf(u, db, b)
    ensures forall t :: t in PendingOf(ViewOf(u, db), ViewOf(u, db).lots[l].members) <==>
      && t in db.transfers && db.transfers[t].status == Pending
      && db.transfers[t].batch in db.lots[l].members && InViewOf(u, db, db.transfers[t].batch)
  {
    if u.role == SuperAdmin {
      AdminSeesAll(u, db);
      hide Seen;
    } else {
      StaffSeeTheSlice(u, u.coop.value, db);
      hide Seen;
    }
  }

  // ---------------------------------------------------------------------------
  // Putting a lot up for sale
  // ---------------------------------------------------------------------------

  lemma SellAccepted(u: User, db: DB, l: Id)
    requires Begin(ViewOf(u, db), CallerOf(u), SellLot(l)).Ok?
    ensures l in ViewOf(u, db).lots
    ensures Begin(ViewOf(u, db), CallerOf(u), SellLot(l)).value == SellLotTask(l, ViewOf(u, db).lots[l].members)
    ensures u.role == SuperAdmin || u.coop.Some?
  {
    hide ViewOf;
  }

  lemma OpenedFor(db: DB, issued: map<Id, Id>, now: Time, b: Id)
    requires issued.Keys !! db.transfers.Keys
    ensures HasPending(OpenTransfers(db, issued, now), b) <==> b in issued.Values || HasPending(db, b)
  {
    var n := OpenTransfers(db, issued, now);
    if b in issued.Values {
      var t :| t in issued && issued[t] == b;
      assert t in n.transfers && n.transfers[t].batch == b;
    }
    if t :| t in db.transfers && db.transfers[t].batch == b && db.transfers[t].status == Pending {
      assert t in n.transfers && n.transfers[t] == db.transfers[t];
    }
  }

  lemma SellOutcome(u: User, db: DB, m: DB, l: Id, issued: map<Id, Id>, now: Time)
    requires u.role != FarmerUser && (u.role == SuperAdmin || u.coop.Some?) && References(db) && l in ViewOf(u, db).lots
    requires issued.Keys !! m.transfers.Keys && issued.Values == ViewOf(u, db).lots[l].members
    ensures l in db.lots
    ensures (forall b :: b in db.lots[l].members ==> HasPending(OpenTransfers(m, issued, now), b)) <==>
            (forall b :: b in db.lots[l].members && !InViewOf(u, db, b) ==> HasPending(m, b))
  {
    hide ViewOf, InViewOf, HasPending, OpenTransfers, References;
    ViewOfLot(u, db, l);
    forall b { OpenedFor(m, issued, now, b); }
  }

  lemma SellFinish(db: DB, l: Id, members: set<Id>, x: Supply)
    ensures Finish(db, Lax(SellLotTask(l, members)), x) == Ok(OpenTransfers(db, x.transferIds, x.now))
    ensures Supplies(db, SellLotTask(l, members), x) ==> x.transferIds.Keys !! db.transfers.Keys && x.transferIds.Values == members
  {
  }

  // `sell` opens a transfer for every member in view.  Afterwards every member has one pending
  // exactly when those out of view had one already.
  lemma SellThroughView(run: seq<Site>, i: nat, j: nat, u: User, l: Id, x: Supply)
    requires IsSiteRun(run) && i <= j < |run| && u.role != FarmerUser
    requires Begin(ViewOf(u, run[i].db), CallerOf(u), SellLot(l)).Ok?
    requires var task := Begin(ViewOf(u, run[i].db), CallerOf(u), SellLot(l)).value;
      Supplies(run[j].db, task, x) && FinishAs(u, run[j].db, task, x).Ok?
    ensures l in run[i].db.lots
    ensures var n := FinishAs(u, run[j].db, Begin(ViewOf(u, run[i].db), CallerOf(u), SellLot(l)).value, x).value;
      (forall b :: b in run[i].db.lots[l].members ==> HasPending(n, b)) <==>
      (forall b :: b in run[i].db.lots[l].members && !InViewOf(u, run[i].db, b) ==> HasPending(run[j].db, b))
  {
    SellAccepted(u, run[i].db, l);
    AcceptedJob(run, i, j, u, SellLot(l));
    SiteRunKeeps(run, i);
    hide IsSiteRun, SiteInv, Custody, OwnStockFits, Grows, JobSafe, Begin, ViewOf, FinishAs, HasPending, OpenTransfers, References;
    hide Finish, Supplies, Lax, InViewOf;
    var task := Begin(ViewOf(u, run[i].db), CallerOf(u), SellLot(l)).value;
    CustodyRefers(run[i].db);
    JobEffect(run[j].db, Job(u, task), x);
    SellFinish(run[j].db, l, task.members, x);
    SellOutcome(u, run[i].db, run[j].db, l, x.transferIds, x.now);
  }

  // ---------------------------------------------------------------------------
  // Confirming it
  // ---------------------------------------------------------------------------

  lemma ConfirmAccepted(u: User, db: DB, l: Id)
    requires Begin(ViewOf(u, db), CallerOf(u), ConfirmLot(l)).Ok?
    ensures l in ViewOf(u, db).lots
    ensures Begin(ViewOf(u, db), CallerOf(u), ConfirmLot(l)).value
         == ConfirmLotTask(l, PendingOf(ViewOf(u, db), ViewOf(u, db).lots[l].members))
    ensures u.role == SuperAdmin || u.coop.Some?
  {
    hide ViewOf;
  }

  // The batches whose transfers a confirmation collects are members in view.
  lemma CollectedInView(u: User, db: DB, n: DB, l: Id, pending: set<Id>)
    requires u.role != FarmerUser && (u.role == SuperAdmin || u.coop.Some?) && References(db) && l in ViewOf(u, db).lots
    requires pending == PendingOf(ViewOf(u, db), ViewOf(u, db).lots[l].members) && Grows(db, n)
    ensures l in db.lots
    ensures forall b :: b in BatchesOf(n, pending) <==> b in db.lots[l].members && InViewOf(u, db, b) && HasPending(db, b)
  {
    ViewOfLot(u, db, l);
    hide ViewOf, References, InViewOf, FarmersGrow, BatchesGrow, DeliveriesGrow, InventoryGrows, LotsGrow, MapGrows;
    forall b ensures b in BatchesOf(n, pending) <==> b in db.lots[l].members && InViewOf(u, db, b) && HasPending(db, b) {
      if b in BatchesOf(n, pending) {
        var t :| t in pending && t in n.transfers && n.transfers[t].batch == b;
      }
      if b in db.lots[l].members && InViewOf(u, db, b) && HasPending(db, b) {
        var t :| t in db.transfers && db.transfers[t].batch == b && db.transfers[t].status == Pending;
        assert t in pending && t in n.transfers && n.transfers[t].batch == b;
      }
    }
  }

  ghost predicate SoldOf(n: DB, members: set<Id>) {
    forall b :: b in members ==> IsSold(n, b)
  }

  // Each member was SOLD already, or is in view and had a transfer pending when that was looked up.
  ghost predicate SoldOrCollected(u: User, asked: DB, now: DB, members: set<Id>) {
    forall b :: b in members ==> IsSold(now, b) || (InViewOf(u, asked, b) && HasPending(asked, b))
  }

  lemma ConfirmOutcome(u: User, db: DB, m: DB, l: Id, pending: set<Id>, x: Supply)
    requires u.role != FarmerUser && (u.role == SuperAdmin || u.coop.Some?) && References(db) && l in ViewOf(u, db).lots
    requires pending == PendingOf(ViewOf(u, db), ViewOf(u, db).lots[l].members) && Grows(db, m)
    requires NoDuplicates(x.order) && Elements(x.order) == pending && ConfirmSaleTx(m, l, x.order, x.now).Ok?
    ensures l in db.lots
    ensures var n := ConfirmSaleTx(m, l, x.order, x.now).value; var members := db.lots[l].members;
      && l in n.lots && n.lots[l].status == LotSold && n.lots[l].members == members
      && (SoldOf(n, members) <==> SoldOrCollected(u, db, m, members))
  {
    hide ConfirmSaleTx, InViewOf, IsSold, PendingOf, BatchesOf, ConfirmAll, Confirmable, ViewOf, HasPending, References, Grows;
    CollectedInView(u, db, m, l, pending);
    LotsLast(db, m, l);
    ConfirmSaleExact(m, l, x.order, x.now);
    LotSoldMeansMembersSold(m, l, x.order, x.now);
    KeepsLots(m, Elements(x.order), x.now);
  }

  lemma KeepsLots(db: DB, ts: set<Id>, now: Time)
    ensures ConfirmAll(db, ts, now).lots == db.lots
  {
  }

  lemma ConfirmFinish(db: DB, l: Id, pending: set<Id>, x: Supply)
    ensures Finish(db, Lax(ConfirmLotTask(l, pending)), x) == ConfirmSaleTx(db, l, x.order, x.now)
    ensures Supplies(db, ConfirmLotTask(l, pending), x) ==> NoDuplicates(x.order) && Elements(x.order) == pending
  {
  }

  // A lot confirmed through a view is SOLD of every member exactly when each member out of view was
  // SOLD already, and each one in view was or had a transfer pending when confirmation was asked for.
  lemma ConfirmThroughView(run: seq<Site>, i: nat, j: nat, u: User, l: Id, x: Supply)
    requires IsSiteRun(run) && i <= j < |run| && u.role != FarmerUser
    requires Begin(ViewOf(u, run[i].db), CallerOf(u), ConfirmLot(l)).Ok?
    requires var task := Begin(ViewOf(u, run[i].db), CallerOf(u), ConfirmLot(l)).value;
      Supplies(run[j].db, task, x) && FinishAs(u, run[j].db, task, x).Ok?
    ensures l in run[i].db.lots
    ensures var n := FinishAs(u, run[j].db, Begin(ViewOf(u, run[i].db), CallerOf(u), ConfirmLot(l)).value, x).value;
      var members := run[i].db.lots[l].members;
      && l in n.lots && n.lots[l].status == LotSold && n.lots[l].members == members
      && (SoldOf(n, members) <==> SoldOrCollected(u, run[i].db, run[j].db, members))
  {
    ConfirmAccepted(u, run[i].db, l);
    AcceptedJob(run, i, j, u, ConfirmLot(l));
    SiteRunKeeps(run, i);
    hide IsSiteRun, SiteInv, Custody, OwnStockFits, Grows, JobSafe, Begin, ViewOf, FinishAs, References;
    hide ConfirmSaleTx, PendingOf, Finish, Supplies, Lax, SoldOf, SoldOrCollected;
    var db, m := run[i].db, run[j].db;
    var task := Begin(ViewOf(u, db), CallerOf(u), ConfirmLot(l)).value;
    CustodyRefers(db);
    JobEffect(m, Job(u, task), x);
    ConfirmFinish(m, l, task.pending, x);
    ConfirmOutcome(u, db, m, l, task.pending, x);
  }

  // So a lot whose members are all in view, each with a transfer pending, ends up SOLD throughout.
  lemma LotInViewIsSold(run: seq<Site>, i: nat, j: nat, u: User, l: Id, x: Supply)
    requires IsSiteRun(run) && i <= j < |run| && u.role != FarmerUser
    requires Begin(ViewOf(u, run[i].db), CallerOf(u), ConfirmLot(l)).Ok?
    requires var task := Begin(ViewOf(u, run[i].db), CallerOf(u), ConfirmLot(l)).value;
      Supplies(run[j].db, task, x) && FinishAs(u, run[j].db, task, x).Ok?
    requires l in run[i].db.lots
    requires forall b :: b in run[i].db.lots[l].members ==> InViewOf(u, run[i].db, b) && HasPending(run[i].db, b)
    ensures SoldOf(FinishAs(u, run[j].db, Begin(ViewOf(u, run[i].db), CallerOf(u), ConfirmLot(l)).value, x).value,
                   run[i].db.lots[l].members)
  {
    hide IsSiteRun, Begin, ViewOf, FinishAs, Supplies, SoldOf, InViewOf, HasPending;
    ConfirmThroughView(run, i, j, u, l, x);
  }
}
