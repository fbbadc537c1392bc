/**
 Which requests are accepted, and what the accepted ones carry into their transactions.
 */
module CustodyRequests {
  import opened Common
  import opened Seqs
  import opened CustodyModel
  import opened CustodySystem

  // Bound to no cooperative, or to this one.
  predicate MayAct(who: Caller, coop: Id) {
    who.superAdmin || who.coop == Some(coop)
  }

  predicate LiveBatchOf(db: DB, who: Caller, b: Id) {
    b in db.batches && !db.batches[b].deleted && MayAct(who, db.batches[b].coop)
  }

  predicate LotOf(db: DB, who: Caller, l: Id) {
    l in db.lots && MayAct(who, db.lots[l].coop)
  }

  predicate PendingFor(db: DB, t: Id, members: set<Id>) {
    t in db.transfers && db.transfers[t].status == Pending && db.transfers[t].batch in members
  }

  // The conditions, on the tables as the request finds them.
  ghost predicate Acceptable(db: DB, who: Caller, q: Request) {
    match q
    case AddFarmer(coop) => MayAct(who, coop)
    case DeleteFarmer(f) => f in db.farmers && !db.farmers[f].deleted && MayAct(who, db.farmers[f].coop)
    case AddWarehouse(coop, _) => MayAct(who, coop)
    case AddBatch(coop) => MayAct(who, coop)
    case AddDelivery(f, coop, _) =>
      MayAct(who, coop) && f in db.farmers && !db.farmers[f].deleted && db.farmers[f].coop == coop
    case Assign(b, ds) => |ds| > 0 && LiveBatchOf(db, who, b)
    case Process(b) => LiveBatchOf(db, who, b)
    case Store(w, b, _) => w in db.warehouses && MayAct(who, db.warehouses[w].coop) && LiveBatchOf(db, who, b)
    case Remove(r) =>
      && r in db.inventory && db.inventory[r].removedAt == None
      && db.inventory[r].batch in db.batches && MayAct(who, db.batches[db.inventory[r].batch].coop)
    case UpdateStatus(b, _) => LiveBatchOf(db, who, b)
    case OpenTransfer(b) => LiveBatchOf(db, who, b)
    case ConfirmTransfer(t) =>
      && t in db.transfers && db.transfers[t].status == Pending
      && db.transfers[t].batch in db.batches && MayAct(who, db.batches[db.transfers[t].batch].coop)
    case AddLot(bs) =>
      && |bs| > 1 && NoDuplicates(bs)
      && forall b :: b in bs ==> LiveBatchOf(db, who, b) && db.batches[b].status !in {Sold, Exported, Rejected}
    case SellLot(l) =>
      && LotOf(db, who, l) && db.lots[l].status == LotOpen && db.lots[l].members != {}
      && (forall b :: b in db.lots[l].members ==> b in db.batches && db.batches[b].status in {InStorage, InTransit})
      && forall t :: !PendingFor(db, t, db.lots[l].members)
    case ConfirmLot(l) =>
      && LotOf(db, who, l) && db.lots[l].status == LotOpen && db.lots[l].members != {}
      && exists t :: PendingFor(db, t, db.lots[l].members)
  }

  // The values it takes along.
  ghost predicate Carries(db: DB, q: Request, task: Task) {
    match q
    case AddFarmer(coop) => task == AddFarmerTask(coop)
    case DeleteFarmer(f) => task == DeleteFarmerTask(f)
    case AddWarehouse(coop, capacity) => task == AddWarehouseTask(coop, capacity)
    case AddBatch(coop) => task == AddBatchTask(coop)
    case AddDelivery(f, coop, weight) => task == AddDeliveryTask(f, coop, weight)
    case Assign(b, ds) => task == AssignTask(b, ds)
    case Process(b) => b in db.batches && task == ProcessTask(b, db.batches[b].status)
    case Store(w, b, weight) =>
      w in db.warehouses && b in db.batches && task == StoreTask(w, b, weight, db.warehouses[w].capacity, db.batches[b].weight)
    case Remove(r) => task == RemoveTask(r)
    case UpdateStatus(b, s) => task == UpdateStatusTask(b, s)
    case OpenTransfer(b) => task == OpenTransferTask(b)
    case ConfirmTransfer(t) => task == ConfirmTransferTask(t)
    case AddLot(bs) =>
      && task.AddLotTask? && bs != [] && bs[0] in db.batches && task.coop == db.batches[bs[0]].coop
      && forall b :: b in task.members <==> b in bs
    case SellLot(l) => l in db.lots && task == SellLotTask(l, db.lots[l].members)
    case ConfirmLot(l) =>
      && task.ConfirmLotTask? && task.lot == l && l in db.lots
      && forall t :: t in task.pending <==> PendingFor(db, t, db.lots[l].members)
  }

  lemma PendingIs(db: DB, members: set<Id>, t: Id)
    ensures t in PendingOf(db, members) <==> PendingFor(db, t, members)
  {
  }

  lemma LotRequests(db: DB, who: Caller, q: Request)
    requires q.AddLot? || q.SellLot? || q.ConfirmLot?
    ensures Begin(db, who, q).Ok? <==> Acceptable(db, who, q)
    ensures Begin(db, who, q).Ok? ==> Carries(db, q, Begin(db, who, q).value)
  {
    match q {
      case AddLot(bs) =>
        if |bs| > 1 { assert bs[0] in bs; }
      case SellLot(l) =>
        if l in db.lots {
          forall t { PendingIs(db, db.lots[l].members, t); }
          hide PendingOf, PendingFor;
        }
      case ConfirmLot(l) =>
        if l in db.lots {
          forall t { PendingIs(db, db.lots[l].members, t); }
          hide PendingOf, PendingFor;
        }
    }
  }

  // A request is accepted exactly under its conditions.
  lemma AcceptedExactly(db: DB, who: Caller, q: Request)
    ensures Begin(db, who, q).Ok? <==> Acceptable(db, who, q)
    ensures Begin(db, who, q).Ok? ==> Carries(db, q, Begin(db, who, q).value)
  {
    if q.AddLot? || q.SellLot? || q.ConfirmLot? {
      LotRequests(db, who, q);
      hide Begin, Acceptable, Carries;
    }
  }

  // ---------------------------------------------------------------------------
  // Refusals
  // ---------------------------------------------------------------------------

  predicate WellFormed(q: Request) {
    match q
    case Assign(_, ds) => |ds| > 0
    case AddLot(bs) => |bs| > 1 && NoDuplicates(bs)
    case _ => true
  }

  predicate IsLive(db: DB, b: Id) {
    b in db.batches && !db.batches[b].deleted
  }

  // The rows the request names are there.
  predicate Found(db: DB, q: Request) {
    match q
    case DeleteFarmer(f) => f in db.farmers && !db.farmers[f].deleted
    case Assign(b, _) => IsLive(db, b)
    case Process(b) => IsLive(db, b)
    case Store(w, b, _) => w in db.warehouses && IsLive(db, b)
    case Remove(r) => r in db.inventory && db.inventory[r].batch in db.batches
    case UpdateStatus(b, _) => IsLive(db, b)
    case OpenTransfer(b) => IsLive(db, b)
    case ConfirmTransfer(t) => t in db.transfers && db.transfers[t].batch in db.batches
    case AddLot(bs) => forall b :: b in bs ==> IsLive(db, b)
    case SellLot(l) => l in db.lots
    case ConfirmLot(l) => l in db.lots
    case _ => true
  }

  // And they belong to a cooperative the caller may act for.
  predicate Mine(db: DB, who: Caller, q: Request)
    requires Found(db, q)
  {
    match q
    case AddFarmer(coop) => MayAct(who, coop)
    case DeleteFarmer(f) => MayAct(who, db.farmers[f].coop)
    case AddWarehouse(coop, _) => MayAct(who, coop)
    case AddBatch(coop) => MayAct(who, coop)
    case AddDelivery(_, coop, _) => MayAct(who, coop)
    case Assign(b, _) => MayAct(who, db.batches[b].coop)
    case Process(b) => MayAct(who, db.batches[b].coop)
    case Store(w, b, _) => MayAct(who, db.warehouses[w].coop) && MayAct(who, db.batches[b].coop)
    case Remove(r) => MayAct(who, db.batches[db.inventory[r].batch].coop)
    case UpdateStatus(b, _) => MayAct(who, db.batches[b].coop)
    case OpenTransfer(b) => MayAct(who, db.batches[b].coop)
    case ConfirmTransfer(t) => MayAct(who, db.batches[db.transfers[t].batch].coop)
    case AddLot(bs) => forall b :: b in bs ==> MayAct(who, db.batches[b].coop)
    case SellLot(l) => MayAct(who, db.lots[l].coop)
    case ConfirmLot(l) => MayAct(who, db.lots[l].coop)
  }

  // A refused request is answered in this order: malformed, not found, somebody else's, and BAD
  // REQUEST for everything after that.
  lemma RefusedWith(db: DB, who: Caller, q: Request)
    requires Begin(db, who, q).Err?
    ensures Begin(db, who, q).error ==
      if !WellFormed(q) then BadRequest
      else if !Found(db, q) then NotFound
      else if !Mine(db, who, q) then Forbidden
      else BadRequest
  {
    if q.AddLot? {
      RefusedLot(db, who, q.batches);
      hide Begin, Found, Mine, WellFormed;
    }
  }

  lemma RefusedLot(db: DB, who: Caller, bs: seq<Id>)
    requires Begin(db, who, AddLot(bs)).Err?
    ensures Begin(db, who, AddLot(bs)).error ==
      if !WellFormed(AddLot(bs)) then BadRequest
      else if !Found(db, AddLot(bs)) then NotFound
      else if !Mine(db, who, AddLot(bs)) then Forbidden
      else BadRequest
  {
  }
}
