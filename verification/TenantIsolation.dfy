/**
 Tenant isolation end to end: what a scoped caller writes stays inside its cooperative, no other
 cooperative's view changes, and working through the policies gives exactly the result of working
 on the whole tables.
 */
module TenantIsolation {
  import opened Common
  import opened Roles
  import opened CustodyModel
  import opened RowVisibility

  // ---------------------------------------------------------------------------
  // The rows of one cooperative
  // ---------------------------------------------------------------------------

  predicate InCoopOf(batches: map<Id, Batch>, k: Id, b: Id) {
    b in batches && batches[b].coop == k
  }

  function FarmersIn(k: Id, farmers: map<Id, Farmer>): map<Id, Farmer> {
    map f | f in farmers && farmers[f].coop == k :: farmers[f]
  }

  function BatchesIn(k: Id, batches: map<Id, Batch>): map<Id, Batch> {
    map b | b in batches && batches[b].coop == k :: batches[b]
  }

  function DeliveriesIn(k: Id, deliveries: map<Id, Delivery>): map<Id, Delivery> {
    map d | d in deliveries && deliveries[d].coop == k :: deliveries[d]
  }

  function ProcessingIn(k: Id, batches: map<Id, Batch>, processing: map<Id, Id>): map<Id, Id> {
    map r | r in processing && InCoopOf(batches, k, processing[r]) :: processing[r]
  }

  function WarehousesIn(k: Id, warehouses: map<Id, Warehouse>): map<Id, Warehouse> {
    map w | w in warehouses && warehouses[w].coop == k :: warehouses[w]
  }

  function InventoryIn(k: Id, batches: map<Id, Batch>, inventory: map<Id, InventoryRow>): map<Id, InventoryRow> {
    map r | r in inventory && InCoopOf(batches, k, inventory[r].batch) :: inventory[r]
  }

  function TransfersIn(k: Id, batches: map<Id, Batch>, transfers: map<Id, Transfer>): map<Id, Transfer> {
    map t | t in transfers && InCoopOf(batches, k, transfers[t].batch) :: transfers[t]
  }

  function MembersIn(k: Id, batches: map<Id, Batch>, members: set<Id>): set<Id> {
    set b | b in members && InCoopOf(batches, k, b)
  }

  function LotsIn(k: Id, batches: map<Id, Batch>, lots: map<Id, Lot>): map<Id, Lot> {
    map l | l in lots && lots[l].coop == k :: lots[l].(members := MembersIn(k, batches, lots[l].members))
  }

  function Slice(k: Id, db: DB): DB {
    DB(FarmersIn(k, db.farmers),
       BatchesIn(k, db.batches),
       DeliveriesIn(k, db.deliveries),
       ProcessingIn(k, db.batches, db.processing),
       WarehousesIn(k, db.warehouses),
       InventoryIn(k, db.batches, db.inventory),
       TransfersIn(k, db.batches, db.transfers),
       LotsIn(k, db.batches, db.lots))
  }

  // ---------------------------------------------------------------------------
  // Reads: a scoped view is a function of the cooperative's slice
  // ---------------------------------------------------------------------------

  predicate Scoped(c: Context, k: Id) {
    !c.system && c.role.Some? && c.role != Some(SuperAdmin) && c.coop == Some(k)
  }

  lemma SliceContribution(c: Context, k: Id, deliveries: map<Id, Delivery>, b: Id)
    requires Scoped(c, k)
    ensures Contributed(Pinned, c, DeliveriesIn(k, deliveries), b) <==> Contributed(Pinned, c, deliveries, b)
  {
    if d :| d in deliveries && Contributes(Pinned, c, deliveries[d], b) {
      assert d in DeliveriesIn(k, deliveries);
    }
  }

  lemma SliceVisible(c: Context, k: Id, db: DB)
    requires Scoped(c, k)
    ensures VisibleBatches(Pinned, c, Slice(k, db)) == VisibleBatches(Pinned, c, db) <= BatchesIn(k, db.batches).Keys
  {
    hide Contributed, DeliveriesIn;
    forall b { SliceContribution(c, k, db.deliveries, b); }
  }

  lemma SliceChildren(c: Context, k: Id, visible: set<Id>, db: DB)
    requires Scoped(c, k) && visible <= BatchesIn(k, db.batches).Keys
    ensures SeenProcessing(Pinned, c, visible, ProcessingIn(k, db.batches, db.processing)) == SeenProcessing(Pinned, c, visible, db.processing)
    ensures SeenInventory(Pinned, c, visible, InventoryIn(k, db.batches, db.inventory)) == SeenInventory(Pinned, c, visible, db.inventory)
    ensures SeenTransfers(Pinned, c, visible, TransfersIn(k, db.batches, db.transfers)) == SeenTransfers(Pinned, c, visible, db.transfers)
  {
  }

  lemma SliceFarmers(c: Context, k: Id, farmers: map<Id, Farmer>)
    requires Scoped(c, k)
    ensures SeenFarmers(Pinned, c, FarmersIn(k, farmers)) == SeenFarmers(Pinned, c, farmers)
  {
  }

  lemma SliceDeliveries(c: Context, k: Id, deliveries: map<Id, Delivery>)
    requires Scoped(c, k)
    ensures SeenDeliveries(Pinned, c, DeliveriesIn(k, deliveries)) == SeenDeliveries(Pinned, c, deliveries)
  {
  }

  lemma SliceWarehouses(c: Context, k: Id, warehouses: map<Id, Warehouse>)
    requires Scoped(c, k)
    ensures SeenWarehouses(Pinned, c, WarehousesIn(k, warehouses)) == SeenWarehouses(Pinned, c, warehouses)
  {
  }

  lemma SliceLots(c: Context, k: Id, visible: set<Id>, batches: map<Id, Batch>, lots: map<Id, Lot>)
    requires Scoped(c, k) && visible <= BatchesIn(k, batches).Keys
    ensures SeenLots(Pinned, c, visible, LotsIn(k, batches, lots)) == SeenLots(Pinned, c, visible, lots)
  {
    forall l | l in lots
      ensures SeenMembers(Pinned, c, visible, MembersIn(k, batches, lots[l].members)) == SeenMembers(Pinned, c, visible, lots[l].members)
    {
    }
  }

  // Rows of other cooperatives have no influence on what a scoped session sees.
  lemma ViewIsLocal(c: Context, k: Id, db: DB)
    requires Scoped(c, k)
    ensures Seen(Pinned, c, Slice(k, db)) == Seen(Pinned, c, db)
  {
    hide VisibleBatches, Scoped;
    hide SeenFarmers, SeenDeliveries, SeenWarehouses, SeenProcessing, SeenInventory, SeenTransfers, SeenLots;
    hide FarmersIn, DeliveriesIn, ProcessingIn, WarehousesIn, InventoryIn, TransfersIn, LotsIn;
    var visible := VisibleBatches(Pinned, c, db);
    SliceVisible(c, k, db);
    SliceChildren(c, k, visible, db);
    SliceFarmers(c, k, db.farmers);
    SliceDeliveries(c, k, db.deliveries);
    SliceWarehouses(c, k, db.warehouses);
    SliceLots(c, k, visible, db.batches, db.lots);
  }

  function DeliveriesOf(f: Id, deliveries: map<Id, Delivery>): map<Id, Delivery> {
    map d | d in deliveries && deliveries[d].farmer == f :: deliveries[d]
  }

  // A farmer's view does not depend on other farmers' deliveries either.
  lemma FarmerViewIsOwn(u: User, k: Id, db: DB)
    requires u.role == FarmerUser && u.coop == Some(k) && u.profile.Some?
    ensures Seen(Pinned, ContextOf(u), db) ==
            Seen(Pinned, ContextOf(u), Slice(k, db).(deliveries := DeliveriesOf(u.profile.value, Slice(k, db).deliveries)))
  {
    hide Slice, Contributed, SeenFarmers, SeenWarehouses, SeenProcessing, SeenInventory, SeenTransfers, SeenLots;
    var c, slice := ContextOf(u), Slice(k, db);
    var own := slice.(deliveries := DeliveriesOf(u.profile.value, slice.deliveries));
    ViewIsLocal(c, k, db);
    OwnVisible(u, slice);
    OwnDeliveries(u, slice.deliveries);
    hide VisibleBatches, SeenDeliveries, DeliveriesOf;
  }

  lemma OwnVisible(u: User, db: DB)
    requires u.role == FarmerUser && u.coop.Some? && u.profile.Some?
    ensures VisibleBatches(Pinned, ContextOf(u), db)
         == VisibleBatches(Pinned, ContextOf(u), db.(deliveries := DeliveriesOf(u.profile.value, db.deliveries)))
  {
    hide Contributed, DeliveriesOf;
    forall b { OwnContribution(u, db.deliveries, b); }
  }

  lemma OwnDeliveries(u: User, deliveries: map<Id, Delivery>)
    requires u.role == FarmerUser && u.coop.Some? && u.profile.Some?
    ensures SeenDeliveries(Pinned, ContextOf(u), deliveries)
         == SeenDeliveries(Pinned, ContextOf(u), DeliveriesOf(u.profile.value, deliveries))
  {
  }

  lemma OwnContribution(u: User, deliveries: map<Id, Delivery>, b: Id)
    requires u.role == FarmerUser && u.coop.Some? && u.profile.Some?
    ensures Contributed(Pinned, ContextOf(u), DeliveriesOf(u.profile.value, deliveries), b)
       <==> Contributed(Pinned, ContextOf(u), deliveries, b)
  {
    var c := ContextOf(u);
    if d :| d in deliveries && Contributes(Pinned, c, deliveries[d], b) {
      assert d in DeliveriesOf(u.profile.value, deliveries);
    }
  }

  // A clerk sees the slice, no less and no more.
  lemma StaffSeeTheSlice(u: User, k: Id, db: DB)
    requires u.role !in {SuperAdmin, FarmerUser} && u.coop == Some(k)
    ensures Seen(Pinned, ContextOf(u), db) == Slice(k, db)
  {
    hide SeenFarmers, SeenDeliveries, SeenWarehouses, SeenProcessing, SeenInventory, SeenTransfers, SeenLots;
    var c := ContextOf(u);
    var visible := VisibleBatches(Pinned, c, db);
    assert visible == BatchesIn(k, db.batches).Keys;
    StaffLots(c, k, visible, db.batches, db.lots);
    StaffRoots(c, k, db);
    StaffChildren(c, k, visible, db);
  }

  lemma StaffLots(c: Context, k: Id, visible: set<Id>, batches: map<Id, Batch>, lots: map<Id, Lot>)
    requires Scoped(c, k) && c.role != Some(FarmerUser) && visible == BatchesIn(k, batches).Keys
    ensures SeenLots(Pinned, c, visible, lots) == LotsIn(k, batches, lots)
  {
    forall l | l in lots ensures SeenMembers(Pinned, c, visible, lots[l].members) == MembersIn(k, batches, lots[l].members) {}
  }

  lemma StaffRoots(c: Context, k: Id, db: DB)
    requires Scoped(c, k) && c.role != Some(FarmerUser)
    ensures SeenFarmers(Pinned, c, db.farmers) == FarmersIn(k, db.farmers)
    ensures SeenDeliveries(Pinned, c, db.deliveries) == DeliveriesIn(k, db.deliveries)
    ensures SeenWarehouses(Pinned, c, db.warehouses) == WarehousesIn(k, db.warehouses)
  {
  }

  lemma StaffChildren(c: Context, k: Id, visible: set<Id>, db: DB)
    requires Scoped(c, k) && c.role != Some(FarmerUser) && visible == BatchesIn(k, db.batches).Keys
    ensures SeenProcessing(Pinned, c, visible, db.processing) == ProcessingIn(k, db.batches, db.processing)
    ensures SeenInventory(Pinned, c, visible, db.inventory) == InventoryIn(k, db.batches, db.inventory)
    ensures SeenTransfers(Pinned, c, visible, db.transfers) == TransfersIn(k, db.batches, db.transfers)
  {
  }
}
