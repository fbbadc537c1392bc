/**
 The row-level security policies of the custody tables, written in SQL's three-valued logic, and
 the filters the handlers apply to the same tables.  `Seen` is the database a caller has in front
 of it once the policies are in force.
 */
module RowVisibility {
  import opened Common
  import opened Roles
  import opened CustodyModel
  import opened CustodyInvariant
  import opened CustodySystem

  // ---------------------------------------------------------------------------
  // SQL truth values
  // ---------------------------------------------------------------------------

  datatype Truth = True | False | Unknown

  function Of(b: bool): Truth { if b then True else False }

  // NULL = x is neither true nor false.
  function Eq<T(==)>(a: Option<T>, b: Option<T>): Truth {
    if a == None || b == None then Unknown else Of(a == b)
  }

  function Not(a: Truth): Truth {
    match a
    case True => False
    case False => True
    case Unknown => Unknown
  }

  function And(a: Truth, b: Truth): Truth {
    if a == False || b == False then False else if a == True && b == True then True else Unknown
  }

  function Or(a: Truth, b: Truth): Truth {
    if a == True || b == True then True else if a == False && b == False then False else Unknown
  }

  function OrElseFalse(a: Truth): Truth { if a == Unknown then False else a }

  // ---------------------------------------------------------------------------
  // The session context and the role predicates
  // ---------------------------------------------------------------------------

  // The app.* settings; an empty setting reads as NULL.
  datatype Context = Context(system: bool, role: Option<Role>, coop: Option<Id>, farmer: Option<Id>)

  // The role predicates as first written, and after the migration that pins them to two values.
  datatype Version = Nullable | Pinned

  function HasRole(v: Version, c: Context, role: Role): Truth {
    if v == Pinned then OrElseFalse(Eq(c.role, Some(role))) else Eq(c.role, Some(role))
  }

  function Unrestricted(v: Version, c: Context): Truth { Or(Of(c.system), HasRole(v, c, SuperAdmin)) }

  function IsFarmer(v: Version, c: Context): Truth { HasRole(v, c, FarmerUser) }

  // ---------------------------------------------------------------------------
  // The policies.  A row is visible when its policy is True; Unknown hides it.
  // ---------------------------------------------------------------------------

  // warehouses, batch_groups: never shown to farmers.
  function StaffPolicy(v: Version, c: Context, coop: Id): Truth {
    Or(Unrestricted(v, c), And(Eq(Some(coop), c.coop), Not(IsFarmer(v, c))))
  }

  // farmers, deliveries: a farmer's own rows only.
  function MemberPolicy(v: Version, c: Context, coop: Id, farmer: Id): Truth {
    Or(Unrestricted(v, c), And(Eq(Some(coop), c.coop), Or(Not(IsFarmer(v, c)), Eq(Some(farmer), c.farmer))))
  }

  function DeliveryPolicy(v: Version, c: Context, d: Delivery): Truth { MemberPolicy(v, c, d.coop, d.farmer) }

  // The subquery of the batch policy: it reads `deliveries` under the policy of that table.
  predicate Contributes(v: Version, c: Context, d: Delivery, b: Id) {
    DeliveryPolicy(v, c, d) == True && And(Eq(d.batch, Some(b)), Eq(Some(d.farmer), c.farmer)) == True
  }

  predicate Contributed(v: Version, c: Context, deliveries: map<Id, Delivery>, b: Id) {
    exists d :: d in deliveries && Contributes(v, c, deliveries[d], b)
  }

  function BatchPolicy(v: Version, c: Context, deliveries: map<Id, Delivery>, b: Id, coop: Id): Truth {
    Or(Unrestricted(v, c),
       And(Eq(Some(coop), c.coop), Or(Not(IsFarmer(v, c)), Of(Contributed(v, c, deliveries, b)))))
  }

  function VisibleBatches(v: Version, c: Context, db: DB): set<Id> {
    set b | b in db.batches && BatchPolicy(v, c, db.deliveries, b, db.batches[b].coop) == True
  }

  // The policy of the tables that hang off a batch: it reads `coffee_batches` under the policy above.
  predicate CanSeeBatch(v: Version, c: Context, visible: set<Id>, b: Id) {
    Or(Unrestricted(v, c), Of(b in visible)) == True
  }

  // WITH CHECK of the tables that hang off a batch; that of the root tables is StaffPolicy.
  function WriteChild(v: Version, c: Context, visible: set<Id>, b: Id): Truth {
    And(Of(CanSeeBatch(v, c, visible, b)), Not(IsFarmer(v, c)))
  }

  // blockchain_transactions and qr_verifications do not exclude farmers.
  function WriteLedger(v: Version, c: Context, visible: set<Id>, b: Id): Truth {
    Of(CanSeeBatch(v, c, visible, b))
  }

  // Everything a session sees, table by table.
  function SeenFarmers(v: Version, c: Context, farmers: map<Id, Farmer>): map<Id, Farmer> {
    map f | f in farmers && MemberPolicy(v, c, farmers[f].coop, f) == True :: farmers[f]
  }

  function SeenDeliveries(v: Version, c: Context, deliveries: map<Id, Delivery>): map<Id, Delivery> {
    map d | d in deliveries && DeliveryPolicy(v, c, deliveries[d]) == True :: deliveries[d]
  }

  function SeenProcessing(v: Version, c: Context, visible: set<Id>, processing: map<Id, Id>): map<Id, Id> {
    map r | r in processing && CanSeeBatch(v, c, visible, processing[r]) :: processing[r]
  }

  function SeenWarehouses(v: Version, c: Context, warehouses: map<Id, Warehouse>): map<Id, Warehouse> {
    map w | w in warehouses && StaffPolicy(v, c, warehouses[w].coop) == True :: warehouses[w]
  }

  function SeenInventory(v: Version, c: Context, visible: set<Id>, inventory: map<Id, InventoryRow>): map<Id, InventoryRow> {
    map r | r in inventory && CanSeeBatch(v, c, visible, inventory[r].batch) :: inventory[r]
  }

  function SeenTransfers(v: Version, c: Context, visible: set<Id>, transfers: map<Id, Transfer>): map<Id, Transfer> {
    map t | t in transfers && CanSeeBatch(v, c, visible, transfers[t].batch) :: transfers[t]
  }

  function SeenMembers(v: Version, c: Context, visible: set<Id>, members: set<Id>): set<Id> {
    set b | b in members && CanSeeBatch(v, c, visible, b)
  }

  function SeenLots(v: Version, c: Context, visible: set<Id>, lots: map<Id, Lot>): map<Id, Lot> {
    map l | l in lots && StaffPolicy(v, c, lots[l].coop) == True ::
      lots[l].(members := SeenMembers(v, c, visible, lots[l].members))
  }

  function Seen(v: Version, c: Context, db: DB): DB {
    var visible := VisibleBatches(v, c, db);
    DB(SeenFarmers(v, c, db.farmers),
       map b | b in visible :: db.batches[b],
       SeenDeliveries(v, c, db.deliveries),
       SeenProcessing(v, c, visible, db.processing),
       SeenWarehouses(v, c, db.warehouses),
       SeenInventory(v, c, visible, db.inventory),
       SeenTransfers(v, c, visible, db.transfers),
       SeenLots(v, c, visible, db.lots))
  }

  // ---------------------------------------------------------------------------
  // The application's own filters
  // ---------------------------------------------------------------------------

  // The verified identity of a request, and the Farmer profile linked to it, if any.
  datatype User = User(role: Role, coop: Option<Id>, profile: Option<Id>)

  // What `authenticate` publishes to the database session.
  function ContextOf(u: User): Context {
    Context(false, Some(u.role), u.coop, if u.role == FarmerUser then u.profile else None)
  }

  function CallerOf(u: User): Caller { Caller(u.role == SuperAdmin, u.coop) }

  function ScopeCooperativeId(u: User, requested: Option<Id>): Result<Option<Id>, Error> {
    if u.role == SuperAdmin then Ok(requested) else if u.coop == None then Err(Forbidden) else Ok(u.coop)
  }

  function FarmerScopeId(u: User): Result<Option<Id>, Error> {
    if u.role != FarmerUser then Ok(None) else if u.profile == None then Err(Forbidden) else Ok(u.profile)
  }

  // batchesForFarmer
  predicate Supplied(deliveries: map<Id, Delivery>, f: Id, b: Id) {
    exists d :: d in deliveries && deliveries[d].batch == Some(b) && deliveries[d].farmer == f
  }

  function FilterBatches(db: DB, coop: Option<Id>, status: Option<Status>, farmer: Option<Id>): set<Id> {
    set b | b in db.batches
            && !db.batches[b].deleted
            && (coop.Some? ==> db.batches[b].coop == coop.value)
            && (status.Some? ==> db.batches[b].status == status.value)
            && (farmer.Some? ==> Supplied(db.deliveries, farmer.value, b))
  }

  // GET /batches, all pages together
  function ListBatches(db: DB, u: User, requested: Option<Id>, status: Option<Status>): Result<set<Id>, Error> {
    match ScopeCooperativeId(u, requested)
    case Err(e) => Err(e)
    case Ok(coop) =>
      match FarmerScopeId(u)
      case Err(e) => Err(e)
      case Ok(farmer) => Ok(FilterBatches(db, coop, status, farmer))
  }

  // GET /batches/:id
  function GetBatch(db: DB, u: User, b: Id): Result<Batch, Error> {
    if !Live(db, b) then Err(NotFound)
    else if !Owns(CallerOf(u), db.batches[b].coop) then Err(Forbidden)
    else
      match FarmerScopeId(u)
      case Err(e) => Err(e)
      case Ok(farmer) =>
        if farmer.Some? && !Supplied(db.deliveries, farmer.value, b) then Err(Forbidden) else Ok(db.batches[b])
  }

  // The list, batch by batch: live, of the cooperative asked for or the caller's own, of the status
  // asked for, and for a farmer one that holds a delivery of theirs.
  lemma ListExactly(db: DB, u: User, requested: Option<Id>, status: Option<Status>, b: Id)
    ensures ListBatches(db, u, requested, status).Ok? <==>
      u.role == SuperAdmin || (u.coop.Some? && (u.role == FarmerUser ==> u.profile.Some?))
    ensures ListBatches(db, u, requested, status).Err? ==> ListBatches(db, u, requested, status) == Err(Forbidden)
    ensures ListBatches(db, u, requested, status).Ok? ==>
      (b in ListBatches(db, u, requested, status).value <==>
        && b in db.batches && !db.batches[b].deleted
        && (u.role == SuperAdmin ==> requested == None || requested == Some(db.batches[b].coop))
        && (u.role != SuperAdmin ==> u.coop == Some(db.batches[b].coop))
        && (status == None || status == Some(db.batches[b].status))
        && (u.role == FarmerUser ==>
              exists d :: d in db.deliveries && db.deliveries[d].batch == Some(b) && u.profile == Some(db.deliveries[d].farmer)))
  {
  }

  // By id: not found, somebody else's, no profile, nothing of theirs in it, or the batch.
  lemma GetExactly(db: DB, u: User, b: Id)
    ensures b !in db.batches || db.batches[b].deleted ==> GetBatch(db, u, b) == Err(NotFound)
    ensures b in db.batches && !db.batches[b].deleted ==>
      && (GetBatch(db, u, b).Ok? <==>
            || u.role == SuperAdmin
            || (u.coop == Some(db.batches[b].coop)
                && (u.role == FarmerUser ==>
                      exists d :: d in db.deliveries && db.deliveries[d].batch == Some(b) && u.profile == Some(db.deliveries[d].farmer))))
      && (GetBatch(db, u, b).Ok? ==> GetBatch(db, u, b).value == db.batches[b])
      && (GetBatch(db, u, b).Err? ==> GetBatch(db, u, b) == Err(Forbidden))
  {
  }

  // ---------------------------------------------------------------------------
  // Policies against filters
  // ---------------------------------------------------------------------------

  // A batch of the farmer's own cooperative that holds their coffee only through deliveries booked
  // under another cooperative.
  predicate Stray(db: DB, coop: Id, f: Id, b: Id) {
    && b in db.batches && !db.batches[b].deleted && db.batches[b].coop == coop
    && Supplied(db.deliveries, f, b)
    && forall d :: d in db.deliveries && db.deliveries[d].batch == Some(b) && db.deliveries[d].farmer == f ==>
         db.deliveries[d].coop != coop
  }

  function LiveBatches(db: DB): set<Id> {
    set b | b in db.batches && !db.batches[b].deleted
  }

  // For a farmer, the subquery of the policy is the relation of the filter, read within the
  // cooperative.
  lemma ContributedMeans(u: User, db: DB, b: Id)
    requires u.role == FarmerUser && u.coop.Some? && u.profile.Some?
    ensures Contributed(Pinned, ContextOf(u), db.deliveries, b) <==>
      exists d :: d in db.deliveries && db.deliveries[d].batch == Some(b)
        && db.deliveries[d].farmer == u.profile.value && db.deliveries[d].coop == u.coop.value
  {
  }

  // On any tables at all, a query without filters under the policies and the filtered query without
  // policies return the same batches, except for the strays of a farmer.
  lemma PolicyAgainstFilter(u: User, db: DB, requested: Option<Id>)
    requires u.role != SuperAdmin && ListBatches(db, u, requested, None).Ok?
    ensures LiveBatches(Seen(Pinned, ContextOf(u), db)) == ListBatches(db, u, requested, None).value <==>
      !(u.role == FarmerUser && exists b :: Stray(db, u.coop.value, u.profile.value, b))
  {
    var view, listed := LiveBatches(Seen(Pinned, ContextOf(u), db)), ListBatches(db, u, requested, None).value;
    if u.role == FarmerUser {
      forall b { FarmerBatch(u, db, requested, b); }
      hide Seen, LiveBatches, ListBatches, Stray;
      if b :| Stray(db, u.coop.value, u.profile.value, b) {
        assert b in listed && b !in view;
      }
    }
  }

  lemma FarmerBatch(u: User, db: DB, requested: Option<Id>, b: Id)
    requires u.role == FarmerUser && u.coop.Some? && u.profile.Some?
    ensures b in LiveBatches(Seen(Pinned, ContextOf(u), db)) ==> b in ListBatches(db, u, requested, None).value
    ensures b in ListBatches(db, u, requested, None).value && b !in LiveBatches(Seen(Pinned, ContextOf(u), db))
       <==> Stray(db, u.coop.value, u.profile.value, b)
  {
    ContributedMeans(u, db, b);
  }

  lemma NoStrays(db: DB, coop: Id, f: Id, b: Id)
    requires DeliveriesRefer(db.farmers, db.batches, db.deliveries)
    ensures !Stray(db, coop, f, b)
  {
  }

  // In a reachable state, three readings of the same table agree for every scoped caller: filtered
  // without policies, unfiltered under the policies, and filtered under the policies.  A caller the
  // filters refuse outright sees nothing.
  lemma ThreeReadingsAgree(run: seq<System>, i: nat, u: User, requested: Option<Id>, status: Option<Status>)
    requires IsRun(run) && i < |run| && u.role != SuperAdmin
    ensures var db, view := run[i].db, Seen(Pinned, ContextOf(u), run[i].db);
      && ListBatches(view, u, requested, status) == ListBatches(db, u, requested, status)
      && (ListBatches(db, u, requested, None).Ok? ==> LiveBatches(view) == ListBatches(db, u, requested, None).value)
      && (ListBatches(db, u, requested, None).Err? ==> view.batches == map[])
  {
    hide SystemInv, IsRun, ListBatches, Seen, LiveBatches, DeliveriesRefer, VisibleBatches;
    RunKeeps(run, i);
    ReferencesOf(run[i]);
    FilterUnderPolicies(run[i].db, u, requested, status);
    NoFilterUnderPolicies(run[i].db, u, requested);
  }

  lemma FilterUnderPolicies(db: DB, u: User, requested: Option<Id>, status: Option<Status>)
    requires DeliveriesRefer(db.farmers, db.batches, db.deliveries) && u.role != SuperAdmin
    ensures ListBatches(Seen(Pinned, ContextOf(u), db), u, requested, status) == ListBatches(db, u, requested, status)
  {
    hide Seen, FilterBatches, DeliveriesRefer;
    if ListBatches(db, u, requested, status).Ok? {
      if u.role == FarmerUser {
        FarmerFilterUnderPolicies(u, db, status);
      } else {
        StaffFilterUnderPolicies(u, db, status);
      }
    }
  }

  lemma NoFilterUnderPolicies(db: DB, u: User, requested: Option<Id>)
    requires DeliveriesRefer(db.farmers, db.batches, db.deliveries) && u.role != SuperAdmin
    ensures var view := Seen(Pinned, ContextOf(u), db);
      && (ListBatches(db, u, requested, None).Ok? ==> LiveBatches(view) == ListBatches(db, u, requested, None).value)
      && (ListBatches(db, u, requested, None).Err? ==> view.batches == map[])
  {
    if ListBatches(db, u, requested, None).Err? { RefusedSeeNothing(db, u, requested); }
    hide Seen, LiveBatches, FilterBatches, DeliveriesRefer, Stray;
    if ListBatches(db, u, requested, None).Ok? {
      if u.role == FarmerUser {
        forall b { NoStrays(db, u.coop.value, u.profile.value, b); }
      }
      PolicyAgainstFilter(u, db, requested);
    }
  }

  lemma RefusedSeeNothing(db: DB, u: User, requested: Option<Id>)
    requires u.role != SuperAdmin && ListBatches(db, u, requested, None).Err?
    ensures Seen(Pinned, ContextOf(u), db).batches == map[]
  {
  }

  lemma ReferencesOf(s: System)
    requires SystemInv(s)
    ensures References(s.db)
  {
  }

  lemma FarmerFilterUnderPolicies(u: User, db: DB, status: Option<Status>)
    requires u.role == FarmerUser && u.coop.Some? && u.profile.Some?
    requires DeliveriesRefer(db.farmers, db.batches, db.deliveries)
    ensures FilterBatches(Seen(Pinned, ContextOf(u), db), u.coop, status, u.profile)
         == FilterBatches(db, u.coop, status, u.profile)
  {
    var view := Seen(Pinned, ContextOf(u), db);
    forall b | b in db.batches && db.batches[b].coop == u.coop.value
      ensures Supplied(view.deliveries, u.profile.value, b) <==> Supplied(db.deliveries, u.profile.value, b)
      ensures b in view.batches <==> Supplied(db.deliveries, u.profile.value, b)
    {
      ContributedMeans(u, db, b);
      if d :| d in db.deliveries && db.deliveries[d].batch == Some(b) && db.deliveries[d].farmer == u.profile.value {
        assert d in view.deliveries;
      }
    }
  }

  lemma StaffFilterUnderPolicies(u: User, db: DB, status: Option<Status>)
    requires u.role !in {SuperAdmin, FarmerUser} && u.coop.Some?
    ensures FilterBatches(Seen(Pinned, ContextOf(u), db), u.coop, status, None) == FilterBatches(db, u.coop, status, None)
  {
  }

  // By id, under the policies: a caller gets the batch exactly when it is in the list, and is told
  // NOT FOUND, never FORBIDDEN, otherwise: existence does not leak.
  lemma ByIdUnderPolicies(run: seq<System>, i: nat, u: User, b: Id)
    requires IsRun(run) && i < |run| && u.role != SuperAdmin
    ensures var db, view := run[i].db, Seen(Pinned, ContextOf(u), run[i].db); var listed := ListBatches(db, u, None, None);
      if listed.Ok? && b in listed.value
      then b in db.batches && GetBatch(view, u, b) == Ok(db.batches[b]) == GetBatch(db, u, b)
      else GetBatch(view, u, b) == Err(NotFound) && GetBatch(db, u, b).Err?
  {
    hide SystemInv, IsRun;
    ThreeReadingsAgree(run, i, u, None, None);
    var db, view := run[i].db, Seen(Pinned, ContextOf(u), run[i].db);
    var listed := ListBatches(db, u, None, None);
    if listed.Ok? {
      assert b in listed.value <==> b in LiveBatches(view);
    }
  }

  // What a farmer sees, table by table: themselves, their own deliveries, the batches of their
  // cooperative that hold some of these, and what hangs off those; no warehouse and no lot.
  lemma FarmerSees(u: User, db: DB)
    requires u.role == FarmerUser && u.coop.Some? && u.profile.Some?
    ensures var view := Seen(Pinned, ContextOf(u), db); var k, f := u.coop.value, u.profile.value;
      && (forall g :: g in view.farmers <==> g == f && f in db.farmers && db.farmers[f].coop == k)
      && (forall d :: d in view.deliveries <==> d in db.deliveries && db.deliveries[d].coop == k && db.deliveries[d].farmer == f)
      && (forall b :: b in view.batches <==>
            && b in db.batches && db.batches[b].coop == k
            && exists d :: d in view.deliveries && db.deliveries[d].batch == Some(b))
      && view.warehouses == map[] && view.lots == map[]
  {
    FarmerSeesOwn(u, db);
    FarmerSeesBatches(u, db);
    FarmerSeesNoShelves(u, db);
    hide Seen;
  }

  lemma FarmerSeesOwn(u: User, db: DB)
    requires u.role == FarmerUser && u.coop.Some? && u.profile.Some?
    ensures var view := Seen(Pinned, ContextOf(u), db); var k, f := u.coop.value, u.profile.value;
      && (forall g :: g in view.farmers <==> g == f && f in db.farmers && db.farmers[f].coop == k)
      && (forall d :: d in view.deliveries <==> d in db.deliveries && db.deliveries[d].coop == k && db.deliveries[d].farmer == f)
      && (forall d :: d in view.deliveries ==> view.deliveries[d] == db.deliveries[d])
  {
    hide VisibleBatches, SeenProcessing, SeenInventory, SeenTransfers, SeenLots, SeenWarehouses;
  }

  lemma FarmerSeesBatches(u: User, db: DB)
    requires u.role == FarmerUser && u.coop.Some? && u.profile.Some?
    ensures var view := Seen(Pinned, ContextOf(u), db);
      forall b :: b in view.batches <==>
        && b in db.batches && db.batches[b].coop == u.coop.value
        && exists d :: d in view.deliveries && db.deliveries[d].batch == Some(b)
  {
    FarmerSeesOwn(u, db);
    var view := Seen(Pinned, ContextOf(u), db);
    forall b
      ensures b in view.batches <==> b in db.batches && db.batches[b].coop == u.coop.value && Contributed(Pinned, ContextOf(u), db.deliveries, b)
      ensures Contributed(Pinned, ContextOf(u), db.deliveries, b) <==> exists d :: d in view.deliveries && db.deliveries[d].batch == Some(b)
    {
      ContributedMeans(u, db, b);
      hide Contributed, SeenFarmers, SeenDeliveries, SeenProcessing, SeenInventory, SeenTransfers, SeenLots, SeenWarehouses;
    }
    hide Seen, Contributed;
  }

  lemma FarmerSeesNoShelves(u: User, db: DB)
    requires u.role == FarmerUser
    ensures Seen(Pinned, ContextOf(u), db).warehouses == map[] && Seen(Pinned, ContextOf(u), db).lots == map[]
  {
    var view := Seen(Pinned, ContextOf(u), db);
    hide VisibleBatches, SeenFarmers, SeenDeliveries, SeenProcessing, SeenInventory, SeenTransfers;
    assert forall w :: w !in view.warehouses;
    assert forall l :: l !in view.lots;
  }

  lemma ChildrenSeen(u: User, db: DB)
    requires u.role != SuperAdmin
    ensures var view := Seen(Pinned, ContextOf(u), db);
      && (forall r :: r in view.processing <==> r in db.processing && db.processing[r] in view.batches)
      && (forall r :: r in view.inventory <==> r in db.inventory && db.inventory[r].batch in view.batches)
      && (forall t :: t in view.transfers <==> t in db.transfers && db.transfers[t].batch in view.batches)
  {
    hide VisibleBatches, SeenFarmers, SeenDeliveries, SeenWarehouses, SeenLots;
  }

  // A session without an identity sees nothing.
  lemma AnonymousSeesNothing(db: DB)
    ensures var view := Seen(Pinned, Context(false, None, None, None), db);
      && (forall b :: b !in view.batches) && (forall d :: d !in view.deliveries) && (forall f :: f !in view.farmers)
      && (forall w :: w !in view.warehouses) && (forall l :: l !in view.lots)
      && (forall r :: r !in view.processing) && (forall r :: r !in view.inventory) && (forall t :: t !in view.transfers)
  {
  }

  // A view never shows a row without the rows it refers to.
  lemma ViewIsClosed(u: User, db: DB)
    requires References(db) && u.role != SuperAdmin
    ensures var view := Seen(Pinned, ContextOf(u), db);
      && DeliveriesRefer(view.farmers, view.batches, view.deliveries)
      && ProcessingRefers(view.batches, view.processing)
      && TransfersRefer(view.batches, view.transfers)
      && LotsRefer(view.batches, view.lots)
      && forall r :: r in view.inventory ==> view.inventory[r].batch in view.batches
  {
    DeliveriesAreClosed(u, db);
    ChildrenAreClosed(u, db);
    hide DeliveriesRefer, ProcessingRefers, TransfersRefer, LotsRefer, Seen;
  }

  lemma ChildrenAreClosed(u: User, db: DB)
    requires u.role != SuperAdmin
    ensures var view := Seen(Pinned, ContextOf(u), db);
      && ProcessingRefers(view.batches, view.processing)
      && TransfersRefer(view.batches, view.transfers)
      && LotsRefer(view.batches, view.lots)
      && forall r :: r in view.inventory ==> view.inventory[r].batch in view.batches
  {
    hide VisibleBatches, SeenFarmers, SeenDeliveries, SeenWarehouses;
  }

  lemma DeliveriesAreClosed(u: User, db: DB)
    requires DeliveriesRefer(db.farmers, db.batches, db.deliveries) && u.role != SuperAdmin
    ensures var view := Seen(Pinned, ContextOf(u), db); DeliveriesRefer(view.farmers, view.batches, view.deliveries)
  {
    hide SeenProcessing, SeenInventory, SeenTransfers, SeenLots, SeenWarehouses;
    var c := ContextOf(u);
    var view := Seen(Pinned, c, db);
    forall d | d in view.deliveries && db.deliveries[d].batch.Some? ensures db.deliveries[d].batch.value in view.batches {
      var b := db.deliveries[d].batch.value;
      assert DeliveryPolicy(Pinned, c, db.deliveries[d]) == True;
      assert u.role == FarmerUser ==> Contributed(Pinned, c, db.deliveries, b);
    }
  }

  // ---------------------------------------------------------------------------
  // The two versions of the role predicates
  // ---------------------------------------------------------------------------

  // Pinning the predicates to two values shows the same batches, except to a session that has a
  // cooperative but no role: to that one it opens every batch of the cooperative.
  lemma VersionsAgree(c: Context, db: DB)
    ensures VisibleBatches(Nullable, c, db) <= VisibleBatches(Pinned, c, db)
    ensures VisibleBatches(Nullable, c, db) == VisibleBatches(Pinned, c, db) <==>
      c.system || c.role.Some?
      || forall b :: b in db.batches && c.coop == Some(db.batches[b].coop) ==>
           exists d :: d in db.deliveries && db.deliveries[d].batch == Some(b)
             && c.farmer == Some(db.deliveries[d].farmer) && c.coop == Some(db.deliveries[d].coop)
  {
    if !c.system && c.role == None {
      forall b | b in db.batches
        ensures b in VisibleBatches(Pinned, c, db) <==> c.coop == Some(db.batches[b].coop)
        ensures b in VisibleBatches(Nullable, c, db) <==>
          && c.coop == Some(db.batches[b].coop)
          && exists d :: d in db.deliveries && db.deliveries[d].batch == Some(b)
               && c.farmer == Some(db.deliveries[d].farmer) && c.coop == Some(db.deliveries[d].coop)
      {
        RolelessContribution(c, db, b);
      }
    } else {
      SameRoleAnswers(c);
    }
  }

  lemma RolelessContribution(c: Context, db: DB, b: Id)
    requires !c.system && c.role == None
    ensures Contributed(Nullable, c, db.deliveries, b) <==>
      exists d :: d in db.deliveries && db.deliveries[d].batch == Some(b)
        && c.farmer == Some(db.deliveries[d].farmer) && c.coop == Some(db.deliveries[d].coop)
  {
  }

  lemma SameRoleAnswers(c: Context)
    requires c.system || c.role.Some?
    ensures Unrestricted(Nullable, c) == Unrestricted(Pinned, c)
    ensures c.role.Some? ==> IsFarmer(Nullable, c) == IsFarmer(Pinned, c)
  {
  }

  predicate Opened(c: Context) {
    c.system || c.role.Some? || c == Context(false, None, None, None)
  }

  lemma SameMemberPolicy(c: Context, coop: Id, f: Id)
    requires Opened(c)
    ensures MemberPolicy(Nullable, c, coop, f) == True <==> MemberPolicy(Pinned, c, coop, f) == True
  {
  }

  lemma SameStaffPolicy(c: Context, coop: Id)
    requires Opened(c)
    ensures StaffPolicy(Nullable, c, coop) == True <==> StaffPolicy(Pinned, c, coop) == True
  {
  }

  lemma SameCanSeeBatch(c: Context, visible: set<Id>, b: Id)
    requires Opened(c)
    ensures CanSeeBatch(Nullable, c, visible, b) <==> CanSeeBatch(Pinned, c, visible, b)
  {
  }

  lemma SameVisibleBatches(c: Context, db: DB)
    requires Opened(c)
    ensures VisibleBatches(Nullable, c, db) == VisibleBatches(Pinned, c, db)
  {
    if c.system || c.role.Some? { VersionsAgree(c, db); }
  }

  lemma SameRootTables(c: Context, db: DB)
    requires Opened(c)
    ensures SeenFarmers(Nullable, c, db.farmers) == SeenFarmers(Pinned, c, db.farmers)
    ensures SeenDeliveries(Nullable, c, db.deliveries) == SeenDeliveries(Pinned, c, db.deliveries)
    ensures SeenWarehouses(Nullable, c, db.warehouses) == SeenWarehouses(Pinned, c, db.warehouses)
  {
    hide MemberPolicy, StaffPolicy, Opened;
    forall coop, f { SameMemberPolicy(c, coop, f); }
    forall coop { SameStaffPolicy(c, coop); }
  }

  lemma SameChildTables(c: Context, visible: set<Id>, db: DB)
    requires Opened(c)
    ensures SeenProcessing(Nullable, c, visible, db.processing) == SeenProcessing(Pinned, c, visible, db.processing)
    ensures SeenInventory(Nullable, c, visible, db.inventory) == SeenInventory(Pinned, c, visible, db.inventory)
    ensures SeenTransfers(Nullable, c, visible, db.transfers) == SeenTransfers(Pinned, c, visible, db.transfers)
  {
    hide CanSeeBatch, Opened;
    forall b { SameCanSeeBatch(c, visible, b); }
  }

  lemma SameLots(c: Context, visible: set<Id>, lots: map<Id, Lot>)
    requires Opened(c)
    ensures SeenLots(Nullable, c, visible, lots) == SeenLots(Pinned, c, visible, lots)
  {
    hide CanSeeBatch, StaffPolicy, Opened;
    forall coop { SameStaffPolicy(c, coop); }
    forall b { SameCanSeeBatch(c, visible, b); }
    forall l | l in lots ensures SeenMembers(Nullable, c, visible, lots[l].members) == SeenMembers(Pinned, c, visible, lots[l].members) {}
  }

  // Every session the application opens, authenticated, anonymous or system, is one the change
  // leaves alone, in every table.
  lemma ChangeIsUnobservable(c: Context, db: DB)
    requires Opened(c)
    ensures Seen(Nullable, c, db) == Seen(Pinned, c, db)
  {
    hide Opened, VisibleBatches;
    hide SeenFarmers, SeenDeliveries, SeenWarehouses, SeenProcessing, SeenInventory, SeenTransfers, SeenLots;
    SameVisibleBatches(c, db);
    var visible := VisibleBatches(Pinned, c, db);
    SameRootTables(c, db);
    SameChildTables(c, visible, db);
    SameLots(c, visible, db.lots);
  }
}
