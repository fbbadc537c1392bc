/**
 The store route statement by statement: the write lock on the warehouse row, the look for an open
 row, the measurement of the load, the insert under the partial unique index, the commit.
 Statements of any number of stores and check-outs interleave; each statement reads what is
 committed when it runs, as far as the row policies show it to the session.
 */
module StoreProtocol {
  import opened Common
  import opened Sums
  import opened CustodyModel
  import opened CustodyInvariant
  import opened ShelfLoads
  import CustodyEffects

  type TxId = nat

  datatype Phase =
    | Waiting                      // for the lock on the warehouse row
    | Holding                      // the lock
    | Checked                      // no open row of the batch was found
    | Measured(load: nat)          // the weight on the shelves, as summed under the lock
    | Inserted(load: nat, row: Id) // not committed; the row's key is in the index

  // `scope` is the cooperative whose rows the session sees; None sees them all.
  datatype StoreRun = StoreRun(warehouse: Id, batch: Id, weight: nat, scope: Option<Id>, phase: Phase)

  // `coop` says which cooperative a batch belongs to, for ever; `scoped` whether a session with a
  // restricted view has stored anything yet.
  datatype State = State(
    coop: Id -> Id, warehouses: map<Id, Warehouse>, inventory: map<Id, InventoryRow>, stores: map<TxId, StoreRun>, scoped: bool)

  datatype Action =
    | Begin(tx: TxId, warehouse: Id, batch: Id, weight: nat, scope: Option<Id>)
    | Lock(tx: TxId)
    | CheckOpenRow(tx: TxId)
    | Measure(tx: TxId)
    | InsertRow(tx: TxId, row: Id)
    | Commit(tx: TxId, now: Time)
    | Rollback(tx: TxId)
    | CheckOut(row: Id, now: Time)

  predicate HasLock(store: StoreRun) { store.phase != Waiting }

  predicate HoldsLock(stores: map<TxId, StoreRun>, w: Id) {
    exists t :: t in stores && HasLock(stores[t]) && stores[t].warehouse == w
  }

  // A second insert of the same key waits for the first one to commit or roll back.
  predicate KeyTaken(stores: map<TxId, StoreRun>, b: Id) {
    exists t :: t in stores && stores[t].phase.Inserted? && stores[t].batch == b
  }

  function NewRow(store: StoreRun, now: Time): InventoryRow {
    InventoryRow(store.warehouse, store.batch, store.weight, now, None)
  }

  function InView(coop: Id -> Id, scope: Option<Id>, inventory: map<Id, InventoryRow>): map<Id, InventoryRow> {
    map r | r in inventory && (scope.Some? ==> coop(inventory[r].batch) == scope.value) :: inventory[r]
  }

  // A scoped session has both the warehouse and the batch in view.
  predicate MayStore(coop: Id -> Id, warehouses: map<Id, Warehouse>, w: Id, b: Id, scope: Option<Id>) {
    w in warehouses && (scope.Some? ==> warehouses[w].coop == scope.value && coop(b) == scope.value)
  }

  ghost predicate Next(s: State, a: Action, n: State) {
    match a
    case Begin(t, w, b, weight, scope) =>
      && t !in s.stores && MayStore(s.coop, s.warehouses, w, b, scope)
      && n == s.(stores := s.stores[t := StoreRun(w, b, weight, scope, Waiting)], scoped := s.scoped || scope.Some?)
    case Lock(t) =>
      && t in s.stores && s.stores[t].phase == Waiting && !HoldsLock(s.stores, s.stores[t].warehouse)
      && n == s.(stores := s.stores[t := s.stores[t].(phase := Holding)])
    case CheckOpenRow(t) =>
      && t in s.stores && s.stores[t].phase == Holding
      && !HasOpenRow(InView(s.coop, s.stores[t].scope, s.inventory), s.stores[t].batch)
      && n == s.(stores := s.stores[t := s.stores[t].(phase := Checked)])
    case Measure(t) =>
      && t in s.stores && s.stores[t].phase == Checked && s.stores[t].warehouse in s.warehouses
      && var load := OpenLoad(InView(s.coop, s.stores[t].scope, s.inventory), s.stores[t].warehouse);
         Fits(s.warehouses[s.stores[t].warehouse].capacity, load, s.stores[t].weight)
         && n == s.(stores := s.stores[t := s.stores[t].(phase := Measured(load))])
    case InsertRow(t, r) =>
      && t in s.stores && s.stores[t].phase.Measured?
      && r !in s.inventory && (forall u :: u in s.stores && s.stores[u].phase.Inserted? ==> s.stores[u].phase.row != r)
      && !HasOpenRow(s.inventory, s.stores[t].batch) && !KeyTaken(s.stores, s.stores[t].batch)
      && n == s.(stores := s.stores[t := s.stores[t].(phase := Inserted(s.stores[t].phase.load, r))])
    case Commit(t, now) =>
      && t in s.stores && s.stores[t].phase.Inserted?
      && n == s.(inventory := s.inventory[s.stores[t].phase.row := NewRow(s.stores[t], now)], stores := s.stores - {t})
    case Rollback(t) =>
      t in s.stores && n == s.(stores := s.stores - {t})
    case CheckOut(r, now) =>
      r in s.inventory && n == s.(inventory := s.inventory[r := s.inventory[r].(removedAt := Some(now))])
  }

  ghost predicate Steps(s: State, n: State) {
    exists a :: Next(s, a, n)
  }

  ghost predicate Starts(s: State) {
    s.stores == map[] && !s.scoped && OneOpenRow(s.inventory) && WithinCapacity(s.warehouses, s.inventory)
  }

  ghost predicate IsRun(run: seq<State>) {
    && run != [] && Starts(run[0])
    && forall i :: 0 < i < |run| ==> Steps(run[i - 1], run[i])
  }

  // ---------------------------------------------------------------------------
  // The invariant
  // ---------------------------------------------------------------------------

  predicate SameLock(a: StoreRun, b: StoreRun) {
    HasLock(a) && HasLock(b) && a.warehouse == b.warehouse
  }

  predicate SameKey(a: StoreRun, b: StoreRun) {
    a.phase.Inserted? && b.phase.Inserted? && (a.batch == b.batch || a.phase.row == b.phase.row)
  }

  ghost predicate OneHolder(stores: map<TxId, StoreRun>) {
    forall t, u :: t in stores && u in stores && SameLock(stores[t], stores[u]) ==> t == u
  }

  ghost predicate OneKey(stores: map<TxId, StoreRun>) {
    forall t, u :: t in stores && u in stores && SameKey(stores[t], stores[u]) ==> t == u
  }

  // What a store measured is an upper bound of what it would measure now.
  ghost predicate Covered(coop: Id -> Id, warehouses: map<Id, Warehouse>, inventory: map<Id, InventoryRow>, store: StoreRun) {
    && MayStore(coop, warehouses, store.warehouse, store.batch, store.scope)
    && (store.phase.Measured? || store.phase.Inserted? ==>
          && OpenLoad(InView(coop, store.scope, inventory), store.warehouse) <= store.phase.load
          && Fits(warehouses[store.warehouse].capacity, store.phase.load, store.weight))
  }

  ghost predicate KeyFree(inventory: map<Id, InventoryRow>, store: StoreRun) {
    store.phase.Inserted? ==> store.phase.row !in inventory && !HasOpenRow(inventory, store.batch)
  }

  // The stock of the cooperative a warehouse belongs to fits.
  ghost predicate OwnRowsFit(coop: Id -> Id, warehouses: map<Id, Warehouse>, inventory: map<Id, InventoryRow>) {
    forall w :: w in warehouses && warehouses[w].capacity.Some? ==>
      OpenLoad(InView(coop, Some(warehouses[w].coop), inventory), w) <= warehouses[w].capacity.value
  }

  ghost predicate Unscoped(stores: map<TxId, StoreRun>) {
    forall t :: t in stores ==> stores[t].scope == None
  }

  ghost predicate Inv(s: State) {
    && OneHolder(s.stores)
    && OneKey(s.stores)
    && OneOpenRow(s.inventory)
    && OwnRowsFit(s.coop, s.warehouses, s.inventory)
    && (!s.scoped ==> Unscoped(s.stores) && WithinCapacity(s.warehouses, s.inventory))
    && forall t :: t in s.stores ==> Covered(s.coop, s.warehouses, s.inventory, s.stores[t]) && KeyFree(s.inventory, s.stores[t])
  }

  // ---------------------------------------------------------------------------
  // Steps
  // ---------------------------------------------------------------------------

  lemma InsertLoads(coop: Id -> Id, scope: Option<Id>, inventory: map<Id, InventoryRow>, r: Id, row: InventoryRow, w: Id)
    requires r !in inventory && row.removedAt == None
    ensures OpenLoad(InView(coop, scope, inventory[r := row]), w) == OpenLoad(InView(coop, scope, inventory), w)
      + if row.warehouse == w && (scope.Some? ==> coop(row.batch) == scope.value) then row.weight else 0
  {
    if scope.Some? && coop(row.batch) != scope.value {
      assert InView(coop, scope, inventory[r := row]) == InView(coop, scope, inventory);
    } else {
      assert InView(coop, scope, inventory[r := row]) == InView(coop, scope, inventory)[r := row];
      StoringLoads(InView(coop, scope, inventory), r, row, w);
    }
  }

  lemma CheckOutLoads(coop: Id -> Id, scope: Option<Id>, inventory: map<Id, InventoryRow>, r: Id, now: Time, w: Id)
    requires r in inventory
    ensures OpenLoad(InView(coop, scope, inventory[r := inventory[r].(removedAt := Some(now))]), w) <= OpenLoad(InView(coop, scope, inventory), w)
  {
    SumMonotone(OpenWeights(InView(coop, scope, inventory[r := inventory[r].(removedAt := Some(now))]), w),
                OpenWeights(InView(coop, scope, inventory), w));
  }

  lemma WholeView(coop: Id -> Id, inventory: map<Id, InventoryRow>)
    ensures InView(coop, None, inventory) == inventory
  {
  }

  // A cooperative's own stock weighs at most what any of its stores sees.
  lemma OwnInView(coop: Id -> Id, warehouses: map<Id, Warehouse>, inventory: map<Id, InventoryRow>, store: StoreRun)
    requires MayStore(coop, warehouses, store.warehouse, store.batch, store.scope)
    ensures OpenLoad(InView(coop, Some(warehouses[store.warehouse].coop), inventory), store.warehouse)
         <= OpenLoad(InView(coop, store.scope, inventory), store.warehouse)
  {
    WholeView(coop, inventory);
    LoadInView(InView(coop, Some(warehouses[store.warehouse].coop), inventory), inventory, store.warehouse);
  }

  lemma CommitFits(coop: Id -> Id, warehouses: map<Id, Warehouse>, inventory: map<Id, InventoryRow>, store: StoreRun, now: Time)
    requires OwnRowsFit(coop, warehouses, inventory) && Covered(coop, warehouses, inventory, store)
    requires store.phase.Inserted? && store.phase.row !in inventory
    ensures OwnRowsFit(coop, warehouses, inventory[store.phase.row := NewRow(store, now)])
    ensures store.scope == None && WithinCapacity(warehouses, inventory) ==>
      WithinCapacity(warehouses, inventory[store.phase.row := NewRow(store, now)])
  {
    hide OpenLoad, InView;
    var n := inventory[store.phase.row := NewRow(store, now)];
    OwnInView(coop, warehouses, inventory, store);
    WholeView(coop, inventory);
    WholeView(coop, n);
    forall scope, w { InsertLoads(coop, scope, inventory, store.phase.row, NewRow(store, now), w); }
    forall w | w in warehouses && warehouses[w].capacity.Some?
      ensures OpenLoad(InView(coop, Some(warehouses[w].coop), n), w) <= warehouses[w].capacity.value
    {
      InsertLoads(coop, Some(warehouses[w].coop), inventory, store.phase.row, NewRow(store, now), w);
    }
    if store.scope == None && WithinCapacity(warehouses, inventory) {
      forall w | w in warehouses && warehouses[w].capacity.Some? ensures OpenLoad(n, w) <= warehouses[w].capacity.value {
        InsertLoads(coop, None, inventory, store.phase.row, NewRow(store, now), w);
      }
    }
  }

  lemma CommitOneOpenRow(inventory: map<Id, InventoryRow>, r: Id, row: InventoryRow)
    requires OneOpenRow(inventory) && r !in inventory && !HasOpenRow(inventory, row.batch)
    ensures OneOpenRow(inventory[r := row])
  {
  }

  lemma CommitKeyFree(inventory: map<Id, InventoryRow>, r: Id, row: InventoryRow, store: StoreRun)
    requires KeyFree(inventory, store) && (store.phase.Inserted? ==> store.phase.row != r && store.batch != row.batch)
    ensures KeyFree(inventory[r := row], store)
  {
  }

  lemma CommitCovers(coop: Id -> Id, warehouses: map<Id, Warehouse>, inventory: map<Id, InventoryRow>, r: Id, row: InventoryRow, store: StoreRun)
    requires Covered(coop, warehouses, inventory, store) && r !in inventory && row.removedAt == None
    requires HasLock(store) ==> store.warehouse != row.warehouse
    ensures Covered(coop, warehouses, inventory[r := row], store)
  {
    InsertLoads(coop, store.scope, inventory, r, row, store.warehouse);
  }

  lemma CommitKeeps(s: State, t: TxId, now: Time, n: State)
    requires Inv(s) && Next(s, Commit(t, now), n)
    ensures Inv(n)
  {
    hide OpenLoad, OneOpenRow, KeyFree, HasOpenRow, Covered, OwnRowsFit, WithinCapacity;
    var store := s.stores[t];
    var row := NewRow(store, now);
    assert KeyFree(s.inventory, store) && Covered(s.coop, s.warehouses, s.inventory, store);
    RowIsNew(s.inventory, store);
    CommitFits(s.coop, s.warehouses, s.inventory, store, now);
    CommitOneOpenRow(s.inventory, store.phase.row, row);
    forall u | u in n.stores ensures KeyFree(n.inventory, n.stores[u]) && Covered(n.coop, n.warehouses, n.inventory, n.stores[u]) {
      CommitKeyFree(s.inventory, store.phase.row, row, s.stores[u]);
      CommitCovers(s.coop, s.warehouses, s.inventory, store.phase.row, row, s.stores[u]);
    }
  }

  lemma RowIsNew(inventory: map<Id, InventoryRow>, store: StoreRun)
    requires KeyFree(inventory, store) && store.phase.Inserted?
    ensures store.phase.row !in inventory && !HasOpenRow(inventory, store.batch)
  {
  }

  lemma CheckOutOneOpenRow(inventory: map<Id, InventoryRow>, r: Id, now: Time)
    requires OneOpenRow(inventory) && r in inventory
    ensures OneOpenRow(inventory[r := inventory[r].(removedAt := Some(now))])
  {
    assert OpenRows(inventory[r := inventory[r].(removedAt := Some(now))]) <= OpenRows(inventory);
  }

  lemma CheckOutKeyFree(inventory: map<Id, InventoryRow>, r: Id, now: Time, store: StoreRun)
    requires KeyFree(inventory, store) && r in inventory
    ensures KeyFree(inventory[r := inventory[r].(removedAt := Some(now))], store)
  {
    assert OpenRows(inventory[r := inventory[r].(removedAt := Some(now))]) <= OpenRows(inventory);
  }

  lemma CheckOutCovers(coop: Id -> Id, warehouses: map<Id, Warehouse>, inventory: map<Id, InventoryRow>, r: Id, now: Time, store: StoreRun)
    requires Covered(coop, warehouses, inventory, store) && r in inventory
    ensures Covered(coop, warehouses, inventory[r := inventory[r].(removedAt := Some(now))], store)
  {
    CheckOutLoads(coop, store.scope, inventory, r, now, store.warehouse);
  }

  lemma CheckOutFits(coop: Id -> Id, warehouses: map<Id, Warehouse>, inventory: map<Id, InventoryRow>, r: Id, now: Time)
    requires OwnRowsFit(coop, warehouses, inventory) && r in inventory
    ensures OwnRowsFit(coop, warehouses, inventory[r := inventory[r].(removedAt := Some(now))])
    ensures WithinCapacity(warehouses, inventory) ==> WithinCapacity(warehouses, inventory[r := inventory[r].(removedAt := Some(now))])
  {
    hide OpenLoad, InView;
    WholeView(coop, inventory);
    WholeView(coop, inventory[r := inventory[r].(removedAt := Some(now))]);
    forall scope, w { CheckOutLoads(coop, scope, inventory, r, now, w); }
  }

  lemma CheckOutKeeps(s: State, r: Id, now: Time, n: State)
    requires Inv(s) && Next(s, CheckOut(r, now), n)
    ensures Inv(n)
  {
    hide OpenLoad, OneOpenRow, KeyFree, Covered, OwnRowsFit, WithinCapacity;
    CheckOutFits(s.coop, s.warehouses, s.inventory, r, now);
    CheckOutOneOpenRow(s.inventory, r, now);
    forall t | t in n.stores ensures KeyFree(n.inventory, n.stores[t]) && Covered(n.coop, n.warehouses, n.inventory, n.stores[t]) {
      CheckOutKeyFree(s.inventory, r, now, s.stores[t]);
      CheckOutCovers(s.coop, s.warehouses, s.inventory, r, now, s.stores[t]);
    }
  }

  lemma LockKeeps(s: State, t: TxId, n: State)
    requires Inv(s) && Next(s, Lock(t), n)
    ensures Inv(n)
  {
    hide OpenLoad, OneOpenRow, HasOpenRow, WithinCapacity, OwnRowsFit, InView;
  }

  lemma ReadKeeps(s: State, a: Action, n: State)
    requires Inv(s) && (a.CheckOpenRow? || a.Measure?) && Next(s, a, n)
    ensures Inv(n)
  {
    hide OpenLoad, OneOpenRow, HasOpenRow, WithinCapacity, OwnRowsFit, InView;
  }

  lemma InsertKeeps(s: State, t: TxId, r: Id, n: State)
    requires Inv(s) && Next(s, InsertRow(t, r), n)
    ensures Inv(n)
  {
    hide OpenLoad, OneOpenRow, HasOpenRow, WithinCapacity, OwnRowsFit, InView;
  }

  lemma StepKeeps(s: State, a: Action, n: State)
    requires Inv(s) && Next(s, a, n)
    ensures Inv(n) && n.warehouses == s.warehouses && n.coop == s.coop
  {
    hide OpenLoad, OneOpenRow, HasOpenRow, WithinCapacity, OwnRowsFit, InView;
    match a
    case Begin(_, _, _, _, _) =>
    case Lock(t) => LockKeeps(s, t, n); hide Inv;
    case CheckOpenRow(_) => ReadKeeps(s, a, n); hide Inv;
    case Measure(_) => ReadKeeps(s, a, n); hide Inv;
    case InsertRow(t, r) => InsertKeeps(s, t, r, n); hide Inv;
    case Commit(t, now) => CommitKeeps(s, t, now, n); hide Inv;
    case CheckOut(r, now) => CheckOutKeeps(s, r, now, n); hide Inv;
    case Rollback(_) =>
  }

  lemma StartsWell(s: State)
    requires Starts(s)
    ensures Inv(s)
  {
    forall w | w in s.warehouses {
      LoadInView(InView(s.coop, Some(s.warehouses[w].coop), s.inventory), s.inventory, w);
    }
  }

  // Whatever the interleaving, no batch is on two shelves, the stock of a warehouse's own
  // cooperative fits, and as long as every session sees all rows the whole stock does.
  lemma {:induction false} RunKeeps(run: seq<State>, i: nat)
    requires IsRun(run) && i < |run|
    ensures Inv(run[i])
    ensures OneOpenRow(run[i].inventory) && OwnRowsFit(run[i].coop, run[i].warehouses, run[i].inventory)
    ensures !run[i].scoped ==> WithinCapacity(run[i].warehouses, run[i].inventory)
  {
    hide Next, Inv;
    if i == 0 {
      StartsWell(run[0]);
    } else {
      RunKeeps(run, i - 1);
      assert Steps(run[i - 1], run[i]);
      var a :| Next(run[i - 1], a, run[i]);
      StepKeeps(run[i - 1], a, run[i]);
    }
    InvSays(run[i]);
  }

  lemma InvSays(s: State)
    requires Inv(s)
    ensures OneOpenRow(s.inventory) && OwnRowsFit(s.coop, s.warehouses, s.inventory)
    ensures !s.scoped ==> WithinCapacity(s.warehouses, s.inventory)
  {
  }

  // With restricted views too, a warehouse holding nothing of another cooperative's is not overfull.
  lemma UnmixedShelvesFit(run: seq<State>, i: nat, w: Id)
    requires IsRun(run) && i < |run| && w in run[i].warehouses && run[i].warehouses[w].capacity.Some?
    requires AllInView(InView(run[i].coop, Some(run[i].warehouses[w].coop), run[i].inventory), run[i].inventory, w)
    ensures OpenLoad(run[i].inventory, w) <= run[i].warehouses[w].capacity.value
  {
    hide OpenLoad, IsRun, AllInView, Inv;
    RunKeeps(run, i);
    LoadInView(InView(run[i].coop, Some(run[i].warehouses[w].coop), run[i].inventory), run[i].inventory, w);
  }

  // A store that commits would also have been accepted had its checks been made at that very
  // moment: the route's checks, though made earlier, amount to one atomic step at the commit.
  lemma CommitIsAtomic(run: seq<State>, i: nat, t: TxId, now: Time, n: State)
    requires IsRun(run) && i < |run| && Next(run[i], Commit(t, now), n)
    ensures var s, store := run[i], run[i].stores[t];
      && !HasOpenRow(s.inventory, store.batch)
      && store.warehouse in s.warehouses
      && Fits(s.warehouses[store.warehouse].capacity, OpenLoad(InView(s.coop, store.scope, s.inventory), store.warehouse), store.weight)
      && n.inventory == s.inventory[store.phase.row := NewRow(store, now)]
  {
    hide OpenLoad, HasOpenRow, IsRun;
    RunKeeps(run, i);
    assert KeyFree(run[i].inventory, run[i].stores[t]);
  }

  // ---------------------------------------------------------------------------
  // What the steps do
  // ---------------------------------------------------------------------------

  // A check-out stamps its row, takes it off its shelf and its weight off the load, and nothing else.
  lemma CheckOutCloses(s: State, r: Id, now: Time, n: State, w: Id)
    requires Next(s, CheckOut(r, now), n)
    ensures n == s.(inventory := n.inventory) && n.inventory.Keys == s.inventory.Keys
    ensures n.inventory[r] == s.inventory[r].(removedAt := Some(now))
    ensures forall q :: q in s.inventory && q != r ==> n.inventory[q] == s.inventory[q]
    ensures OpenRows(n.inventory) == OpenRows(s.inventory) - {r}
    ensures OpenLoad(n.inventory, w) + (if r in OpenRows(s.inventory) && s.inventory[r].warehouse == w then s.inventory[r].weight else 0)
         == OpenLoad(s.inventory, w)
  {
    CustodyEffects.ClosedRow(s.inventory, r, now, w);
  }

  // A rolled-back store leaves no row and gives up its lock.
  lemma RollbackLeavesNothing(s: State, t: TxId, n: State)
    requires Inv(s) && Next(s, Rollback(t), n)
    ensures n.inventory == s.inventory && n.warehouses == s.warehouses && n.stores == s.stores - {t}
    ensures HasLock(s.stores[t]) ==> !HoldsLock(n.stores, s.stores[t].warehouse)
  {
    hide OneKey, OneOpenRow, OwnRowsFit, WithinCapacity, Covered, KeyFree;
    if HasLock(s.stores[t]) {
      forall u | u in n.stores && HasLock(n.stores[u]) ensures n.stores[u].warehouse != s.stores[t].warehouse {
        assert u != t && !SameLock(s.stores[u], s.stores[t]);
      }
    }
  }

  // The state with one store at the given phase and everything else as it was.
  function During(s: State, t: TxId, store: StoreRun): State {
    s.(stores := s.stores[t := store], scoped := s.scoped || store.scope.Some?)
  }

  lemma ThenBegins(s: State, t: TxId, store: StoreRun)
    requires t !in s.stores && MayStore(s.coop, s.warehouses, store.warehouse, store.batch, store.scope) && store.phase == Waiting
    ensures Steps(s, During(s, t, store))
  {
    assert Next(s, Begin(t, store.warehouse, store.batch, store.weight, store.scope), During(s, t, store));
  }

  lemma ThenLocks(s: State, t: TxId, store: StoreRun)
    requires store.phase == Waiting && !HoldsLock(s.stores, store.warehouse)
    ensures Steps(During(s, t, store), During(s, t, store.(phase := Holding)))
  {
    LockIsFree(s.stores, t, store, store.warehouse);
    assert s.stores[t := store][t := store.(phase := Holding)] == s.stores[t := store.(phase := Holding)];
    assert Next(During(s, t, store), Lock(t), During(s, t, store.(phase := Holding)));
  }

  lemma ThenChecks(s: State, t: TxId, store: StoreRun)
    requires store.phase == Holding && !HasOpenRow(s.inventory, store.batch)
    ensures Steps(During(s, t, store), During(s, t, store.(phase := Checked)))
  {
    NoRowInView(s.coop, store.scope, s.inventory, store.batch);
    assert s.stores[t := store][t := store.(phase := Checked)] == s.stores[t := store.(phase := Checked)];
    assert Next(During(s, t, store), CheckOpenRow(t), During(s, t, store.(phase := Checked)));
  }

  lemma ThenMeasures(s: State, t: TxId, store: StoreRun, load: nat)
    requires store.phase == Checked && store.warehouse in s.warehouses
    requires load == OpenLoad(InView(s.coop, store.scope, s.inventory), store.warehouse)
    requires Fits(s.warehouses[store.warehouse].capacity, load, store.weight)
    ensures Steps(During(s, t, store), During(s, t, store.(phase := Measured(load))))
  {
    hide OpenLoad;
    assert s.stores[t := store][t := store.(phase := Measured(load))] == s.stores[t := store.(phase := Measured(load))];
    assert Next(During(s, t, store), Measure(t), During(s, t, store.(phase := Measured(load))));
  }

  lemma ThenInserts(s: State, t: TxId, store: StoreRun, r: Id)
    requires store.phase.Measured? && !HasOpenRow(s.inventory, store.batch) && !KeyTaken(s.stores, store.batch)
    requires r !in s.inventory && forall u :: u in s.stores && s.stores[u].phase.Inserted? ==> s.stores[u].phase.row != r
    ensures Steps(During(s, t, store), During(s, t, store.(phase := Inserted(store.phase.load, r))))
  {
    hide HasOpenRow;
    var inserted := store.(phase := Inserted(store.phase.load, r));
    KeyIsFree(s.stores, t, store, store.batch);
    assert s.stores[t := store][t := inserted] == s.stores[t := inserted];
    assert Next(During(s, t, store), InsertRow(t, r), During(s, t, inserted));
  }

  lemma ThenCommits(s: State, t: TxId, store: StoreRun, now: Time)
    requires t !in s.stores && store.phase.Inserted?
    ensures Steps(During(s, t, store),
                  s.(inventory := s.inventory[store.phase.row := InventoryRow(store.warehouse, store.batch, store.weight, now, None)],
                     scoped := s.scoped || store.scope.Some?))
  {
    var done := s.(inventory := s.inventory[store.phase.row := InventoryRow(store.warehouse, store.batch, store.weight, now, None)],
                   scoped := s.scoped || store.scope.Some?);
    assert During(s, t, store).stores - {t} == s.stores;
    assert Next(During(s, t, store), Commit(t, now), done);
  }

  // A store that finds the lock free, the batch on no shelf and the space it needs gets through, and
  // adds the one row it asked for.
  lemma StoreGoesThrough(s: State, t: TxId, w: Id, b: Id, weight: nat, scope: Option<Id>, r: Id, now: Time)
    returns (steps: seq<State>)
    requires t !in s.stores && MayStore(s.coop, s.warehouses, w, b, scope) && !HoldsLock(s.stores, w)
    requires !HasOpenRow(s.inventory, b) && !KeyTaken(s.stores, b)
    requires Fits(s.warehouses[w].capacity, OpenLoad(InView(s.coop, scope, s.inventory), w), weight)
    requires r !in s.inventory && forall u :: u in s.stores && s.stores[u].phase.Inserted? ==> s.stores[u].phase.row != r
    ensures |steps| == 7 && steps[0] == s
    ensures forall i :: 0 < i < |steps| ==> Steps(steps[i - 1], steps[i])
    ensures steps[6] == s.(inventory := s.inventory[r := InventoryRow(w, b, weight, now, None)], scoped := s.scoped || scope.Some?)
  {
    hide OpenLoad, HasOpenRow, KeyTaken, HoldsLock, Steps, During, InView;
    var load := OpenLoad(InView(s.coop, scope, s.inventory), w);
    var store := StoreRun(w, b, weight, scope, Waiting);
    ThenBegins(s, t, store);
    ThenLocks(s, t, store);
    ThenChecks(s, t, store.(phase := Holding));
    ThenMeasures(s, t, store.(phase := Checked), load);
    ThenInserts(s, t, store.(phase := Measured(load)), r);
    ThenCommits(s, t, store.(phase := Inserted(load, r)), now);
    var done := s.(inventory := s.inventory[r := InventoryRow(w, b, weight, now, None)], scoped := s.scoped || scope.Some?);
    steps := [s, During(s, t, store), During(s, t, store.(phase := Holding)), During(s, t, store.(phase := Checked)),
              During(s, t, store.(phase := Measured(load))), During(s, t, store.(phase := Inserted(load, r))), done];
  }

  lemma LockIsFree(stores: map<TxId, StoreRun>, t: TxId, store: StoreRun, w: Id)
    requires !HoldsLock(stores, w) && store.phase == Waiting
    ensures !HoldsLock(stores[t := store], w)
  {
  }

  lemma KeyIsFree(stores: map<TxId, StoreRun>, t: TxId, store: StoreRun, b: Id)
    requires !KeyTaken(stores, b) && !store.phase.Inserted?
    ensures !KeyTaken(stores[t := store], b)
  {
  }

  lemma NoRowInView(coop: Id -> Id, scope: Option<Id>, inventory: map<Id, InventoryRow>, b: Id)
    requires !HasOpenRow(inventory, b)
    ensures !HasOpenRow(InView(coop, scope, inventory), b)
  {
    forall r | r in OpenRows(InView(coop, scope, inventory)) ensures InView(coop, scope, inventory)[r].batch != b {
      assert r in OpenRows(inventory);
    }
  }
}
