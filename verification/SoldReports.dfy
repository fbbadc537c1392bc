/**
 The dashboard's two figures for coffee sold: the KPI, which counts each batch once, and the Sold
 series of the movement chart, summed over all months, which counts each confirmed transfer.
 */
module SoldReports {
  import opened Common
  import opened Sums
  import opened CustodyModel
  import opened CustodyInvariant
  import opened CustodySystem
  import opened CustodyWitness

  predicate Counted(db: DB, coop: Id, b: Id) {
    Live(db, b) && db.batches[b].coop == coop
  }

  // The KPI: batches with a confirmed transfer.
  function SoldBatches(db: DB, coop: Id): map<Id, nat> {
    map b | b in db.batches && Counted(db, coop, b) && b in ConfirmedBatches(db.transfers) :: db.batches[b].weight
  }

  ghost function SoldKpi(db: DB, coop: Id): nat {
    Sum(SoldBatches(db, coop))
  }

  // The chart: confirmed transfers, joined to their batches.
  function SoldTransfers(db: DB, coop: Id): map<Id, nat> {
    map t | t in db.transfers && db.transfers[t].status == Confirmed && Counted(db, coop, db.transfers[t].batch) ::
      db.batches[db.transfers[t].batch].weight
  }

  ghost function SoldChart(db: DB, coop: Id): nat {
    Sum(SoldTransfers(db, coop))
  }

  // The weight of a cooperative's live batches whose status says SOLD or EXPORTED.
  function SoldByStatus(batches: map<Id, Batch>, coop: Id): map<Id, nat> {
    map b | b in batches && !batches[b].deleted && batches[b].coop == coop && batches[b].status in {Sold, Exported} ::
      batches[b].weight
  }

  // In every reachable state the KPI is that weight.
  lemma KpiCountsSoldStatuses(run: seq<System>, i: nat, coop: Id)
    requires IsRun(run) && i < |run|
    ensures SoldKpi(run[i].db, coop) == Sum(SoldByStatus(run[i].db.batches, coop))
  {
    RunKeeps(run, i);
    assert SoldBatches(run[i].db, coop) == SoldByStatus(run[i].db.batches, coop);
  }

  // ---------------------------------------------------------------------------
  // Counting owners once against counting every item
  // ---------------------------------------------------------------------------

  function PerItem(owner: map<Id, Id>, weight: map<Id, nat>): map<Id, nat>
    requires owner.Values <= weight.Keys
  {
    map t | t in owner :: assert owner[t] in owner.Values; weight[owner[t]]
  }

  function PerOwner(owner: map<Id, Id>, weight: map<Id, nat>): map<Id, nat>
    requires owner.Values <= weight.Keys
  {
    map b | b in owner.Values :: weight[b]
  }

  // No owner of positive weight has two items.
  ghost predicate CountedOnce(owner: map<Id, Id>, weight: map<Id, nat>) {
    forall t, u :: t in owner && u in owner && t != u && owner[t] == owner[u] && owner[t] in weight ==> weight[owner[t]] == 0
  }

  lemma OwnersWithout(owner: map<Id, Id>, t: Id)
    requires t in owner
    ensures owner.Values == (owner - {t}).Values + {owner[t]}
  {
    forall b | b in owner.Values ensures b in (owner - {t}).Values + {owner[t]} {
      var u :| u in owner && owner[u] == b;
      if u != t { assert u in owner - {t} && (owner - {t})[u] == b; }
    }
  }

  lemma OnceWithout(owner: map<Id, Id>, weight: map<Id, nat>, t: Id)
    requires t in owner && owner[t] in weight
    ensures CountedOnce(owner, weight) <==>
      CountedOnce(owner - {t}, weight) && (owner[t] in (owner - {t}).Values ==> weight[owner[t]] == 0)
  {
    var rest := owner - {t};
    if CountedOnce(owner, weight) && owner[t] in rest.Values {
      var u :| u in rest && rest[u] == owner[t];
      assert u in owner && u != t && owner[u] == owner[t];
    }
    if CountedOnce(rest, weight) && (owner[t] in rest.Values ==> weight[owner[t]] == 0) {
      forall u, v | u in owner && v in owner && u != v && owner[u] == owner[v] && owner[u] in weight
        ensures weight[owner[u]] == 0
      {
        if u == t {
          assert v in rest && rest[v] == owner[t];
        } else if v == t {
          assert u in rest && rest[u] == owner[t];
        } else {
          assert u in rest && v in rest;
        }
      }
    }
  }

  lemma {:induction false} ItemsAgainstOwners(owner: map<Id, Id>, weight: map<Id, nat>)
    requires owner.Values <= weight.Keys
    ensures Sum(PerOwner(owner, weight)) <= Sum(PerItem(owner, weight))
    ensures Sum(PerOwner(owner, weight)) == Sum(PerItem(owner, weight)) <==> CountedOnce(owner, weight)
    decreases |owner|
  {
    if owner == map[] {
      assert PerOwner(owner, weight) == map[] == PerItem(owner, weight);
    } else {
      hide CountedOnce, PerItem, PerOwner;
      var t :| t in owner;
      var rest := owner - {t};
      OwnersWithout(owner, t);
      OnceWithout(owner, weight, t);
      ItemsAgainstOwners(rest, weight);
      SumsWithout(owner, weight, t);
    }
  }

  lemma SumsWithout(owner: map<Id, Id>, weight: map<Id, nat>, t: Id)
    requires owner.Values <= weight.Keys && t in owner && owner.Values == (owner - {t}).Values + {owner[t]}
    ensures Sum(PerItem(owner, weight)) == Sum(PerItem(owner - {t}, weight)) + weight[owner[t]]
    ensures Sum(PerOwner(owner, weight)) == Sum(PerOwner(owner - {t}, weight))
      + if owner[t] in (owner - {t}).Values then 0 else weight[owner[t]]
  {
    var rest, b := owner - {t}, owner[t];
    SumRemove(PerItem(owner, weight), t);
    assert PerItem(owner, weight) - {t} == PerItem(rest, weight);
    if b in rest.Values {
      assert PerOwner(owner, weight) == PerOwner(rest, weight);
    } else {
      assert PerOwner(owner, weight) == PerOwner(rest, weight)[b := weight[b]];
      SumInsert(PerOwner(rest, weight), b, weight[b]);
    }
  }

  // Two confirmed transfers on one live batch of the cooperative that weighs something.
  ghost predicate SoldTwice(db: DB, coop: Id) {
    exists t, u :: t in db.transfers && u in db.transfers && t != u && SoldTogether(db, coop, db.transfers[t], db.transfers[u])
  }

  predicate SoldTogether(db: DB, coop: Id, t: Transfer, u: Transfer) {
    && t.status == Confirmed && u.status == Confirmed && t.batch == u.batch
    && t.batch in db.batches && !db.batches[t.batch].deleted && db.batches[t.batch].coop == coop && db.batches[t.batch].weight > 0
  }

  function Owners(db: DB, coop: Id): map<Id, Id> {
    map t | t in SoldTransfers(db, coop) :: db.transfers[t].batch
  }

  function Weights(db: DB): map<Id, nat> {
    map b | b in db.batches :: db.batches[b].weight
  }

  lemma SoldOwners(db: DB, coop: Id)
    ensures Owners(db, coop).Values == SoldBatches(db, coop).Keys <= Weights(db).Keys
  {
    forall b | b in SoldBatches(db, coop) ensures b in Owners(db, coop).Values {
      var t :| t in db.transfers && db.transfers[t].status == Confirmed && db.transfers[t].batch == b;
      assert t in Owners(db, coop) && Owners(db, coop)[t] == b;
    }
  }

  lemma TwiceOrOnce(db: DB, coop: Id)
    ensures CountedOnce(Owners(db, coop), Weights(db)) <==> !SoldTwice(db, coop)
  {
    var owner, weight := Owners(db, coop), Weights(db);
    if SoldTwice(db, coop) {
      var t, u :| t in db.transfers && u in db.transfers && t != u && SoldTogether(db, coop, db.transfers[t], db.transfers[u]);
      assert t in owner && u in owner && owner[t] == owner[u] && weight[owner[t]] > 0;
    }
    if !CountedOnce(owner, weight) {
      var t, u :| t in owner && u in owner && t != u && owner[t] == owner[u] && owner[t] in weight && weight[owner[t]] != 0;
      assert SoldTogether(db, coop, db.transfers[t], db.transfers[u]);
    }
  }

  // The figures agree exactly when no batch was sold twice; the chart is never the smaller one.
  lemma KpiAgainstChart(db: DB, coop: Id)
    ensures SoldKpi(db, coop) <= SoldChart(db, coop)
    ensures SoldKpi(db, coop) == SoldChart(db, coop) <==> !SoldTwice(db, coop)
  {
    hide CountedOnce, SoldTwice;
    SoldOwners(db, coop);
    TwiceOrOnce(db, coop);
    assert PerItem(Owners(db, coop), Weights(db)) == SoldTransfers(db, coop);
    assert PerOwner(Owners(db, coop), Weights(db)) == SoldBatches(db, coop);
    ItemsAgainstOwners(Owners(db, coop), Weights(db));
  }

  // A second sale does happen: opening a transfer looks at no status, and confirming one on a SOLD
  // batch passes the status check as a step to where the batch already is.
  lemma SecondSaleGoesThrough(db: DB, who: Caller, b: Id, first: Id, x: Supply, y: Supply)
    requires Inv(db) && Live(db, b) && db.batches[b].status == Sold && Owns(who, db.batches[b].coop)
    requires first in db.transfers && db.transfers[first].batch == b && db.transfers[first].status == Confirmed
    requires Supplies(db, OpenTransferTask(b), x)
    ensures Begin(db, who, OpenTransfer(b)) == Ok(OpenTransferTask(b))
    ensures var pending := Finish(db, OpenTransferTask(b), x).value;
      && Begin(pending, who, ConfirmTransfer(x.id)) == Ok(ConfirmTransferTask(x.id))
      && var r := Finish(pending, ConfirmTransferTask(x.id), y);
         r.Ok? && (db.batches[b].weight > 0 ==> SoldTwice(r.value, db.batches[b].coop))
  {
    hide Inv, Transition;
    SecondOpens(db, b, x);
    SecondConfirms(db, b, x, y);
    hide Finish, SoldTwice;
    TwoConfirmed(db, b, first, x.id, y.now);
  }

  lemma SecondOpens(db: DB, b: Id, x: Supply)
    ensures Finish(db, OpenTransferTask(b), x) == Ok(db.(transfers := db.transfers[x.id := Transfer(b, Pending, x.now)]))
  {
    assert OpenTransfers(db, map[x.id := b], x.now).transfers == db.transfers[x.id := Transfer(b, Pending, x.now)];
  }

  lemma SecondConfirms(db: DB, b: Id, x: Supply, y: Supply)
    requires Live(db, b) && db.batches[b].status == Sold
    ensures Finish(db.(transfers := db.transfers[x.id := Transfer(b, Pending, x.now)]), ConfirmTransferTask(x.id), y)
         == Ok(db.(transfers := db.transfers[x.id := Transfer(b, Confirmed, y.now)]))
  {
    assert db.transfers[x.id := Transfer(b, Pending, x.now)][x.id := Transfer(b, Confirmed, y.now)]
        == db.transfers[x.id := Transfer(b, Confirmed, y.now)];
  }

  lemma TwoConfirmed(db: DB, b: Id, first: Id, second: Id, now: Time)
    requires Live(db, b) && first in db.transfers && second !in db.transfers
    requires db.transfers[first].batch == b && db.transfers[first].status == Confirmed
    ensures db.batches[b].weight > 0 ==>
      SoldTwice(db.(transfers := db.transfers[second := Transfer(b, Confirmed, now)]), db.batches[b].coop)
  {
    var n := db.(transfers := db.transfers[second := Transfer(b, Confirmed, now)]);
    assert db.batches[b].weight > 0 ==> SoldTogether(n, db.batches[b].coop, n.transfers[first], n.transfers[second]);
  }

  lemma FirstSale()
    ensures var db := HalfSoldLot(); var r := ConfirmTx(db, 1, 1);
      && r.Ok?
      && r.value.transfers == map[1 := Transfer(1, Confirmed, 1)]
      && 1 in r.value.batches && r.value.batches[1] == Batch(1, Sold, 10, false)
      && Begin(db, Clerk(1), ConfirmTransfer(1)) == Ok(ConfirmTransferTask(1))
  {
    hide CloseRows;
  }

  // And there is a run that leads there.
  lemma FiguresPart() returns (db: DB)
    ensures Reachable(Quiet(db, false)) && SoldKpi(db, 1) < SoldChart(db, 1)
  {
    hide Reachable, SoldKpi, SoldChart, SoldTwice, Inv, ConfirmTx;
    ReachHalfSoldLot();
    FirstSale();
    var sold := ConfirmTx(HalfSoldLot(), 1, 1).value;
    Serve(HalfSoldLot(), false, Clerk(1), ConfirmTransfer(1), ConfirmTransferTask(1), At(1, 0), sold);
    ReachableInv(Quiet(sold, false));
    SecondSaleGoesThrough(sold, Clerk(1), 1, 1, At(0, 2), At(1, 0));
    hide Begin, Finish;
    var pending := Finish(sold, OpenTransferTask(1), At(0, 2)).value;
    Serve(sold, false, Clerk(1), OpenTransfer(1), OpenTransferTask(1), At(0, 2), pending);
    db := Finish(pending, ConfirmTransferTask(2), At(1, 0)).value;
    Serve(pending, false, Clerk(1), ConfirmTransfer(2), ConfirmTransferTask(2), At(1, 0), db);
    KpiAgainstChart(db, 1);
  }
}
