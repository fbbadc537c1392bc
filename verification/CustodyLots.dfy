/**
 Confirming the sale of a lot: when it goes through, and what it leaves behind.
 */
module CustodyLots {
  import opened Common
  import opened Seqs
  import opened CustodyModel
  import opened CustodyInvariant
  import opened CustodyKeeps

  predicate Confirmable(db: DB, t: Id) {
    && t in db.transfers
    && db.transfers[t].status == Pending
    && Live(db, db.transfers[t].batch)
    && db.batches[db.transfers[t].batch].status in {InStorage, InTransit, Sold}
  }

  function BatchesOf(db: DB, ts: set<Id>): set<Id> {
    set t | t in ts && t in db.transfers :: db.transfers[t].batch
  }

  // Those of them that move to SOLD now, rather than being SOLD already.
  function Leaving(db: DB, ts: set<Id>): set<Id> {
    set b | b in BatchesOf(db, ts) && b in db.batches && db.batches[b].status != Sold
  }

  // The whole lot confirmed at once.
  function ConfirmAll(db: DB, ts: set<Id>, now: Time): DB {
    var sold := BatchesOf(db, ts);
    db.(transfers := map t | t in db.transfers ::
                       if t in ts then db.transfers[t].(status := Confirmed, transferredAt := now) else db.transfers[t],
        batches := map b | b in db.batches :: if b in sold then db.batches[b].(status := Sold) else db.batches[b],
        inventory := CloseRows(db.inventory, Leaving(db, ts), now))
  }

  lemma CloseInTurn(inventory: map<Id, InventoryRow>, front: set<Id>, more: set<Id>, now: Time)
    ensures CloseRows(CloseRows(inventory, front, now), more, now) == CloseRows(inventory, front + more, now)
  {
  }

  lemma OneMore(db: DB, front: set<Id>, t: Id, now: Time)
    requires t !in front && Confirmable(db, t)
    ensures ConfirmTx(ConfirmAll(db, front, now), t, now) == Ok(ConfirmAll(db, front + {t}, now))
  {
    var d, n := ConfirmAll(db, front, now), ConfirmAll(db, front + {t}, now);
    var b := db.transfers[t].batch;
    var stamped := d.(transfers := d.transfers[t := d.transfers[t].(status := Confirmed, transferredAt := now)]);
    assert BatchesOf(db, front + {t}) == BatchesOf(db, front) + {b};
    assert stamped.transfers == n.transfers;
    if d.batches[b].status == Sold {
      assert Leaving(db, front + {t}) == Leaving(db, front);
      assert d.batches == n.batches;
    } else {
      assert Leaving(db, front + {t}) == Leaving(db, front) + {b};
      CloseInTurn(db.inventory, Leaving(db, front), {b}, now);
      var sold := SetStatus(stamped, b, Sold, now);
      assert sold.batches == n.batches;
      hide CloseRows, BatchesOf, Leaving;
      assert sold.inventory == n.inventory;
      assert Sold in Allowed(d.batches[b].status);
      assert Transition(stamped, b, Sold, now) == Ok(sold);
    }
  }

  lemma OneTooMany(db: DB, front: set<Id>, t: Id, now: Time)
    requires t !in front && !Confirmable(db, t) && forall u :: u in front ==> Confirmable(db, u)
    ensures ConfirmTx(ConfirmAll(db, front, now), t, now).Err?
  {
  }

  lemma NothingConfirmed(db: DB, now: Time)
    ensures ConfirmAll(db, {}, now) == db
  {
  }

  // One transfer after the other, or all at once: the loop succeeds exactly when every transfer
  // was confirmable to begin with, and then equals the closed form.
  lemma {:induction false} ConfirmEachExact(db: DB, ts: seq<Id>, now: Time)
    requires NoDuplicates(ts)
    ensures ConfirmEach(db, ts, now).Ok? <==> forall t :: t in ts ==> Confirmable(db, t)
    ensures ConfirmEach(db, ts, now).Ok? ==> ConfirmEach(db, ts, now).value == ConfirmAll(db, Elements(ts), now)
    decreases |ts|
  {
    hide Confirmable, ConfirmTx, ConfirmAll;
    if ts == [] {
      assert Elements(ts) == {};
      NothingConfirmed(db, now);
    } else {
      var front, t := ts[..|ts| - 1], ts[|ts| - 1];
      assert ts == front + [t];
      NoDuplicatesSplit(ts);
      ConfirmEachExact(db, front, now);
      if forall u :: u in front ==> Confirmable(db, u) {
        if Confirmable(db, t) {
          OneMore(db, Elements(front), t, now);
        } else {
          OneTooMany(db, Elements(front), t, now);
        }
      }
    }
  }

  // The whole transaction: exact condition, exact new state.
  lemma ConfirmSaleExact(db: DB, lot: Id, ts: seq<Id>, now: Time)
    requires NoDuplicates(ts)
    ensures ConfirmSaleTx(db, lot, ts, now).Ok? <==> lot in db.lots && forall t :: t in ts ==> Confirmable(db, t)
    ensures ConfirmSaleTx(db, lot, ts, now).Ok? ==>
      ConfirmSaleTx(db, lot, ts, now).value
      == ConfirmAll(db, Elements(ts), now).(lots := db.lots[lot := db.lots[lot].(status := LotSold)])
  {
    ConfirmEachExact(db, ts, now);
  }

  lemma ConfirmEachSteps(db: DB, ts: seq<Id>, now: Time)
    requires NoDuplicates(ts) && ConfirmEach(db, ts, now).Ok?
    ensures StatusesStep(db.batches, ConfirmEach(db, ts, now).value.batches)
  {
    ConfirmEachExact(db, ts, now);
    var d := ConfirmEach(db, ts, now).value;
    forall b | b in d.batches ensures StatusStep(db.batches[b].status, d.batches[b].status) {
      if b in BatchesOf(db, Elements(ts)) {
        var t :| t in ts && t in db.transfers && db.transfers[t].batch == b;
        assert Confirmable(db, t);
      }
    }
  }

  lemma ConfirmSaleKeeps(db: DB, lot: Id, ts: seq<Id>, now: Time)
    requires Inv(db) && NoDuplicates(ts) && ConfirmSaleTx(db, lot, ts, now).Ok?
    ensures Kept(db, ConfirmSaleTx(db, lot, ts, now).value)
  {
    hide Shelves, WithinCapacity, WeightsConserved, EvidenceOfProcessing, EvidenceOfStorage, SoldAgrees;
    hide Grows, StatusesStep, ConfirmEach, NoDuplicates;
    var d := ConfirmEach(db, ts, now).value;
    var closed := d.lots[lot].(status := LotSold);
    ConfirmEachKeeps(db, ts, now);
    CreateLotKeeps(d, lot, closed);
    GrowsTransitive(db, d, d.(lots := d.lots[lot := closed]));
    ConfirmEachSteps(db, ts, now);
  }

  predicate IsSold(db: DB, b: Id) {
    b in db.batches && db.batches[b].status == Sold
  }

  // What a confirmed lot sale does, batch by batch: those with a confirmed transfer are SOLD and
  // off the shelves, everything else is untouched.
  ghost predicate SaleEffect(db: DB, n: DB, ts: set<Id>) {
    && n.transfers.Keys == db.transfers.Keys && n.batches.Keys == db.batches.Keys && n.inventory.Keys == db.inventory.Keys
    && (forall t :: t in db.transfers ==> if t in ts then n.transfers[t].status == Confirmed else n.transfers[t] == db.transfers[t])
    && (forall b :: b in db.batches ==> if b in BatchesOf(db, ts) then IsSold(n, b) else n.batches[b] == db.batches[b])
    && (forall b :: b in BatchesOf(db, ts) ==> !HasOpenRow(n.inventory, b))
    && (forall r :: r in db.inventory && db.inventory[r].batch !in BatchesOf(db, ts) ==> n.inventory[r] == db.inventory[r])
  }

  lemma SoldOffShelves(db: DB, bs: set<Id>)
    requires OpenRowsInStorage(db.batches, db.inventory) && forall b :: b in bs ==> IsSold(db, b)
    ensures forall b :: b in bs ==> !HasOpenRow(db.inventory, b)
  {
  }

  lemma ConfirmAllEffect(db: DB, ts: set<Id>, now: Time)
    requires TransfersRefer(db.batches, db.transfers) && (forall t :: t in ts ==> Confirmable(db, t))
    requires OpenRowsInStorage(ConfirmAll(db, ts, now).batches, ConfirmAll(db, ts, now).inventory)
    ensures SaleEffect(db, ConfirmAll(db, ts, now), ts)
  {
    hide HasOpenRow;
    SoldOffShelves(ConfirmAll(db, ts, now), BatchesOf(db, ts));
  }

  lemma LotsAside(db: DB, n: DB, ts: set<Id>, lots: map<Id, Lot>)
    requires SaleEffect(db, n, ts)
    ensures SaleEffect(db, n.(lots := lots), ts)
  {
  }

  lemma ConfirmSaleEffect(db: DB, lot: Id, ts: seq<Id>, now: Time)
    requires Inv(db) && NoDuplicates(ts) && ConfirmSaleTx(db, lot, ts, now).Ok?
    ensures SaleEffect(db, ConfirmSaleTx(db, lot, ts, now).value, Elements(ts))
  {
    hide WithinCapacity, WeightsConserved, EvidenceOfProcessing, EvidenceOfStorage, SoldAgrees;
    hide ConfirmAll, ConfirmEach, Confirmable, SaleEffect, OpenRowsInStorage, TransfersRefer;
    ConfirmEachExact(db, ts, now);
    ConfirmEachKeeps(db, ts, now);
    var d := ConfirmEach(db, ts, now).value;
    ConfirmAllEffect(db, Elements(ts), now);
    LotsAside(db, d, Elements(ts), d.lots[lot := d.lots[lot].(status := LotSold)]);
  }

  // Hence the lot's status tells the truth about its members exactly when every member not yet
  // SOLD had a transfer among those confirmed.
  lemma LotSoldMeansMembersSold(db: DB, lot: Id, ts: seq<Id>, now: Time)
    requires NoDuplicates(ts) && ConfirmSaleTx(db, lot, ts, now).Ok?
    ensures lot in db.lots
    ensures var n := ConfirmSaleTx(db, lot, ts, now).value;
      (forall b :: b in db.lots[lot].members ==> IsSold(n, b)) <==>
      (forall b :: b in db.lots[lot].members ==> IsSold(db, b) || b in BatchesOf(db, Elements(ts)))
  {
    ConfirmSaleExact(db, lot, ts, now);
  }
}
