/**
 The chain is read back in the order of `submitted_at` alone.  When that order is the order in
 which the rows were chained, and when it is not.
 */
module LedgerOrder {
  import opened Common
  import opened LedgerHash
  import opened LedgerChain
  import Sorting

  ghost predicate Ascending(rows: seq<Row>) {
    forall i, j :: 0 <= i < j < |rows| ==> rows[i].submittedAt <= rows[j].submittedAt
  }

  ghost predicate StrictlyAscending(rows: seq<Row>) {
    forall i, j :: 0 <= i < j < |rows| ==> rows[i].submittedAt < rows[j].submittedAt
  }

  // `events` is an answer to the query for `rows` with the order of submission: ties may
  // come back either way round.
  ghost predicate Answers(rows: seq<Row>, events: seq<Row>) {
    multiset(events) == multiset(rows) && Ascending(events)
  }

  lemma {:induction false} OneAnswer(rows: seq<Row>, events: seq<Row>)
    requires StrictlyAscending(rows) && Answers(rows, events)
    ensures events == rows
    decreases |rows|
  {
    Sorting.SameCount(rows, events);
    if rows != [] {
      var n := |rows| - 1;
      hide StrictlyAscending, Answers;
      LatestIsLast(rows, events);
      WithoutLatest(rows, events);
      OneAnswer(rows[..n], events[..n]);
      assert rows == rows[..n] + [rows[n]] && events == events[..n] + [events[n]];
    }
  }

  lemma WithoutLatest(rows: seq<Row>, events: seq<Row>)
    requires rows != [] && StrictlyAscending(rows) && Answers(rows, events) && |events| == |rows|
    requires events[|rows| - 1] == rows[|rows| - 1]
    ensures StrictlyAscending(rows[..|rows| - 1]) && Answers(rows[..|rows| - 1], events[..|rows| - 1])
  {
    Sorting.WithoutLast(rows);
    Sorting.WithoutLast(events);
  }

  lemma LatestIsLast(rows: seq<Row>, events: seq<Row>)
    requires rows != [] && StrictlyAscending(rows) && Answers(rows, events) && |events| == |rows|
    ensures events[|rows| - 1] == rows[|rows| - 1]
  {
    var n := |rows| - 1;
    var r, e := rows[n], events[n];
    Sorting.SameMembers(rows, events);
    assert e in rows && r in events;
    var i :| 0 <= i < |rows| && rows[i] == e;
    var j :| 0 <= j < |events| && events[j] == r;
    assert forall k :: 0 <= k < n ==> rows[k].submittedAt < r.submittedAt;
    assert r.submittedAt <= e.submittedAt;
    assert i == n;
  }

  // Only the order of chaining verifies.
  lemma {:induction false} OneOrderVerifies(p: Platform, batch: string, rows: seq<Row>, events: seq<Row>, k: nat)
    requires p.Sound() && PipeFree(batch) && Verifies(p, batch, rows) && Verifies(p, batch, events)
    requires multiset(events) == multiset(rows) && !CollisionBetween(p, batch, rows, rows)
    requires k <= |rows| && |events| == |rows|
    ensures events[..k] == rows[..k]
    decreases k
  {
    if k > 0 {
      var i := k - 1;
      OneOrderVerifies(p, batch, rows, events, i);
      assert events[i] in multiset(events);
      assert events[i] in rows;
      var m :| 0 <= m < |rows| && rows[m] == events[i];
      assert GoodAt(p, batch, events, i) && GoodAt(p, batch, rows, i);
      if m < i { ChainIsLinear(p, batch, rows, m, i); }
      if i < m { ChainIsLinear(p, batch, rows, i, m); }
      assert events[..k] == events[..i] + [events[i]] && rows[..k] == rows[..i] + [rows[i]];
    }
  }

  lemma SwapTie(rows: seq<Row>, i: nat, j: nat)
    requires i < j < |rows| && Ascending(rows) && rows[i].submittedAt == rows[j].submittedAt
    ensures Answers(rows, rows[i := rows[j]][j := rows[i]])
  {
    var swapped := rows[i := rows[j]][j := rows[i]];
    assert multiset(rows[i := rows[j]]) == multiset(rows) - multiset{rows[i]} + multiset{rows[j]};
    assert forall k :: 0 <= k < |rows| ==> swapped[k].submittedAt == rows[k].submittedAt;
  }

  // An intact chain verifies whatever the database answers exactly when its timestamps strictly
  // increase along the chain (short of a collision of SHA-256).
  lemma VerifiesInEveryOrder(p: Platform, batch: string, rows: seq<Row>)
    requires p.Sound() && PipeFree(batch) && Verifies(p, batch, rows)
    requires !CollisionBetween(p, batch, rows, rows)
    ensures (forall events :: Answers(rows, events) ==> Verifies(p, batch, events)) <==> StrictlyAscending(rows)
  {
    if StrictlyAscending(rows) {
      forall events | Answers(rows, events) ensures Verifies(p, batch, events) {
        OneAnswer(rows, events);
      }
    } else {
      var events := OtherAnswer(p, batch, rows);
      if Verifies(p, batch, events) {
        Sorting.SameCount(rows, events);
        assert events[..|rows|] == events && rows[..|rows|] == rows;
        OneOrderVerifies(p, batch, rows, events, |rows|);
      }
    }
  }

  lemma OtherAnswer(p: Platform, batch: string, rows: seq<Row>) returns (events: seq<Row>)
    requires p.Sound() && PipeFree(batch) && Verifies(p, batch, rows)
    requires !CollisionBetween(p, batch, rows, rows) && !StrictlyAscending(rows)
    ensures Answers(rows, events) && events != rows
  {
    if Ascending(rows) {
      var i, j :| 0 <= i < j < |rows| && !(rows[i].submittedAt < rows[j].submittedAt);
      events := rows[i := rows[j]][j := rows[i]];
      SwapTie(rows, i, j);
      ChainIsLinear(p, batch, rows, i, j);
      assert events[j] == rows[i] != rows[j];
    } else {
      var byTime := (r: Row) => r.submittedAt;
      events := Sorting.SortBy(rows, byTime);
      Sorting.SortSorts(rows, byTime);
      assert Ascending(events) by {
        forall i, j | 0 <= i < j < |events| ensures events[i].submittedAt <= events[j].submittedAt {
          assert byTime(events[i]) <= byTime(events[j]);
        }
      }
    }
  }

  // ---------------------------------------------------------------------------
  // Chaining the rows that were there before
  // ---------------------------------------------------------------------------

  // The rows of one batch, in table order.
  function RowsOf(table: seq<Row>, batch: string): seq<Row> {
    if table == [] then []
    else
      var last := table[|table| - 1];
      RowsOf(table[..|table| - 1], batch) + if last.batch == batch then [last] else []
  }

  lemma RowsOfAppend(table: seq<Row>, r: Row, batch: string)
    ensures RowsOf(table + [r], batch) == RowsOf(table, batch) + if r.batch == batch then [r] else []
  {
    assert (table + [r])[..|table + [r]| - 1] == table;
  }

  lemma VerifiesAppend(p: Platform, batch: string, rows: seq<Row>, r: Row)
    requires Verifies(p, batch, rows) && r.previous == LastHash(rows) && r.blockHash == Rehash(p, batch, r)
    ensures Verifies(p, batch, rows + [r])
  {
    UntouchedBefore(p, batch, rows, rows + [r], |rows|);
    assert (rows + [r])[..|rows|] == rows;
    assert GoodAt(p, batch, rows + [r], |rows|);
  }

  // ORDER BY batch_id: the rows of a batch are next to each other.
  ghost predicate Grouped(rows: seq<Row>) {
    forall i, j, k :: 0 <= i < j < k < |rows| && rows[i].batch == rows[k].batch ==> rows[j].batch == rows[i].batch
  }

  predicate UpToChain(r: Row, q: Row) {
    r.(previous := None, blockHash := "") == q.(previous := None, blockHash := "")
  }

  lemma {:induction false} NoneOf(table: seq<Row>, batch: string)
    requires forall k :: 0 <= k < |table| ==> table[k].batch != batch
    ensures RowsOf(table, batch) == []
    decreases |table|
  {
    if table != [] { NoneOf(table[..|table| - 1], batch); }
  }

  // A batch met for the first time has no rows behind it.
  lemma FirstOfBatch(rows: seq<Row>, table: seq<Row>, i: nat)
    requires Grouped(rows) && i == |table| < |rows| && (i > 0 ==> rows[i - 1].batch != rows[i].batch)
    requires forall k :: 0 <= k < i ==> UpToChain(rows[k], table[k])
    ensures RowsOf(table, rows[i].batch) == []
  {
    forall k | 0 <= k < i ensures table[k].batch != rows[i].batch {
      assert UpToChain(rows[k], table[k]);
    }
    NoneOf(table, rows[i].batch);
  }

  ghost predicate AllVerify(p: Platform, table: seq<Row>) {
    forall batch :: Verifies(p, batch, RowsOf(table, batch))
  }

  lemma ChainOneMore(p: Platform, table: seq<Row>, r: Row)
    requires AllVerify(p, table) && r.previous == LastHash(RowsOf(table, r.batch)) && r.blockHash == Rehash(p, r.batch, r)
    ensures AllVerify(p, table + [r]) && LastHash(RowsOf(table + [r], r.batch)) == Some(r.blockHash)
  {
    forall batch ensures Verifies(p, batch, RowsOf(table + [r], batch)) {
      RowsOfAppend(table, r, batch);
      if batch == r.batch {
        VerifiesAppend(p, batch, RowsOf(table, batch), r);
      } else {
        assert RowsOf(table + [r], batch) == RowsOf(table, batch);
      }
    }
    RowsOfAppend(table, r, r.batch);
  }

  // The migration's backfill: whatever the columns held, every batch's chain verifies afterwards
  // and nothing but the two chain columns changes.
  method Backfill(p: Platform, rows: seq<Row>) returns (table: seq<Row>)
    requires Grouped(rows)
    ensures |table| == |rows| && forall i :: 0 <= i < |rows| ==> UpToChain(rows[i], table[i])
    ensures forall batch :: Verifies(p, batch, RowsOf(table, batch))
  {
    hide Grouped, Verifies, RowsOf;
    table := [];
    var prev: Option<string> := None;
    var currentBatch: Option<string> := None;
    NothingToVerify(p);
    for i := 0 to |rows|
      invariant |table| == i && forall k :: 0 <= k < i ==> UpToChain(rows[k], table[k])
      invariant currentBatch == if i == 0 then None else Some(rows[i - 1].batch)
      invariant currentBatch.Some? ==> prev == LastHash(RowsOf(table, currentBatch.value))
      invariant AllVerify(p, table)
    {
      var rec := rows[i];
      if currentBatch != Some(rec.batch) {
        currentBatch := Some(rec.batch);
        prev := None;
        FirstOfBatch(rows, table, i);
      }
      var computed := ComputeBlockHash(p, prev, rec.payloadHash, rec.event, rec.batch, rec.submittedAt);
      var chained := rec.(previous := prev, blockHash := computed);
      ChainOneMore(p, table, chained);
      table := table + [chained];
      prev := Some(computed);
    }
  }

  lemma NothingToVerify(p: Platform)
    ensures AllVerify(p, [])
  {
    forall batch ensures Verifies(p, batch, RowsOf([], batch)) {
      assert RowsOf([], batch) == [];
    }
  }
}
