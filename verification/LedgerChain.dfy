/**
 The per-batch hash chain: what verifyChain checks, what the last hash commits to, where tampering
 shows, and the migration that chained the rows written before.
 */
module LedgerChain {
  import opened Common
  import opened LedgerHash

  datatype TxStatus = Pending | Confirmed | Failed

  datatype Row = Row(
    id: nat,
    batch: string,
    event: EventType,
    payload: string,
    payloadHash: string,
    previous: Option<string>,
    blockHash: string,
    submittedAt: nat,
    status: TxStatus,
    txHash: Option<string>,
    confirmedAt: Option<nat>,
    errorMessage: Option<string>)

  function PreimageOf(p: Platform, batch: string, r: Row): string {
    Preimage(p, r.previous, r.payloadHash, r.event, batch, r.submittedAt)
  }

  function Rehash(p: Platform, batch: string, r: Row): string {
    ComputeBlockHash(p, r.previous, r.payloadHash, r.event, batch, r.submittedAt)
  }

  // The hash a row is expected to name as its predecessor.
  function LastHash(rows: seq<Row>): Option<string> {
    if rows == [] then None else Some(rows[|rows| - 1].blockHash)
  }

  predicate GoodAt(p: Platform, batch: string, rows: seq<Row>, i: nat)
    requires i < |rows|
  {
    rows[i].previous == LastHash(rows[..i]) && rows[i].blockHash == Rehash(p, batch, rows[i])
  }

  predicate Verifies(p: Platform, batch: string, rows: seq<Row>) {
    forall i :: 0 <= i < |rows| ==> GoodAt(p, batch, rows, i)
  }

  // Row i is the first bad one.
  ghost predicate BreaksAt(p: Platform, batch: string, rows: seq<Row>, i: nat) {
    i < |rows| && !GoodAt(p, batch, rows, i) && forall j :: 0 <= j < i ==> GoodAt(p, batch, rows, j)
  }

  datatype Verdict = Valid | BrokenAt(id: nat)

  method VerifyChain(p: Platform, batch: string, events: seq<Row>) returns (verdict: Verdict)
    ensures verdict.Valid? <==> Verifies(p, batch, events)
    ensures verdict.BrokenAt? ==> exists i: nat :: BreaksAt(p, batch, events, i) && events[i].id == verdict.id
  {
    var expectedPreviousHash: Option<string> := None;
    for i := 0 to |events|
      invariant forall j :: 0 <= j < i ==> GoodAt(p, batch, events, j)
      invariant expectedPreviousHash == LastHash(events[..i])
    {
      var event := events[i];
      if event.previous != expectedPreviousHash {
        assert BreaksAt(p, batch, events, i);
        return BrokenAt(event.id);
      }
      var recomputed := ComputeBlockHash(p, event.previous, event.payloadHash, event.event, batch, event.submittedAt);
      if recomputed != event.blockHash {
        assert BreaksAt(p, batch, events, i);
        return BrokenAt(event.id);
      }
      expectedPreviousHash := Some(event.blockHash);
    }
    return Valid;
  }

  // ---------------------------------------------------------------------------
  // The tail commits to the history
  // ---------------------------------------------------------------------------

  predicate SameHashed(r: Row, q: Row) {
    && r.previous == q.previous && r.payloadHash == q.payloadHash
    && r.event == q.event && r.submittedAt == q.submittedAt && r.blockHash == q.blockHash
  }

  ghost predicate SameHistory(a: seq<Row>, b: seq<Row>) {
    |a| == |b| && forall i :: 0 <= i < |a| ==> SameHashed(a[i], b[i])
  }

  // A collision of SHA-256 between a row of one list and a row of the other.
  ghost predicate CollisionBetween(p: Platform, batch: string, a: seq<Row>, b: seq<Row>) {
    exists i, j :: 0 <= i < |a| && 0 <= j < |b| && Collision(p, PreimageOf(p, batch, a[i]), PreimageOf(p, batch, b[j]))
  }

  lemma PrefixVerifies(p: Platform, batch: string, rows: seq<Row>, k: nat)
    requires Verifies(p, batch, rows) && k <= |rows|
    ensures Verifies(p, batch, rows[..k])
  {
    forall i | 0 <= i < k ensures GoodAt(p, batch, rows[..k], i) {
      assert rows[..k][..i] == rows[..i];
      assert GoodAt(p, batch, rows, i);
    }
  }

  lemma LinksAreHex(p: Platform, batch: string, rows: seq<Row>, i: nat)
    requires p.Sound() && Verifies(p, batch, rows) && i < |rows|
    ensures HexLink(rows[i].previous)
  {
    assert GoodAt(p, batch, rows, i);
    if i > 0 { assert GoodAt(p, batch, rows, i - 1); }
  }

  lemma CollisionInPrefix(p: Platform, batch: string, a: seq<Row>, b: seq<Row>, m: nat, n: nat)
    requires m <= |a| && n <= |b| && CollisionBetween(p, batch, a[..m], b[..n])
    ensures CollisionBetween(p, batch, a, b)
  {
    var i, j :| 0 <= i < m && 0 <= j < n && Collision(p, PreimageOf(p, batch, a[..m][i]), PreimageOf(p, batch, b[..n][j]));
    assert a[..m][i] == a[i] && b[..n][j] == b[j];
  }

  // Two lists that verify for the same batch and end in the same hash are the same history in
  // every hashed column, or exhibit a collision of SHA-256.
  lemma {:induction false} TailCommits(p: Platform, batch: string, a: seq<Row>, b: seq<Row>)
    requires p.Sound() && PipeFree(batch) && Verifies(p, batch, a) && Verifies(p, batch, b)
    requires LastHash(a) == LastHash(b)
    ensures SameHistory(a, b) || CollisionBetween(p, batch, a, b)
    decreases |a|
  {
    if a != [] {
      var i, j := |a| - 1, |b| - 1;
      var r, q := a[i], b[j];
      assert GoodAt(p, batch, a, i) && GoodAt(p, batch, b, j);
      if PreimageOf(p, batch, r) != PreimageOf(p, batch, q) {
        assert Collision(p, PreimageOf(p, batch, r), PreimageOf(p, batch, q));
      } else {
        LinksAreHex(p, batch, a, i);
        LinksAreHex(p, batch, b, j);
        PreimageInjective(p, r.previous, r.payloadHash, r.event, batch, r.submittedAt,
                          q.previous, q.payloadHash, q.event, batch, q.submittedAt);
        PrefixVerifies(p, batch, a, i);
        PrefixVerifies(p, batch, b, j);
        TailCommits(p, batch, a[..i], b[..j]);
        if CollisionBetween(p, batch, a[..i], b[..j]) {
          CollisionInPrefix(p, batch, a, b, i, j);
        } else {
          forall k | 0 <= k < |a| ensures SameHashed(a[k], b[k]) {
            if k < i { assert a[..i][k] == a[k] && b[..j][k] == b[k]; }
          }
        }
      }
    }
  }

  // Hence no two rows of a chain have the same hash, and no two name the same predecessor.
  lemma ChainIsLinear(p: Platform, batch: string, rows: seq<Row>, i: nat, j: nat)
    requires p.Sound() && PipeFree(batch) && Verifies(p, batch, rows) && i < j < |rows|
    requires !CollisionBetween(p, batch, rows, rows)
    ensures rows[i].blockHash != rows[j].blockHash
    ensures rows[i].previous != rows[j].previous
  {
    HashesDiffer(p, batch, rows, i, j);
    assert GoodAt(p, batch, rows, i) && GoodAt(p, batch, rows, j);
    if i > 0 { HashesDiffer(p, batch, rows, i - 1, j - 1); }
  }

  lemma HashesDiffer(p: Platform, batch: string, rows: seq<Row>, i: nat, j: nat)
    requires p.Sound() && PipeFree(batch) && Verifies(p, batch, rows) && i < j < |rows|
    ensures rows[i].blockHash == rows[j].blockHash ==> CollisionBetween(p, batch, rows, rows)
  {
    if rows[i].blockHash == rows[j].blockHash {
      PrefixVerifies(p, batch, rows, i + 1);
      PrefixVerifies(p, batch, rows, j + 1);
      TailCommits(p, batch, rows[..i + 1], rows[..j + 1]);
      CollisionInPrefix(p, batch, rows, rows, i + 1, j + 1);
    }
  }

  // ---------------------------------------------------------------------------
  // Where tampering shows
  // ---------------------------------------------------------------------------

  lemma UntouchedBefore(p: Platform, batch: string, rows: seq<Row>, after: seq<Row>, i: nat)
    requires Verifies(p, batch, rows) && i <= |rows| && i <= |after| && rows[..i] == after[..i]
    ensures forall j :: 0 <= j < i ==> GoodAt(p, batch, after, j)
  {
    forall j | 0 <= j < i ensures GoodAt(p, batch, after, j) {
      assert GoodAt(p, batch, rows, j);
      assert after[j] == after[..i][j] == rows[..i][j] == rows[j];
      assert after[..j] == after[..i][..j] == rows[..i][..j] == rows[..j];
    }
  }

  // Edit a hashed column of row i and leave its hash: the chain breaks at i.
  lemma EditBreaks(p: Platform, batch: string, rows: seq<Row>, i: nat, edited: Row)
    requires p.Sound() && PipeFree(batch) && Verifies(p, batch, rows) && i < |rows|
    requires !SameHashed(edited, rows[i]) && edited.blockHash == rows[i].blockHash
    ensures BreaksAt(p, batch, rows[i := edited], i)
         || Collision(p, PreimageOf(p, batch, edited), PreimageOf(p, batch, rows[i]))
  {
    var after := rows[i := edited];
    assert after[..i] == rows[..i];
    UntouchedBefore(p, batch, rows, after, i);
    assert GoodAt(p, batch, rows, i);
    LinksAreHex(p, batch, rows, i);
    if edited.previous == rows[i].previous && PreimageOf(p, batch, edited) == PreimageOf(p, batch, rows[i]) {
      PreimageInjective(p, edited.previous, edited.payloadHash, edited.event, batch, edited.submittedAt,
                        rows[i].previous, rows[i].payloadHash, rows[i].event, batch, rows[i].submittedAt);
    }
  }

  // Edit it and recompute its hash: the chain breaks at the next row, if there is one.
  lemma RehashBreaksNext(p: Platform, batch: string, rows: seq<Row>, i: nat, edited: Row)
    requires p.Sound() && PipeFree(batch) && Verifies(p, batch, rows) && i < |rows|
    requires edited.previous == rows[i].previous && edited.blockHash == Rehash(p, batch, edited)
    requires (edited.payloadHash, edited.event, edited.submittedAt) != (rows[i].payloadHash, rows[i].event, rows[i].submittedAt)
    ensures if i + 1 < |rows|
      then BreaksAt(p, batch, rows[i := edited], i + 1)
        || Collision(p, PreimageOf(p, batch, edited), PreimageOf(p, batch, rows[i]))
      else Verifies(p, batch, rows[i := edited])
  {
    var after := rows[i := edited];
    assert after[..i] == rows[..i];
    UntouchedBefore(p, batch, rows, after, i);
    assert GoodAt(p, batch, rows, i) && GoodAt(p, batch, after, i);
    if i + 1 < |rows| {
      LinksAreHex(p, batch, rows, i);
      assert GoodAt(p, batch, rows, i + 1);
      if PreimageOf(p, batch, edited) == PreimageOf(p, batch, rows[i]) {
        PreimageInjective(p, edited.previous, edited.payloadHash, edited.event, batch, edited.submittedAt,
                          rows[i].previous, rows[i].payloadHash, rows[i].event, batch, rows[i].submittedAt);
      }
    }
  }

  // Remove a row that is not the last: the chain breaks at its successor.
  lemma RemovalBreaks(p: Platform, batch: string, rows: seq<Row>, i: nat)
    requires p.Sound() && PipeFree(batch) && Verifies(p, batch, rows) && i + 1 < |rows|
    ensures BreaksAt(p, batch, rows[..i] + rows[i + 1..], i) || CollisionBetween(p, batch, rows, rows)
  {
    var after := rows[..i] + rows[i + 1..];
    assert after[..i] == rows[..i] && after[i] == rows[i + 1];
    UntouchedBefore(p, batch, rows, after, i);
    assert GoodAt(p, batch, rows, i + 1);
    if i > 0 { HashesDiffer(p, batch, rows, i - 1, i); }
  }

  // Removing a tail goes unnoticed, and so does editing a column outside the hash, the payload
  // itself included: verifyChain trusts `payloadHash`.
  lemma Unnoticed(p: Platform, batch: string, rows: seq<Row>, i: nat, edited: Row)
    requires Verifies(p, batch, rows) && i < |rows| && SameHashed(edited, rows[i])
    ensures Verifies(p, batch, rows[..i])
    ensures Verifies(p, batch, rows[i := edited])
  {
    PrefixVerifies(p, batch, rows, i);
    var after := rows[i := edited];
    forall j | 0 <= j < |after| ensures GoodAt(p, batch, after, j) {
      assert GoodAt(p, batch, rows, j);
      assert LastHash(after[..j]) == LastHash(rows[..j]);
    }
  }
}
