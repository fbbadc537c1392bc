/**
 Any number of concurrent calls of recordBlockchainEvent, statement by statement, among attempts
 to rewrite the table: the advisory lock and the immutability trigger at work.
 */
module LedgerProtocol {
  import opened Common
  import opened LedgerHash
  import opened LedgerChain
  import opened LedgerOrder

  // Where one call stands.  `Inserted` is inside the transaction: the row is not visible yet.
  datatype Call =
    | Called(batch: string, event: EventType, payload: string)
    | Locked(batch: string, event: EventType, payload: string)
    | Read(batch: string, event: EventType, payload: string, previous: Option<string>)
    | Inserted(row: Row)
    | Committed(id: nat)
    | Done

  datatype Ledger = Ledger(table: seq<Row>, locks: map<int, nat>, calls: map<nat, Call>)

  const START: Ledger := Ledger([], map[], map[])

  // ---------------------------------------------------------------------------
  // The trigger
  // ---------------------------------------------------------------------------

  datatype Write = Delete | Update(row: Row)

  predicate SameLedgerColumns(r: Row, q: Row) {
    && r.batch == q.batch && r.event == q.event && r.payload == q.payload && r.payloadHash == q.payloadHash
    && r.previous == q.previous && r.blockHash == q.blockHash && r.submittedAt == q.submittedAt
  }

  // DELETE never; UPDATE only of a PENDING row, and not of a ledger column.
  predicate TriggerAllows(old_: Row, write: Write) {
    write.Update? && SameLedgerColumns(old_, write.row) && old_.status == Pending
  }

  function Attempt(table: seq<Row>, i: nat, write: Write): seq<Row>
    requires i < |table|
  {
    if TriggerAllows(table[i], write) then table[i := write.row] else table
  }

  // ---------------------------------------------------------------------------
  // The steps
  // ---------------------------------------------------------------------------

  datatype Outcome = Submitted(now: nat) | Refused(message: string)

  // tx_hash is derived from the block hash.
  function MockTxHash(blockHash: string): string {
    "mock_" + if |blockHash| <= 32 then blockHash else blockHash[..32]
  }

  function Settle(r: Row, outcome: Outcome): Row {
    match outcome
    case Submitted(now) => r.(status := Confirmed, txHash := Some(MockTxHash(r.blockHash)), confirmedAt := Some(now))
    case Refused(message) => r.(status := Failed, errorMessage := Some(message))
  }

  datatype Action =
    | Arrive(pid: nat, batch: string, event: EventType, payload: string)
    | TakeLock(pid: nat)
    | ReadLast(pid: nat, last: Option<nat>)  // the index of the row the query returns
    | Insert(pid: nat, id: nat, now: nat)
    | Commit(pid: nat)
    | Abort(pid: nat)
    | SettleRow(pid: nat, i: nat, outcome: Outcome)
    | Tamper(i: nat, write: Write)

  // findFirst with orderBy submittedAt desc: some row of the batch that no other row is newer than.
  ghost predicate Newest(table: seq<Row>, batch: string, last: Option<nat>) {
    match last
    case None => forall k :: 0 <= k < |table| ==> table[k].batch != batch
    case Some(m) =>
      && m < |table| && table[m].batch == batch
      && forall k :: 0 <= k < |table| && table[k].batch == batch ==> table[k].submittedAt <= table[m].submittedAt
  }

  function BatchOfCall(c: Call): Option<string> {
    match c
    case Locked(batch, _, _) => Some(batch)
    case Read(batch, _, _, _) => Some(batch)
    case Inserted(row) => Some(row.batch)
    case _ => None
  }

  function Release(p: Platform, locks: map<int, nat>, c: Call): map<int, nat> {
    if BatchOfCall(c).Some? then locks - {p.lockKey(BatchOfCall(c).value)} else locks
  }

  function NewRow(p: Platform, c: Call, id: nat, now: nat): Row
    requires c.Read?
  {
    var hash := p.sha(c.payload);
    Row(id, c.batch, c.event, c.payload, hash, c.previous, ComputeBlockHash(p, c.previous, hash, c.event, c.batch, now),
        now, Pending, None, None, None)
  }

  function HashAt(table: seq<Row>, last: Option<nat>): Option<string> {
    if last.Some? && last.value < |table| then Some(table[last.value].blockHash) else None
  }

  ghost predicate Next(p: Platform, s: Ledger, a: Action, n: Ledger) {
    match a
    case Arrive(pid, batch, event, payload) =>
      && pid !in s.calls
      && n == s.(calls := s.calls[pid := Called(batch, event, payload)])
    case TakeLock(pid) =>
      && pid in s.calls && s.calls[pid].Called?
      && p.lockKey(s.calls[pid].batch) !in s.locks
      && n == s.(locks := s.locks[p.lockKey(s.calls[pid].batch) := pid],
                 calls := s.calls[pid := Locked(s.calls[pid].batch, s.calls[pid].event, s.calls[pid].payload)])
    case ReadLast(pid, last) =>
      && pid in s.calls && s.calls[pid].Locked?
      && Newest(s.table, s.calls[pid].batch, last)
      && n == s.(calls := s.calls[pid :=
           Read(s.calls[pid].batch, s.calls[pid].event, s.calls[pid].payload, HashAt(s.table, last))])
    case Insert(pid, id, now) =>
      && pid in s.calls && s.calls[pid].Read?
      && n == s.(calls := s.calls[pid := Inserted(NewRow(p, s.calls[pid], id, now))])
    case Commit(pid) =>
      && pid in s.calls && s.calls[pid].Inserted?
      && n == Ledger(s.table + [s.calls[pid].row], Release(p, s.locks, s.calls[pid]),
                     s.calls[pid := Committed(s.calls[pid].row.id)])
    case Abort(pid) =>
      && pid in s.calls
      && n == s.(locks := Release(p, s.locks, s.calls[pid]), calls := s.calls[pid := Done])
    case SettleRow(pid, i, outcome) =>
      && pid in s.calls && s.calls[pid].Committed?
      && i < |s.table| && s.table[i].id == s.calls[pid].id
      && n == s.(table := Attempt(s.table, i, Update(Settle(s.table[i], outcome))), calls := s.calls[pid := Done])
    case Tamper(i, write) =>
      && i < |s.table|
      && n == s.(table := Attempt(s.table, i, write))
  }

  ghost predicate Steps(p: Platform, s: Ledger, n: Ledger) {
    exists a :: Next(p, s, a, n)
  }

  ghost predicate IsRun(p: Platform, run: seq<Ledger>) {
    && run != [] && run[0] == START
    && forall i :: 0 < i < |run| ==> Steps(p, run[i - 1], run[i])
  }

  // ---------------------------------------------------------------------------
  // The invariant
  // ---------------------------------------------------------------------------

  // A call in its transaction holds the lock of its batch: one at a time.
  ghost predicate LockHeld(p: Platform, locks: map<int, nat>, calls: map<nat, Call>, pid: nat) {
    pid in calls && BatchOfCall(calls[pid]).Some? ==>
      var key := p.lockKey(BatchOfCall(calls[pid]).value);
      key in locks && locks[key] == pid
  }

  ghost predicate LocksHeld(p: Platform, locks: map<int, nat>, calls: map<nat, Call>) {
    forall pid :: LockHeld(p, locks, calls, pid)
  }

  // The hash a query for the newest row may return: that of a row no other is newer than.
  ghost predicate NewestHash(rows: seq<Row>, hash: Option<string>) {
    if rows == [] then hash == None
    else exists m: nat :: m < |rows| && IsNewestAt(rows, m) && hash == Some(rows[m].blockHash)
  }

  ghost predicate IsNewestAt(rows: seq<Row>, m: nat)
    requires m < |rows|
  {
    forall k :: 0 <= k < |rows| ==> rows[k].submittedAt <= rows[m].submittedAt
  }

  // What it read, and the row it is about to add, still fit the batch's rows.
  ghost predicate StillFits(p: Platform, table: seq<Row>, c: Call) {
    match c
    case Read(batch, _, _, previous) => NewestHash(RowsOf(table, batch), previous)
    case Inserted(row) =>
      && NewestHash(RowsOf(table, row.batch), row.previous)
      && row.blockHash == Rehash(p, row.batch, row)
      && row.payloadHash == p.sha(row.payload)
    case _ => true
  }

  // Row i was chained to a newest one of those before it.
  ghost predicate ChainedAt(p: Platform, batch: string, rows: seq<Row>, i: nat)
    requires i < |rows|
  {
    NewestHash(rows[..i], rows[i].previous) && rows[i].blockHash == Rehash(p, batch, rows[i])
  }

  ghost predicate Chained(p: Platform, batch: string, rows: seq<Row>) {
    forall i :: 0 <= i < |rows| ==> ChainedAt(p, batch, rows, i)
  }

  ghost predicate AllChained(p: Platform, table: seq<Row>) {
    forall batch :: Chained(p, batch, RowsOf(table, batch))
  }

  ghost predicate PayloadsHashed(p: Platform, table: seq<Row>) {
    forall k :: 0 <= k < |table| ==> table[k].payloadHash == p.sha(table[k].payload)
  }

  ghost predicate Inv(p: Platform, s: Ledger) {
    && AllChained(p, s.table)
    && PayloadsHashed(p, s.table)
    && LocksHeld(p, s.locks, s.calls)
    && (forall pid :: pid in s.calls ==> StillFits(p, s.table, s.calls[pid]))
  }

  // ---------------------------------------------------------------------------
  // Rewriting what the trigger lets through changes no chain
  // ---------------------------------------------------------------------------

  ghost predicate SameLedger(m: seq<Row>, n: seq<Row>) {
    |m| == |n| && forall k :: 0 <= k < |m| ==> SameLedgerColumns(m[k], n[k])
  }

  lemma {:induction false} SameLedgerRows(m: seq<Row>, n: seq<Row>, batch: string)
    requires SameLedger(m, n)
    ensures SameLedger(RowsOf(m, batch), RowsOf(n, batch))
    decreases |m|
  {
    if m != [] {
      var i := |m| - 1;
      assert SameLedgerColumns(m[i], n[i]);
      SameLedgerRows(m[..i], n[..i], batch);
    }
  }

  lemma SameLedgerNewest(m: seq<Row>, n: seq<Row>, hash: Option<string>)
    requires SameLedger(m, n) && NewestHash(m, hash)
    ensures NewestHash(n, hash)
  {
    if m != [] {
      var i: nat :| i < |m| && IsNewestAt(m, i) && hash == Some(m[i].blockHash);
      assert IsNewestAt(n, i);
    }
  }

  lemma SameLedgerChained(p: Platform, batch: string, m: seq<Row>, n: seq<Row>)
    requires SameLedger(m, n) && Chained(p, batch, m)
    ensures Chained(p, batch, n)
  {
    hide NewestHash;
    forall i | 0 <= i < |n| ensures ChainedAt(p, batch, n, i) {
      assert ChainedAt(p, batch, m, i) && SameLedgerColumns(m[i], n[i]);
      SameLedgerNewest(m[..i], n[..i], m[i].previous);
    }
  }

  lemma RewriteKeeps(p: Platform, s: Ledger, table: seq<Row>)
    requires Inv(p, s) && SameLedger(s.table, table)
    ensures Inv(p, s.(table := table))
  {
    hide SameLedger, Chained, NewestHash, LocksHeld;
    RewriteKeepsPayloads(p, s.table, table);
    forall batch ensures Chained(p, batch, RowsOf(table, batch)) {
      SameLedgerRows(s.table, table, batch);
      SameLedgerChained(p, batch, RowsOf(s.table, batch), RowsOf(table, batch));
    }
    forall pid | pid in s.calls ensures StillFits(p, table, s.calls[pid]) {
      assert StillFits(p, s.table, s.calls[pid]);
      RewriteFits(p, s.table, table, s.calls[pid]);
    }
  }

  lemma RewriteKeepsPayloads(p: Platform, m: seq<Row>, n: seq<Row>)
    requires SameLedger(m, n) && PayloadsHashed(p, m)
    ensures PayloadsHashed(p, n)
  {
    forall k | 0 <= k < |n| ensures n[k].payloadHash == p.sha(n[k].payload) {
      assert SameLedgerColumns(m[k], n[k]);
    }
  }

  lemma RewriteFits(p: Platform, m: seq<Row>, n: seq<Row>, c: Call)
    requires SameLedger(m, n) && StillFits(p, m, c)
    ensures StillFits(p, n, c)
  {
    hide SameLedger, NewestHash;
    match c
    case Read(batch, _, _, previous) =>
      SameLedgerRows(m, n, batch);
      SameLedgerNewest(RowsOf(m, batch), RowsOf(n, batch), previous);
    case Inserted(row) =>
      SameLedgerRows(m, n, row.batch);
      SameLedgerNewest(RowsOf(m, row.batch), RowsOf(n, row.batch), row.previous);
    case _ =>
  }

  lemma AttemptKeepsLedger(table: seq<Row>, i: nat, write: Write)
    requires i < |table|
    ensures SameLedger(table, Attempt(table, i, write))
  {
  }

  // ---------------------------------------------------------------------------
  // Reading and appending under the lock
  // ---------------------------------------------------------------------------

  lemma {:induction false} RowsOfMembers(table: seq<Row>, batch: string)
    ensures forall r :: r in RowsOf(table, batch) <==> r in table && r.batch == batch
    decreases |table|
  {
    if table != [] {
      var n := |table| - 1;
      RowsOfMembers(table[..n], batch);
      assert table == table[..n] + [table[n]];
    }
  }

  // What the query returns is the hash of a newest row of the batch.
  lemma QueryReadsNewest(table: seq<Row>, batch: string, last: Option<nat>)
    requires Newest(table, batch, last)
    ensures NewestHash(RowsOf(table, batch), HashAt(table, last))
  {
    var rows := RowsOf(table, batch);
    RowsOfMembers(table, batch);
    assert last.Some? ==> table[last.value] in rows;
    if rows != [] {
      assert rows[0] in rows;
      var k :| 0 <= k < |table| && table[k] == rows[0];
      var r := table[last.value];
      assert r in rows;
      var i: nat :| i < |rows| && rows[i] == r;
      forall j | 0 <= j < |rows| ensures rows[j].submittedAt <= rows[i].submittedAt {
        assert rows[j] in rows;
        var q :| 0 <= q < |table| && table[q] == rows[j];
      }
      assert IsNewestAt(rows, i);
    }
  }

  lemma ChainedAppend(p: Platform, batch: string, rows: seq<Row>, row: Row)
    requires Chained(p, batch, rows) && NewestHash(rows, row.previous) && row.blockHash == Rehash(p, batch, row)
    ensures Chained(p, batch, rows + [row])
  {
    hide NewestHash;
    var more := rows + [row];
    forall i | 0 <= i < |more| ensures ChainedAt(p, batch, more, i) {
      if i < |rows| {
        assert ChainedAt(p, batch, rows, i);
        assert more[..i] == rows[..i];
      } else {
        assert more[..i] == rows;
      }
    }
  }

  lemma AppendKeepsChains(p: Platform, table: seq<Row>, row: Row)
    requires AllChained(p, table) && PayloadsHashed(p, table) && StillFits(p, table, Inserted(row))
    ensures AllChained(p, table + [row]) && PayloadsHashed(p, table + [row])
  {
    hide Chained, NewestHash;
    forall batch ensures Chained(p, batch, RowsOf(table + [row], batch)) {
      RowsOfAppend(table, row, batch);
      if batch == row.batch {
        ChainedAppend(p, batch, RowsOf(table, batch), row);
      } else {
        assert RowsOf(table + [row], batch) == RowsOf(table, batch);
      }
    }
  }

  // Another call's view is unaffected: it has another lock, so another batch.
  lemma AppendKeepsOthers(p: Platform, table: seq<Row>, row: Row, c: Call)
    requires StillFits(p, table, c) && BatchOfCall(c) != Some(row.batch)
    ensures StillFits(p, table + [row], c)
  {
    if BatchOfCall(c).Some? {
      RowsOfAppend(table, row, BatchOfCall(c).value);
      assert RowsOf(table + [row], BatchOfCall(c).value) == RowsOf(table, BatchOfCall(c).value);
    }
  }

  lemma LocksExclude(p: Platform, locks: map<int, nat>, calls: map<nat, Call>, pid: nat, other: nat)
    requires LocksHeld(p, locks, calls) && pid != other && pid in calls && other in calls
    requires BatchOfCall(calls[pid]).Some? && BatchOfCall(calls[other]).Some?
    ensures p.lockKey(BatchOfCall(calls[other]).value) != p.lockKey(BatchOfCall(calls[pid]).value)
  {
    assert LockHeld(p, locks, calls, pid) && LockHeld(p, locks, calls, other);
  }

  lemma ReleaseKeepsLocks(p: Platform, locks: map<int, nat>, calls: map<nat, Call>, pid: nat, next: Call)
    requires LocksHeld(p, locks, calls) && pid in calls && BatchOfCall(next) == None
    ensures LocksHeld(p, Release(p, locks, calls[pid]), calls[pid := next])
  {
    var held, after := Release(p, locks, calls[pid]), calls[pid := next];
    forall q ensures LockHeld(p, held, after, q) {
      assert LockHeld(p, locks, calls, q);
      if q != pid && q in calls && BatchOfCall(calls[q]).Some? && BatchOfCall(calls[pid]).Some? {
        LocksExclude(p, locks, calls, pid, q);
      }
    }
  }

  lemma CommitKeeps(p: Platform, s: Ledger, pid: nat)
    requires Inv(p, s) && pid in s.calls && s.calls[pid].Inserted?
    ensures var row := s.calls[pid].row;
      Inv(p, Ledger(s.table + [row], Release(p, s.locks, s.calls[pid]), s.calls[pid := Committed(row.id)]))
  {
    hide AllChained, PayloadsHashed, LocksHeld, NewestHash;
    var row := s.calls[pid].row;
    AppendKeepsChains(p, s.table, row);
    ReleaseKeepsLocks(p, s.locks, s.calls, pid, Committed(row.id));
    forall q | q in s.calls && q != pid ensures StillFits(p, s.table + [row], s.calls[q]) {
      if BatchOfCall(s.calls[q]).Some? { LocksExclude(p, s.locks, s.calls, pid, q); }
      AppendKeepsOthers(p, s.table, row, s.calls[q]);
    }
  }

  lemma SameBatchKeepsLocks(p: Platform, locks: map<int, nat>, calls: map<nat, Call>, pid: nat, next: Call)
    requires LocksHeld(p, locks, calls)
    requires BatchOfCall(next).Some? ==> pid in calls && BatchOfCall(next) == BatchOfCall(calls[pid])
    ensures LocksHeld(p, locks, calls[pid := next])
  {
    var after := calls[pid := next];
    forall q ensures LockHeld(p, locks, after, q) {
      assert LockHeld(p, locks, calls, q);
    }
  }

  lemma TakingKeepsLocks(p: Platform, locks: map<int, nat>, calls: map<nat, Call>, pid: nat, next: Call)
    requires LocksHeld(p, locks, calls) && next.Locked? && p.lockKey(next.batch) !in locks
    ensures LocksHeld(p, locks[p.lockKey(next.batch) := pid], calls[pid := next])
  {
    var held, after := locks[p.lockKey(next.batch) := pid], calls[pid := next];
    forall q ensures LockHeld(p, held, after, q) {
      assert LockHeld(p, locks, calls, q);
    }
  }

  lemma StepKeeps(p: Platform, s: Ledger, a: Action, n: Ledger)
    requires Inv(p, s) && Next(p, s, a, n)
    ensures Inv(p, n)
  {
    hide AllChained, PayloadsHashed, LocksHeld, RowsOf, NewestHash, SameLedger, Attempt;
    match a {
      case Arrive(pid, batch, event, payload) =>
        SameBatchKeepsLocks(p, s.locks, s.calls, pid, Called(batch, event, payload));
      case TakeLock(pid) =>
        TakingKeepsLocks(p, s.locks, s.calls, pid, n.calls[pid]);
      case ReadLast(pid, last) =>
        SameBatchKeepsLocks(p, s.locks, s.calls, pid, n.calls[pid]);
        QueryReadsNewest(s.table, s.calls[pid].batch, last);
      case Insert(pid, id, now) =>
        SameBatchKeepsLocks(p, s.locks, s.calls, pid, n.calls[pid]);
        assert StillFits(p, s.table, s.calls[pid]);
      case Commit(pid) =>
        CommitKeeps(p, s, pid);
      case Abort(pid) =>
        ReleaseKeepsLocks(p, s.locks, s.calls, pid, Done);
      case SettleRow(pid, i, outcome) =>
        AttemptKeepsLedger(s.table, i, Update(Settle(s.table[i], outcome)));
        RewriteKeeps(p, s, n.table);
        SameBatchKeepsLocks(p, s.locks, s.calls, pid, Done);
      case Tamper(i, write) =>
        AttemptKeepsLedger(s.table, i, write);
        RewriteKeeps(p, s, n.table);
    }
  }

  lemma {:induction false} RunKeeps(p: Platform, run: seq<Ledger>, i: nat)
    requires IsRun(p, run) && i < |run|
    ensures Inv(p, run[i])
  {
    if i == 0 {
      assert forall batch :: RowsOf(START.table, batch) == [];
    } else {
      hide Inv, Next;
      RunKeeps(p, run, i - 1);
      assert Steps(p, run[i - 1], run[i]);
      var a :| Next(p, run[i - 1], a, run[i]);
      StepKeeps(p, run[i - 1], a, run[i]);
    }
  }

  // ---------------------------------------------------------------------------
  // Main theorems
  // ---------------------------------------------------------------------------

  // However calls interleave and whatever was attempted on the table, every row of a batch was
  // chained to a newest one of those committed before it.
  lemma RowsAreChained(p: Platform, run: seq<Ledger>, i: nat, batch: string)
    requires IsRun(p, run) && i < |run|
    ensures Chained(p, batch, RowsOf(run[i].table, batch))
  {
    hide IsRun, Inv, Chained;
    RunKeeps(p, run, i);
    InvChains(p, run[i]);
  }

  lemma InvChains(p: Platform, s: Ledger)
    requires Inv(p, s)
    ensures AllChained(p, s.table)
  {
  }

  // Where timestamps strictly increase the newest row is the last.
  lemma NewestIsLast(rows: seq<Row>, hash: Option<string>)
    requires StrictlyAscending(rows) && NewestHash(rows, hash)
    ensures hash == LastHash(rows)
  {
    if rows != [] {
      var m: nat :| m < |rows| && IsNewestAt(rows, m) && hash == Some(rows[m].blockHash);
      assert rows[|rows| - 1].submittedAt <= rows[m].submittedAt;
      assert m == |rows| - 1;
    }
  }

  lemma TimedChainVerifies(p: Platform, batch: string, rows: seq<Row>)
    requires Chained(p, batch, rows) && StrictlyAscending(rows)
    ensures Verifies(p, batch, rows)
  {
    hide NewestHash;
    forall i | 0 <= i < |rows| ensures GoodAt(p, batch, rows, i) {
      assert ChainedAt(p, batch, rows, i);
      NewestIsLast(rows[..i], rows[i].previous);
    }
  }

  lemma CollisionsByContents(p: Platform, batch: string, rows: seq<Row>, events: seq<Row>)
    requires multiset(events) == multiset(rows) && CollisionBetween(p, batch, events, events)
    ensures CollisionBetween(p, batch, rows, rows)
  {
    Sorting.SameMembers(events, rows);
    var i, j :| 0 <= i < |events| && 0 <= j < |events| && Collision(p, PreimageOf(p, batch, events[i]), PreimageOf(p, batch, events[j]));
    assert events[i] in events && events[j] in events;
    var k :| 0 <= k < |rows| && rows[k] == events[i];
    var l :| 0 <= l < |rows| && rows[l] == events[j];
  }

  lemma OneLater(rows: seq<Row>, k: nat)
    requires 0 < k <= |rows|
    ensures StrictlyAscending(rows[..k - 1]) && (k > 1 ==> rows[k - 2].submittedAt < rows[k - 1].submittedAt) ==>
      StrictlyAscending(rows[..k])
  {
    if StrictlyAscending(rows[..k - 1]) && (k > 1 ==> rows[k - 2].submittedAt < rows[k - 1].submittedAt) {
      forall i | 0 <= i < k - 1 ensures rows[i].submittedAt < rows[k - 1].submittedAt {
        assert i < k - 2 ==> rows[..k - 1][i].submittedAt < rows[..k - 1][k - 2].submittedAt;
      }
      forall i, j | 0 <= i < j < k ensures rows[..k][i].submittedAt < rows[..k][j].submittedAt {
        assert j < k - 1 ==> rows[..k - 1][i].submittedAt < rows[..k - 1][j].submittedAt;
      }
    }
  }

  // The first row that is not later than all before it.
  lemma FirstLate(rows: seq<Row>, k: nat) returns (n: nat)
    requires k <= |rows| && !StrictlyAscending(rows[..k])
    ensures 0 < n < k && StrictlyAscending(rows[..n]) && rows[n].submittedAt <= rows[n - 1].submittedAt
    decreases k
  {
    OneLater(rows, k);
    if StrictlyAscending(rows[..k - 1]) {
      n := k - 1;
    } else {
      n := FirstLate(rows, k - 1);
    }
  }

  lemma EarlierFirst(rows: seq<Row>, i: nat, j: nat)
    requires StrictlyAscending(rows) && i < |rows| && j < |rows|
    ensures rows[i].submittedAt <= rows[j].submittedAt ==> i <= j
  {
  }

  // Rows in strict order of time, of the same contents as chained rows, and verifying: then the
  // chained rows were in that order to begin with.
  lemma OutOfOrderFails(p: Platform, batch: string, rows: seq<Row>, events: seq<Row>)
    requires p.Sound() && PipeFree(batch) && Chained(p, batch, rows) && !CollisionBetween(p, batch, rows, rows)
    requires multiset(events) == multiset(rows) && StrictlyAscending(events) && Verifies(p, batch, events)
    ensures StrictlyAscending(rows)
  {
    assert rows[..|rows|] == rows;
    if !StrictlyAscending(rows) {
      var n := FirstLate(rows, |rows|);
      assert ChainedAt(p, batch, rows, n);
      NewestIsLast(rows[..n], rows[n].previous);
      LateRowBreaks(p, batch, rows, events, n);
      assert false;
    }
  }

  lemma LateRowBreaks(p: Platform, batch: string, rows: seq<Row>, events: seq<Row>, n: nat)
    requires p.Sound() && PipeFree(batch) && 0 < n < |rows| && rows[n].submittedAt <= rows[n - 1].submittedAt
    requires rows[n].previous == Some(rows[n - 1].blockHash)
    requires multiset(events) == multiset(rows) && StrictlyAscending(events) && Verifies(p, batch, events)
    ensures CollisionBetween(p, batch, rows, rows)
  {
    Sorting.SameMembers(events, rows);
    assert rows[n] in rows && rows[n - 1] in rows;
    var i: nat :| i < |events| && events[i] == rows[n];
    var j: nat :| j < |events| && events[j] == rows[n - 1];
    EarlierFirst(events, i, j);
    assert GoodAt(p, batch, events, i);
    assert i > 0 && events[i - 1].blockHash == events[j].blockHash;
    HashesDiffer(p, batch, events, i - 1, j);
    CollisionsByContents(p, batch, rows, events);
  }

  lemma SameAnswers(rows: seq<Row>, events: seq<Row>, other: seq<Row>)
    requires Answers(rows, events)
    ensures Answers(rows, other) <==> Answers(events, other)
  {
  }

  // Some answer there always is.
  lemma AnAnswer(rows: seq<Row>) returns (events: seq<Row>)
    ensures Answers(rows, events)
  {
    var byTime := (r: Row) => r.submittedAt;
    events := Sorting.SortBy(rows, byTime);
    Sorting.SortSorts(rows, byTime);
    forall i, j | 0 <= i < j < |events| ensures events[i].submittedAt <= events[j].submittedAt {
      assert byTime(events[i]) <= byTime(events[j]);
    }
  }

  // In every reachable state verifyChain finds a batch's chain valid, whatever order the database
  // answers in, as long as the batch's timestamps strictly increase.
  lemma EveryChainVerifies(p: Platform, run: seq<Ledger>, i: nat, batch: string, events: seq<Row>)
    requires IsRun(p, run) && i < |run| && StrictlyAscending(RowsOf(run[i].table, batch))
    requires Answers(RowsOf(run[i].table, batch), events)
    ensures Verifies(p, batch, events)
  {
    hide IsRun, Chained;
    RowsAreChained(p, run, i, batch);
    TimedChainVerifies(p, batch, RowsOf(run[i].table, batch));
    OneAnswer(RowsOf(run[i].table, batch), events);
  }

  // And only then: whatever the clock did, every answer verifies exactly when the timestamps of the
  // batch strictly increase in the order of the commits (short of a collision of SHA-256).
  lemma VerifiesExactlyWhenTimed(p: Platform, run: seq<Ledger>, i: nat, batch: string)
    requires IsRun(p, run) && i < |run| && p.Sound() && PipeFree(batch)
    requires !CollisionBetween(p, batch, RowsOf(run[i].table, batch), RowsOf(run[i].table, batch))
    ensures (forall events :: Answers(RowsOf(run[i].table, batch), events) ==> Verifies(p, batch, events))
      <==> StrictlyAscending(RowsOf(run[i].table, batch))
  {
    hide IsRun, Chained, CollisionBetween, StrictlyAscending, Verifies, Answers;
    var rows := RowsOf(run[i].table, batch);
    RowsAreChained(p, run, i, batch);
    if StrictlyAscending(rows) {
      forall events | Answers(rows, events) ensures Verifies(p, batch, events) {
        EveryChainVerifies(p, run, i, batch, events);
      }
    }
    if forall events :: Answers(rows, events) ==> Verifies(p, batch, events) {
      var events := AnAnswer(rows);
      AnswerContents(rows, events);
      if CollisionBetween(p, batch, events, events) { CollisionsByContents(p, batch, rows, events); }
      forall other { SameAnswers(rows, events, other); }
      VerifiesInEveryOrder(p, batch, events);
      OutOfOrderFails(p, batch, rows, events);
    }
  }

  lemma AnswerContents(rows: seq<Row>, events: seq<Row>)
    requires Answers(rows, events)
    ensures multiset(events) == multiset(rows)
  {
  }

  // No fork: as long as no row before the last is out of time, every event but the first names the
  // one before it, and no two name the same.
  lemma NoFork(p: Platform, run: seq<Ledger>, i: nat, batch: string)
    requires IsRun(p, run) && i < |run| && p.Sound() && PipeFree(batch)
    requires !CollisionBetween(p, batch, RowsOf(run[i].table, batch), RowsOf(run[i].table, batch))
    requires var rows := RowsOf(run[i].table, batch); rows != [] ==> StrictlyAscending(rows[..|rows| - 1])
    ensures Linear(RowsOf(run[i].table, batch))
  {
    hide IsRun, Chained, CollisionBetween, StrictlyAscending, Linear;
    var rows := RowsOf(run[i].table, batch);
    RowsAreChained(p, run, i, batch);
    LateLastVerifies(p, batch, rows);
    VerifiedIsLinear(p, batch, rows);
  }

  lemma LateLastVerifies(p: Platform, batch: string, rows: seq<Row>)
    requires Chained(p, batch, rows) && (rows != [] ==> StrictlyAscending(rows[..|rows| - 1]))
    ensures Verifies(p, batch, rows)
  {
    hide NewestHash;
    forall i | 0 <= i < |rows| ensures GoodAt(p, batch, rows, i) {
      assert ChainedAt(p, batch, rows, i);
      assert StrictlyAscending(rows[..i]) by { Prefix(rows[..|rows| - 1], i); assert rows[..|rows| - 1][..i] == rows[..i]; }
      NewestIsLast(rows[..i], rows[i].previous);
    }
  }

  lemma Prefix(rows: seq<Row>, k: nat)
    requires StrictlyAscending(rows) && k <= |rows|
    ensures StrictlyAscending(rows[..k])
  {
  }

  ghost predicate Linear(rows: seq<Row>) {
    && (forall k :: 0 <= k < |rows| ==> rows[k].previous == if k == 0 then None else Some(rows[k - 1].blockHash))
    && (forall j, k :: 0 <= j < k < |rows| ==> rows[j].previous != rows[k].previous)
  }

  lemma VerifiedIsLinear(p: Platform, batch: string, rows: seq<Row>)
    requires p.Sound() && PipeFree(batch) && Verifies(p, batch, rows) && !CollisionBetween(p, batch, rows, rows)
    ensures Linear(rows)
  {
    hide CollisionBetween;
    forall k | 0 <= k < |rows| ensures rows[k].previous == if k == 0 then None else Some(rows[k - 1].blockHash) {
      assert GoodAt(p, batch, rows, k);
    }
    forall j, k | 0 <= j < k < |rows| ensures rows[j].previous != rows[k].previous {
      ChainIsLinear(p, batch, rows, j, k);
    }
  }

  // ---------------------------------------------------------------------------
  // A clock set back
  // ---------------------------------------------------------------------------

  ghost predicate Reached(p: Platform, s: Ledger) {
    exists run: seq<Ledger> :: IsRun(p, run) && run[|run| - 1] == s
  }

  lemma ReachStep(p: Platform, s: Ledger, a: Action, n: Ledger)
    requires Reached(p, s) && Next(p, s, a, n)
    ensures Reached(p, n)
  {
    hide Next;
    var run: seq<Ledger> :| IsRun(p, run) && run[|run| - 1] == s;
    var longer := run + [n];
    assert Steps(p, s, n);
    hide Steps;
    forall i | 0 < i < |longer| ensures Steps(p, longer[i - 1], longer[i]) {
      if i < |run| { assert longer[i - 1] == run[i - 1] && longer[i] == run[i]; }
    }
    assert longer[|longer| - 1] == n;
  }

  // The row a call adds when the query answers with `last`.
  function Appended(
    p: Platform, s: Ledger, batch: string, event: EventType, payload: string, last: Option<nat>, id: nat, now: nat): Row
  {
    NewRow(p, Read(batch, event, payload, HashAt(s.table, last)), id, now)
  }

  // One call from start to commit, with nothing in between, wherever its lock is free.
  lemma ReachAppend(
    p: Platform, s: Ledger, pid: nat, batch: string, event: EventType, payload: string, last: Option<nat>, id: nat, now: nat)
    requires Reached(p, s) && p.lockKey(batch) !in s.locks && pid !in s.calls && Newest(s.table, batch, last)
    ensures Reached(p, Ledger(s.table + [Appended(p, s, batch, event, payload, last, id, now)], s.locks, s.calls[pid := Committed(id)]))
  {
    hide Reached, Newest;
    var key, row := p.lockKey(batch), Appended(p, s, batch, event, payload, last, id, now);
    var a := s.(calls := s.calls[pid := Called(batch, event, payload)]);
    ReachStep(p, s, Arrive(pid, batch, event, payload), a);
    var b := s.(locks := s.locks[key := pid], calls := s.calls[pid := Locked(batch, event, payload)]);
    assert a.calls[pid := Locked(batch, event, payload)] == b.calls;
    ReachStep(p, a, TakeLock(pid), b);
    var c := b.(calls := s.calls[pid := Read(batch, event, payload, HashAt(s.table, last))]);
    assert b.calls[pid := c.calls[pid]] == c.calls;
    ReachStep(p, b, ReadLast(pid, last), c);
    var d := b.(calls := s.calls[pid := Inserted(row)]);
    assert c.calls[pid := Inserted(row)] == d.calls;
    ReachStep(p, c, Insert(pid, id, now), d);
    var e := Ledger(s.table + [row], s.locks, s.calls[pid := Committed(id)]);
    assert d.calls[pid := Committed(id)] == e.calls && Release(p, d.locks, d.calls[pid]) == e.locks;
    ReachStep(p, d, Commit(pid), e);
  }

  lemma ReachTwoEvents(p: Platform, batch: string) returns (s: Ledger, first: Row, second: Row)
    ensures Reached(p, s) && s.table == [first] + [second]
    ensures first.batch == second.batch == batch && first.submittedAt == 1 && second.submittedAt == 0
  {
    assert IsRun(p, [START]);
    first := Appended(p, START, batch, BatchCreated, "", None, 0, 1);
    assert START.table + [first] == [first];
    var one := Ledger([first], map[], map[0 := Committed(0)]);
    second := Appended(p, one, batch, SaleRecorded, "", Some(0), 1, 0);
    s := Ledger([first] + [second], map[], one.calls[1 := Committed(1)]);
    assert Newest(START.table, batch, None) && Newest(one.table, batch, Some(0));
    assert Reached(p, START);
    hide Reached, Newest, Appended;
    ReachAppend(p, START, 0, batch, BatchCreated, "", None, 0, 1);
    ReachAppend(p, one, 1, batch, SaleRecorded, "", Some(0), 1, 0);
  }

  // Two events of a batch, the second stamped earlier than the first: some answer fails to verify.
  lemma ClockSetBack(p: Platform, batch: string) returns (s: Ledger)
    ensures Reached(p, s) && !StrictlyAscending(RowsOf(s.table, batch))
    ensures p.Sound() && PipeFree(batch) && !CollisionBetween(p, batch, RowsOf(s.table, batch), RowsOf(s.table, batch)) ==>
      exists events :: Answers(RowsOf(s.table, batch), events) && !Verifies(p, batch, events)
  {
    var first, second;
    s, first, second := ReachTwoEvents(p, batch);
    RowsOfAppend([], first, batch);
    RowsOfAppend([first], second, batch);
    assert RowsOf(s.table, batch) == [first, second];
    var run: seq<Ledger> :| IsRun(p, run) && run[|run| - 1] == s;
    hide IsRun, Reached, CollisionBetween, Verifies, Answers;
    if p.Sound() && PipeFree(batch) && !CollisionBetween(p, batch, RowsOf(s.table, batch), RowsOf(s.table, batch)) {
      VerifiesExactlyWhenTimed(p, run, |run| - 1, batch);
    }
  }

  // The stored payload is the one that was hashed, although verifyChain never looks.
  lemma PayloadsAreGenuine(p: Platform, run: seq<Ledger>, i: nat, k: nat)
    requires IsRun(p, run) && i < |run| && k < |run[i].table|
    ensures run[i].table[k].payloadHash == p.sha(run[i].table[k].payload)
  {
    RunKeeps(p, run, i);
  }

  // The history is append-only, and a settled row never changes again.
  ghost predicate Extends(m: seq<Row>, n: seq<Row>) {
    && |m| <= |n|
    && forall k :: 0 <= k < |m| ==> SameLedgerColumns(m[k], n[k]) && (m[k].status != Pending ==> n[k] == m[k])
  }

  lemma StepExtends(p: Platform, s: Ledger, a: Action, n: Ledger)
    requires Next(p, s, a, n)
    ensures Extends(s.table, n.table)
  {
  }

  lemma {:induction false} LedgerIsImmutable(p: Platform, run: seq<Ledger>, i: nat, j: nat)
    requires IsRun(p, run) && i <= j < |run|
    ensures Extends(run[i].table, run[j].table)
    decreases j
  {
    if i < j {
      LedgerIsImmutable(p, run, i, j - 1);
      assert Steps(p, run[j - 1], run[j]);
      var a :| Next(p, run[j - 1], a, run[j]);
      StepExtends(p, run[j - 1], a, run[j]);
      ExtendsTransitive(run[i].table, run[j - 1].table, run[j].table);
    }
  }

  lemma ExtendsTransitive(a: seq<Row>, b: seq<Row>, c: seq<Row>)
    requires Extends(a, b) && Extends(b, c)
    ensures Extends(a, c)
  {
  }

  // ---------------------------------------------------------------------------
  // The row a call leaves is the event it was called with
  // ---------------------------------------------------------------------------

  // Batch, event and payload of a call on its way.
  function RequestOf(c: Call): Option<(string, EventType, string)> {
    match c
    case Called(batch, event, payload) => Some((batch, event, payload))
    case Locked(batch, event, payload) => Some((batch, event, payload))
    case Read(batch, event, payload, _) => Some((batch, event, payload))
    case Inserted(row) => Some((row.batch, row.event, row.payload))
    case _ => None
  }

  lemma StepKeepsRequest(p: Platform, s: Ledger, a: Action, n: Ledger, pid: nat)
    requires Next(p, s, a, n) && pid in s.calls
    ensures pid in n.calls
    ensures RequestOf(n.calls[pid]).Some? ==> RequestOf(n.calls[pid]) == RequestOf(s.calls[pid])
    ensures n.calls[pid].Committed? && !s.calls[pid].Committed? ==>
      && s.calls[pid].Inserted? && n.calls[pid] == Committed(s.calls[pid].row.id)
      && n.table == s.table + [s.calls[pid].row]
    ensures n.calls[pid].Inserted? && n.calls[pid] != s.calls[pid] ==>
      && s.calls[pid].Read? && a.Insert? && a.pid == pid
      && n.calls[pid].row.submittedAt == a.now && n.calls[pid].row.id == a.id
      && n.calls[pid].row.payloadHash == p.sha(n.calls[pid].row.payload)
  {
    hide Newest, Attempt, ComputeBlockHash, Release;
  }

  // A commit adds the one row it was to add; no other step adds or removes any.
  lemma OnlyCommitsAppend(p: Platform, s: Ledger, a: Action, n: Ledger)
    requires Next(p, s, a, n)
    ensures |n.table| == |s.table| + if a.Commit? then 1 else 0
    ensures a.Commit? ==> s.calls[a.pid].Inserted? && n.table == s.table + [s.calls[a.pid].row]
  {
    hide Newest, ComputeBlockHash, Release;
  }

  lemma {:induction false} RequestLasts(p: Platform, run: seq<Ledger>, i: nat, j: nat, pid: nat)
    requires IsRun(p, run) && i <= j < |run| && pid in run[i].calls
    ensures pid in run[j].calls
    ensures RequestOf(run[j].calls[pid]).Some? ==> RequestOf(run[j].calls[pid]) == RequestOf(run[i].calls[pid])
    decreases j
  {
    hide Next, RequestOf;
    if i < j {
      RequestLasts(p, run, i, j - 1, pid);
      assert Steps(p, run[j - 1], run[j]);
      var a :| Next(p, run[j - 1], a, run[j]);
      StepKeepsRequest(p, run[j - 1], a, run[j], pid);
    }
  }

  // Where a call that has inserted its row did so.
  ghost predicate InsertedAt(p: Platform, run: seq<Ledger>, m: nat, pid: nat, row: Row) {
    m + 1 < |run| && Next(p, run[m], Insert(pid, row.id, row.submittedAt), run[m + 1])
  }

  lemma {:induction false} InsertIsBehind(p: Platform, run: seq<Ledger>, j: nat, pid: nat) returns (m: nat)
    requires IsRun(p, run) && j < |run| && pid in run[j].calls && run[j].calls[pid].Inserted?
    ensures m < j && InsertedAt(p, run, m, pid, run[j].calls[pid].row)
    ensures run[j].calls[pid].row.payloadHash == p.sha(run[j].calls[pid].row.payload)
    decreases j
  {
    assert j > 0;
    assert Steps(p, run[j - 1], run[j]);
    var a :| Next(p, run[j - 1], a, run[j]);
    if pid !in run[j - 1].calls {
      NewCallsAreCalled(p, run[j - 1], a, run[j], pid);
    }
    StepKeepsRequest(p, run[j - 1], a, run[j], pid);
    hide Next;
    if run[j - 1].calls[pid] == run[j].calls[pid] {
      m := InsertIsBehind(p, run, j - 1, pid);
    } else {
      m := j - 1;
    }
  }

  lemma NewCallsAreCalled(p: Platform, s: Ledger, a: Action, n: Ledger, pid: nat)
    requires Next(p, s, a, n) && pid !in s.calls && pid in n.calls
    ensures n.calls[pid].Called?
  {
    hide Newest, Attempt, ComputeBlockHash, Release;
  }

  lemma {:induction false} CommitIsBehind(p: Platform, run: seq<Ledger>, i: nat, j: nat, pid: nat) returns (k: nat)
    requires IsRun(p, run) && i <= j < |run| && pid in run[i].calls && !run[i].calls[pid].Committed?
    requires pid in run[j].calls && run[j].calls[pid].Committed?
    ensures i <= k < j && pid in run[k].calls && run[k].calls[pid].Inserted?
    ensures run[k + 1].table == run[k].table + [run[k].calls[pid].row] && run[j].calls[pid] == Committed(run[k].calls[pid].row.id)
    decreases j
  {
    hide Next, RequestOf;
    RequestLasts(p, run, i, j - 1, pid);
    assert Steps(p, run[j - 1], run[j]);
    var a :| Next(p, run[j - 1], a, run[j]);
    StepKeepsRequest(p, run[j - 1], a, run[j], pid);
    if run[j - 1].calls[pid].Committed? {
      CommittedStays(p, run[j - 1], a, run[j], pid);
      k := CommitIsBehind(p, run, i, j - 1, pid);
    } else {
      k := j - 1;
    }
  }

  lemma CommittedStays(p: Platform, s: Ledger, a: Action, n: Ledger, pid: nat)
    requires Next(p, s, a, n) && pid in s.calls && s.calls[pid].Committed? && pid in n.calls && n.calls[pid].Committed?
    ensures n.calls[pid] == s.calls[pid]
  {
    hide Newest, Attempt, ComputeBlockHash, Release;
  }

  // A call that has committed left exactly one row, and that row, to the end of the run, is the event
  // it was called with: its batch, type and payload, the payload's hash, and the instant of the insert.
  lemma EventIsRecorded(
    p: Platform, run: seq<Ledger>, i: nat, j: nat, pid: nat, batch: string, event: EventType, payload: string)
    returns (k: nat, m: nat)
    requires IsRun(p, run) && 0 < i <= j < |run| && Next(p, run[i - 1], Arrive(pid, batch, event, payload), run[i])
    requires pid in run[j].calls && run[j].calls[pid].Committed?
    ensures i <= k < j && |run[k + 1].table| == |run[k].table| + 1 && |run[k].table| < |run[j].table|
    ensures run[k + 1].table[|run[k].table|].id == run[j].calls[pid].id
    ensures var row := run[j].table[|run[k].table|];
      && row.batch == batch && row.event == event && row.payload == payload && row.payloadHash == p.sha(payload)
      && m < k && exists id :: Next(p, run[m], Insert(pid, id, row.submittedAt), run[m + 1])
  {
    assert run[i].calls[pid] == Called(batch, event, payload);
    hide Next, Extends;
    k := CommitIsBehind(p, run, i, j, pid);
    RequestLasts(p, run, i, k, pid);
    m := InsertIsBehind(p, run, k, pid);
    var row := run[k].calls[pid].row;
    LedgerIsImmutable(p, run, k + 1, j);
    RowStays(run[k + 1].table, run[j].table, |run[k].table|);
    assert Next(p, run[m], Insert(pid, row.id, row.submittedAt), run[m + 1]);
  }

  lemma RowStays(m: seq<Row>, n: seq<Row>, i: nat)
    requires Extends(m, n) && i < |m|
    ensures i < |n| && SameLedgerColumns(m[i], n[i])
  {
  }

  // ---------------------------------------------------------------------------
  // Settlement
  // ---------------------------------------------------------------------------

  // The outcome of the submission goes onto the row, once; a settled row is left alone.
  lemma SettlementIsRecorded(p: Platform, s: Ledger, pid: nat, i: nat, outcome: Outcome, n: Ledger)
    requires Next(p, s, SettleRow(pid, i, outcome), n)
    ensures n.locks == s.locks && n.calls == s.calls[pid := Done]
    ensures |n.table| == |s.table| && forall k :: 0 <= k < |s.table| && k != i ==> n.table[k] == s.table[k]
    ensures s.table[i].status != Pending ==> n.table[i] == s.table[i]
    ensures s.table[i].status == Pending && outcome.Submitted? ==>
      && n.table[i].status == Confirmed && n.table[i].confirmedAt == Some(outcome.now)
      && n.table[i].txHash.Some? && "mock_" <= n.table[i].txHash.value
      && (|s.table[i].blockHash| >= 32 ==> n.table[i].txHash.value[5..] == s.table[i].blockHash[..32])
      && n.table[i] == s.table[i].(status := Confirmed, confirmedAt := Some(outcome.now), txHash := n.table[i].txHash)
    ensures s.table[i].status == Pending && outcome.Refused? ==>
      n.table[i] == s.table[i].(status := Failed, errorMessage := Some(outcome.message))
  {
  }

  // A committed call whose row is still pending can settle it.
  lemma SettlementIsPossible(p: Platform, s: Ledger, pid: nat, i: nat, outcome: Outcome)
    requires pid in s.calls && s.calls[pid].Committed? && i < |s.table| && s.table[i].id == s.calls[pid].id
    ensures exists n :: Next(p, s, SettleRow(pid, i, outcome), n)
  {
    var n := s.(table := Attempt(s.table, i, Update(Settle(s.table[i], outcome))), calls := s.calls[pid := Done]);
    assert Next(p, s, SettleRow(pid, i, outcome), n);
  }

  // ---------------------------------------------------------------------------
  // Locks are given back
  // ---------------------------------------------------------------------------

  // Each lock is held by a call in its transaction, on the batch it locked.
  ghost predicate LocksInUse(p: Platform, s: Ledger) {
    forall key :: key in s.locks ==>
      && s.locks[key] in s.calls && BatchOfCall(s.calls[s.locks[key]]).Some?
      && p.lockKey(BatchOfCall(s.calls[s.locks[key]]).value) == key
  }

  lemma StepKeepsLocksInUse(p: Platform, s: Ledger, a: Action, n: Ledger)
    requires LocksInUse(p, s) && LocksHeld(p, s.locks, s.calls) && Next(p, s, a, n)
    ensures LocksInUse(p, n)
  {
    hide Newest, Attempt, ComputeBlockHash;
    if a.Commit? { assert LockHeld(p, s.locks, s.calls, a.pid); }
    if a.Abort? { assert LockHeld(p, s.locks, s.calls, a.pid); }
  }

  lemma {:induction false} LocksAreGivenBack(p: Platform, run: seq<Ledger>, i: nat)
    requires IsRun(p, run) && i < |run|
    ensures LocksInUse(p, run[i])
  {
    hide Next, Inv, LocksInUse;
    if i == 0 {
      NoLocks(p);
    } else {
      LocksAreGivenBack(p, run, i - 1);
      RunKeeps(p, run, i - 1);
      LocksOf(p, run[i - 1]);
      assert Steps(p, run[i - 1], run[i]);
      var a :| Next(p, run[i - 1], a, run[i]);
      StepKeepsLocksInUse(p, run[i - 1], a, run[i]);
    }
  }

  lemma NoLocks(p: Platform)
    ensures LocksInUse(p, START)
  {
  }

  lemma LocksOf(p: Platform, s: Ledger)
    requires Inv(p, s)
    ensures LocksHeld(p, s.locks, s.calls)
  {
  }
}
