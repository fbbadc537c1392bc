/**
 The counters that entity codes are numbered from.  A draw outside a transaction commits on its
 own; a draw inside one holds the lock on the counter row until the transaction ends, and is undone
 if it rolls back.
 */
module CodeCounters {
  import opened Common
  import opened EntityCodes

  type TxId = nat

  // The scope a number is drawn in: entity name, colon, year.
  function ScopeName(e: Entity): string {
    match e
    case BatchCode => "batch"
    case DeliveryCode => "delivery"
    case FarmerCode => "farmer"
    case GroupCode => "group"
  }

  function Scope(e: Entity, year: nat): string { ScopeName(e) + ":" + Decimal(year) }

  function ScopeOf(c: Code): string { Scope(c.entity, c.year) }

  function Current(values: map<string, nat>, scope: string): nat {
    if scope in values then values[scope] else 0
  }

  // ---------------------------------------------------------------------------
  // next_entity_code, and the block that seeds the farmer counters
  // ---------------------------------------------------------------------------

  // In upper case, four digits for the year, one or more for the number.
  predicate IsFarmerCode(s: string) {
    && |s| >= 11 && s[..5] == "FARM-" && AreDigits(s[5..9]) && s[9] == '-' && AreDigits(s[10..])
  }

  // The highest number among the codes of one year, 0 if there are none.
  function HighWater(codes: seq<string>, year: string): nat {
    if codes == [] then 0
    else
      var rest, s := HighWater(codes[..|codes| - 1], year), codes[|codes| - 1];
      if IsFarmerCode(s) && s[5..9] == year && Value(s[10..]) > rest then Value(s[10..]) else rest
  }

  lemma {:induction false} HighWaterBounds(codes: seq<string>, s: string)
    requires s in codes && IsFarmerCode(s)
    ensures Value(s[10..]) <= HighWater(codes, s[5..9])
  {
    if s in codes[..|codes| - 1] { HighWaterBounds(codes[..|codes| - 1], s); }
  }

  // It is the number of one of them, or 0.
  lemma {:induction false} HighWaterAttained(codes: seq<string>, year: string)
    ensures HighWater(codes, year) > 0 ==>
      exists s :: s in codes && IsFarmerCode(s) && s[5..9] == year && Value(s[10..]) == HighWater(codes, year)
    decreases |codes|
  {
    if codes != [] { HighWaterAttained(codes[..|codes| - 1], year); }
  }

  function YearsOf(codes: seq<string>): set<string> {
    set s | s in codes && IsFarmerCode(s) :: s[5..9]
  }

  function Max(a: nat, b: nat): nat { if a < b then b else a }

  class Counters {
    var values: map<string, nat>

    constructor ()
      ensures values == map[]
    {
      values := map[];
    }

    method NextEntityCode(e: Entity, year: nat) returns (text: string)
      modifies this
      ensures Current(values, Scope(e, year)) == Current(old(values), Scope(e, year)) + 1
      ensures forall scope :: scope != Scope(e, year) ==> Current(values, scope) == Current(old(values), scope)
      ensures Parse(e, text) == Some(Code(e, year, Current(values, Scope(e, year))))
      ensures text == Format(Code(e, year, Current(values, Scope(e, year))))
    {
      var scope := Scope(e, year);
      var value := if scope in values then values[scope] + 1 else 1;
      values := values[scope := value];
      text := Prefix(e) + "-" + Decimal(year) + "-" + PadStart(Decimal(value), Padding(e));
      CodeReadsBack(Code(e, year, value));
    }

    // Continue from the codes already in use: raise each year's counter to its high-water mark.
    method SeedFarmers(codes: seq<string>)
      modifies this
      ensures forall y :: y in YearsOf(codes) ==>
        Current(values, "farmer:" + y) == Max(Current(old(values), "farmer:" + y), HighWater(codes, y))
      ensures forall scope :: (forall y :: y in YearsOf(codes) ==> scope != "farmer:" + y) ==>
        Current(values, scope) == Current(old(values), scope)
    {
      var todo := YearsOf(codes);
      while todo != {}
        invariant todo <= YearsOf(codes)
        invariant forall y :: y in YearsOf(codes) - todo ==>
          Current(values, "farmer:" + y) == Max(Current(old(values), "farmer:" + y), HighWater(codes, y))
        invariant forall scope :: (forall y :: y in YearsOf(codes) - todo ==> scope != "farmer:" + y) ==>
          Current(values, scope) == Current(old(values), scope)
        decreases |todo|
      {
        var y :| y in todo;
        var scope, top := "farmer:" + y, HighWater(codes, y);
        ghost var was := values;
        SameYear(y, YearsOf(codes));
        assert Current(was, scope) == Current(old(values), scope);
        values := values[scope := if scope in values then Max(values[scope], top) else top];
        todo := todo - {y};
        assert forall q :: q != scope ==> Current(values, q) == Current(was, q);
      }
    }
  }

  lemma SameYear(y: string, years: set<string>)
    ensures forall z :: z in years && "farmer:" + z == "farmer:" + y ==> z == y
  {
    forall z | z in years && "farmer:" + z == "farmer:" + y ensures z == y {
      assert z == ("farmer:" + z)[7..];
      assert y == ("farmer:" + y)[7..];
    }
  }

  // ---------------------------------------------------------------------------
  // Concurrent draws
  // ---------------------------------------------------------------------------

  // An open transaction: the counters it has raised, whose rows it keeps locked, and what it drew.
  datatype Tx = Tx(values: map<string, nat>, drawn: multiset<Code>)

  // `drawn` is every code a committed draw has ever handed out, `unused` those not inserted yet,
  // `rows` the codes on rows now in the tables.
  datatype State = State(
    values: map<string, nat>, drawn: multiset<Code>, unused: multiset<Code>, rows: multiset<Code>, txs: map<TxId, Tx>)

  datatype Action =
    | Draw(entity: Entity, year: nat)
    | Insert(code: Code)
    | Delete(code: Code)
    | Start(tx: TxId)
    | DrawIn(tx: TxId, entity: Entity, year: nat)
    | Commit(tx: TxId, kept: multiset<Code>)
    | Rollback(tx: TxId)

  function NextCode(values: map<string, nat>, e: Entity, year: nat): Code {
    Code(e, year, Current(values, Scope(e, year)) + 1)
  }

  // Inside a transaction a counter reads as the transaction last left it.
  function NextCodeIn(values: map<string, nat>, tx: Tx, e: Entity, year: nat): Code {
    NextCode(if Scope(e, year) in tx.values then tx.values else values, e, year)
  }

  function WithDraw(tx: Tx, c: Code): Tx {
    Tx(tx.values[ScopeOf(c) := c.number], tx.drawn + multiset{c})
  }

  predicate Locked(s: State, scope: string) {
    exists t :: t in s.txs && scope in s.txs[t].values
  }

  ghost predicate Next(s: State, a: Action, n: State) {
    match a
    case Draw(e, year) =>
      var code := NextCode(s.values, e, year);
      && !Locked(s, Scope(e, year))
      && n == s.(values := s.values[Scope(e, year) := code.number], drawn := s.drawn + multiset{code}, unused := s.unused + multiset{code})
    case Insert(code) =>
      code in s.unused && n == s.(unused := s.unused - multiset{code}, rows := s.rows + multiset{code})
    case Delete(code) =>
      code in s.rows && n == s.(rows := s.rows - multiset{code})
    case Start(t) =>
      t !in s.txs && n == s.(txs := s.txs[t := Tx(map[], multiset{})])
    case DrawIn(t, e, year) =>
      && t in s.txs
      && (Scope(e, year) in s.txs[t].values || !Locked(s, Scope(e, year)))
      && n == s.(txs := s.txs[t := WithDraw(s.txs[t], NextCodeIn(s.values, s.txs[t], e, year))])
    case Commit(t, kept) =>
      && t in s.txs && kept <= s.txs[t].drawn
      && n == s.(values := s.values + s.txs[t].values, drawn := s.drawn + s.txs[t].drawn,
                 rows := s.rows + kept, txs := s.txs - {t})
    case Rollback(t) =>
      t in s.txs && n == s.(txs := s.txs - {t})
  }

  ghost predicate Steps(s: State, n: State) {
    exists a :: Next(s, a, n)
  }

  // Counters that are ahead of every code already on a row: none at all, or seeded ones.
  ghost predicate Ready(s: State) {
    && s.txs == map[] && s.unused == multiset{} && s.rows == s.drawn
    && forall c :: c in s.drawn ==> s.drawn[c] == 1 && c.number <= Current(s.values, ScopeOf(c))
  }

  ghost predicate IsRun(run: seq<State>) {
    && run != [] && Ready(run[0])
    && forall i :: 0 < i < |run| ==> Steps(run[i - 1], run[i])
  }

  ghost predicate DrawnOnce(values: map<string, nat>, drawn: multiset<Code>) {
    forall c :: c in drawn ==> drawn[c] == 1 && c.number <= Current(values, ScopeOf(c))
  }

  ghost predicate TxAhead(values: map<string, nat>, tx: Tx) {
    && (forall scope :: scope in tx.values ==> Current(values, scope) <= tx.values[scope])
    && forall c :: c in tx.drawn ==>
         && tx.drawn[c] == 1
         && ScopeOf(c) in tx.values
         && Current(values, ScopeOf(c)) < c.number <= tx.values[ScopeOf(c)]
  }

  ghost predicate OneHolder(txs: map<TxId, Tx>) {
    forall t, u :: t in txs && u in txs && t != u ==> txs[t].values.Keys !! txs[u].values.Keys
  }

  ghost predicate Inv(s: State) {
    && DrawnOnce(s.values, s.drawn)
    && s.rows + s.unused <= s.drawn
    && OneHolder(s.txs)
    && forall t :: t in s.txs ==> TxAhead(s.values, s.txs[t])
  }

  // The next number of a scope is one no committed code has.
  lemma NumberIsNew(values: map<string, nat>, drawn: multiset<Code>, c: Code)
    requires DrawnOnce(values, drawn) && c.number > Current(values, ScopeOf(c))
    ensures DrawnOnce(values[ScopeOf(c) := c.number], drawn + multiset{c})
  {
    hide Scope;
  }

  lemma OtherScopeRaised(values: map<string, nat>, tx: Tx, scope: string, number: nat)
    requires TxAhead(values, tx) && scope !in tx.values
    ensures TxAhead(values[scope := number], tx)
  {
    hide Scope;
  }

  lemma DrawKeeps(s: State, e: Entity, year: nat, n: State)
    requires Inv(s) && Next(s, Draw(e, year), n)
    ensures Inv(n)
  {
    hide DrawnOnce, TxAhead, Scope;
    var code := NextCode(s.values, e, year);
    NumberIsNew(s.values, s.drawn, code);
    forall t | t in n.txs ensures TxAhead(n.values, n.txs[t]) {
      OtherScopeRaised(s.values, s.txs[t], Scope(e, year), code.number);
    }
  }

  lemma TxDraws(values: map<string, nat>, tx: Tx, c: Code)
    requires TxAhead(values, tx)
    requires c.number == Current(if ScopeOf(c) in tx.values then tx.values else values, ScopeOf(c)) + 1
    ensures TxAhead(values, WithDraw(tx, c))
  {
    hide Scope;
  }

  lemma DrawInKeeps(s: State, t: TxId, e: Entity, year: nat, n: State)
    requires Inv(s) && Next(s, DrawIn(t, e, year), n)
    ensures Inv(n)
  {
    hide DrawnOnce, TxAhead, Scope;
    var tx := s.txs[t];
    TxDraws(s.values, tx, NextCodeIn(s.values, tx, e, year));
    assert n.txs[t].values.Keys == tx.values.Keys + {Scope(e, year)};
  }

  lemma CommitDrawsOnce(values: map<string, nat>, drawn: multiset<Code>, tx: Tx)
    requires DrawnOnce(values, drawn) && TxAhead(values, tx)
    ensures DrawnOnce(values + tx.values, drawn + tx.drawn)
  {
    hide Scope;
    forall c | c in drawn + tx.drawn
      ensures (drawn + tx.drawn)[c] == 1 && c.number <= Current(values + tx.values, ScopeOf(c))
    {
      assert (drawn + tx.drawn)[c] == drawn[c] + tx.drawn[c];
      assert c in drawn || c in tx.drawn;
    }
  }

  lemma OthersStayAhead(values: map<string, nat>, raised: map<string, nat>, tx: Tx)
    requires TxAhead(values, tx) && tx.values.Keys !! raised.Keys
    ensures TxAhead(values + raised, tx)
  {
    hide Scope;
  }

  lemma CommitKeeps(s: State, t: TxId, kept: multiset<Code>, n: State)
    requires Inv(s) && Next(s, Commit(t, kept), n)
    ensures Inv(n)
  {
    hide DrawnOnce, TxAhead;
    CommitDrawsOnce(s.values, s.drawn, s.txs[t]);
    forall u | u in n.txs ensures TxAhead(n.values, n.txs[u]) {
      OthersStayAhead(s.values, s.txs[t].values, s.txs[u]);
    }
  }

  lemma NewTxAhead(values: map<string, nat>)
    ensures TxAhead(values, Tx(map[], multiset{}))
  {
  }

  lemma RowsKeep(s: State, a: Action, n: State)
    requires Inv(s) && (a.Insert? || a.Delete? || a.Rollback?) && Next(s, a, n)
    ensures Inv(n)
  {
    hide DrawnOnce, TxAhead;
  }

  lemma StepKeeps(s: State, a: Action, n: State)
    requires Inv(s) && Next(s, a, n)
    ensures Inv(n)
  {
    hide DrawnOnce, TxAhead, Scope;
    match a
    case Draw(e, year) => DrawKeeps(s, e, year, n); hide Inv;
    case DrawIn(t, e, year) => DrawInKeeps(s, t, e, year, n); hide Inv;
    case Commit(t, kept) => CommitKeeps(s, t, kept, n); hide Inv;
    case Start(_) => NewTxAhead(s.values);
    case _ => RowsKeep(s, a, n); hide Inv;
  }

  lemma StartsReady(s: State)
    requires Ready(s)
    ensures Inv(s)
  {
  }

  lemma {:induction false} RunKeeps(run: seq<State>, i: nat)
    requires IsRun(run) && i < |run|
    ensures Inv(run[i])
  {
    hide Next, Inv;
    if i == 0 {
      StartsReady(run[0]);
    } else {
      RunKeeps(run, i - 1);
      assert Steps(run[i - 1], run[i]);
      var a :| Next(run[i - 1], a, run[i]);
      StepKeeps(run[i - 1], a, run[i]);
    }
  }

  // ---------------------------------------------------------------------------
  // No number is skipped
  // ---------------------------------------------------------------------------

  lemma SameScope(c: Code, d: Code)
    requires ScopeOf(c) == ScopeOf(d)
    ensures c.entity == d.entity && c.year == d.year
  {
    assert ScopeOf(c)[0] == ScopeName(c.entity)[0] && ScopeOf(d)[0] == ScopeName(d.entity)[0];
    assert Decimal(c.year) == ScopeOf(c)[|ScopeName(c.entity)| + 1..];
    assert Decimal(d.year) == ScopeOf(d)[|ScopeName(d.entity)| + 1..];
    DecimalReadsBack(c.year);
    DecimalReadsBack(d.year);
  }

  // A code's number lies after where its counter stood and up to where it stands.
  predicate Between(from: map<string, nat>, to: map<string, nat>, c: Code) {
    Current(from, ScopeOf(c)) < c.number <= Current(to, ScopeOf(c))
  }

  ghost predicate Consecutive(base: State, values: map<string, nat>, drawn: multiset<Code>) {
    && (forall scope :: Current(base.values, scope) <= Current(values, scope))
    && forall c :: c in drawn <==> c in base.drawn || Between(base.values, values, c)
  }

  // The same of what a transaction drew, past the committed counters.
  ghost predicate TxConsecutive(values: map<string, nat>, tx: Tx) {
    forall c :: c in tx.drawn <==> ScopeOf(c) in tx.values && Between(values, tx.values, c)
  }

  ghost predicate NoGaps(base: State, s: State) {
    Consecutive(base, s.values, s.drawn) && forall t :: t in s.txs ==> TxConsecutive(s.values, s.txs[t])
  }

  lemma NextConsecutive(base: State, values: map<string, nat>, drawn: multiset<Code>, code: Code)
    requires Consecutive(base, values, drawn) && code.number == Current(values, ScopeOf(code)) + 1
    ensures Consecutive(base, values[ScopeOf(code) := code.number], drawn + multiset{code})
  {
    hide Scope;
    var n := values[ScopeOf(code) := code.number];
    forall c ensures c in drawn + multiset{code} <==> c in base.drawn || Between(base.values, n, c) {
      if ScopeOf(c) == ScopeOf(code) { SameScope(c, code); }
    }
  }

  lemma OtherTxConsecutive(values: map<string, nat>, scope: string, number: nat, tx: Tx)
    requires TxConsecutive(values, tx) && scope !in tx.values
    ensures TxConsecutive(values[scope := number], tx)
  {
    hide Scope;
    forall c ensures c in tx.drawn <==> ScopeOf(c) in tx.values && Between(values[scope := number], tx.values, c) {
      if ScopeOf(c) in tx.values { assert ScopeOf(c) != scope; }
    }
  }

  lemma DrawInConsecutive(values: map<string, nat>, tx: Tx, code: Code)
    requires TxAhead(values, tx) && TxConsecutive(values, tx)
    requires code.number == Current(if ScopeOf(code) in tx.values then tx.values else values, ScopeOf(code)) + 1
    ensures TxConsecutive(values, WithDraw(tx, code))
  {
    hide Scope;
    var n := WithDraw(tx, code);
    forall c ensures c in n.drawn <==> ScopeOf(c) in n.values && Between(values, n.values, c) {
      if ScopeOf(c) == ScopeOf(code) { SameScope(c, code); }
    }
  }

  lemma CommitConsecutive(base: State, values: map<string, nat>, drawn: multiset<Code>, tx: Tx)
    requires Consecutive(base, values, drawn) && TxAhead(values, tx) && TxConsecutive(values, tx)
    ensures Consecutive(base, values + tx.values, drawn + tx.drawn)
  {
    hide Scope;
    var n := values + tx.values;
    forall scope ensures Current(base.values, scope) <= Current(n, scope) {
      assert Current(values, scope) <= Current(n, scope);
    }
    forall c ensures c in drawn + tx.drawn <==> c in base.drawn || Between(base.values, n, c) {
      assert Current(n, ScopeOf(c)) == if ScopeOf(c) in tx.values then tx.values[ScopeOf(c)] else Current(values, ScopeOf(c));
    }
  }

  lemma RaisedConsecutive(values: map<string, nat>, raised: map<string, nat>, tx: Tx)
    requires TxConsecutive(values, tx) && tx.values.Keys !! raised.Keys
    ensures TxConsecutive(values + raised, tx)
  {
    hide Scope;
    forall c ensures c in tx.drawn <==> ScopeOf(c) in tx.values && Between(values + raised, tx.values, c) {
      if ScopeOf(c) in tx.values { assert ScopeOf(c) !in raised; }
    }
  }

  lemma StepLeavesNoGaps(base: State, s: State, a: Action, n: State)
    requires Inv(s) && NoGaps(base, s) && Next(s, a, n)
    ensures NoGaps(base, n)
  {
    hide Consecutive, TxConsecutive, DrawnOnce, TxAhead, Scope;
    match a
    case Draw(e, year) =>
      NextConsecutive(base, s.values, s.drawn, NextCode(s.values, e, year));
      forall t | t in s.txs ensures TxConsecutive(n.values, s.txs[t]) {
        OtherTxConsecutive(s.values, Scope(e, year), NextCode(s.values, e, year).number, s.txs[t]);
      }
    case DrawIn(t, e, year) =>
      DrawInConsecutive(s.values, s.txs[t], NextCodeIn(s.values, s.txs[t], e, year));
    case Commit(t, _) =>
      CommitConsecutive(base, s.values, s.drawn, s.txs[t]);
      forall u | u in n.txs ensures TxConsecutive(n.values, n.txs[u]) {
        RaisedConsecutive(s.values, s.txs[t].values, s.txs[u]);
      }
    case Start(_) => NothingDrawn(s.values);
    case _ =>
  }

  lemma NothingDrawn(values: map<string, nat>)
    ensures TxConsecutive(values, Tx(map[], multiset{}))
  {
  }

  lemma {:induction false} NoGapsSoFar(run: seq<State>, i: nat)
    requires IsRun(run) && i < |run|
    ensures NoGaps(run[0], run[i])
  {
    hide Next, Inv;
    if i > 0 {
      NoGapsSoFar(run, i - 1);
      RunKeeps(run, i - 1);
      assert Steps(run[i - 1], run[i]);
      var a :| Next(run[i - 1], a, run[i]);
      hide NoGaps;
      StepLeavesNoGaps(run[0], run[i - 1], a, run[i]);
    }
  }

  // In every reachable state the codes handed out since the start are those of all the numbers the
  // counters have passed, none skipped by a rollback and none beyond.
  lemma NumbersAreConsecutive(run: seq<State>, i: nat, c: Code)
    requires IsRun(run) && i < |run|
    ensures c in run[i].drawn <==>
      c in run[0].drawn || Current(run[0].values, ScopeOf(c)) < c.number <= Current(run[i].values, ScopeOf(c))
    ensures c in run[i].drawn ==> run[i].drawn[c] == 1
  {
    hide Next, Scope;
    NoGapsSoFar(run, i);
    RunKeeps(run, i);
  }

  // Whatever the interleaving of draws, commits and rollbacks: no two rows carry the same text.
  lemma CodesNeverCollide(run: seq<State>, i: nat, c: Code, d: Code)
    requires IsRun(run) && i < |run| && c in run[i].rows && d in run[i].rows
    ensures run[i].rows[c] == 1
    ensures Format(c) == Format(d) <==> c == d
  {
    RunKeeps(run, i);
    if Format(c) == Format(d) { CodesDiffer(c, d); }
  }

  ghost predicate Retired(s: State, c: Code) {
    c in s.drawn && c !in s.rows && c !in s.unused
  }

  // A transaction holds no code that a committed draw handed out.
  lemma HeldIsNew(s: State, t: TxId, c: Code)
    requires Inv(s) && t in s.txs && c in s.txs[t].drawn
    ensures c !in s.drawn
  {
    assert TxAhead(s.values, s.txs[t]);
  }

  lemma RetiredStays(s: State, a: Action, n: State, c: Code)
    requires Inv(s) && Next(s, a, n) && Retired(s, c)
    ensures Retired(n, c)
  {
    if a.Commit? {
      forall d | d in a.kept ensures d !in s.drawn { HeldIsNew(s, a.tx, d); }
    }
    hide Inv, Scope;
  }

  // A code taken off a row, or drawn and thrown away by a commit, is never issued again.
  lemma {:induction false} DeletedCodesStayRetired(run: seq<State>, i: nat, j: nat, c: Code)
    requires IsRun(run) && i <= j < |run| && Retired(run[i], c)
    ensures Retired(run[j], c)
    decreases j
  {
    hide Retired, Inv, Next;
    if i < j {
      DeletedCodesStayRetired(run, i, j - 1, c);
      RunKeeps(run, j - 1);
      assert Steps(run[j - 1], run[j]);
      var a :| Next(run[j - 1], a, run[j]);
      RetiredStays(run[j - 1], a, run[j], c);
    }
  }

  lemma DeleteRetires(s: State, c: Code, n: State)
    requires Inv(s) && Next(s, Delete(c), n)
    ensures Retired(n, c)
  {
    assert s.drawn[c] == 1;
    assert (s.rows + s.unused)[c] <= s.drawn[c];
  }

  lemma SeededCode(values: map<string, nat>, codes: seq<string>, year: nat, number: nat)
    requires forall y :: y in YearsOf(codes) ==> Current(values, "farmer:" + y) >= HighWater(codes, y)
    requires 1000 <= year <= 9999 && Format(Code(FarmerCode, year, number)) in codes
    ensures number <= Current(values, Scope(FarmerCode, year))
  {
    hide HighWater, Current, Format, Decimal, PadStart;
    var s, y, n := Format(Code(FarmerCode, year, number)), Decimal(year), PadStart(Decimal(number), 5);
    FarmerCodeParts(year, number);
    FourDigits(year);
    PaddedReadsBack(number, 5);
    CodeShape(s, y, n);
    HighWaterBounds(codes, s);
    assert "farmer" + ":" + y == "farmer:" + y;
  }

  lemma CodeShape(s: string, y: string, n: string)
    requires s == "FARM-" + y + "-" + n && |y| == 4 && |n| >= 5 && AreDigits(y) && AreDigits(n)
    ensures IsFarmerCode(s) && s[5..9] == y && s[10..] == n
  {
    assert s[..5] == "FARM-";
    assert s[5..9] == y;
    assert s[10..] == n;
  }

  // Counters seeded from existing farmer codes are ahead of them all, so that a run may start there.
  lemma SeededIsReady(values: map<string, nat>, codes: seq<string>, rows: multiset<Code>)
    requires forall y :: y in YearsOf(codes) ==> Current(values, "farmer:" + y) >= HighWater(codes, y)
    requires forall c :: c in rows ==>
      c.entity == FarmerCode && 1000 <= c.year <= 9999 && rows[c] == 1 && Format(c) in codes
    ensures Ready(State(values, rows, multiset{}, rows, map[]))
  {
    hide YearsOf, HighWater, Current, Format, Scope;
    forall c | c in rows ensures c.number <= Current(values, ScopeOf(c)) {
      SeededCode(values, codes, c.year, c.number);
    }
  }
}
