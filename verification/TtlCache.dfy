/**
 A value kept in the database and cached in the process for `ttl` milliseconds, with an await
 between the miss and the fill: the permission matrix (15 s), the maintenance setting and each
 user's maintenance flag (10 s).
 */
module TtlCache {
  import opened Common

  // What the database has held, and since when.
  datatype Version<V> = Version(value: V, since: nat)

  // A copy read from the database: which version, and the instant of the read.  The code keeps the
  // value only; the two numbers say where it came from.
  datatype Copy = Copy(version: nat, readAt: nat)

  datatype Entry = Entry(copy: Copy, expiresAt: nat)

  // A call of the getter: `now` is its clock reading.
  datatype Call =
    | Missed(now: nat)                        // before the query
    | Holding(now: nat, copy: Copy)           // query answered, cache not filled yet
    | Answered(now: nat, until: nat, copy: Copy)

  datatype Cell<V> = Cell(history: seq<Version<V>>, clock: nat, cache: Option<Entry>, calls: map<nat, Call>)

  datatype Action<V> =
    | Tick(now: nat)
    | Begin(pid: nat)
    | Load(pid: nat)
    | Resume(pid: nat)
    | Write(value: V)
    | Invalidate

  // The entry a call started now may be answered from.
  predicate Fresh(cache: Option<Entry>, now: nat) {
    cache.Some? && cache.value.expiresAt > now
  }

  ghost predicate Next<V(!new)>(s: Cell<V>, ttl: nat, a: Action<V>, n: Cell<V>) {
    match a
    case Tick(now) =>
      now >= s.clock && n == s.(clock := now)
    case Begin(pid) =>
      && pid !in s.calls
      && n == s.(calls := s.calls[pid :=
           if Fresh(s.cache, s.clock) then Answered(s.clock, s.clock, s.cache.value.copy) else Missed(s.clock)])
    case Load(pid) =>
      && pid in s.calls && s.calls[pid].Missed? && s.history != []
      && n == s.(calls := s.calls[pid := Holding(s.calls[pid].now, Copy(|s.history| - 1, s.clock))])
    case Resume(pid) =>
      && pid in s.calls && s.calls[pid].Holding?
      && n == s.(cache := Some(Entry(s.calls[pid].copy, s.calls[pid].now + ttl)),
                 calls := s.calls[pid := Answered(s.calls[pid].now, s.clock, s.calls[pid].copy)])
    case Write(value) =>
      n == s.(history := s.history + [Version(value, s.clock)])
    case Invalidate =>
      n == s.(cache := None)
  }

  ghost predicate Steps<V(!new)>(s: Cell<V>, ttl: nat, n: Cell<V>) {
    exists a: Action<V> :: Next(s, ttl, a, n)
  }

  ghost predicate IsRun<V(!new)>(run: seq<Cell<V>>, ttl: nat) {
    run != [] && forall i :: 0 < i < |run| ==> Steps(run[i - 1], ttl, run[i])
  }

  function Start<V>(value: V, clock: nat): Cell<V> {
    Cell([Version(value, clock)], clock, None, map[])
  }

  // ---------------------------------------------------------------------------
  // Bounded staleness
  // ---------------------------------------------------------------------------

  // The version was what the database held at instant `at`.
  predicate HeldAt<V(!new)>(history: seq<Version<V>>, version: nat, at: nat) {
    && version < |history| && history[version].since <= at
    && (version + 1 < |history| ==> at <= history[version + 1].since)
  }

  predicate Genuine<V(!new)>(s: Cell<V>, copy: Copy) {
    copy.readAt <= s.clock && HeldAt(s.history, copy.version, copy.readAt)
  }

  predicate CallOk<V(!new)>(s: Cell<V>, ttl: nat, c: Call) {
    match c
    case Missed(now) => now <= s.clock
    case Holding(now, copy) => now <= copy.readAt && Genuine(s, copy)
    case Answered(now, until, copy) => now < copy.readAt + ttl && copy.readAt <= until <= s.clock && Genuine(s, copy)
  }

  ghost predicate Inv<V(!new)>(s: Cell<V>, ttl: nat) {
    && s.history != [] && s.history[|s.history| - 1].since <= s.clock
    && (s.cache.Some? ==> Genuine(s, s.cache.value.copy) && s.cache.value.expiresAt <= s.cache.value.copy.readAt + ttl)
    && forall pid :: pid in s.calls ==> CallOk(s, ttl, s.calls[pid])
  }

  lemma StepKeeps<V(!new)>(s: Cell<V>, ttl: nat, a: Action<V>, n: Cell<V>)
    requires ttl > 0 && Inv(s, ttl) && Next(s, ttl, a, n)
    ensures Inv(n, ttl)
  {
    forall pid | pid in n.calls ensures CallOk(n, ttl, n.calls[pid]) {
      if pid in s.calls { assert CallOk(s, ttl, s.calls[pid]); }
    }
  }

  lemma {:induction false} RunKeeps<V(!new)>(run: seq<Cell<V>>, ttl: nat, i: nat)
    requires ttl > 0 && IsRun(run, ttl) && Inv(run[0], ttl) && i < |run|
    ensures Inv(run[i], ttl)
  {
    if i > 0 {
      RunKeeps(run, ttl, i - 1);
      assert Steps(run[i - 1], ttl, run[i]);
      var a: Action<V> :| Next(run[i - 1], ttl, a, run[i]);
      StepKeeps(run[i - 1], ttl, a, run[i]);
    }
  }

  // Main theorem: whatever loads, writes and invalidations run in between, an answer is what the
  // database held at some instant less than `ttl` before the call read the clock, or during it.
  lemma BoundedStaleness<V(!new)>(run: seq<Cell<V>>, ttl: nat, value: V, clock: nat, i: nat, pid: nat)
    requires ttl > 0 && IsRun(run, ttl) && run[0] == Start(value, clock) && i < |run|
    requires pid in run[i].calls && run[i].calls[pid].Answered?
    ensures var c := run[i].calls[pid];
      exists at: nat :: c.now < at + ttl && at <= c.until && HeldAt(run[i].history, c.copy.version, at)
  {
    RunKeeps(run, ttl, i);
    assert CallOk(run[i], ttl, run[i].calls[pid]);
  }

  // ---------------------------------------------------------------------------
  // What invalidation guarantees
  // ---------------------------------------------------------------------------

  // A load that already holds an older version and would still be fresh when it fills the cache.
  ghost predicate Threat<V(!new)>(s: Cell<V>, ttl: nat, v: nat) {
    exists pid :: pid in s.calls && s.calls[pid].Holding? && s.calls[pid].copy.version < v && s.calls[pid].now + ttl > s.clock
  }

  // No entry, now or to come, brings back anything older than version v.
  ghost predicate UpToDate<V(!new)>(s: Cell<V>, ttl: nat, v: nat) {
    && |s.history| > v
    && (s.cache.Some? ==> s.cache.value.copy.version >= v || s.cache.value.expiresAt <= s.clock)
    && !Threat(s, ttl, v)
  }

  lemma StepStaysUpToDate<V(!new)>(s: Cell<V>, ttl: nat, a: Action<V>, n: Cell<V>, v: nat)
    requires UpToDate(s, ttl, v) && Next(s, ttl, a, n)
    ensures UpToDate(n, ttl, v)
  {
  }

  // Calls not begun yet when the run started.
  ghost predicate NewCallsUpToDate<V(!new)>(first: Cell<V>, s: Cell<V>, v: nat) {
    forall pid :: pid in s.calls && pid !in first.calls && !s.calls[pid].Missed? ==> s.calls[pid].copy.version >= v
  }

  lemma {:induction false} AnswersStayUpToDate<V(!new)>(run: seq<Cell<V>>, ttl: nat, v: nat, i: nat)
    requires IsRun(run, ttl) && UpToDate(run[0], ttl, v) && i < |run|
    ensures UpToDate(run[i], ttl, v) && NewCallsUpToDate(run[0], run[i], v)
    ensures forall pid :: pid in run[0].calls ==> pid in run[i].calls
  {
    if i > 0 {
      AnswersStayUpToDate(run, ttl, v, i - 1);
      assert Steps(run[i - 1], ttl, run[i]);
      var a: Action<V> :| Next(run[i - 1], ttl, a, run[i]);
      StepStaysUpToDate(run[i - 1], ttl, a, run[i], v);
      StepAnswers(run[0], run[i - 1], ttl, a, run[i], v);
    }
  }

  lemma StepAnswers<V(!new)>(first: Cell<V>, s: Cell<V>, ttl: nat, a: Action<V>, n: Cell<V>, v: nat)
    requires UpToDate(s, ttl, v) && NewCallsUpToDate(first, s, v) && Next(s, ttl, a, n)
    ensures NewCallsUpToDate(first, n, v)
  {
    hide Threat;
  }

  // A call begun in some continuation of `s` is answered with something older than v.
  ghost predicate CanServeOlder<V(!new)>(s: Cell<V>, ttl: nat, v: nat) {
    exists run: seq<Cell<V>>, i: nat, pid: nat ::
      && IsRun(run, ttl) && run[0] == s && i < |run|
      && pid in run[i].calls && pid !in s.calls && run[i].calls[pid].Answered? && run[i].calls[pid].copy.version < v
  }

  // After an invalidation every call begun from then on reflects version v or a newer one exactly
  // when no load is holding an older version that has not expired yet, whatever the cache held.
  lemma InvalidationIsEffective<V(!new)>(s: Cell<V>, ttl: nat, n: Cell<V>, v: nat)
    requires Next(s, ttl, Invalidate, n) && v < |n.history|
    ensures !CanServeOlder(n, ttl, v) <==> !Threat(n, ttl, v)
    ensures Threat(n, ttl, v) <==> Threat(s, ttl, v)
  {
    if !Threat(n, ttl, v) {
      forall run: seq<Cell<V>>, i: nat, pid: nat
        | IsRun(run, ttl) && run[0] == n && i < |run| && pid in run[i].calls && pid !in n.calls && run[i].calls[pid].Answered?
        ensures run[i].calls[pid].copy.version >= v
      {
        AnswersStayUpToDate(run, ttl, v, i);
      }
    } else {
      LateFillIsServed(n, ttl, v);
    }
  }

  lemma {:induction false} HistoryGrows<V(!new)>(run: seq<Cell<V>>, ttl: nat, i: nat)
    requires IsRun(run, ttl) && i < |run|
    ensures run[0].history <= run[i].history
  {
    if i > 0 {
      HistoryGrows(run, ttl, i - 1);
      assert Steps(run[i - 1], ttl, run[i]);
      var a: Action<V> :| Next(run[i - 1], ttl, a, run[i]);
    }
  }

  // A write, anything at all, then the invalidation: calls begun afterwards reflect that write or a
  // newer one exactly when no load that read before the write is still to fill the cache with time left.
  lemma WriteThenInvalidate<V(!new)>(s: Cell<V>, ttl: nat, value: V, run: seq<Cell<V>>, n: Cell<V>)
    requires IsRun(run, ttl) && Next(s, ttl, Write(value), run[0]) && Next(run[|run| - 1], ttl, Invalidate, n)
    ensures |n.history| > |s.history| && n.history[|s.history|].value == value
    ensures !CanServeOlder(n, ttl, |s.history|) <==> !Threat(n, ttl, |s.history|)
  {
    HistoryGrows(run, ttl, |run| - 1);
    InvalidationIsEffective(run[|run| - 1], ttl, n, |s.history|);
  }

  // A step that neither drops nor fills the entry.
  ghost predicate KeepsEntry<V(!new)>(s: Cell<V>, ttl: nat, n: Cell<V>) {
    exists a: Action<V> :: Next(s, ttl, a, n) && !a.Invalidate? && !a.Resume?
  }

  lemma {:induction false} EntryStays<V(!new)>(run: seq<Cell<V>>, ttl: nat, i: nat)
    requires i < |run| && forall k :: 0 < k < |run| ==> KeepsEntry(run[k - 1], ttl, run[k])
    ensures run[i].cache == run[0].cache
  {
    if i > 0 {
      EntryStays(run, ttl, i - 1);
      assert KeepsEntry(run[i - 1], ttl, run[i]);
    }
  }

  // What a load returned answers every call of the next `ttl`, counted from the start of the call
  // that loaded it, at once and without another load, unless the entry is dropped or filled again.
  lemma FillIsServed<V(!new)>(s: Cell<V>, ttl: nat, pid: nat, run: seq<Cell<V>>, q: nat, n: Cell<V>)
    requires run != [] && Next(s, ttl, Resume(pid), run[0])
    requires forall k :: 0 < k < |run| ==> KeepsEntry(run[k - 1], ttl, run[k])
    requires Next(run[|run| - 1], ttl, Begin(q), n) && n.clock < s.calls[pid].now + ttl
    ensures run[0].calls[pid].Answered? && run[0].calls[pid].copy == s.calls[pid].copy
    ensures n.calls[q] == Answered(n.clock, n.clock, s.calls[pid].copy)
  {
    EntryStays(run, ttl, |run| - 1);
  }

  // The late fill undoes the invalidation: the next call is served the old version.
  lemma LateFillIsServed<V(!new)>(s: Cell<V>, ttl: nat, v: nat)
    requires Threat(s, ttl, v)
    ensures CanServeOlder(s, ttl, v)
  {
    var pid :| pid in s.calls && s.calls[pid].Holding? && s.calls[pid].copy.version < v && s.calls[pid].now + ttl > s.clock;
    var caller := FreshPid(s.calls);
    var entry := Entry(s.calls[pid].copy, s.calls[pid].now + ttl);
    var filled := s.(cache := Some(entry), calls := s.calls[pid := Answered(s.calls[pid].now, s.clock, s.calls[pid].copy)]);
    var served := filled.(calls := filled.calls[caller := Answered(s.clock, s.clock, entry.copy)]);
    assert Next(s, ttl, Resume(pid), filled) && Next(filled, ttl, Begin(caller), served);
    var run := [s, filled, served];
    assert Steps(run[0], ttl, run[1]) && Steps(run[1], ttl, run[2]);
    assert IsRun(run, ttl);
    assert run[2].calls[caller].copy.version < v;
  }

  // Such a state does arise: a call misses and reads, then a write commits and invalidates.
  lemma ThreatArises<V(!new)>(ttl: nat, value: V, next: V, clock: nat)
    requires ttl > 0
    ensures exists run: seq<Cell<V>> ::
      && IsRun(run, ttl) && run[0] == Start(value, clock)
      && var s := run[|run| - 1];
         s.cache == None && s.history == [Version(value, clock), Version(next, clock)] && Threat(s, ttl, 1)
  {
    var a := Start(value, clock);
    var b := a.(calls := map[0 := Missed(clock)]);
    var c := b.(calls := map[0 := Holding(clock, Copy(0, clock))]);
    var d := c.(history := a.history + [Version(next, clock)]);
    assert Next(a, ttl, Begin(0), b);
    assert Next(b, ttl, Load(0), c);
    assert Next(c, ttl, Write(next), d);
    assert Next(d, ttl, Invalidate, d);
    var run := [a, b, c, d, d];
    assert Steps(run[0], ttl, run[1]) && Steps(run[1], ttl, run[2]) && Steps(run[2], ttl, run[3]) && Steps(run[3], ttl, run[4]);
    assert IsRun(run, ttl);
    assert 0 in d.calls && d.calls[0].Holding?;
    assert Threat(run[4], ttl, 1);
  }

  lemma FreshPid(calls: map<nat, Call>) returns (pid: nat)
    ensures pid !in calls
  {
    pid := Bound(calls.Keys);
  }

  lemma {:induction false} Bound(keys: set<nat>) returns (bound: nat)
    ensures forall k :: k in keys ==> k < bound
    decreases |keys|
  {
    if keys == {} {
      bound := 0;
    } else {
      var k :| k in keys;
      var rest := Bound(keys - {k});
      bound := if k < rest then rest else k + 1;
      assert forall j :: j in keys ==> j == k || j in keys - {k};
    }
  }

  // ---------------------------------------------------------------------------
  // The service's own statements between two awaits
  // ---------------------------------------------------------------------------

  class Cache<V(!new)> {
    const ttl: nat
    var history: seq<Version<V>>
    var clock: nat
    var entry: Option<Entry>
    var calls: map<nat, Call>

    constructor (ttl: nat, value: V, clock: nat)
      ensures State() == Start(value, clock) && this.ttl == ttl
    {
      this.ttl := ttl;
      this.clock := clock;
      history, entry, calls := [Version(value, clock)], None, map[];
    }

    function State(): Cell<V>
      reads this
    {
      Cell(history, clock, entry, calls)
    }

    // getMatrix up to its await
    method BeginGet(pid: nat) returns (hit: bool)
      requires pid !in calls
      modifies this
      ensures Next(old(State()), ttl, Begin(pid), State())
      ensures hit <==> old(entry).Some? && old(entry).value.expiresAt > clock
      ensures entry == old(entry) && clock == old(clock) && history == old(history)
      ensures calls == old(calls)[pid := if hit then Answered(clock, clock, entry.value.copy) else Missed(clock)]
    {
      var now := clock;
      if entry.Some? && entry.value.expiresAt > now {
        calls := calls[pid := Answered(now, clock, entry.value.copy)];
        return true;
      }
      calls := calls[pid := Missed(now)];
      return false;
    }

    // getMatrix after its await
    method FinishGet(pid: nat) returns (copy: Copy)
      requires pid in calls && calls[pid].Holding?
      modifies this
      ensures Next(old(State()), ttl, Resume(pid), State())
      ensures copy == old(calls[pid].copy)
      ensures entry == Some(Entry(copy, old(calls[pid].now) + ttl)) && clock == old(clock) && history == old(history)
      ensures calls == old(calls)[pid := Answered(old(calls[pid].now), clock, copy)]
    {
      copy := calls[pid].copy;
      entry := Some(Entry(copy, calls[pid].now + ttl));
      calls := calls[pid := Answered(calls[pid].now, clock, copy)];
    }

    method InvalidateEntry()
      modifies this
      ensures Next(old(State()), ttl, Invalidate, State())
      ensures entry == None
      ensures clock == old(clock) && history == old(history) && calls == old(calls)
    {
      entry := None;
    }
  }
}
