/**
 The dashboard's activity feed: five streams, each capped at `limit` by its query, merged newest
 first and cut at `limit` again.
 */
module ActivityFeed {
  import Sorting

  datatype Kind = DeliveryRecorded | BatchCreated | ProcessingStarted | WarehouseStored | OwnershipTransferred

  datatype Item = Item(id: nat, kind: Kind, at: nat)

  function Min(a: nat, b: nat): nat {
    if a <= b then a else b
  }

  // ---------------------------------------------------------------------------
  // Two orders
  // ---------------------------------------------------------------------------

  function ByTime(): Item -> int {
    (x: Item) => x.at
  }

  // The place of a kind's stream in the merge.
  function Stream(kind: Kind): nat {
    match kind
    case DeliveryRecorded => 0
    case BatchCreated => 1
    case ProcessingStarted => 2
    case WarehouseStored => 3
    case OwnershipTransferred => 4
  }

  // Newer first, and at one instant the earlier stream first.
  function ByPlace(): Item -> int {
    (x: Item) => 5 * x.at + 4 - Stream(x.kind)
  }

  ghost predicate Descending(items: seq<Item>, key: Item -> int) {
    forall i, j :: 0 <= i < j < |items| ==> key(items[i]) >= key(items[j])
  }

  // `out` lists the k greatest of these, greatest first.
  ghost predicate IsTop(items: multiset<Item>, key: Item -> int, k: nat, out: seq<Item>) {
    && Descending(out, key)
    && multiset(out) <= items
    && |out| == Min(k, |items|)
    && forall x, y :: x in items - multiset(out) && y in out ==> key(x) <= key(y)
  }

  // ---------------------------------------------------------------------------
  // The feed
  // ---------------------------------------------------------------------------

  function Flatten(streams: seq<seq<Item>>): seq<Item> {
    if streams == [] then [] else streams[0] + Flatten(streams[1..])
  }

  // The streams one after the other, sorted newest first, ties as they were.
  function Merged(capped: seq<seq<Item>>): seq<Item> {
    Sorting.SortBy(Flatten(capped), (x: Item) => -(x.at as int))
  }

  function Feed(capped: seq<seq<Item>>, limit: nat): seq<Item> {
    Merged(capped)[..Min(limit, |Merged(capped)|)]
  }

  // Everything the five queries would return without their caps.
  function Union(sources: seq<multiset<Item>>): multiset<Item> {
    if sources == [] then multiset{} else sources[0] + Union(sources[1..])
  }

  ghost predicate CappedBy(sources: seq<multiset<Item>>, capped: seq<seq<Item>>, key: Item -> int, limit: nat) {
    |capped| == |sources| && forall i :: 0 <= i < |sources| ==> IsTop(sources[i], key, limit, capped[i])
  }

  // What the queries return: each the newest `limit` of its stream.
  ghost predicate Capped(sources: seq<multiset<Item>>, capped: seq<seq<Item>>, limit: nat) {
    CappedBy(sources, capped, ByTime(), limit)
  }

  lemma CappedTail(sources: seq<multiset<Item>>, capped: seq<seq<Item>>, key: Item -> int, limit: nat)
    requires CappedBy(sources, capped, key, limit) && sources != []
    ensures IsTop(sources[0], key, limit, capped[0]) && CappedBy(sources[1..], capped[1..], key, limit)
  {
    forall i | 0 <= i < |sources[1..]| ensures IsTop(sources[1..][i], key, limit, capped[1..][i]) {
      assert IsTop(sources[i + 1], key, limit, capped[i + 1]);
    }
  }

  lemma PartOf(part: multiset<Item>, whole: multiset<Item>)
    requires part <= whole
    ensures |part| <= |whole| && (|part| == |whole| ==> part == whole)
  {
    assert whole == part + (whole - part);
    assert |part| == |whole| ==> |whole - part| == 0;
  }

  // The merged list is part of the whole, and is the whole unless it already has `limit` items.
  lemma {:induction false} MergedEnough(sources: seq<multiset<Item>>, capped: seq<seq<Item>>, key: Item -> int, limit: nat)
    requires CappedBy(sources, capped, key, limit)
    ensures multiset(Flatten(capped)) <= Union(sources)
    ensures |Flatten(capped)| >= limit || multiset(Flatten(capped)) == Union(sources)
    decreases |sources|
  {
    if sources != [] {
      CappedTail(sources, capped, key, limit);
      MergedEnough(sources[1..], capped[1..], key, limit);
      if |capped[0]| < limit { PartOf(multiset(capped[0]), sources[0]); }
    }
  }

  // Whatever the caps left out, some full stream of greater items stands for it.
  lemma {:induction false} LeftOutBy(
    sources: seq<multiset<Item>>, capped: seq<seq<Item>>, key: Item -> int, limit: nat, x: Item)
    returns (i: nat)
    requires CappedBy(sources, capped, key, limit) && x in Union(sources) - multiset(Flatten(capped))
    ensures i < |capped| && |capped[i]| == limit && multiset(capped[i]) <= multiset(Flatten(capped))
    ensures forall z :: z in capped[i] ==> key(x) <= key(z)
    decreases |sources|
  {
    CappedTail(sources, capped, key, limit);
    if x in sources[0] - multiset(capped[0]) {
      i := 0;
      assert sources[0] == multiset(capped[0]) + (sources[0] - multiset(capped[0]));
      assert |sources[0]| > |capped[0]|;
    } else {
      var j := LeftOutBy(sources[1..], capped[1..], key, limit, x);
      i := j + 1;
    }
  }

  lemma CutSorted(merged: seq<Item>, key: Item -> int, n: nat)
    requires Descending(merged, key) && n <= |merged|
    ensures Descending(merged[..n], key) && multiset(merged) == multiset(merged[..n]) + multiset(merged[n..])
    ensures forall x, y :: x in merged[n..] && y in merged[..n] ==> key(x) <= key(y)
  {
    assert merged == merged[..n] + merged[n..];
    forall x, y | x in merged[n..] && y in merged[..n] ensures key(x) <= key(y) {
      var j :| 0 <= j < |merged[n..]| && merged[n..][j] == x;
      var i :| 0 <= i < n && merged[..n][i] == y;
      assert key(merged[i]) >= key(merged[n + j]);
    }
  }

  lemma SortedFeed(capped: seq<seq<Item>>, key: Item -> int, limit: nat) returns (rest: seq<Item>)
    requires Descending(Merged(capped), key)
    ensures Descending(Feed(capped, limit), key)
    ensures |Feed(capped, limit)| == Min(limit, |Flatten(capped)|)
    ensures multiset(Flatten(capped)) == multiset(Feed(capped, limit)) + multiset(rest)
    ensures forall x, y :: x in rest && y in Feed(capped, limit) ==> key(x) <= key(y)
  {
    var merged := Merged(capped);
    Sorting.SortSorts(Flatten(capped), (x: Item) => -(x.at as int));
    Sorting.SameCount(merged, Flatten(capped));
    var n := Min(limit, |merged|);
    CutSorted(merged, key, n);
    rest := merged[n..];
  }

  // A full stream of items greater than x keeps anything smaller than x out of the feed.
  lemma NothingGreaterCut(stream: seq<Item>, key: Item -> int, feed: seq<Item>, rest: seq<Item>, x: Item, y: Item)
    requires multiset(stream) <= multiset(feed) + multiset(rest) && |stream| >= |feed| && y in feed
    requires forall z :: z in stream ==> key(x) <= key(z)
    requires forall r :: r in rest ==> key(r) <= key(y)
    ensures key(x) <= key(y)
  {
    if z :| z in stream && z in rest {
      assert key(x) <= key(z) <= key(y);
    } else {
      forall z ensures multiset(stream)[z] <= multiset(feed)[z] {
        assert z in multiset(stream) ==> z in stream;
        assert z in multiset(rest) ==> z in rest;
      }
      PartOf(multiset(stream), multiset(feed));
      assert y in multiset(stream);
    }
  }

  // Capping each stream by an order, merging by it and cutting gives the top of everything.
  lemma CapsLoseNothing(sources: seq<multiset<Item>>, capped: seq<seq<Item>>, key: Item -> int, limit: nat)
    requires CappedBy(sources, capped, key, limit) && Descending(Merged(capped), key)
    ensures IsTop(Union(sources), key, limit, Feed(capped, limit))
  {
    var feed, all := Feed(capped, limit), Union(sources);
    var rest := SortedFeed(capped, key, limit);
    MergedEnough(sources, capped, key, limit);
    PartOf(multiset(Flatten(capped)), all);
    hide CappedBy, Feed, Union, Descending;
    forall x, y | x in all - multiset(feed) && y in feed ensures key(x) <= key(y) {
      if x !in rest {
        assert x in all - multiset(Flatten(capped));
        var i := LeftOutBy(sources, capped, key, limit, x);
        NothingGreaterCut(capped[i], key, feed, rest, x, y);
      }
    }
  }

  lemma MergedByTime(capped: seq<seq<Item>>)
    ensures Descending(Merged(capped), ByTime())
  {
    var key := (x: Item) => -(x.at as int);
    var merged := Merged(capped);
    Sorting.SortSorts(Flatten(capped), key);
    forall i, j | 0 <= i < j < |merged| ensures ByTime()(merged[i]) >= ByTime()(merged[j]) {
      assert key(merged[i]) <= key(merged[j]);
    }
  }

  // Main theorem: capping each stream first loses nothing.  The feed is the newest `limit` of
  // everything.
  lemma FeedLosesNothing(sources: seq<multiset<Item>>, capped: seq<seq<Item>>, limit: nat)
    requires Capped(sources, capped, limit)
    ensures IsTop(Union(sources), ByTime(), limit, Feed(capped, limit))
  {
    MergedByTime(capped);
    CapsLoseNothing(sources, capped, ByTime(), limit);
  }

  // ---------------------------------------------------------------------------
  // Ties
  // ---------------------------------------------------------------------------

  // Each query returns items of its own kind.
  ghost predicate OneKindEach(sources: seq<multiset<Item>>) {
    forall i: nat, x: Item :: i < |sources| && x in sources[i] ==> Stream(x.kind) == i
  }

  ghost predicate InStreamOrder(items: seq<Item>) {
    forall i, j :: 0 <= i < j < |items| ==> Stream(items[i].kind) <= Stream(items[j].kind)
  }

  lemma InFront(x: Item, items: seq<Item>, key: Item -> int)
    requires Descending(items, key) && (items != [] ==> key(x) >= key(items[0]))
    ensures Descending([x] + items, key)
  {
  }

  lemma PlaceAhead(x: Item, y: Item)
    requires x.at > y.at || (x.at == y.at && Stream(x.kind) <= Stream(y.kind))
    ensures ByPlace()(x) >= ByPlace()(y)
  {
  }

  lemma {:induction false} InsertKeepsPlaces(x: Item, items: seq<Item>)
    requires Descending(items, ByPlace()) && forall y :: y in items ==> Stream(x.kind) <= Stream(y.kind)
    ensures Descending(Sorting.Insert(x, items, (y: Item) => -(y.at as int)), ByPlace())
    decreases |items|
  {
    var key := (y: Item) => -(y.at as int);
    if items == [] || key(x) <= key(items[0]) {
      if items != [] { PlaceAhead(x, items[0]); }
      InFront(x, items, ByPlace());
    } else {
      var rest := Sorting.Insert(x, items[1..], key);
      InsertKeepsPlaces(x, items[1..]);
      PlaceAhead(items[0], x);
      assert rest[0] == x || rest[0] == items[1];
      hide Descending;
      assert Descending(items, ByPlace()) ==> items[1..] == [] || ByPlace()(items[0]) >= ByPlace()(items[1]) by { SecondIsBehind(items); }
      InFront(items[0], rest, ByPlace());
    }
  }

  lemma SecondIsBehind(items: seq<Item>)
    ensures Descending(items, ByPlace()) && |items| > 1 ==> ByPlace()(items[0]) >= ByPlace()(items[1])
  {
  }

  // The sort is stable: what ties keeps the order of the streams.
  lemma {:induction false} SortKeepsPlaces(items: seq<Item>)
    requires InStreamOrder(items)
    ensures Descending(Sorting.SortBy(items, (y: Item) => -(y.at as int)), ByPlace())
    decreases |items|
  {
    if items != [] {
      var key := (y: Item) => -(y.at as int);
      SortKeepsPlaces(items[1..]);
      Sorting.SortSorts(items[1..], key);
      Sorting.SameMembers(Sorting.SortBy(items[1..], key), items[1..]);
      InsertKeepsPlaces(items[0], Sorting.SortBy(items[1..], key));
    }
  }

  lemma {:induction false} StreamsInOrder(capped: seq<seq<Item>>, from: nat)
    requires forall i: nat, x: Item :: i < |capped| && x in capped[i] ==> Stream(x.kind) == from + i
    ensures InStreamOrder(Flatten(capped))
    ensures forall x :: x in Flatten(capped) ==> Stream(x.kind) >= from
    decreases |capped|
  {
    if capped != [] {
      var rest := capped[1..];
      forall i: nat, x: Item | i < |rest| && x in rest[i] ensures Stream(x.kind) == from + 1 + i {
        assert rest[i] == capped[i + 1];
      }
      StreamsInOrder(rest, from + 1);
      assert forall x :: x in capped[0] ==> Stream(x.kind) == from + 0;
    }
  }

  lemma CapsByPlace(sources: seq<multiset<Item>>, capped: seq<seq<Item>>, limit: nat)
    requires Capped(sources, capped, limit) && OneKindEach(sources)
    ensures CappedBy(sources, capped, ByPlace(), limit)
    ensures forall i: nat, x: Item :: i < |capped| && x in capped[i] ==> Stream(x.kind) == i
  {
    forall i | 0 <= i < |sources|
      ensures IsTop(sources[i], ByPlace(), limit, capped[i])
      ensures forall x :: x in capped[i] ==> Stream(x.kind) == i
    {
      OneKindOrder(sources[i], capped[i], limit, i);
    }
  }

  // Within one stream the two orders are the same.
  lemma OneKindOrder(items: multiset<Item>, out: seq<Item>, limit: nat, i: nat)
    requires IsTop(items, ByTime(), limit, out) && forall x :: x in items ==> Stream(x.kind) == i
    ensures IsTop(items, ByPlace(), limit, out) && forall x :: x in out ==> Stream(x.kind) == i
  {
    forall x | x in out ensures x in items { assert x in multiset(out); }
    forall j, k | 0 <= j < k < |out| ensures ByPlace()(out[j]) >= ByPlace()(out[k]) {
      assert ByTime()(out[j]) >= ByTime()(out[k]);
    }
    forall x, y | x in items - multiset(out) && y in out ensures ByPlace()(x) <= ByPlace()(y) {
      assert ByTime()(x) <= ByTime()(y);
    }
  }

  // Ties included: the feed is the top of everything, newer first and the earlier stream first.
  lemma FeedInOrder(sources: seq<multiset<Item>>, capped: seq<seq<Item>>, limit: nat)
    requires Capped(sources, capped, limit) && OneKindEach(sources)
    ensures IsTop(Union(sources), ByPlace(), limit, Feed(capped, limit))
  {
    CapsByPlace(sources, capped, limit);
    StreamsInOrder(capped, 0);
    SortKeepsPlaces(Flatten(capped));
    CapsLoseNothing(sources, capped, ByPlace(), limit);
  }

  // ---------------------------------------------------------------------------
  // What the caps do not do
  // ---------------------------------------------------------------------------

  // At least `limit` items of the busy kind come before y.
  ghost predicate Outnumbered(all: multiset<Item>, busy: Kind, limit: nat, y: Item) {
    exists ahead: multiset<Item> ::
      ahead <= all && |ahead| == limit && forall x :: x in ahead ==> x.kind == busy && ByPlace()(x) > ByPlace()(y)
  }

  lemma OutnumberedIsCut(all: multiset<Item>, busy: Kind, limit: nat, feed: seq<Item>, y: Item)
    requires IsTop(all, ByPlace(), limit, feed) && Outnumbered(all, busy, limit, y) && y.kind != busy
    ensures y !in feed
  {
    var ahead: multiset<Item> :|
      ahead <= all && |ahead| == limit && forall x :: x in ahead ==> x.kind == busy && ByPlace()(x) > ByPlace()(y);
    if z :| ahead[z] > multiset(feed)[z] {
      assert z in all - multiset(feed);
      assert forall q :: q in feed ==> ByPlace()(z) <= ByPlace()(q);
      assert z in ahead;
    } else {
      PartOf(ahead, multiset(feed));
      assert forall q :: q in feed ==> q in multiset(feed);
      assert forall q :: q in feed ==> q in ahead;
    }
  }

  // Items of two kinds never share a place.
  lemma PlacesDiffer(x: Item, y: Item)
    requires x.kind != y.kind
    ensures ByPlace()(x) != ByPlace()(y)
  {
  }

  // A feed of busy items only is itself the `limit` that come before anything left out.
  lemma CutIsOutnumbered(all: multiset<Item>, busy: Kind, limit: nat, feed: seq<Item>, y: Item)
    requires IsTop(all, ByPlace(), limit, feed) && y in all && y.kind != busy
    requires forall x :: x in feed ==> x.kind == busy
    ensures Outnumbered(all, busy, limit, y)
  {
    assert y !in feed;
    assert y in all - multiset(feed);
    assert all == multiset(feed) + (all - multiset(feed));
    assert |all| > |feed|;
    assert multiset(feed) <= all && |multiset(feed)| == limit;
    forall x | x in multiset(feed) ensures x.kind == busy && ByPlace()(x) > ByPlace()(y) {
      assert x in feed;
      PlacesDiffer(x, y);
    }
  }

  // The caps do not keep a busy stream from crowding the others out.  Exactly when: every item of
  // another kind has `limit` items of the busy kind before it.
  lemma BusyStreamCrowdsOut(sources: seq<multiset<Item>>, capped: seq<seq<Item>>, limit: nat, busy: Kind)
    requires Capped(sources, capped, limit) && OneKindEach(sources)
    ensures (forall y :: y in Feed(capped, limit) ==> y.kind == busy) <==>
      (forall y :: y in Union(sources) && y.kind != busy ==> Outnumbered(Union(sources), busy, limit, y))
  {
    FeedInOrder(sources, capped, limit);
    hide Feed, Union, Capped, Outnumbered;
    var feed, all := Feed(capped, limit), Union(sources);
    forall x | x in feed ensures x in all { assert x in multiset(feed); }
    if forall y :: y in feed ==> y.kind == busy {
      forall y | y in all && y.kind != busy ensures Outnumbered(all, busy, limit, y) {
        CutIsOutnumbered(all, busy, limit, feed, y);
      }
    }
    if forall y :: y in all && y.kind != busy ==> Outnumbered(all, busy, limit, y) {
      forall y | y in feed ensures y.kind == busy {
        if y.kind != busy {
          OutnumberedIsCut(all, busy, limit, feed, y);
        }
      }
    }
  }

  function Nothing(n: nat): seq<seq<Item>> { seq(n, _ => []) }

  lemma {:induction false} NothingFlattened(n: nat)
    ensures Flatten(Nothing(n)) == []
  {
    if n > 0 {
      assert Nothing(n)[1..] == Nothing(n - 1);
      NothingFlattened(n - 1);
    }
  }

  const LATE := Item(1, DeliveryRecorded, 3)
  const NEXT := Item(2, DeliveryRecorded, 2)
  const OLD := Item(3, BatchCreated, 1)

  lemma SortedExample()
    ensures Sorting.SortBy([LATE, NEXT, OLD], (x: Item) => -(x.at as int)) == [LATE, NEXT, OLD]
  {
    var key := (x: Item) => -(x.at as int);
    assert [LATE, NEXT, OLD][1..] == [NEXT, OLD] && [NEXT, OLD][1..] == [OLD];
    assert Sorting.SortBy([OLD], key) == [OLD];
    assert Sorting.SortBy([NEXT, OLD], key) == [NEXT, OLD];
  }

  lemma FlattenedExample()
    ensures Flatten([[LATE, NEXT], [OLD], [], [], []]) == [LATE, NEXT, OLD]
  {
    var capped := [[LATE, NEXT], [OLD], [], [], []];
    NothingFlattened(3);
    assert capped[1..][1..] == Nothing(3);
    assert Flatten(capped[1..]) == [OLD];
  }

  lemma CappedExample()
    ensures Capped([multiset{LATE, NEXT}, multiset{OLD}, multiset{}, multiset{}, multiset{}],
                   [[LATE, NEXT], [OLD], [], [], []], 2)
  {
    assert multiset([LATE, NEXT]) == multiset{LATE, NEXT} && multiset([OLD]) == multiset{OLD};
    assert IsTop(multiset{LATE, NEXT}, ByTime(), 2, [LATE, NEXT]);
    assert IsTop(multiset{OLD}, ByTime(), 2, [OLD]);
    assert IsTop(multiset{}, ByTime(), 2, []);
  }

  // Two deliveries and an older batch, with room for two: the batch is not shown.
  lemma TwoDeliveriesHideABatch()
    ensures var sources := [multiset{LATE, NEXT}, multiset{OLD}, multiset{}, multiset{}, multiset{}];
      var capped := [[LATE, NEXT], [OLD], [], [], []];
      && Capped(sources, capped, 2) && OneKindEach(sources)
      && OLD in Union(sources)
      && Feed(capped, 2) == [LATE, NEXT]
  {
    hide Capped, Flatten;
    CappedExample();
    FlattenedExample();
    SortedExample();
  }
}
