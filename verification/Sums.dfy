// Finite sums over table columns: the model of SQL's SUM and of `reduce` over query results.
module Sums {
  // The sum of all values of a map.
  ghost function Sum<K(!new)>(m: map<K, nat>): nat
    decreases |m|
  {
    if m == map[] then 0
    else
      var k :| k in m;
      m[k] + Sum(m - {k})
  }

  // The sum does not depend on the order in which keys are visited.
  lemma {:induction false} SumRemove<K(!new)>(m: map<K, nat>, k: K)
    requires k in m
    ensures Sum(m) == m[k] + Sum(m - {k})
    decreases |m|
  {
    var j :| j in m && Sum(m) == m[j] + Sum(m - {j});
    if j != k {
      SumRemove(m - {j}, k);
      SumRemove(m - {k}, j);
      assert m - {j} - {k} == m - {k} - {j};
    }
  }

  lemma SumInsert<K(!new)>(m: map<K, nat>, k: K, v: nat)
    requires k !in m
    ensures Sum(m[k := v]) == Sum(m) + v
  {
    SumRemove(m[k := v], k);
    assert m[k := v] - {k} == m;
  }

  lemma UnionOneMore<K(!new)>(m: map<K, nat>, n: map<K, nat>, k: K)
    requires k in n
    ensures m + n == (m + (n - {k}))[k := n[k]]
  {
  }

  lemma {:induction false} SumUnion<K(!new)>(m: map<K, nat>, n: map<K, nat>)
    requires forall k :: k in m ==> k !in n
    ensures Sum(m + n) == Sum(m) + Sum(n)
    decreases |n|
  {
    if n == map[] {
      assert m + n == m;
    } else {
      var k :| k in n;
      UnionOneMore(m, n, k);
      SumUnion(m, n - {k});
      SumInsert(m + (n - {k}), k, n[k]);
      SumRemove(n, k);
    }
  }

  // Dropping rows, or lowering values, never raises the sum.
  lemma {:induction false} SumMonotone<K(!new)>(m: map<K, nat>, n: map<K, nat>)
    requires forall k :: k in m ==> k in n && m[k] <= n[k]
    ensures Sum(m) <= Sum(n)
    decreases |m|
  {
    if m != map[] {
      var k :| k in m;
      SumRemove(m, k);
      SumRemove(n, k);
      SumMonotone(m - {k}, n - {k});
    }
  }

  lemma {:induction false} SumZero<K(!new)>(m: map<K, nat>)
    ensures Sum(m) == 0 <==> forall k :: k in m ==> m[k] == 0
    decreases |m|
  {
    if m != map[] {
      var k :| k in m;
      SumRemove(m, k);
      SumZero(m - {k});
      assert forall j :: j in m ==> j == k || j in m - {k};
    }
  }

  // Grouping: a total is the sum of its groups' totals.
  function GroupOf<K(!new), J(!new, ==)>(m: map<K, nat>, owner: map<K, J>, j: J): map<K, nat>
    requires m.Keys <= owner.Keys
  {
    map k | k in m && owner[k] == j :: m[k]
  }

  ghost function GroupTotals<K(!new), J(!new)>(m: map<K, nat>, owner: map<K, J>, groups: set<J>): map<J, nat>
    requires m.Keys <= owner.Keys
  {
    map j | j in groups :: Sum(GroupOf(m, owner, j))
  }

  lemma GroupsWithout<K(!new), J(!new)>(m: map<K, nat>, owner: map<K, J>, groups: set<J>, k: K)
    requires m.Keys <= owner.Keys && k in m && owner[k] in groups
    ensures Sum(GroupTotals(m, owner, groups)) == Sum(GroupTotals(m - {k}, owner, groups)) + m[k]
  {
    var g := owner[k];
    var totals, before := GroupTotals(m, owner, groups), GroupTotals(m - {k}, owner, groups);
    assert GroupOf(m, owner, g) - {k} == GroupOf(m - {k}, owner, g);
    SumRemove(GroupOf(m, owner, g), k);
    forall j | j in groups && j != g ensures totals[j] == before[j] {
      assert GroupOf(m, owner, j) == GroupOf(m - {k}, owner, j);
    }
    assert totals - {g} == before - {g};
    SumRemove(totals, g);
    SumRemove(before, g);
  }

  lemma {:induction false} SumByGroup<K(!new), J(!new)>(m: map<K, nat>, owner: map<K, J>, groups: set<J>)
    requires m.Keys <= owner.Keys && forall k :: k in m ==> owner[k] in groups
    ensures Sum(GroupTotals(m, owner, groups)) == Sum(m)
    decreases |m|
  {
    if m == map[] {
      forall j ensures GroupOf(m, owner, j) == map[] {}
      SumZero(GroupTotals(m, owner, groups));
    } else {
      var k :| k in m;
      SumByGroup(m - {k}, owner, groups);
      GroupsWithout(m, owner, groups, k);
      SumRemove(m, k);
    }
  }
}
