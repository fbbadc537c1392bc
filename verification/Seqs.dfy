// Sequences as lists of ids, as requests and filters carry them.
module Seqs {
  function Elements<T>(s: seq<T>): set<T> {
    set x | x in s
  }

  predicate NoDuplicates<T(==)>(s: seq<T>) {
    forall i, j :: 0 <= i < j < |s| ==> s[i] != s[j]
  }

  // A list names as many things as it is long exactly when nothing is repeated.
  lemma {:induction false} DistinctCount<T(!new)>(s: seq<T>)
    ensures |Elements(s)| <= |s|
    ensures |Elements(s)| == |s| <==> NoDuplicates(s)
  {
    if s != [] {
      var last, front := s[|s| - 1], s[..|s| - 1];
      DistinctCount(front);
      assert s == front + [last];
      assert Elements(s) == Elements(front) + {last};
      if last in front {
        assert Elements(s) == Elements(front);
        var i :| 0 <= i < |front| && front[i] == last;
        assert s[i] == s[|s| - 1];
      } else {
        assert |Elements(s)| == |Elements(front)| + 1;
        if NoDuplicates(front) {
          forall i, j | 0 <= i < j < |s| ensures s[i] != s[j] {
            assert s[i] == front[i];
          }
        }
      }
    }
  }

  lemma SubsetCount<T(!new)>(a: set<T>, b: set<T>)
    requires a <= b
    ensures |a| <= |b|
    ensures |a| == |b| ==> a == b
  {
    assert b == a + (b - a);
  }

  lemma NoDuplicatesSplit<T(!new)>(s: seq<T>)
    requires s != [] && NoDuplicates(s)
    ensures NoDuplicates(s[..|s| - 1]) && s[|s| - 1] !in s[..|s| - 1]
    ensures Elements(s) == Elements(s[..|s| - 1]) + {s[|s| - 1]}
  {
    var front := s[..|s| - 1];
    assert s == front + [s[|s| - 1]];
    assert forall i :: 0 <= i < |front| ==> front[i] == s[i];
  }
}
