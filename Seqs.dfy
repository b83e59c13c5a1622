/** Small facts about sequences that the song-list model relies on. */
module Seqs {

  /** No key occurs twice in `s`. */
  ghost predicate Distinct(s: seq<string>) {
    forall x :: multiset(s)[x] <= 1
  }

  /** A sequence without repetitions has as many distinct elements as it is long. */
  lemma {:induction false} DistinctCardinality(s: seq<string>)
    requires Distinct(s)
    ensures |set x | x in s| == |s|
  {
    if |s| > 0 {
      var p, x := s[..|s| - 1], s[|s| - 1];
      assert s == p + [x];
      forall y ensures multiset(p)[y] <= 1 {
        assert multiset(s)[y] == multiset(p)[y] + multiset([x])[y];
      }
      assert multiset(s)[x] == multiset(p)[x] + 1;
      assert x !in multiset(p);
      DistinctCardinality(p);
      assert (set y | y in s) == (set y | y in p) + {x};
    }
  }

  /** In a sequence without repetitions, different positions hold different keys. */
  lemma DistinctAt(s: seq<string>, i: nat, j: nat)
    requires Distinct(s) && i < j < |s|
    ensures s[i] != s[j]
  {
    var x := s[i];
    assert s == s[..j] + [s[j]] + s[j + 1..];
    assert multiset(s)[x] == multiset(s[..j])[x] + multiset([s[j]])[x] + multiset(s[j + 1..])[x];
    assert s[..j][i] == x;
    assert multiset(s[..j])[x] >= 1;
  }
}
