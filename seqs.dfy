/** Facts about permutations of sequences, shared by the collector and the
    average. */
module Seqs {

  /** The last element of `us` sits somewhere in any permutation `vs` of it,
      and what remains on both sides is again a permutation. */
  lemma MatchLast<T>(us: seq<T>, vs: seq<T>) returns (k: nat)
    requires multiset(us) == multiset(vs)
    requires |us| > 0
    ensures k < |vs| && vs[k] == us[|us| - 1]
    ensures multiset(us[..|us| - 1]) == multiset(vs[..k] + vs[k + 1..])
  {
    var n := |us|;
    var last := us[n - 1];
    var init := us[..n - 1];
    assert us == init + [last];
    assert last in multiset(vs);
    k :| 0 <= k < |vs| && vs[k] == last;
    var without := vs[..k] + vs[k + 1..];
    assert vs == vs[..k] + [vs[k]] + vs[k + 1..];
    calc {
      multiset(init) + multiset{last};
      multiset(us);
      multiset(vs);
      multiset(vs[..k]) + multiset{last} + multiset(vs[k + 1..]);
      multiset(without) + multiset{last};
    }
    assert multiset(init) == multiset(init) + multiset{last} - multiset{last};
    assert multiset(without) == multiset(without) + multiset{last} - multiset{last};
  }
}
