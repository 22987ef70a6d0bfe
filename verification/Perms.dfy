/** Permutations of the numbers below a width, as sequences. */
module Perms {

  predicate Distinct(s: seq<int>) { forall i, j :: 0 <= i < j < |s| ==> s[i] != s[j] }

  /** s lists every number below |s| exactly once. */
  predicate IsPerm(s: seq<int>) { Distinct(s) && forall i :: 0 <= i < |s| ==> 0 <= s[i] < |s| }

  function Elements(s: seq<int>): set<int> { set i | 0 <= i < |s| :: s[i] }

  lemma ElementsAppend(s: seq<int>, v: int)
    ensures Elements(s + [v]) == Elements(s) + {v}
  {
    var t := s + [v];
    assert forall i :: 0 <= i < |s| ==> t[i] == s[i];
    assert t[|s|] == v;
  }

  function Below(n: nat): (r: set<int>)
    ensures forall v :: v in r <==> 0 <= v < n
  {
    if n == 0 then {} else Below(n - 1) + {n - 1}
  }

  lemma {:induction false} BelowSize(n: nat)
    ensures |Below(n)| == n
  {
    if n > 0 {
      BelowSize(n - 1);
    }
  }

  lemma {:induction false} DistinctSize(s: seq<int>)
    requires Distinct(s)
    ensures |Elements(s)| == |s|
  {
    if s != [] {
      var n := |s| - 1;
      DistinctSize(s[..n]);
      assert Elements(s) == Elements(s[..n]) + {s[n]};
      assert s[n] !in Elements(s[..n]);
    }
  }

  lemma SubsetOfEqualSize(a: set<int>, b: set<int>)
    requires a <= b && |a| == |b|
    ensures a == b
  {
    assert b == a + (b - a);
  }

  lemma SubsetSize<T>(a: set<T>, b: set<T>)
    requires a <= b
    ensures |a| <= |b|
  {
    assert b == a + (b - a);
  }

  /** A permutation takes every value. */
  lemma PermOnto(s: seq<int>)
    requires IsPerm(s)
    ensures Elements(s) == Below(|s|)
  {
    DistinctSize(s);
    BelowSize(|s|);
    SubsetOfEqualSize(Elements(s), Below(|s|));
  }

  /** The index of a value in a permutation. */
  lemma PermIndex(s: seq<int>, v: int) returns (i: nat)
    requires IsPerm(s) && 0 <= v < |s|
    ensures i < |s| && s[i] == v
  {
    PermOnto(s);
    assert v in Elements(s);
    i :| i < |s| && s[i] == v;
  }

  function Swapped(s: seq<int>, i: nat, j: nat): (r: seq<int>)
    requires i < |s| && j < |s|
    ensures |r| == |s|
  {
    s[i := s[j]][j := s[i]]
  }

  lemma SwapKeepsPerm(s: seq<int>, i: nat, j: nat)
    requires IsPerm(s) && i < |s| && j < |s|
    ensures IsPerm(Swapped(s, i, j))
  {
  }

  /** Reading a permutation through another gives a permutation. */
  lemma ComposeIsPerm(s: seq<int>, t: seq<int>, r: seq<int>)
    requires IsPerm(s) && IsPerm(t) && |r| == |s| == |t|
    requires forall i :: 0 <= i < |s| ==> r[i] == s[t[i]]
    ensures IsPerm(r)
  {
    forall i, j | 0 <= i < j < |r|
      ensures r[i] != r[j]
    {
      assert t[i] != t[j];
      assert r[i] == s[t[i]] && r[j] == s[t[j]];
    }
  }

  /** One swap index for each place, at most the place itself; place 0 has no choice. */
  predicate Choices(c: seq<nat>) { forall i :: 0 <= i < |c| ==> c[i] <= i }

  /** The swaps from place index down to place 1. */
  function Shuffled(s: seq<int>, c: seq<nat>, index: nat): (r: seq<int>)
    requires Choices(c) && |c| == |s| && (index < |s| || index == 0)
    ensures |r| == |s|
    decreases index
  {
    if index == 0 then s else Shuffled(Swapped(s, index, c[index]), c, index - 1)
  }

  lemma {:induction false} ShuffledIsPerm(s: seq<int>, c: seq<nat>, index: nat)
    requires Choices(c) && |c| == |s| && (index < |s| || index == 0) && IsPerm(s)
    ensures IsPerm(Shuffled(s, c, index))
    decreases index
  {
    if index > 0 {
      SwapKeepsPerm(s, index, c[index]);
      ShuffledIsPerm(Swapped(s, index, c[index]), c, index - 1);
    }
  }

  /** A full shuffle of s by these choices. */
  function ShuffledBy(s: seq<int>, choices: seq<nat>): (r: seq<int>)
    requires Choices(choices) && |choices| == |s|
    ensures |r| == |s|
  {
    Shuffled(s, choices, if |s| == 0 then 0 else |s| - 1)
  }
}
