/** The backtracking generator: it lists every permutation once and leaves its working
    array as it found it. */
module PermutationList {
  import opened Perms

  function Factorial(n: nat): (f: nat)
    ensures f >= 1
  {
    if n == 0 then 1 else n * Factorial(n - 1)
  }

  /** What a visit at index k appends, starting from base s. */
  function Visited(s: seq<int>, k: nat): seq<seq<int>>
    requires k <= |s|
    decreases |s| - k, |s| + 1
  {
    if k == |s| then [s] else VisitedFrom(s, k, k)
  }

  /** The part of that visit from one swap on. */
  function VisitedFrom(s: seq<int>, k: nat, swap: nat): seq<seq<int>>
    requires k < |s| && k <= swap <= |s|
    decreases |s| - k, |s| - swap
  {
    if swap == |s| then [] else Visited(Swapped(s, k, swap), k + 1) + VisitedFrom(s, k, swap + 1)
  }

  method Visit(base: array<int>, k: nat, before: seq<seq<int>>) returns (result: seq<seq<int>>)
    requires k <= base.Length
    modifies base
    ensures base[..] == old(base[..])
    ensures result == before + Visited(old(base[..]), k)
    decreases base.Length - k
  {
    if k == base.Length {
      return before + [base[..]];
    }
    result := before;
    ghost var s := base[..];
    var swap := k;
    while swap < base.Length
      invariant k <= swap <= base.Length && base[..] == s
      invariant result + VisitedFrom(s, k, swap) == before + Visited(s, k)
    {
      base[k], base[swap] := base[swap], base[k];
      assert base[..] == Swapped(s, k, swap);
      result := Visit(base, k + 1, result);
      base[k], base[swap] := base[swap], base[k];
      assert base[..] == s;
      swap := swap + 1;
    }
  }

  method Permutations(width: nat) returns (result: seq<seq<int>>)
    ensures ListsPermutations(result, width)
  {
    var base := new int[width](i => i);
    assert IsPerm(base[..]);
    result := Visit(base, 0, []);
    AllVisited(base[..], 0);
  }

  // -------------------------------------------------------------------- the proof

  /** t is a permutation that agrees with s on the first k places. */
  predicate Extends(s: seq<int>, k: nat, t: seq<int>)
    requires k <= |s|
  {
    |t| == |s| && IsPerm(t) && t[..k] == s[..k]
  }

  predicate DistinctEntries(list: seq<seq<int>>) { forall i, j :: 0 <= i < j < |list| ==> list[i] != list[j] }

  /** The list holds each permutation of the numbers below width once. */
  ghost predicate ListsPermutations(list: seq<seq<int>>, width: nat) {
    |list| == Factorial(width) && DistinctEntries(list) && forall t :: t in list <==> Arranges(t, width)
  }

  predicate Arranges(t: seq<int>, width: nat) { |t| == width && IsPerm(t) }

  ghost predicate ListsExtensions(list: seq<seq<int>>, s: seq<int>, k: nat)
    requires k <= |s|
  {
    DistinctEntries(list) && forall t :: t in list <==> Extends(s, k, t)
  }

  /** The extensions of s that put an entry of s[swap..] at place k. */
  predicate PutsFrom(s: seq<int>, k: nat, swap: nat, t: seq<int>)
    requires k < |s|
  {
    Extends(s, k, t) && exists j :: swap <= j < |s| && t[k] == s[j]
  }

  lemma {:induction false} AllVisited(s: seq<int>, k: nat)
    requires k <= |s| && IsPerm(s)
    ensures ListsExtensions(Visited(s, k), s, k) && |Visited(s, k)| == Factorial(|s| - k)
    decreases |s| - k, |s| + 1
  {
    if k == |s| {
      AgreesEverywhere(s);
    } else {
      SwapsVisited(s, k, k);
      forall t
        ensures t in Visited(s, k) <==> Extends(s, k, t)
      {
        if Extends(s, k, t) {
          EntryComesLater(s, k, t);
        }
      }
    }
  }

  lemma AgreesEverywhere(s: seq<int>)
    requires IsPerm(s)
    ensures forall t :: t in [s] <==> Extends(s, |s|, t)
  {
    forall t | Extends(s, |s|, t)
      ensures t == s
    {
      assert t == t[..|s|] && s == s[..|s|];
    }
  }

  /** An extension takes its entry at place k from the later entries of s. */
  lemma EntryComesLater(s: seq<int>, k: nat, t: seq<int>)
    requires k < |s| && IsPerm(s) && Extends(s, k, t)
    ensures PutsFrom(s, k, k, t)
  {
    var j := PermIndex(s, t[k]);
    forall i | 0 <= i < k
      ensures t[i] == s[i]
    {
      assert t[..k][i] == s[..k][i];
    }
  }

  /** The swaps from one on list, without repetition, what puts their entries at k. */
  ghost predicate ListsSwaps(list: seq<seq<int>>, s: seq<int>, k: nat, swap: nat)
    requires k < |s|
  {
    DistinctEntries(list) && forall t :: t in list <==> PutsFrom(s, k, swap, t)
  }

  lemma {:induction false} SwapsVisited(s: seq<int>, k: nat, swap: nat)
    requires k < |s| && k <= swap <= |s| && IsPerm(s)
    ensures ListsSwaps(VisitedFrom(s, k, swap), s, k, swap)
    ensures |VisitedFrom(s, k, swap)| == (|s| - swap) * Factorial(|s| - k - 1)
    decreases |s| - k, |s| - swap
  {
    if swap < |s| {
      var u := Swapped(s, k, swap);
      SwapKeepsPerm(s, k, swap);
      AllVisited(u, k + 1);
      SwapsVisited(s, k, swap + 1);
      JoinSwaps(s, k, swap, Visited(u, k + 1), VisitedFrom(s, k, swap + 1));
      OneMore(|s| - swap, Factorial(|s| - k - 1));
    }
  }

  lemma OneMore(m: nat, f: nat)
    requires m > 0
    ensures f + (m - 1) * f == m * f
  {
  }

  lemma JoinSwaps(s: seq<int>, k: nat, swap: nat, first: seq<seq<int>>, rest: seq<seq<int>>)
    requires k <= swap < |s| && IsPerm(s)
    requires ListsExtensions(first, Swapped(s, k, swap), k + 1) && ListsSwaps(rest, s, k, swap + 1)
    ensures ListsSwaps(first + rest, s, k, swap)
  {
    SwappedExtensions(s, k, swap);
    Disjoint(s, k, swap, first, rest);
  }

  /** Fixing the swapped entry at place k. */
  lemma SwappedExtensions(s: seq<int>, k: nat, swap: nat)
    requires k <= swap < |s| && IsPerm(s)
    ensures forall t :: Extends(Swapped(s, k, swap), k + 1, t) <==> Extends(s, k, t) && t[k] == s[swap]
    ensures forall t :: PutsFrom(s, k, swap, t) <==>
            (Extends(s, k, t) && t[k] == s[swap]) || PutsFrom(s, k, swap + 1, t)
  {
    var u := Swapped(s, k, swap);
    assert u[..k] == s[..k] && u[k] == s[swap];
    forall t
      ensures Extends(u, k + 1, t) <==> Extends(s, k, t) && t[k] == s[swap]
    {
      if |t| == |s| {
        assert t[..k + 1] == t[..k] + [t[k]] && u[..k + 1] == u[..k] + [u[k]];
      }
    }
  }

  lemma Disjoint(s: seq<int>, k: nat, swap: nat, first: seq<seq<int>>, rest: seq<seq<int>>)
    requires k <= swap < |s| && IsPerm(s) && DistinctEntries(first) && DistinctEntries(rest)
    requires forall t :: t in first ==> |t| == |s| && t[k] == s[swap]
    requires forall t :: t in rest ==> PutsFrom(s, k, swap + 1, t)
    ensures DistinctEntries(first + rest)
  {
    forall i, j | 0 <= i < |first| && 0 <= j < |rest|
      ensures first[i] != rest[j]
    {
      assert first[i] in first && rest[j] in rest;
    }
  }
}
