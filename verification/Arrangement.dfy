/** Arrangements of requests over stream positions: which there are, and the way there
    and back. */
module Arrangement {
  import opened Perms

  // ------------------------------------------------------------------- policies

  datatype Policy = Rotate | Unarranged | Random {
    function Unit(n: nat): nat { if Rotate? then n else 1 }
  }

  function Identity(n: nat): (r: seq<int>)
    ensures |r| == n && IsPerm(r)
    ensures forall i :: 0 <= i < n ==> r[i] == i
  {
    seq(n, i => i)
  }

  /** The base permutation shifted by a number of positions. */
  function Rotated(base: seq<int>, shift: nat): (r: seq<int>)
    ensures |r| == |base|
  {
    seq(|base|, p requires 0 <= p < |base| => base[(p + shift) % |base|])
  }

  /** Moving around a circle of n places: equal ends mean equal starts. */
  lemma CircleStep(n: int, a: int, b: int)
    requires n > 0 && 0 <= a < n && 0 <= b < n
    ensures (a + b) % n == if a + b < n then a + b else a + b - n
  {
    if a + b >= n {
      assert a + b == n * 1 + (a + b - n);
    }
  }

  lemma RotatedIsPerm(base: seq<int>, shift: nat)
    requires IsPerm(base) && shift < |base|
    ensures IsPerm(Rotated(base, shift))
  {
    var r, n := Rotated(base, shift), |base|;
    forall p | 0 <= p < n
      ensures r[p] == base[if p + shift < n then p + shift else p + shift - n]
    {
      CircleStep(n, p, shift);
    }
  }

  /** The shift at which position p holds request q. */
  function ShiftFor(n: nat, index: nat, p: nat): (s: nat)
    requires index < n && p < n
    ensures s < n
  {
    if index >= p then index - p else index + n - p
  }

  /** Over the shifts of a cycle, every request is in every position exactly once. */
  lemma LatinSquare(base: seq<int>, p: nat, q: nat)
    requires IsPerm(base) && p < |base| && q < |base|
    ensures exists shift: nat :: shift < |base| && Rotated(base, shift)[p] == q
    ensures forall a: nat, b: nat :: a < |base| && b < |base| ==>
              (Rotated(base, a)[p] == q && Rotated(base, b)[p] == q ==> a == b)
  {
    var n := |base|;
    var index := PermIndex(base, q);
    CircleStep(n, p, ShiftFor(n, index, p));
    assert Rotated(base, ShiftFor(n, index, p))[p] == q;
    forall a: nat, b: nat | a < n && b < n && Rotated(base, a)[p] == q && Rotated(base, b)[p] == q
      ensures a == b
    {
      CircleStep(n, p, a);
      CircleStep(n, p, b);
    }
  }

  /** A full shuffle by swaps; the choices are what the random source draws. */
  method ShuffleInPlace(a: array<int>, choices: seq<nat>)
    requires Choices(choices) && |choices| == a.Length
    modifies a
    ensures a[..] == ShuffledBy(old(a[..]), choices)
  {
    var i := a.Length;
    while i > 1
      invariant 0 <= i <= a.Length
      invariant Shuffled(a[..], choices, if i == 0 then 0 else i - 1) == ShuffledBy(old(a[..]), choices)
    {
      i := i - 1;
      ghost var before := a[..];
      a[i], a[choices[i]] := a[choices[i]], a[i];
      assert a[..] == Swapped(before, i, choices[i]);
    }
  }

  /** Hands out one arrangement per trial: position p carries request buf[p]. */
  class Arranger {
    const policy: Policy
    const n: nat
    const base: array<int>
    const buf: array<int>

    ghost predicate Valid()
      reads this, base, buf
    {
      base.Length == n && buf.Length == n && base != buf && IsPerm(base[..])
    }

    constructor (policy: Policy, n: nat)
      ensures Valid() && this.policy == policy && this.n == n && fresh(base) && fresh(buf)
      ensures base[..] == Identity(n)
    {
      this.policy := policy;
      this.n := n;
      base := new int[n](i => i);
      buf := new int[n];
      new;
      assert base[..] == Identity(n);
    }

    /** Shuffles the base for a new cycle, under rotation only. */
    method StartCycle(choices: seq<nat>)
      requires Valid() && Choices(choices) && |choices| == n
      modifies base
      ensures Valid()
      ensures base[..] == if policy.Rotate? then ShuffledBy(old(base[..]), choices) else old(base[..])
    {
      if policy.Rotate? {
        ShuffledIsPerm(base[..], choices, if n == 0 then 0 else n - 1);
        ShuffleInPlace(base, choices);
      }
    }

    method FillIdentity()
      requires Valid()
      modifies buf
      ensures Valid() && buf[..] == Identity(n)
    {
      for p := 0 to n
        invariant Valid() && base[..] == old(base[..])
        invariant forall k :: 0 <= k < p ==> buf[k] == k
      {
        buf[p] := p;
      }
      assert buf[..] == Identity(n);
    }

    /** The arrangement for this shift of the current cycle; the base is not touched. */
    method Next(shift: nat, choices: seq<nat>)
      requires Valid() && (policy.Rotate? ==> shift < n) && Choices(choices) && |choices| == n
      modifies buf
      ensures Valid() && base[..] == old(base[..]) && IsPerm(buf[..])
      ensures policy.Rotate? ==> buf[..] == Rotated(base[..], shift)
      ensures policy.Unarranged? ==> buf[..] == Identity(n)
      ensures policy.Random? ==> buf[..] == ShuffledBy(Identity(n), choices)
    {
      match policy
      case Unarranged =>
        FillIdentity();
      case Random =>
        FillIdentity();
        ShuffledIsPerm(buf[..], choices, if n == 0 then 0 else n - 1);
        ShuffleInPlace(buf, choices);
      case Rotate =>
        for p := 0 to n
          invariant Valid() && base[..] == old(base[..])
          invariant forall k :: 0 <= k < p ==> buf[k] == base[(k + shift) % n]
        {
          buf[p] := base[(p + shift) % n];
        }
        assert buf[..] == Rotated(base[..], shift);
        RotatedIsPerm(base[..], shift);
    }
  }

  /** Lays requests out by position. */
  method Arrange<T(0)>(requests: seq<T>, arrangement: seq<int>) returns (out: array<T>)
    requires forall p :: 0 <= p < |arrangement| ==> 0 <= arrangement[p] < |requests|
    ensures out.Length == |arrangement| && fresh(out)
    ensures forall p :: 0 <= p < |arrangement| ==> out[p] == requests[arrangement[p]]
  {
    out := new T[|arrangement|];
    for p := 0 to |arrangement|
      invariant forall k :: 0 <= k < p ==> out[k] == requests[arrangement[k]]
    {
      out[p] := requests[arrangement[p]];
    }
  }

  /** Maps results by position back to request order: the inverse of Arrange. */
  method Scatter<T(0)>(results: seq<T>, arrangement: seq<int>) returns (out: array<T>)
    requires IsPerm(arrangement) && |results| == |arrangement|
    ensures out.Length == |arrangement| && fresh(out)
    ensures out[..] == Scattered(results, arrangement)
  {
    out := new T[|arrangement|];
    for p := 0 to |arrangement|
      invariant forall k :: 0 <= k < p ==> out[arrangement[k]] == results[k]
    {
      out[arrangement[p]] := results[p];
    }
    ScatteredUnique(results, arrangement, out[..]);
  }

  /** The position of request i. */
  function PositionOf(arrangement: seq<int>, i: nat): (p: nat)
    requires i in arrangement
    ensures p < |arrangement| && arrangement[p] == i
  {
    if arrangement[0] == i then 0 else 1 + PositionOf(arrangement[1..], i)
  }

  ghost function Scattered<T>(results: seq<T>, arrangement: seq<int>): (r: seq<T>)
    requires IsPerm(arrangement) && |results| == |arrangement|
    ensures |r| == |results|
    ensures forall p :: 0 <= p < |results| ==> r[arrangement[p]] == results[p]
  {
    PermOnto(arrangement);
    assert forall i :: i in Elements(arrangement) ==> i in arrangement;
    seq(|results|, (i: nat) requires i < |results| => assert i in Below(|results|); results[PositionOf(arrangement, i)])
  }

  lemma ScatteredUnique<T>(results: seq<T>, arrangement: seq<int>, out: seq<T>)
    requires IsPerm(arrangement) && |results| == |arrangement| == |out|
    requires forall p :: 0 <= p < |results| ==> out[arrangement[p]] == results[p]
    ensures out == Scattered(results, arrangement)
  {
    forall i | 0 <= i < |out|
      ensures out[i] == Scattered(results, arrangement)[i]
    {
      var p := PermIndex(arrangement, i);
    }
  }

  /** Scattering undoes arranging. */
  lemma ScatterInvertsArrange<T>(requests: seq<T>, arrangement: seq<int>, out: seq<T>)
    requires IsPerm(arrangement) && |requests| == |arrangement| == |out|
    requires forall p :: 0 <= p < |arrangement| ==> out[p] == requests[arrangement[p]]
    ensures Scattered(out, arrangement) == requests
  {
    ScatteredUnique(out, arrangement, requests);
  }
}
