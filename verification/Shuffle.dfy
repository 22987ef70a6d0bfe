/** The seeded shuffle: Fisher-Yates over choices drawn by rejection sampling. */
module Shuffle {
  import opened Arithmetic
  import opened Sequences
  import opened Perms
  import opened Arrangement
  import opened Orbit

  // ------------------------------------------------------------- Fisher-Yates

  lemma {:induction false} PlacesAboveStay(s: seq<int>, c: seq<nat>, index: nat, k: nat)
    requires Choices(c) && |c| == |s| && index < k < |s|
    ensures Shuffled(s, c, index)[k] == s[k]
    decreases index
  {
    if index > 0 {
      PlacesAboveStay(Swapped(s, index, c[index]), c, index - 1, k);
    }
  }

  /** Different choices give different permutations. */
  lemma {:induction false} ShuffleIsInjective(s: seq<int>, c: seq<nat>, d: seq<nat>, index: nat)
    requires Choices(c) && Choices(d) && |c| == |d| == |s| && (index < |s| || index == 0) && IsPerm(s)
    requires Shuffled(s, c, index) == Shuffled(s, d, index)
    ensures forall i :: 1 <= i <= index ==> c[i] == d[i]
    decreases index
  {
    if index > 0 {
      PlacesAboveStay(Swapped(s, index, c[index]), c, index - 1, index);
      PlacesAboveStay(Swapped(s, index, d[index]), d, index - 1, index);
      assert s[c[index]] == s[d[index]];
      SwapKeepsPerm(s, index, c[index]);
      ShuffleIsInjective(Swapped(s, index, c[index]), c, d, index - 1);
    }
  }

  /** Every permutation is the shuffle of some choices. */
  lemma {:induction false} ShuffleIsSurjective(s: seq<int>, t: seq<int>, index: nat) returns (c: seq<nat>)
    requires IsPerm(s) && IsPerm(t) && |s| == |t| && (index < |s| || index == 0)
    requires forall k :: index < k < |s| ==> t[k] == s[k]
    ensures Choices(c) && |c| == |s| && Shuffled(s, c, index) == t
    decreases index
  {
    if index == 0 {
      c := seq(|s|, _ => 0);
      LastPlace(s, t);
    } else {
      var j := PlaceNext(s, t, index);
      var u := Swapped(s, index, j);
      var d := ShuffleIsSurjective(u, t, index - 1);
      c := ChooseAt(s, d, index, j);
    }
  }

  lemma ChooseAt(s: seq<int>, d: seq<nat>, index: nat, j: nat) returns (c: seq<nat>)
    requires Choices(d) && |d| == |s| && 0 < index < |s| && j <= index
    ensures Choices(c) && |c| == |s| && Shuffled(s, c, index) == Shuffled(Swapped(s, index, j), d, index - 1)
  {
    c := d[index := j];
    ChoicesAboveUnused(Swapped(s, index, j), d, c, index - 1);
  }

  /** The swap that puts the entry of t in place. */
  lemma PlaceNext(s: seq<int>, t: seq<int>, index: nat) returns (j: nat)
    requires IsPerm(s) && IsPerm(t) && |s| == |t| && 0 < index < |s|
    requires forall k :: index < k < |s| ==> t[k] == s[k]
    ensures j <= index && IsPerm(Swapped(s, index, j))
    ensures forall k :: index - 1 < k < |s| ==> t[k] == Swapped(s, index, j)[k]
  {
    j := PermIndex(s, t[index]);
    assert j <= index;
    SwapKeepsPerm(s, index, j);
  }

  /** Permutations that agree on all places but the first are equal. */
  lemma LastPlace(s: seq<int>, t: seq<int>)
    requires IsPerm(s) && IsPerm(t) && |s| == |t| && forall k :: 0 < k < |s| ==> t[k] == s[k]
    ensures s == t
  {
    if |s| > 0 {
      var j := PermIndex(s, t[0]);
      assert j == 0;
    }
  }

  lemma {:induction false} ChoicesAboveUnused(s: seq<int>, c: seq<nat>, d: seq<nat>, index: nat)
    requires Choices(c) && Choices(d) && |c| == |d| == |s| && index < |s|
    requires forall i :: 0 <= i <= index ==> c[i] == d[i]
    ensures Shuffled(s, c, index) == Shuffled(s, d, index)
    decreases index
  {
    if index > 0 {
      ChoicesAboveUnused(Swapped(s, index, c[index]), c, d, index - 1);
    }
  }

  // -------------------------------------------------------- rejection sampling

  /** The remainder of the negated bound, as 64-bit arithmetic computes it. */
  function Threshold(bound: nat): (t: nat)
    requires 0 < bound < WORDS
    ensures t < bound
  {
    (WORDS - bound) % bound
  }

  /** The values from threshold on are a whole number of periods. */
  lemma AcceptedPeriods(bound: nat)
    requires 0 < bound < WORDS
    ensures WORDS - Threshold(bound) == bound * (WORDS / bound) && Threshold(bound) == WORDS % bound
  {
    TakeOneOut(WORDS, bound);
    DivMod(WORDS, bound);
  }

  function After(x: nat, bound: nat): nat { if x + 1 == bound then 0 else x + 1 }

  lemma ResidueAfter(v: nat, bound: nat)
    requires bound > 0
    ensures (v + 1) % bound == After(v % bound, bound)
  {
    DivMod(v, bound);
    var q, x := v / bound, v % bound;
    if x + 1 == bound {
      assert v + 1 == bound * (q + 1) + 0;
      Unique(v + 1, bound, q + 1, 0);
    } else {
      Unique(v + 1, bound, q, x + 1);
    }
  }

  /** How many of the n residues from x on are r. */
  function Hits(x: nat, n: nat, bound: nat, r: nat): nat
    decreases n
  {
    if n == 0 then 0 else (if x == r then 1 else 0) + Hits(After(x, bound), n - 1, bound, r)
  }

  lemma {:induction false} HitsBeforeWrap(x: nat, n: nat, bound: nat, r: nat)
    requires x + n <= bound
    ensures Hits(x, n, bound, r) == if x <= r < x + n then 1 else 0
    decreases n
  {
    if n == 1 {
      assert Hits(After(x, bound), 0, bound, r) == 0;
    } else if n > 1 {
      HitsBeforeWrap(x + 1, n - 1, bound, r);
    }
  }

  lemma {:induction false} HitsSplit(x: nat, n: nat, m: nat, bound: nat, r: nat)
    requires x < bound && x + n == bound
    ensures Hits(x, n + m, bound, r) == Hits(x, n, bound, r) + Hits(0, m, bound, r)
    decreases n
  {
    if n > 1 {
      HitsSplit(x + 1, n - 1, m, bound, r);
    } else {
      assert After(x, bound) == 0 && Hits(0, 0, bound, r) == 0;
    }
  }

  /** A whole period from any residue hits every residue once. */
  lemma OnePeriod(x: nat, bound: nat, r: nat)
    requires x < bound && r < bound
    ensures Hits(x, bound, bound, r) == 1
  {
    HitsSplit(x, bound - x, x, bound, r);
    HitsBeforeWrap(x, bound - x, bound, r);
    HitsBeforeWrap(0, x, bound, r);
  }

  lemma {:induction false} HitsForward(x: nat, n: nat, m: nat, bound: nat, r: nat)
    requires x + n < bound
    ensures Hits(x, n + m, bound, r) == Hits(x, n, bound, r) + Hits(x + n, m, bound, r)
    decreases n
  {
    if n > 0 {
      HitsForward(x + 1, n - 1, m, bound, r);
    }
  }

  lemma PeriodAndMore(x: nat, m: nat, bound: nat, r: nat)
    requires x < bound && r < bound
    ensures Hits(x, bound + m, bound, r) == 1 + Hits(x, m, bound, r)
  {
    OnePeriod(x, bound, r);
    HitsSplit(x, bound - x, x + m, bound, r);
    HitsSplit(x, bound - x, x, bound, r);
    HitsForward(0, x, m, bound, r);
  }

  lemma {:induction false} ManyPeriods(x: nat, k: nat, bound: nat, r: nat)
    requires x < bound && r < bound
    ensures Hits(x, bound * k, bound, r) == k
    decreases k
  {
    if k > 0 {
      ManyPeriods(x, k - 1, bound, r);
      assert bound * k == bound + bound * (k - 1);
      PeriodAndMore(x, bound * (k - 1), bound, r);
    } else {
      assert bound * 0 == 0;
    }
  }

  /** How many of the n values from lo on leave remainder r. */
  function Leaving(lo: nat, n: nat, bound: nat, r: nat): nat
    requires bound > 0
    decreases n
  {
    if n == 0 then 0 else (if lo % bound == r then 1 else 0) + Leaving(lo + 1, n - 1, bound, r)
  }

  lemma {:induction false} LeavingIsHits(lo: nat, n: nat, bound: nat, r: nat)
    requires bound > 0
    ensures Leaving(lo, n, bound, r) == Hits(lo % bound, n, bound, r)
    decreases n
  {
    if n > 0 {
      LeavingIsHits(lo + 1, n - 1, bound, r);
      ResidueAfter(lo, bound);
    }
  }

  /** Among the accepted 64-bit values every remainder occurs equally often. */
  lemma EqualShares(bound: nat, r: nat)
    requires 0 < bound < WORDS && r < bound
    ensures Leaving(Threshold(bound), WORDS - Threshold(bound), bound, r) == WORDS / bound
  {
    AcceptedPeriods(bound);
    var t := Threshold(bound);
    LeavingIsHits(t, WORDS - t, bound, r);
    SmallDivision(t, bound);
    ManyPeriods(t, WORDS / bound, bound, r);
  }

  // ------------------------------------------------------------------ the draws

  /** What one draw takes from the values of a source: the first accepted value, reduced
      to the bound, and the values after it. */
  datatype Drawn = Drawn(value: nat, rest: seq<nat>) | Dry

  function Draw(values: seq<nat>, bound: nat): (d: Drawn)
    requires 0 < bound < WORDS
    ensures d.Drawn? ==> d.value < bound && |d.rest| < |values|
  {
    if values == [] then Dry
    else if values[0] >= Threshold(bound) then Drawn(values[0] % bound, values[1..])
    else Draw(values[1..], bound)
  }

  /** The draw is the first value that is not rejected. */
  lemma {:induction false} DrawIsFirstAccepted(values: seq<nat>, bound: nat)
    requires 0 < bound < WORDS
    ensures Draw(values, bound).Drawn? ==>
              exists k: nat ::
                IsFirst(values, k, bound) && Draw(values, bound) == Drawn(values[k] % bound, values[k + 1..])
    ensures Draw(values, bound).Dry? ==> forall k :: 0 <= k < |values| ==> values[k] < Threshold(bound)
  {
    if values != [] && values[0] < Threshold(bound) {
      DrawIsFirstAccepted(values[1..], bound);
      if Draw(values, bound).Drawn? {
        var k: nat :| IsFirst(values[1..], k, bound) &&
                      Draw(values, bound) == Drawn(values[1..][k] % bound, values[1..][k + 1..]);
        assert IsFirst(values, k + 1, bound) && values[1..][k + 1..] == values[k + 2..];
      }
    } else if values != [] {
      assert IsFirst(values, 0, bound);
    }
  }

  /** Value k is the first that is accepted. */
  predicate IsFirst(values: seq<nat>, k: nat, bound: nat)
    requires 0 < bound < WORDS
  {
    k < |values| && values[k] >= Threshold(bound) && forall j :: 0 <= j < k ==> values[j] < Threshold(bound)
  }

  /** The choices of a whole shuffle, from place index down to place 1. */
  datatype Drawing = Drawing(choices: seq<nat>, rest: seq<nat>) | RanDry

  function DrawChoices(values: seq<nat>, choices: seq<nat>, index: nat): (d: Drawing)
    requires Choices(choices) && index < |choices| < WORDS
    ensures d.Drawing? ==> Choices(d.choices) && |d.choices| == |choices|
    decreases index
  {
    if index == 0 then Drawing(choices, values)
    else
      var d := Draw(values, index + 1);
      if d.Dry? then RanDry else DrawChoices(d.rest, choices[index := d.value], index - 1)
  }

  function NoChoices(n: nat): (c: seq<nat>)
    ensures |c| == n && Choices(c)
  {
    seq(n, _ => 0)
  }

  /** The choices for n places. */
  function DrawAll(values: seq<nat>, n: nat): (d: Drawing)
    requires n < WORDS
    ensures d.Drawing? ==> Choices(d.choices) && |d.choices| == n
  {
    if n == 0 then Drawing([], values) else DrawChoices(values, NoChoices(n), n - 1)
  }

  // ------------------------------------------------------------------ in place

  /** A source of 64-bit values; pending are the values it will give. */
  class Source {
    var pending: seq<nat>

    /** The first accepted value, reduced to the bound; None if the source runs dry. */
    method UniformBelow(bound: nat) returns (r: Option<nat>)
      requires 0 < bound < WORDS
      modifies this
      ensures match Draw(old(pending), bound)
              case Drawn(value, rest) => r == Some(value) && pending == rest
              case Dry => r == None && pending == []
    {
      while pending != []
        invariant Draw(pending, bound) == Draw(old(pending), bound)
        decreases |pending|
      {
        var value := pending[0];
        pending := pending[1..];
        if value >= Threshold(bound) {
          return Some(value % bound);
        }
      }
      r := None;
    }
  }

  /** now is where the choices above index lead from s; the choices below are open. */
  ghost predicate OnTrack(s: seq<int>, c: seq<nat>, top: nat, now: seq<int>, index: nat)
    requires top < |s| && index <= top
  {
    |now| == |s| == |c| && forall d :: SameAbove(c, d, index) ==> Shuffled(s, d, top) == Shuffled(now, d, index)
  }

  predicate SameAbove(c: seq<nat>, d: seq<nat>, index: nat) {
    Choices(d) && |d| == |c| && forall i :: index < i < |c| ==> d[i] == c[i]
  }

  lemma TrackStep(s: seq<int>, c: seq<nat>, top: nat, now: seq<int>, index: nat, choice: nat)
    requires 0 < index <= top < |s| && OnTrack(s, c, top, now, index) && Choices(c) && choice <= index
    ensures OnTrack(s, c[index := choice], top, Swapped(now, index, choice), index - 1)
  {
    forall d | SameAbove(c[index := choice], d, index - 1)
      ensures Shuffled(s, d, top) == Shuffled(Swapped(now, index, choice), d, index - 1)
    {
      assert d[index] == choice;
      assert SameAbove(c, d, index);
    }
  }

  method SwapPlaces(a: array<int>, i: nat, j: nat)
    requires i < a.Length && j < a.Length
    modifies a
    ensures a[..] == Swapped(old(a[..]), i, j)
  {
    a[i], a[j] := a[j], a[i];
  }

  /** Draws the choice of one place and swaps. */
  method SwapDrawn(source: Source, a: array<int>, index: nat, ghost s: seq<int>, ghost c: seq<nat>, ghost top: nat)
    returns (ok: bool, ghost d: seq<nat>)
    requires 0 < index <= top < a.Length == |s| == |c| && a.Length < WORDS && Choices(c) &&
             OnTrack(s, c, top, a[..], index)
    modifies source, a
    ensures Choices(d) && |d| == |c|
    ensures !ok ==> DrawChoices(old(source.pending), c, index).RanDry?
    ensures ok ==> DrawChoices(source.pending, d, index - 1) == DrawChoices(old(source.pending), c, index)
    ensures ok ==> OnTrack(s, d, top, a[..], index - 1)
  {
    var swap := source.UniformBelow(index + 1);
    if swap.None? {
      return false, c;
    }
    TrackStep(s, c, top, a[..], index, swap.value);
    SwapPlaces(a, index, swap.value);
    return true, c[index := swap.value];
  }

  /** Shuffles in place by exactly the choices that the source's values give. */
  method ShuffleInPlace(source: Source, a: array<int>) returns (ok: bool)
    requires a.Length < WORDS
    modifies source, a
    ensures match DrawAll(old(source.pending), a.Length)
            case Drawing(choices, rest) => ok && a[..] == ShuffledBy(old(a[..]), choices) && source.pending == rest
            case RanDry => !ok
  {
    if a.Length == 0 {
      return true;
    }
    ghost var s, top, values := a[..], a.Length - 1, source.pending;
    ghost var c: seq<nat> := NoChoices(a.Length);
    var index := a.Length - 1;
    while index > 0
      invariant 0 <= index < a.Length && Choices(c) && |c| == a.Length && OnTrack(s, c, top, a[..], index)
      invariant DrawChoices(source.pending, c, index) == DrawAll(values, a.Length)
    {
      var drawn;
      drawn, c := SwapDrawn(source, a, index, s, c, top);
      if !drawn {
        return false;
      }
      index := index - 1;
    }
    assert SameAbove(c, c, 0);
    ok := true;
  }

  method RandomPermutation(source: Source, width: nat) returns (ok: bool, p: seq<int>)
    requires width < WORDS
    modifies source
    ensures ok ==> |p| == width && IsPerm(p)
    ensures match DrawAll(old(source.pending), width)
            case Drawing(choices, rest) => ok && p == ShuffledBy(Identity(width), choices) && source.pending == rest
            case RanDry => !ok
  {
    var permutation := new int[width](i => i);
    assert permutation[..] == Identity(width);
    ghost var drawing := DrawAll(source.pending, width);
    ok := ShuffleInPlace(source, permutation);
    if ok {
      ShuffledIsPerm(Identity(width), drawing.choices, if width == 0 then 0 else width - 1);
    }
    p := permutation[..];
  }

  /** One permutation per cycle, each drawn where the last one stopped. */
  function DrawAssignment(values: seq<nat>, width: nat, cycles: nat): (d: Assigned)
    requires width < WORDS
  {
    if cycles == 0 then Assigned([], values)
    else
      match DrawAssignment(values, width, cycles - 1)
      case NotAssigned => NotAssigned
      case Assigned(front, rest) =>
        match DrawAll(rest, width)
        case RanDry => NotAssigned
        case Drawing(choices, after) => Assigned(front + ShuffledBy(Identity(width), choices), after)
  }

  datatype Assigned = Assigned(assignment: seq<int>, rest: seq<nat>) | NotAssigned

  lemma {:induction false} AppendBlock(a: seq<int>, p: seq<int>, width: nat, cycles: nat)
    requires IsAssignment(a, width, cycles) && |p| == width && IsPerm(p)
    ensures IsAssignment(a + p, width, cycles + 1)
    decreases cycles
  {
    if cycles == 0 {
      assert (a + p)[..width] == p && (a + p)[width..] == [];
    } else {
      AppendBlock(a[width..], p, width, cycles - 1);
      assert (a + p)[..width] == a[..width] && (a + p)[width..] == a[width..] + p;
    }
  }

  method AppendInto(a: array<int>, offset: nat, p: seq<int>)
    requires offset + |p| <= a.Length
    modifies a
    ensures a[..offset + |p|] == old(a[..offset]) + p
  {
    ghost var done := a[..offset];
    CopyInto(a, offset, p);
    assert a[..offset + |p|] == done + p;
  }

  /** Draws the permutation of one more cycle. */
  method DrawCycle(source: Source, a: array<int>, offset: nat, width: nat, ghost values: seq<nat>, ghost cycle: nat)
    returns (ok: bool)
    requires offset + width <= a.Length && width < WORDS && IsAssignment(a[..offset], width, cycle)
    requires DrawAssignment(values, width, cycle) == Assigned(a[..offset], source.pending)
    modifies source, a
    ensures !ok ==> DrawAssignment(values, width, cycle + 1).NotAssigned?
    ensures ok ==>
              && IsAssignment(a[..offset + width], width, cycle + 1)
              && DrawAssignment(values, width, cycle + 1) == Assigned(a[..offset + width], source.pending)
  {
    var p;
    ok, p := RandomPermutation(source, width);
    if ok {
      AppendBlock(a[..offset], p, width, cycle);
      AppendInto(a, offset, p);
    }
  }

  /** Fills the array with a shuffled permutation for each cycle, drawn one after the
      other. */
  method RandomAssignment(source: Source, a: array<int>, width: nat, cycles: nat) returns (ok: bool)
    requires a.Length == cycles * width && width < WORDS
    modifies source, a
    ensures ok ==> IsAssignment(a[..], width, cycles)
    ensures match DrawAssignment(old(source.pending), width, cycles)
            case Assigned(assignment, rest) => ok && a[..] == assignment && source.pending == rest
            case NotAssigned => !ok
  {
    var offset: nat := 0;
    for cycle := 0 to cycles
      invariant offset == cycle * width && offset <= a.Length
      invariant IsAssignment(a[..offset], width, cycle)
      invariant DrawAssignment(old(source.pending), width, cycle) == Assigned(a[..offset], source.pending)
    {
      RoomForBlock(cycle, cycles, width);
      var drawn := DrawCycle(source, a, offset, width, old(source.pending), cycle);
      if !drawn {
        DryStaysDry(old(source.pending), width, cycle + 1, cycles);
        return false;
      }
      offset := offset + width;
    }
    assert a[..offset] == a[..];
    ok := true;
  }

  lemma {:induction false} DryStaysDry(values: seq<nat>, width: nat, k: nat, cycles: nat)
    requires width < WORDS && k <= cycles && DrawAssignment(values, width, k).NotAssigned?
    ensures DrawAssignment(values, width, cycles).NotAssigned?
    decreases cycles
  {
    if k < cycles {
      DryStaysDry(values, width, k, cycles - 1);
    }
  }

  lemma RoomForBlock(cycle: nat, cycles: nat, width: nat)
    requires cycle < cycles
    ensures (cycle + 1) * width == cycle * width + width <= cycles * width
  {
    MulMonotone(cycle + 1, cycles, width);
    assert width * (cycle + 1) == (cycle + 1) * width == cycle * width + width && width * cycles == cycles * width;
  }
}
