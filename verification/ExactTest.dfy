/** The exact randomisation test: rank sums of an assignment, and the number of
    assignments in the orbit that are at least as extreme as the observed one. */
module ExactTest {
  import opened Arithmetic
  import opened MapTotals
  import opened Perms
  import opened Arrangement
  import opened PermutationList
  import opened Orbit

  /** ranks holds, trial by trial, the rank at each position; base is the observed
      assignment. */
  datatype Evidence = Evidence(width: nat, cycles: nat, base: seq<int>, ranks: seq<int>) {
    ghost predicate Valid() {
      && width > 0 && |ranks| == cycles * width * width
      && |base| == cycles * width && IsAssignment(base, width, cycles)
    }
  }

  // -------------------------------------------------------------------- layout

  function Slot(width: nat, row: nat, i: nat): nat { row * width + i }

  lemma SlotBound(width: nat, rows: nat, row: nat, i: nat)
    requires row < rows && i < width
    ensures Slot(width, row, i) < rows * width
  {
    MulMonotone(row + 1, rows, width);
    assert (row + 1) * width == row * width + width;
    assert width * (row + 1) == (row + 1) * width && width * rows == rows * width;
  }

  /** A place in the evidence: trial shift of cycle c, and position p. */
  predicate Cell(e: Evidence, c: nat, s: nat, p: nat) { c < e.cycles && s < e.width && p < e.width }

  function RankAt(e: Evidence, c: nat, s: nat, p: nat): int
    requires e.Valid() && Cell(e, c, s, p)
  {
    SlotBound(e.width, e.cycles, c, s);
    SlotBound(e.width, e.cycles * e.width, Slot(e.width, c, s), p);
    e.ranks[Slot(e.width, Slot(e.width, c, s), p)]
  }

  /** The request that the assignment places in this cell. */
  function RequestAt(e: Evidence, a: seq<int>, c: nat, s: nat, p: nat): int
    requires e.Valid() && Cell(e, c, s, p) && |a| == e.cycles * e.width
  {
    SlotBound(e.width, e.cycles, c, (p + s) % e.width);
    a[Slot(e.width, c, (p + s) % e.width)]
  }

  function Block(e: Evidence, a: seq<int>, c: nat): (b: seq<int>)
    requires c < e.cycles && |a| == e.cycles * e.width
    ensures |b| == e.width
  {
    MulMonotone(c + 1, e.cycles, e.width);
    assert e.width * (c + 1) == c * e.width + e.width && e.width * e.cycles == e.cycles * e.width;
    Slice(a, Slot(e.width, c, 0), e.width)
  }

  function Slice(a: seq<int>, start: nat, n: nat): (b: seq<int>)
    requires start + n <= |a|
    ensures |b| == n && forall i :: 0 <= i < n ==> b[i] == a[start + i]
  {
    a[start..start + n]
  }

  lemma BlockIsPerm(e: Evidence, a: seq<int>, c: nat)
    requires c < e.cycles && |a| == e.cycles * e.width && IsAssignment(a, e.width, e.cycles)
    ensures IsPerm(Block(e, a, c))
  {
    OffsetIsSlot(e.width, c);
    BlockAt(a, e.width, e.cycles, c);
    assert Block(e, a, c) == Slice(a, Offset(e.width, c), e.width);
  }

  /** Where block c begins, by counting. */
  function Offset(w: nat, c: nat): nat { if c == 0 then 0 else Offset(w, c - 1) + w }

  lemma {:induction false} OffsetIsSlot(w: nat, c: nat)
    ensures Offset(w, c) == Slot(w, c, 0)
  {
    if c > 0 {
      OffsetIsSlot(w, c - 1);
      assert c * w == (c - 1) * w + w;
    }
  }

  lemma {:induction false} BlockAt(a: seq<int>, w: nat, cycles: nat, c: nat)
    requires IsAssignment(a, w, cycles) && c < cycles
    ensures Offset(w, c) + w <= |a| && IsPerm(Slice(a, Offset(w, c), w))
    decreases c
  {
    if c == 0 {
      assert Slice(a, 0, w) == a[..w];
    } else {
      BlockAt(a[w..], w, cycles - 1, c - 1);
      assert Slice(a[w..], Offset(w, c - 1), w) == Slice(a, Offset(w, c), w);
    }
  }

  /** A cell's request is read from the rotation of its cycle's permutation. */
  lemma RequestIsRotated(e: Evidence, a: seq<int>, c: nat, s: nat, p: nat)
    requires e.Valid() && Cell(e, c, s, p) && |a| == e.cycles * e.width
    ensures RequestAt(e, a, c, s, p) == Rotated(Block(e, a, c), s)[p]
  {
    BlockEntry(e, a, c, (p + s) % e.width);
  }

  lemma BlockEntry(e: Evidence, a: seq<int>, c: nat, i: nat)
    requires c < e.cycles && |a| == e.cycles * e.width && i < e.width
    ensures Slot(e.width, c, i) < |a| && Block(e, a, c)[i] == a[Slot(e.width, c, i)]
  {
    SlotBound(e.width, e.cycles, c, i);
    var b := Block(e, a, c);
    assert b[i] == a[Slot(e.width, c, 0) + i];
  }

  // ----------------------------------------------------------------- rank sums

  ghost function Cells(e: Evidence): (r: set<Place>)
    ensures forall k :: k in r <==> Cell(e, k.c, k.s, k.p)
  {
    set c: nat, s: nat, p: nat | c < e.cycles && s < e.width && p < e.width :: Place(c, s, p)
  }

  /** The cell is one in which the assignment places request q. */
  predicate Places(e: Evidence, a: seq<int>, q: int, k: Place)
    requires e.Valid() && |a| == e.cycles * e.width
  {
    Cell(e, k.c, k.s, k.p) && RequestAt(e, a, k.c, k.s, k.p) == q
  }

  /** The ranks in all cells where the assignment places request q. */
  ghost function RanksOf(e: Evidence, a: seq<int>, q: int): (r: map<Place, int>)
    requires e.Valid() && |a| == e.cycles * e.width
  {
    map k | k in Cells(e) && Places(e, a, q, k) :: RankAt(e, k.c, k.s, k.p)
  }

  /** The rank sum of every request. */
  ghost function RankSums(e: Evidence, a: seq<int>): (r: seq<int>)
    requires e.Valid() && |a| == e.cycles * e.width
    ensures |r| == e.width
  {
    seq(e.width, q requires 0 <= q < e.width => Total(RanksOf(e, a, q)))
  }

  /** The ranks of request q over the first n positions of a trial, the first n trials
      of a cycle, and the first n cycles. */
  function TrialSum(e: Evidence, a: seq<int>, q: int, c: nat, s: nat, n: nat): int
    requires e.Valid() && c < e.cycles && s < e.width && n <= e.width && |a| == e.cycles * e.width
  {
    if n == 0 then 0
    else TrialSum(e, a, q, c, s, n - 1) + if RequestAt(e, a, c, s, n - 1) == q then RankAt(e, c, s, n - 1) else 0
  }

  function CycleSum(e: Evidence, a: seq<int>, q: int, c: nat, n: nat): int
    requires e.Valid() && c < e.cycles && n <= e.width && |a| == e.cycles * e.width
  {
    if n == 0 then 0 else CycleSum(e, a, q, c, n - 1) + TrialSum(e, a, q, c, n - 1, e.width)
  }

  function RankSum(e: Evidence, a: seq<int>, q: int, n: nat): int
    requires e.Valid() && n <= e.cycles && |a| == e.cycles * e.width
  {
    if n == 0 then 0 else RankSum(e, a, q, n - 1) + CycleSum(e, a, q, n - 1, e.width)
  }

  lemma {:induction false} TrialIsRow(e: Evidence, a: seq<int>, q: int, c: nat, s: nat, n: nat)
    requires e.Valid() && c < e.cycles && s < e.width && n <= e.width && |a| == e.cycles * e.width
    ensures TrialSum(e, a, q, c, s, n) == RowSum(RanksOf(e, a, q), c, s, n)
  {
    if n > 0 {
      TrialIsRow(e, a, q, c, s, n - 1);
      RankInCell(e, a, q, c, s, n - 1);
    }
  }

  lemma RankInCell(e: Evidence, a: seq<int>, q: int, c: nat, s: nat, p: nat)
    requires e.Valid() && Cell(e, c, s, p) && |a| == e.cycles * e.width
    ensures At(RanksOf(e, a, q), Place(c, s, p)) == if RequestAt(e, a, c, s, p) == q then RankAt(e, c, s, p) else 0
  {
    assert Place(c, s, p) in Cells(e);
  }

  lemma {:induction false} CycleIsLayer(e: Evidence, a: seq<int>, q: int, c: nat, n: nat)
    requires e.Valid() && c < e.cycles && n <= e.width && |a| == e.cycles * e.width
    ensures CycleSum(e, a, q, c, n) == LayerSum(RanksOf(e, a, q), c, n, e.width)
  {
    if n > 0 {
      CycleIsLayer(e, a, q, c, n - 1);
      TrialIsRow(e, a, q, c, n - 1, e.width);
    }
  }

  lemma {:induction false} RunIsGrid(e: Evidence, a: seq<int>, q: int, n: nat)
    requires e.Valid() && n <= e.cycles && |a| == e.cycles * e.width
    ensures RankSum(e, a, q, n) == GridSum(RanksOf(e, a, q), n, e.width, e.width)
  {
    if n > 0 {
      RunIsGrid(e, a, q, n - 1);
      CycleIsLayer(e, a, q, n - 1, e.width);
    }
  }

  /** The loops add up every cell of the request once. */
  lemma RankSumIsTotal(e: Evidence, a: seq<int>, q: int)
    requires e.Valid() && |a| == e.cycles * e.width
    ensures RankSum(e, a, q, e.cycles) == Total(RanksOf(e, a, q))
  {
    RunIsGrid(e, a, q, e.cycles);
    GridTotal(RanksOf(e, a, q), e.cycles, e.width, e.width);
  }

  /** A trial contributes to each request the rank at the request's own position. */
  lemma TrialSumIsRank(e: Evidence, a: seq<int>, c: nat, s: nat, p: nat)
    requires e.Valid() && Cell(e, c, s, p) && |a| == e.cycles * e.width && IsAssignment(a, e.width, e.cycles)
    ensures TrialSum(e, a, RequestAt(e, a, c, s, p), c, s, e.width) == RankAt(e, c, s, p)
  {
    BlockIsPerm(e, a, c);
    RotatedIsPerm(Block(e, a, c), s);
    TrialSumPrefix(e, a, c, s, p, e.width);
  }

  lemma {:induction false} TrialSumPrefix(e: Evidence, a: seq<int>, c: nat, s: nat, p: nat, n: nat)
    requires e.Valid() && Cell(e, c, s, p) && |a| == e.cycles * e.width && n <= e.width
    requires IsPerm(Rotated(Block(e, a, c), s))
    ensures TrialSum(e, a, RequestAt(e, a, c, s, p), c, s, n) == if p < n then RankAt(e, c, s, p) else 0
  {
    if n > 0 {
      TrialSumPrefix(e, a, c, s, p, n - 1);
      RequestIsRotated(e, a, c, s, p);
      RequestIsRotated(e, a, c, s, n - 1);
    }
  }

  /** The evidence of validated trials: at each position stands the rank of the request
      that the observed rotation put there. */
  ghost predicate BuiltFrom(e: Evidence, observed: (nat, nat, int) -> int)
    requires e.Valid()
  {
    forall c, s, p :: Cell(e, c, s, p) ==> RankAt(e, c, s, p) == observed(c, s, RequestAt(e, e.base, c, s, p))
  }

  /** On the observed assignment a trial's contribution is the rank the request had. */
  lemma ObservedContribution(e: Evidence, observed: (nat, nat, int) -> int, c: nat, s: nat, q: int)
    requires e.Valid() && BuiltFrom(e, observed) && c < e.cycles && s < e.width && 0 <= q < e.width
    ensures TrialSum(e, e.base, q, c, s, e.width) == observed(c, s, q)
  {
    BlockIsPerm(e, e.base, c);
    RotatedIsPerm(Block(e, e.base, c), s);
    var p := PermIndex(Rotated(Block(e, e.base, c), s), q);
    RequestIsRotated(e, e.base, c, s, p);
    TrialSumIsRank(e, e.base, c, s, p);
    assert Cell(e, c, s, p);
  }

  /** The trials, each named by its first cell. */
  ghost function Trials(e: Evidence): (r: set<Place>)
    ensures forall k :: k in r <==> k.c < e.cycles && k.s < e.width && k.p == 0
  {
    set c: nat, s: nat | c < e.cycles && s < e.width :: Place(c, s, 0)
  }

  /** The ranks that request q had in all trials. */
  ghost function RanksHad(e: Evidence, observed: (nat, nat, int) -> int, q: int): map<Place, int> {
    map k | k in Trials(e) :: observed(k.c, k.s, q)
  }

  /** On the observed assignment the rank sum of a request is the sum of the ranks it had
      over all cycles and shifts. */
  lemma ObservedSum(e: Evidence, observed: (nat, nat, int) -> int, q: nat)
    requires e.Valid() && BuiltFrom(e, observed) && q < e.width
    ensures RankSums(e, e.base)[q] == Total(RanksHad(e, observed, q))
  {
    RankSumIsTotal(e, e.base, q);
    ObservedRun(e, observed, q, e.cycles);
    GridTotal(RanksHad(e, observed, q), e.cycles, e.width, 1);
  }

  lemma {:induction false} ObservedRun(e: Evidence, observed: (nat, nat, int) -> int, q: nat, n: nat)
    requires e.Valid() && BuiltFrom(e, observed) && q < e.width && n <= e.cycles
    ensures RankSum(e, e.base, q, n) == GridSum(RanksHad(e, observed, q), n, e.width, 1)
  {
    if n > 0 {
      ObservedRun(e, observed, q, n - 1);
      ObservedCycle(e, observed, q, n - 1, e.width);
    }
  }

  lemma {:induction false} ObservedCycle(e: Evidence, observed: (nat, nat, int) -> int, q: nat, c: nat, n: nat)
    requires e.Valid() && BuiltFrom(e, observed) && q < e.width && c < e.cycles && n <= e.width
    ensures CycleSum(e, e.base, q, c, n) == LayerSum(RanksHad(e, observed, q), c, n, 1)
  {
    if n > 0 {
      ObservedCycle(e, observed, q, c, n - 1);
      ObservedContribution(e, observed, c, n - 1, q);
      assert Place(c, n - 1, 0) in Trials(e);
      RowOfOne(RanksHad(e, observed, q), c, n - 1);
    }
  }

  lemma RowOfOne(m: map<Place, int>, c: nat, s: nat)
    ensures RowSum(m, c, s, 1) == At(m, Place(c, s, 0))
  {
    assert RowSum(m, c, s, 0) == 0;
  }

  lemma RequestInRange(e: Evidence, a: seq<int>, c: nat, s: nat, p: nat)
    requires e.Valid() && Cell(e, c, s, p) && |a| == e.cycles * e.width && IsAssignment(a, e.width, e.cycles)
    ensures 0 <= RequestAt(e, a, c, s, p) < e.width
  {
    BlockIsPerm(e, a, c);
    RotatedIsPerm(Block(e, a, c), s);
    RequestIsRotated(e, a, c, s, p);
  }

  method AddTrial(sums: array<int>, e: Evidence, a: seq<int>, c: nat, s: nat)
    requires e.Valid() && c < e.cycles && s < e.width && |a| == e.cycles * e.width && IsAssignment(a, e.width, e.cycles)
    requires sums.Length == e.width
    modifies sums
    ensures forall q :: 0 <= q < e.width ==> sums[q] == old(sums[q]) + TrialSum(e, a, q, c, s, e.width)
  {
    for p := 0 to e.width
      invariant forall q :: 0 <= q < e.width ==> sums[q] == old(sums[q]) + TrialSum(e, a, q, c, s, p)
    {
      RequestInRange(e, a, c, s, p);
      var request, rank := RequestAt(e, a, c, s, p), RankAt(e, c, s, p);
      sums[request] := sums[request] + rank;
    }
  }

  method AddCycle(sums: array<int>, e: Evidence, a: seq<int>, c: nat)
    requires e.Valid() && c < e.cycles && |a| == e.cycles * e.width && IsAssignment(a, e.width, e.cycles)
    requires sums.Length == e.width
    modifies sums
    ensures forall q :: 0 <= q < e.width ==> sums[q] == old(sums[q]) + CycleSum(e, a, q, c, e.width)
  {
    for s := 0 to e.width
      invariant forall q :: 0 <= q < e.width ==> sums[q] == old(sums[q]) + CycleSum(e, a, q, c, s)
    {
      AddTrial(sums, e, a, c, s);
    }
  }

  /** Clears the workspace and sums the ranks of each request under the assignment. */
  method SumRanks(sums: array<int>, e: Evidence, a: seq<int>)
    requires e.Valid() && |a| == e.cycles * e.width && IsAssignment(a, e.width, e.cycles) && sums.Length == e.width
    modifies sums
    ensures sums[..] == RankSums(e, a)
  {
    for q := 0 to e.width
      invariant forall k :: 0 <= k < q ==> sums[k] == 0
    {
      sums[q] := 0;
    }
    for c := 0 to e.cycles
      invariant forall q :: 0 <= q < e.width ==> sums[q] == RankSum(e, a, q, c)
    {
      AddCycle(sums, e, a, c);
    }
    forall q | 0 <= q < e.width
      ensures sums[q] == RankSums(e, a)[q]
    {
      RankSumIsTotal(e, a, q);
    }
  }

  // ------------------------------------------------------------- the exact test

  const TOLERANCE := 0.000_000_000_001

  /** The statistic is a function of the rank sums. */
  ghost predicate Extreme(e: Evidence, score: seq<int> -> real, a: seq<int>)
    requires e.Valid()
  {
    && |a| == e.cycles * e.width && IsAssignment(a, e.width, e.cycles)
    && score(RankSums(e, a)) >= score(RankSums(e, e.base)) - TOLERANCE
  }

  /** The extreme assignments numbered below code. */
  ghost function ExtremeBelow(e: Evidence, score: seq<int> -> real, perms: seq<seq<int>>, code: nat): set<seq<int>>
    requires e.Valid() && perms != []
  {
    if code == 0 then {}
    else
      var before, a := ExtremeBelow(e, score, perms, code - 1), Decoded(code - 1, perms, e.cycles);
      if Extreme(e, score, a) then before + {a} else before
  }

  /** The number of an extreme assignment. */
  lemma {:induction false} NumberBelow(e: Evidence, score: seq<int> -> real, perms: seq<seq<int>>, code: nat,
                                       a: seq<int>) returns (k: nat)
    requires e.Valid() && perms != [] && a in ExtremeBelow(e, score, perms, code)
    ensures k < code && a == Decoded(k, perms, e.cycles) && Extreme(e, score, a)
  {
    k := code - 1;
    if a != Decoded(k, perms, e.cycles) {
      k := NumberBelow(e, score, perms, code - 1, a);
    } else if !Extreme(e, score, a) {
      k := NumberBelow(e, score, perms, code - 1, a);
    }
  }

  lemma {:induction false} CountedBelow(e: Evidence, score: seq<int> -> real, perms: seq<seq<int>>, code: nat, k: nat)
    requires e.Valid() && perms != [] && k < code && Extreme(e, score, Decoded(k, perms, e.cycles))
    ensures Decoded(k, perms, e.cycles) in ExtremeBelow(e, score, perms, code)
  {
    if k < code - 1 {
      CountedBelow(e, score, perms, code - 1, k);
    }
  }

  /** A new code is a new assignment. */
  lemma OneMoreCode(e: Evidence, score: seq<int> -> real, perms: seq<seq<int>>, code: nat)
    requires e.Valid() && ListsPermutations(perms, e.width) && perms != [] && code < Power(|perms|, e.cycles)
    ensures |ExtremeBelow(e, score, perms, code + 1)| ==
            |ExtremeBelow(e, score, perms, code)| + if Extreme(e, score, Decoded(code, perms, e.cycles)) then 1 else 0
  {
    var a := Decoded(code, perms, e.cycles);
    if a in ExtremeBelow(e, score, perms, code) {
      var k := NumberBelow(e, score, perms, code, a);
      DecodeEncode(k, perms, e.width, e.cycles);
      DecodeEncode(code, perms, e.width, e.cycles);
    }
  }

  lemma EveryExtreme(e: Evidence, score: seq<int> -> real, perms: seq<seq<int>>, space: nat)
    requires e.Valid() && ListsPermutations(perms, e.width) && perms != [] && space == Power(|perms|, e.cycles)
    ensures forall a :: a in ExtremeBelow(e, score, perms, space) <==> Extreme(e, score, a)
    ensures e.base in ExtremeBelow(e, score, perms, space)
  {
    forall a
      ensures a in ExtremeBelow(e, score, perms, space) <==> Extreme(e, score, a)
    {
      if a in ExtremeBelow(e, score, perms, space) {
        var _ := NumberBelow(e, score, perms, space, a);
      }
      if Extreme(e, score, a) {
        EncodeDecode(a, perms, e.width, e.cycles);
        CountedBelow(e, score, perms, space, Encoded(a, perms, e.width, e.cycles));
      }
    }
  }

  method ScoreOf(sums: array<int>, e: Evidence, score: seq<int> -> real, a: array<int>) returns (value: real)
    requires e.Valid() && a.Length == e.cycles * e.width && IsAssignment(a[..], e.width, e.cycles)
    requires sums.Length == e.width && sums != a
    modifies sums
    ensures value == score(RankSums(e, a[..]))
  {
    SumRanks(sums, e, a[..]);
    value := score(sums[..]);
  }

  method Observed(sums: array<int>, e: Evidence, score: seq<int> -> real) returns (value: real)
    requires e.Valid() && sums.Length == e.width
    modifies sums
    ensures value == score(RankSums(e, e.base))
  {
    SumRanks(sums, e, e.base);
    value := score(sums[..]);
  }

  /** Scores the assignment with this number. */
  method ScoreCode(sums: array<int>, a: array<int>, e: Evidence, score: seq<int> -> real, perms: seq<seq<int>>,
                   code: nat, observed: real)
    returns (extreme: bool)
    requires e.Valid() && ListsPermutations(perms, e.width) && perms != [] && code < Power(|perms|, e.cycles)
    requires sums.Length == e.width && a.Length == e.cycles * e.width && sums != a
    requires observed == score(RankSums(e, e.base))
    modifies sums, a
    ensures extreme <==> Extreme(e, score, Decoded(code, perms, e.cycles))
  {
    DecodeEncode(code, perms, e.width, e.cycles);
    WideEntries(perms, e.width);
    DecodeInto(a, code, perms, e.width, e.cycles);
    var value := ScoreOf(sums, e, score, a);
    extreme := value >= observed - TOLERANCE;
  }

  lemma WideEntries(perms: seq<seq<int>>, width: nat)
    requires ListsPermutations(perms, width)
    ensures AllWide(perms, width)
  {
    assert forall i :: 0 <= i < |perms| ==> perms[i] in perms;
  }

  /** Visits the whole orbit: extreme is the number of all assignments that are at least
      as extreme as the observed one, which is always among them. */
  method ExactGlobal(e: Evidence, score: seq<int> -> real, space: nat) returns (extreme: nat, ghost all: set<seq<int>>)
    requires e.Valid() && space == Power(Factorial(e.width), e.cycles)
    ensures forall a :: a in all <==> Extreme(e, score, a)
    ensures extreme == |all| && 1 <= extreme <= space
  {
    var perms := Permutations(e.width);
    var sums, a := new int[e.width], new int[e.cycles * e.width];
    var observed := Observed(sums, e, score);
    extreme := CountOrbit(sums, a, e, score, perms, space, observed);
    EveryExtreme(e, score, perms, space);
    all := ExtremeBelow(e, score, perms, space);
    assert all >= {e.base} && |{e.base}| <= |all| by {
      assert all == {e.base} + (all - {e.base});
    }
  }

  method CountOrbit(sums: array<int>, a: array<int>, e: Evidence, score: seq<int> -> real, perms: seq<seq<int>>,
                    space: nat, observed: real)
    returns (extreme: nat)
    requires e.Valid() && ListsPermutations(perms, e.width) && perms != [] && space == Power(|perms|, e.cycles)
    requires sums.Length == e.width && a.Length == e.cycles * e.width && sums != a
    requires observed == score(RankSums(e, e.base))
    modifies sums, a
    ensures extreme == |ExtremeBelow(e, score, perms, space)| <= space
  {
    extreme := 0;
    for code := 0 to space
      invariant extreme == |ExtremeBelow(e, score, perms, code)| <= code
    {
      OneMoreCode(e, score, perms, code);
      var hit := ScoreCode(sums, a, e, score, perms, code, observed);
      if hit {
        extreme := extreme + 1;
      }
    }
  }
}
