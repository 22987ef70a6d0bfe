/** The exact sign-flip test of cycle contributions: a dynamic program over two buffers
    against the count over all sign vectors. */
module SignFlip {
  import opened Arithmetic

  function Abs(x: int): int { if x < 0 then -x else x }

  // ---------------------------------------------------------------- sign vectors

  ghost function Extended(vectors: set<seq<bool>>, sign: bool): set<seq<bool>> {
    set s | s in vectors :: s + [sign]
  }

  lemma InExtended(vectors: set<seq<bool>>, sign: bool, s: seq<bool>)
    ensures s in Extended(vectors, sign) <==> s != [] && s[|s| - 1] == sign && s[..|s| - 1] in vectors
  {
    if s in Extended(vectors, sign) {
      var t :| t in vectors && s == t + [sign];
      assert s[..|s| - 1] == t;
    }
    if s != [] && s[|s| - 1] == sign && s[..|s| - 1] in vectors {
      assert s == s[..|s| - 1] + [sign];
    }
  }

  /** All vectors of n signs. */
  ghost function Vectors(n: nat): set<seq<bool>> {
    if n == 0 then {[]} else Extended(Vectors(n - 1), true) + Extended(Vectors(n - 1), false)
  }

  lemma {:induction false} AllVectors(n: nat, s: seq<bool>)
    ensures s in Vectors(n) <==> |s| == n
  {
    if n > 0 {
      InExtended(Vectors(n - 1), true, s);
      InExtended(Vectors(n - 1), false, s);
      if s != [] {
        AllVectors(n - 1, s[..|s| - 1]);
      }
    }
  }

  /** The sum of the contributions under these signs. */
  function SignSum(c: seq<int>, signs: seq<bool>): int
    requires |signs| == |c|
  {
    if c == [] then 0
    else
      var n := |c| - 1;
      SignSum(c[..n], signs[..n]) + if signs[n] then c[n] else -c[n]
  }

  /** The sign vectors whose sum is v. */
  ghost function Summing(c: seq<int>, v: int): set<seq<bool>> {
    set signs | signs in Vectors(|c|) && |signs| == |c| && SignSum(c, signs) == v
  }

  lemma {:induction false} ExtendedSize(vectors: set<seq<bool>>, sign: bool)
    ensures |Extended(vectors, sign)| == |vectors|
    decreases |vectors|
  {
    if s :| s in vectors {
      ExtendedSize(vectors - {s}, sign);
      assert Extended(vectors, sign) == Extended(vectors - {s}, sign) + {s + [sign]};
      assert s + [sign] !in Extended(vectors - {s}, sign) by {
        forall t | t in vectors - {s}
          ensures t + [sign] != s + [sign]
        {
          assert t == (t + [sign])[..|t|] && s == (s + [sign])[..|s|];
        }
      }
    } else {
      assert Extended(vectors, sign) == {};
    }
  }

  lemma SummingEnds(c: seq<int>, v: int, s: seq<bool>)
    requires c != []
    ensures var n := |c| - 1;
            s in Summing(c, v) <==>
            s in Extended(Summing(c[..n], v - c[n]), true) || s in Extended(Summing(c[..n], v + c[n]), false)
  {
    var n := |c| - 1;
    InExtended(Summing(c[..n], v - c[n]), true, s);
    InExtended(Summing(c[..n], v + c[n]), false, s);
    AllVectors(n + 1, s);
    if s != [] {
      AllVectors(n, s[..|s| - 1]);
    }
  }

  /** The vectors summing to v end in a plus or in a minus. */
  lemma SummingSplit(c: seq<int>, v: int)
    requires c != []
    ensures var n := |c| - 1;
            |Summing(c, v)| == |Summing(c[..n], v - c[n])| + |Summing(c[..n], v + c[n])|
  {
    var n := |c| - 1;
    var whole, plus, minus := Summing(c, v), Summing(c[..n], v - c[n]), Summing(c[..n], v + c[n]);
    forall s
      ensures EndsIn(whole, plus, minus, s)
    {
      SummingEnds(c, v, s);
    }
    SplitSize(whole, plus, minus);
  }

  ghost predicate EndsIn(whole: set<seq<bool>>, plus: set<seq<bool>>, minus: set<seq<bool>>, s: seq<bool>) {
    s in whole <==> s in Extended(plus, true) || s in Extended(minus, false)
  }

  lemma SplitSize(whole: set<seq<bool>>, plus: set<seq<bool>>, minus: set<seq<bool>>)
    requires forall s :: EndsIn(whole, plus, minus, s)
    ensures |whole| == |plus| + |minus|
  {
    ExtendedSize(plus, true);
    ExtendedSize(minus, false);
    var a, b := Extended(plus, true), Extended(minus, false);
    forall s
      ensures s in whole <==> s in a || s in b
      ensures !(s in a && s in b)
    {
      assert EndsIn(whole, plus, minus, s);
      InExtended(plus, true, s);
      InExtended(minus, false, s);
    }
    assert whole == a + b && a !! b;
  }

  /** How many sign vectors sum to v, by the last sign. */
  function Ways(c: seq<int>, v: int): nat {
    if c == [] then (if v == 0 then 1 else 0)
    else
      var n := |c| - 1;
      Ways(c[..n], v - c[n]) + Ways(c[..n], v + c[n])
  }

  lemma {:induction false} WaysIsCount(c: seq<int>, v: int)
    ensures Ways(c, v) == |Summing(c, v)|
  {
    if c == [] {
      EmptySum(v);
    } else {
      var n := |c| - 1;
      WaysIsCount(c[..n], v - c[n]);
      WaysIsCount(c[..n], v + c[n]);
      SummingSplit(c, v);
    }
  }

  lemma EmptySum(v: int)
    ensures |Summing([], v)| == if v == 0 then 1 else 0
  {
    assert Summing([], v) == if v == 0 then {[]} else {};
  }

  /** w halved n times. */
  function Halved(w: nat, n: nat): real { if n == 0 then w as real else Halved(w, n - 1) / 2.0 }

  lemma {:induction false} HalvedAdds(a: nat, b: nat, n: nat)
    ensures Halved(a, n) + Halved(b, n) == Halved(a + b, n)
  {
    if n > 0 {
      HalvedAdds(a, b, n - 1);
    }
  }

  lemma {:induction false} HalvedZero(n: nat)
    ensures Halved(0, n) == 0.0
  {
    if n > 0 {
      HalvedZero(n - 1);
    }
  }

  lemma {:induction false} HalvedIsQuotient(w: nat, n: nat)
    ensures Halved(w, n) == w as real / Pow2(n) as real
  {
    if n > 0 {
      HalvedIsQuotient(w, n - 1);
      HalfQuotient(w as real, Pow2(n - 1) as real);
      assert Pow2(n) as real == 2.0 * Pow2(n - 1) as real;
    }
  }

  lemma HalfQuotient(x: real, p: real)
    requires p > 0.0
    ensures x / p / 2.0 == x / (2.0 * p)
  {
    var q := x / p;
    assert q * p == x;
    assert q / 2.0 * (2.0 * p) == x;
  }

  /** The fraction of the sign vectors that sum to v. */
  ghost function Fraction(c: seq<int>, v: int): real { Halved(Ways(c, v), |c|) }

  function Range(c: seq<int>): (r: int)
    ensures r >= 0
  {
    if c == [] then 0 else Range(c[..|c| - 1]) + Abs(c[|c| - 1])
  }

  lemma {:induction false} NoWaysOutside(c: seq<int>, v: int)
    requires Abs(v) > Range(c)
    ensures Ways(c, v) == 0
  {
    if c != [] {
      var n := |c| - 1;
      NoWaysOutside(c[..n], v - c[n]);
      NoWaysOutside(c[..n], v + c[n]);
    }
  }

  lemma FractionOutside(c: seq<int>, v: int)
    requires Abs(v) > Range(c)
    ensures Fraction(c, v) == 0.0
  {
    NoWaysOutside(c, v);
    HalvedZero(|c|);
  }

  lemma FractionStep(c: seq<int>, x: int, v: int)
    ensures Fraction(c + [x], v) == Fraction(c, v - x) / 2.0 + Fraction(c, v + x) / 2.0
  {
    assert (c + [x])[..|c|] == c;
    HalvedAdds(Ways(c, v - x), Ways(c, v + x), |c|);
  }

  // ------------------------------------------------------------ the two buffers

  /** What a pass over the values below limit has put at u: half of the values that x
      or -x moves there. */
  ghost function Received(c: seq<int>, x: int, limit: int, u: int): real {
    Half(c, u - x, limit) + Half(c, u + x, limit)
  }

  ghost function Half(c: seq<int>, w: int, limit: int): real {
    if -Range(c) <= w < limit then Fraction(c, w) / 2.0 else 0.0
  }

  /** What the value w adds at u. */
  ghost function Spread(c: seq<int>, x: int, w: int, u: int): real {
    (if u == w + x then Fraction(c, w) / 2.0 else 0.0) + (if u == w - x then Fraction(c, w) / 2.0 else 0.0)
  }

  lemma ReceivedStep(c: seq<int>, x: int, w: int, u: int)
    requires w >= -Range(c)
    ensures Received(c, x, w + 1, u) == Received(c, x, w, u) + Spread(c, x, w, u)
  {
  }

  /** A finished pass gives the fractions for one more contribution. */
  lemma PassComplete(c: seq<int>, x: int, u: int)
    ensures Received(c, x, Range(c) + 1, u) == Fraction(c + [x], u)
  {
    FractionStep(c, x, u);
    if Abs(u - x) > Range(c) {
      FractionOutside(c, u - x);
    }
    if Abs(u + x) > Range(c) {
      FractionOutside(c, u + x);
    }
  }

  /** The buffer holds the fractions for c within range, centred on offset. */
  ghost predicate Holds(b: array<real>, offset: nat, c: seq<int>)
    reads b
  {
    offset + Range(c) < b.Length && Range(c) <= offset &&
    forall i :: offset - Range(c) <= i <= offset + Range(c) ==> b[i] == Fraction(c, i - offset)
  }

  method Clear(b: array<real>, from: nat, to: nat)
    requires from <= to <= b.Length
    modifies b
    ensures forall i :: from <= i < to ==> b[i] == 0.0
  {
    for i := from to to
      invariant forall k :: from <= k < i ==> b[k] == 0.0
    {
      b[i] := 0.0;
    }
  }

  /** Spreads one value of the current buffer. */
  method SpreadValue(current: array<real>, next: array<real>, offset: nat, ghost c: seq<int>, range: int, x: int,
                     value: int)
    requires current != next && current.Length == next.Length && Holds(current, offset, c) && range == Range(c)
    requires range + Abs(x) <= offset && offset + range + Abs(x) < next.Length && -range <= value <= range
    requires forall i :: offset - range - Abs(x) <= i <= offset + range + Abs(x) ==>
               next[i] == Received(c, x, value, i - offset)
    modifies next
    ensures forall i :: offset - range - Abs(x) <= i <= offset + range + Abs(x) ==>
              next[i] == Received(c, x, value + 1, i - offset)
  {
    forall u
      ensures Received(c, x, value + 1, u) == Received(c, x, value, u) + Spread(c, x, value, u)
    {
      ReceivedStep(c, x, value, u);
    }
    var probability := current[offset + value];
    if probability != 0.0 {
      next[offset + value + x] := next[offset + value + x] + probability / 2.0;
      next[offset + value - x] := next[offset + value - x] + probability / 2.0;
    }
  }

  /** One pass: spreads every value of the current buffer by one contribution. */
  method Pass(current: array<real>, next: array<real>, offset: nat, ghost c: seq<int>, range: int, x: int)
    requires current != next && current.Length == next.Length && Holds(current, offset, c) && range == Range(c)
    requires range + Abs(x) <= offset && offset + range + Abs(x) < next.Length
    modifies next
    ensures Holds(next, offset, c + [x])
  {
    var wider := range + Abs(x);
    Clear(next, offset - wider, offset + wider + 1);
    var value := -range;
    while value <= range
      invariant -range <= value <= range + 1 && Holds(current, offset, c)
      invariant forall i :: offset - wider <= i <= offset + wider ==> next[i] == Received(c, x, value, i - offset)
    {
      SpreadValue(current, next, offset, c, range, x, value);
      value := value + 1;
    }
    assert (c + [x])[..|c|] == c;
    forall i | offset - wider <= i <= offset + wider
      ensures next[i] == Fraction(c + [x], i - offset)
    {
      PassComplete(c, x, i - offset);
    }
  }

  // ---------------------------------------------------------------- the p-value

  function Total(c: seq<int>): int { if c == [] then 0 else Total(c[..|c| - 1]) + c[|c| - 1] }

  /** The sign vectors whose sum is at least as far from zero as the observed one. */
  ghost function AsExtreme(c: seq<int>, extreme: int): set<seq<bool>> {
    set signs | signs in Vectors(|c|) && |signs| == |c| && Abs(SignSum(c, signs)) >= extreme
  }

  /** Those of them with a sum from lo up to, not including, hi. */
  ghost function ExtremeBetween(c: seq<int>, extreme: int, lo: int, hi: int): set<seq<bool>> {
    set signs | signs in AsExtreme(c, extreme) && |signs| == |c| && lo <= SignSum(c, signs) < hi
  }

  ghost function ExtremeWays(c: seq<int>, extreme: int, lo: int, hi: int): nat
    decreases hi - lo
  {
    if hi <= lo then 0 else ExtremeWays(c, extreme, lo, hi - 1) + if Abs(hi - 1) >= extreme then Ways(c, hi - 1) else 0
  }

  lemma {:induction false} ExtremeWaysIsCount(c: seq<int>, extreme: int, lo: int, hi: int)
    ensures ExtremeWays(c, extreme, lo, hi) == |ExtremeBetween(c, extreme, lo, hi)|
    decreases hi - lo
  {
    var all := ExtremeBetween(c, extreme, lo, hi);
    if hi <= lo {
      assert all == {};
    } else {
      ExtremeWaysIsCount(c, extreme, lo, hi - 1);
      WaysIsCount(c, hi - 1);
      var rest := ExtremeBetween(c, extreme, lo, hi - 1);
      var last := if Abs(hi - 1) >= extreme then Summing(c, hi - 1) else {};
      assert all == rest + last;
      assert rest !! last;
    }
  }

  lemma {:induction false} SumInRange(c: seq<int>, signs: seq<bool>)
    requires |signs| == |c|
    ensures Abs(SignSum(c, signs)) <= Range(c)
  {
    if c != [] {
      SumInRange(c[..|c| - 1], signs[..|c| - 1]);
    }
  }

  lemma WholeRange(c: seq<int>, extreme: int)
    ensures ExtremeBetween(c, extreme, -Range(c), Range(c) + 1) == AsExtreme(c, extreme)
  {
    forall signs | signs in AsExtreme(c, extreme)
      ensures -Range(c) <= SignSum(c, signs) <= Range(c)
    {
      SumInRange(c, signs);
    }
  }

  lemma {:induction false} ObservedSum(c: seq<int>)
    ensures SignSum(c, seq(|c|, _ => true)) == Total(c)
  {
    if c != [] {
      var n := |c| - 1;
      ObservedSum(c[..n]);
      assert seq(|c|, _ => true)[..n] == seq(n, _ => true);
    }
  }

  lemma {:induction false} VectorsSize(n: nat)
    ensures |Vectors(n)| == Pow2(n)
  {
    if n > 0 {
      VectorsSize(n - 1);
      var shorter := Vectors(n - 1);
      SplitSize(Vectors(n), shorter, shorter);
    }
  }

  /** The observed signs are among the extreme ones, and all are among the vectors. */
  lemma ExtremeBounds(c: seq<int>)
    ensures 1 <= |AsExtreme(c, Abs(Total(c)))| <= Pow2(|c|)
  {
    var signs, all := seq(|c|, _ => true), AsExtreme(c, Abs(Total(c)));
    ObservedSum(c);
    AllVectors(|c|, signs);
    VectorsSize(|c|);
    assert signs in all;
    Between(signs, all, Vectors(|c|));
  }

  lemma Between(s: seq<bool>, a: set<seq<bool>>, b: set<seq<bool>>)
    requires s in a && a <= b
    ensures 1 <= |a| <= |b|
  {
    assert a == {s} + (a - {s});
    assert b == a + (b - a);
  }

  lemma {:induction false} HalvedAtMostOne(w: nat, n: nat)
    requires w <= Pow2(n)
    ensures Halved(w, n) <= 1.0
    decreases n
  {
    HalvedIsQuotient(w, n);
    AtMostOne(w as real, Pow2(n) as real);
  }

  lemma AtMostOne(x: real, p: real)
    requires x <= p && p > 0.0
    ensures x / p <= 1.0
  {
  }

  /** Total and total size of the contributions. */
  method Measure(c: seq<int>) returns (range: int, observed: int)
    ensures range == Range(c) && observed == Total(c)
  {
    range, observed := 0, 0;
    for i := 0 to |c|
      invariant range == Range(c[..i]) && observed == Total(c[..i])
    {
      assert c[..i + 1][..i] == c[..i];
      range, observed := range + Abs(c[i]), observed + c[i];
    }
    assert c[..|c|] == c;
  }

  lemma {:induction false} RangeGrows(c: seq<int>, k: nat)
    requires k <= |c|
    ensures Range(c[..k]) <= Range(c)
    decreases |c| - k
  {
    if k < |c| {
      RangeGrows(c, k + 1);
      assert c[..k + 1][..k] == c[..k];
    } else {
      assert c[..k] == c;
    }
  }

  /** Runs one pass per contribution over two buffers that change places. */
  method Distribution(c: seq<int>, offset: int) returns (probabilities: array<real>)
    requires offset == Range(c)
    ensures fresh(probabilities) && probabilities.Length == 2 * offset + 1 && Holds(probabilities, offset, c)
  {
    probabilities := new real[2 * offset + 1](_ => 0.0);
    var next := new real[2 * offset + 1](_ => 0.0);
    probabilities[offset] := 1.0;
    var range := 0;
    for i := 0 to |c|
      invariant fresh(probabilities) && fresh(next) && probabilities != next
      invariant probabilities.Length == next.Length == 2 * offset + 1
      invariant range == Range(c[..i]) && Holds(probabilities, offset, c[..i])
    {
      RangeGrows(c, i + 1);
      assert c[..i + 1] == c[..i] + [c[i]] && c[..i + 1][..i] == c[..i];
      Pass(probabilities, next, offset, c[..i], range, c[i]);
      probabilities, next := next, probabilities;
      range := range + Abs(c[i]);
    }
    assert c[..|c|] == c;
  }

  /** Adds up the fractions of the extreme values. */
  method Tail(probabilities: array<real>, offset: int, ghost c: seq<int>, extreme: int) returns (p: real)
    requires offset == Range(c) && probabilities.Length == 2 * offset + 1 && Holds(probabilities, offset, c)
    ensures p == Halved(|AsExtreme(c, extreme)|, |c|)
  {
    p := 0.0;
    HalvedZero(|c|);
    var value := -offset;
    while value <= offset
      invariant -offset <= value <= offset + 1
      invariant p == Halved(ExtremeWays(c, extreme, -offset, value), |c|)
    {
      if Abs(value) >= extreme {
        HalvedAdds(ExtremeWays(c, extreme, -offset, value), Ways(c, value), |c|);
        p := p + probabilities[offset + value];
      }
      value := value + 1;
    }
    ExtremeWaysIsCount(c, extreme, -offset, offset + 1);
    WholeRange(c, extreme);
  }

  /** The two-sided p-value: the fraction of all sign vectors whose sum is at least as
      extreme as the observed one. */
  ghost function ExactP(c: seq<int>): real { |AsExtreme(c, Abs(Total(c)))| as real / Pow2(|c|) as real }

  method TwoSided(c: seq<int>) returns (p: real, observed: int)
    ensures p == ExactP(c) && observed == Total(c)
    ensures 1 <= |AsExtreme(c, Abs(Total(c)))| <= Pow2(|c|)
  {
    var range;
    range, observed := Measure(c);
    var probabilities := Distribution(c, range);
    var extreme := Abs(observed);
    p := Tail(probabilities, range, c, extreme);
    ExtremeBounds(c);
    HalvedAtMostOne(|AsExtreme(c, extreme)|, |c|);
    HalvedIsQuotient(|AsExtreme(c, extreme)|, |c|);
    p := if p > 1.0 then 1.0 else p;
  }

  function TenTo(k: nat): (p: nat)
    ensures p >= 1
  {
    if k == 0 then 1 else 10 * TenTo(k - 1)
  }

  /** The least p-value that is reported as it is. */
  const FLOOR: real := 1.0 / TenTo(300) as real

  lemma FloorInRange()
    ensures 0.0 < FLOOR <= 1.0
  {
    var t := TenTo(300) as real;
    assert FLOOR * t == 1.0;
    Factor(FLOOR, 1.0, t);
  }

  lemma Factor(q: real, a: real, b: real)
    requires 0.0 < a <= b && q * b == a
    ensures 0.0 < q <= 1.0
  {
  }

  function SumSquares(c: seq<int>): (s: int)
    ensures s >= 0
  {
    if c == [] then 0 else SumSquares(c[..|c| - 1]) + c[|c| - 1] * c[|c| - 1]
  }

  /** Twice the exponential of -observed^2 / (2 * sum of squares), with a margin. */
  function TailBound(c: seq<int>, observed: int, exp: real -> real): real {
    if SumSquares(c) == 0 then 1.0
    else 2.0 * exp(-(observed * observed) as real / (2 * SumSquares(c)) as real) * (1.0 + 0.000000000001)
  }

  /** The bound between the floor and 1. */
  method UpperBound(c: seq<int>, observed: int, exp: real -> real) returns (p: real)
    ensures FLOOR <= p <= 1.0
    ensures p <= FLOOR || p <= TailBound(c, observed, exp)
    ensures p == 1.0 || p >= TailBound(c, observed, exp)
    ensures SumSquares(c) == 0 ==> p == 1.0
  {
    FloorInRange();
    var squares := 0;
    for i := 0 to |c|
      invariant squares == SumSquares(c[..i])
    {
      assert c[..i + 1][..i] == c[..i];
      squares := squares + c[i] * c[i];
    }
    assert c[..|c|] == c;
    if squares == 0 {
      return 1.0;
    }
    var bound := 2.0 * exp(-(observed * observed) as real / (2 * squares) as real) * (1.0 + 0.000000000001);
    p := if bound < FLOOR then FLOOR else bound;
    p := if p > 1.0 then 1.0 else p;
  }

  /** The reported p-value is the exact fraction unless it is flagged as a bound. It is
      flagged exactly below the floor, and then it lies above the exact fraction and at
      most at the larger of the floor and the exponential bound. */
  method ExactCycleSign(c: seq<int>, exp: real -> real) returns (p: real, bounded: bool)
    ensures bounded <==> ExactP(c) < FLOOR
    ensures if bounded then ExactP(c) < p else p == ExactP(c)
    ensures bounded ==> p <= FLOOR || p <= TailBound(c, Total(c), exp)
    ensures 0.0 < ExactP(c) <= p <= 1.0
  {
    var observed;
    p, observed := TwoSided(c);
    QuotientInRange(|AsExtreme(c, Abs(Total(c)))|, Pow2(|c|));
    bounded := p < FLOOR;
    if bounded {
      p := UpperBound(c, observed, exp);
    }
  }

  lemma QuotientInRange(a: nat, b: nat)
    requires 1 <= a <= b
    ensures 0.0 < a as real / b as real <= 1.0
  {
    var q := a as real / b as real;
    assert q * b as real == a as real;
    Factor(q, a as real, b as real);
  }
}
