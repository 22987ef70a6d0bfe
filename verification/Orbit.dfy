/** The orbit of assignments: one permutation per cycle, numbered by mixed radix. */
module Orbit {
  import Sequences
  import opened Arithmetic
  import opened Perms
  import opened PermutationList

  function Power(b: nat, e: nat): nat { if e == 0 then 1 else b * Power(b, e - 1) }

  /** One permutation of the requests for each cycle, one after the other. */
  predicate IsAssignment(a: seq<int>, width: nat, cycles: nat) {
    if cycles == 0 then a == []
    else |a| >= width && IsPerm(a[..width]) && IsAssignment(a[width..], width, cycles - 1)
  }

  /** The lowest digit of a number in base b, and the number without it, by counting. */
  function Low(code: nat, b: nat): (r: nat)
    requires b > 0
    ensures r < b
  {
    if code < b then code else Low(code - b, b)
  }

  function High(code: nat, b: nat): nat
    requires b > 0
  {
    if code < b then 0 else 1 + High(code - b, b)
  }

  function Join(digit: nat, b: nat, rest: nat): nat { if rest == 0 then digit else b + Join(digit, b, rest - 1) }

  /** The assignment with this number: the lowest digit is the first cycle. */
  function Decoded(code: nat, perms: seq<seq<int>>, cycles: nat): seq<int>
    requires perms != []
    decreases cycles
  {
    if cycles == 0 then [] else perms[Low(code, |perms|)] + Decoded(High(code, |perms|), perms, cycles - 1)
  }

  function IndexIn(perms: seq<seq<int>>, p: seq<int>): (i: nat)
    requires p in perms
    ensures i < |perms| && perms[i] == p
  {
    if perms[0] == p then 0 else 1 + IndexIn(perms[1..], p)
  }

  ghost function Encoded(a: seq<int>, perms: seq<seq<int>>, width: nat, cycles: nat): nat
    requires ListsPermutations(perms, width) && IsAssignment(a, width, cycles)
  {
    if cycles == 0 then 0
    else Join(IndexIn(perms, a[..width]), |perms|, Encoded(a[width..], perms, width, cycles - 1))
  }

  lemma {:induction false} SplitJoin(digit: nat, b: nat, rest: nat)
    requires digit < b
    ensures Low(Join(digit, b, rest), b) == digit && High(Join(digit, b, rest), b) == rest
  {
    if rest > 0 {
      SplitJoin(digit, b, rest - 1);
    }
  }

  lemma {:induction false} JoinSplit(code: nat, b: nat)
    requires b > 0
    ensures Join(Low(code, b), b, High(code, b)) == code
  {
    if code >= b {
      JoinSplit(code - b, b);
    }
  }

  /** A number below b * m has a rest below m. */
  lemma {:induction false} HighBound(code: nat, b: nat, m: nat)
    requires b > 0
    ensures High(code, b) < m <==> code < b * m
    decreases code
  {
    if m == 0 {
    } else if code >= b {
      HighBound(code - b, b, m - 1);
      assert b * m == b * (m - 1) + b;
    } else {
      MulMonotone(1, m, b);
    }
  }

  lemma JoinBound(digit: nat, b: nat, rest: nat, m: nat)
    requires digit < b && rest < m
    ensures Join(digit, b, rest) < b * m
  {
    SplitJoin(digit, b, rest);
    HighBound(Join(digit, b, rest), b, m);
  }

  lemma {:induction false} DigitsByDivision(code: nat, b: nat)
    requires b > 0
    ensures Low(code, b) == code % b && High(code, b) == code / b
  {
    if code >= b {
      DigitsByDivision(code - b, b);
      TakeOneOut(code, b);
    } else {
      SmallDivision(code, b);
    }
  }

  lemma SmallDivision(code: nat, b: nat)
    requires code < b
    ensures code % b == code && code / b == 0
  {
  }

  lemma TakeOneOut(code: nat, b: nat)
    requires 0 < b <= code
    ensures code % b == (code - b) % b && code / b == (code - b) / b + 1
  {
    var q, r := (code - b) / b, (code - b) % b;
    assert code == b * (q + 1) + r;
    Unique(code, b, q + 1, r);
  }

  lemma Unique(code: nat, b: nat, q: nat, r: nat)
    requires b > 0 && r < b && code == b * q + r
    ensures code / b == q && code % b == r
  {
    var x, y := code / b, code % b;
    assert code == b * x + y;
    if x < q {
      Gap(b, x, q);
    } else if x > q {
      Gap(b, q, x);
    }
  }

  lemma Gap(b: nat, x: nat, y: nat)
    requires x < y
    ensures b * x + b <= b * y
  {
    MulMonotone(x + 1, y, b);
    assert b * (x + 1) == b * x + b;
  }

  /** Every number below the size of the orbit names an assignment, and that assignment
      gives the number back. */
  lemma {:induction false} DecodeEncode(code: nat, perms: seq<seq<int>>, width: nat, cycles: nat)
    requires ListsPermutations(perms, width) && perms != [] && code < Power(|perms|, cycles)
    ensures IsAssignment(Decoded(code, perms, cycles), width, cycles)
    ensures Encoded(Decoded(code, perms, cycles), perms, width, cycles) == code
    decreases cycles
  {
    if cycles > 0 {
      var low, high := Low(code, |perms|), High(code, |perms|);
      HighBound(code, |perms|, Power(|perms|, cycles - 1));
      DecodeEncode(high, perms, width, cycles - 1);
      var p, rest := perms[low], Decoded(high, perms, cycles - 1);
      assert p in perms;
      assert (p + rest)[..width] == p && (p + rest)[width..] == rest;
      assert IndexIn(perms, p) == low;
      JoinSplit(code, |perms|);
    }
  }

  lemma {:induction false} EncodedBound(a: seq<int>, perms: seq<seq<int>>, width: nat, cycles: nat)
    requires ListsPermutations(perms, width) && IsAssignment(a, width, cycles)
    ensures Encoded(a, perms, width, cycles) < Power(|perms|, cycles)
  {
    if cycles > 0 {
      EncodedBound(a[width..], perms, width, cycles - 1);
      JoinBound(IndexIn(perms, a[..width]), |perms|, Encoded(a[width..], perms, width, cycles - 1),
                Power(|perms|, cycles - 1));
    }
  }

  /** Every assignment has a number, below the size of the orbit, that decodes to it. */
  lemma {:induction false} EncodeDecode(a: seq<int>, perms: seq<seq<int>>, width: nat, cycles: nat)
    requires ListsPermutations(perms, width) && perms != [] && IsAssignment(a, width, cycles)
    ensures Encoded(a, perms, width, cycles) < Power(|perms|, cycles)
    ensures Decoded(Encoded(a, perms, width, cycles), perms, cycles) == a
  {
    EncodedBound(a, perms, width, cycles);
    if cycles > 0 {
      EncodeDecode(a[width..], perms, width, cycles - 1);
      DecodeJoined(IndexIn(perms, a[..width]), Encoded(a[width..], perms, width, cycles - 1), perms, cycles);
      assert a == a[..width] + a[width..];
    }
  }

  lemma DecodeJoined(digit: nat, rest: nat, perms: seq<seq<int>>, cycles: nat)
    requires digit < |perms| && cycles > 0
    ensures Decoded(Join(digit, |perms|, rest), perms, cycles) == perms[digit] + Decoded(rest, perms, cycles - 1)
  {
    SplitJoin(digit, |perms|, rest);
  }

  lemma {:induction false} AssignmentLength(a: seq<int>, width: nat, cycles: nat)
    requires IsAssignment(a, width, cycles)
    ensures |a| == cycles * width
  {
    if cycles > 0 {
      AssignmentLength(a[width..], width, cycles - 1);
      assert cycles * width == (cycles - 1) * width + width;
    }
  }

  predicate AllWide(perms: seq<seq<int>>, width: nat) { forall i :: 0 <= i < |perms| ==> |perms[i]| == width }

  lemma {:induction false} DecodedLength(code: nat, perms: seq<seq<int>>, width: nat, cycles: nat)
    requires AllWide(perms, width) && perms != []
    ensures |Decoded(code, perms, cycles)| == cycles * width
    decreases cycles
  {
    if cycles > 0 {
      DecodedLength(High(code, |perms|), perms, width, cycles - 1);
      assert |perms[Low(code, |perms|)]| == width;
      assert cycles * width == (cycles - 1) * width + width;
    }
  }

  // ----------------------------------------------------------------- in place

  method CopyInto(a: array<int>, offset: nat, p: seq<int>)
    requires offset + |p| <= a.Length
    modifies a
    ensures a[..offset] == old(a[..offset]) && a[offset..offset + |p|] == p
  {
    for i := 0 to |p|
      invariant a[..offset] == old(a[..offset])
      invariant forall k :: 0 <= k < i ==> a[offset + k] == p[k]
    {
      a[offset + i] := p[i];
    }
  }

  method Digit(code: nat, b: nat) returns (low: nat, high: nat)
    requires b > 0
    ensures low == Low(code, b) && high == High(code, b)
  {
    DigitsByDivision(code, b);
    low, high := code % b, code / b;
  }

  /** Writes the assignment with this number, cycle by cycle. */
  method DecodeInto(a: array<int>, code: nat, perms: seq<seq<int>>, width: nat, cycles: nat)
    requires AllWide(perms, width) && perms != [] && a.Length == cycles * width
    modifies a
    ensures a[..] == Decoded(code, perms, cycles)
  {
    DecodedLength(code, perms, width, cycles);
    var value, offset: nat := code, 0;
    for cycle := 0 to cycles
      invariant offset + |Decoded(value, perms, cycles - cycle)| == a.Length
      invariant a[..offset] + Decoded(value, perms, cycles - cycle) == Decoded(code, perms, cycles)
    {
      var low, high := Digit(value, |perms|);
      ghost var done := a[..offset];
      Sequences.Reassociate(done, perms[low], Decoded(high, perms, cycles - cycle - 1));
      CopyInto(a, offset, perms[low]);
      assert a[..offset + width] == done + perms[low];
      value, offset := high, offset + width;
    }
    assert a[..offset] == a[..];
  }

  // ------------------------------------------------------------- bounded size

  const MAX_INT := 0x7fff_ffff_ffff_ffff

  /** A product that the machine can hold. */
  function Product(a: nat, b: nat): (r: nat)
    requires a * b <= MAX_INT
  {
    a * b
  }

  /** x exceeds limit / f, rounded down, exactly if the product exceeds the limit. */
  lemma QuotientGuard(x: nat, limit: nat, f: nat)
    requires f > 0
    ensures x > limit / f <==> x * f > limit
  {
    DigitsByDivision(limit, f);
    HighBound(limit, f, x);
    assert x * f == f * x;
  }

  lemma FactorialGrows(k: nat, n: nat)
    requires k <= n
    ensures Factorial(k) <= Factorial(n)
    decreases n - k
  {
    if k < n {
      FactorialGrows(k, n - 1);
      MulMonotone(1, n, Factorial(n - 1));
      assert Factorial(n - 1) * n == n * Factorial(n - 1);
    }
  }

  lemma PowerGrows(b: nat, k: nat, n: nat)
    requires k <= n && b > 0
    ensures 1 <= Power(b, k) <= Power(b, n)
    decreases n
  {
    if k < n {
      PowerGrows(b, k, n - 1);
      MulMonotone(1, b, Power(b, n - 1));
      assert Power(b, n - 1) * b == b * Power(b, n - 1);
    } else if n > 0 {
      PowerGrows(b, n - 1, n - 1);
      MulMonotone(1, Power(b, n - 1), b);
    }
  }

  /** The factorial of the width if it is within the limit. */
  method BoundedFactorial(width: nat, limit: nat) returns (size: nat, exact: bool)
    requires limit <= MAX_INT
    ensures exact <==> width < 2 || Factorial(width) <= limit
    ensures exact ==> size == Factorial(width)
  {
    size := 1;
    var factor := 2;
    while factor <= width
      invariant 2 <= factor && (factor <= width + 1 || factor == 2)
      invariant size == Factorial(factor - 1) && (factor > 2 ==> size <= limit)
    {
      QuotientGuard(size, limit, factor);
      assert Factorial(factor) == size * factor;
      if size > limit / factor {
        FactorialGrows(factor, width);
        return 0, false;
      }
      size := Product(size, factor);
      factor := factor + 1;
    }
    exact := true;
  }

  predicate Accepted(width: nat, cycles: nat, limit: nat) {
    (width < 2 || Factorial(width) <= limit) && (cycles == 0 || Power(Factorial(width), cycles) <= limit)
  }

  /** The orbit is accepted exactly if its size is within the limit, except without
      cycles: then a factorial beyond the limit is refused though the size is one, and a
      limit of zero is not looked at for fewer than two requests. */
  lemma {:induction false} AcceptedIsWithin(width: nat, cycles: nat, limit: nat)
    ensures (Accepted(width, cycles, limit) <==> Power(Factorial(width), cycles) <= limit) <==>
            !(cycles == 0 && if width < 2 then limit == 0 else 1 <= limit < Factorial(width))
  {
    if cycles > 0 {
      PowerGrows(Factorial(width), 1, cycles);
      assert Power(Factorial(width), 1) == Factorial(width);
    }
  }

  /** Five requests and no cycle: the orbit has one member, and a limit of 100 refuses it. */
  method RefusesOneMember() returns (space: nat, exact: bool)
    ensures !exact && Power(Factorial(5), 0) == 1 <= 100
  {
    assert Factorial(3) == 6;
    assert Factorial(5) == 120;
    space, exact := BoundedOrbitSize(5, 0, 100);
  }

  /** The size of the orbit if it is within the limit. With no cycles the size is one,
      and it is still refused if the factorial alone exceeds the limit. */
  method BoundedOrbitSize(width: nat, cycles: nat, limit: nat) returns (space: nat, exact: bool)
    requires limit <= MAX_INT
    ensures exact <==> Accepted(width, cycles, limit)
    ensures exact ==> space == Power(Factorial(width), cycles)
  {
    var perCycle, ok := BoundedFactorial(width, limit);
    if !ok {
      return 0, false;
    }
    space := 1;
    for cycle := 0 to cycles
      invariant space == Power(perCycle, cycle) && (cycle > 0 ==> space <= limit)
    {
      QuotientGuard(space, limit, perCycle);
      assert Power(perCycle, cycle + 1) == space * perCycle;
      if space > limit / perCycle {
        PowerGrows(perCycle, cycle + 1, cycles);
        return 0, false;
      }
      space := Product(space, perCycle);
    }
    exact := true;
  }
}
