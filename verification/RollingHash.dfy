/** The rolling hash of the windows of a body, in wrapping 64-bit arithmetic. */
module RollingHash {
  import opened Arithmetic
  import opened Utf8

  const BASE := 1099511628211

  function Wrap(x: int): (r: int)
    ensures 0 <= r < WORDS
  {
    x % WORDS
  }

  /** The polynomial of a window, without wrapping. */
  function Poly(s: Text): int { if s == [] then 0 else Poly(s[..|s| - 1]) * BASE + s[|s| - 1] }

  function Hash(s: Text): int { Wrap(Poly(s)) }

  function BasePower(n: nat): int { if n == 0 then 1 else BasePower(n - 1) * BASE }

  lemma WrapShift(x: int, k: int)
    ensures Wrap(x + k * WORDS) == Wrap(x)
  {
  }

  /** A wrapped factor does not change a wrapped step. */
  lemma WrapStep(h: int, c: int)
    ensures Wrap(Wrap(h) * BASE + c) == Wrap(h * BASE + c)
  {
    var q := h / WORDS;
    assert h == Wrap(h) + q * WORDS;
    assert h * BASE + c == Wrap(h) * BASE + c + (q * BASE) * WORDS;
    WrapShift(Wrap(h) * BASE + c, q * BASE);
  }

  lemma WrapProduct(b: int, p: int)
    ensures Wrap(b * Wrap(p)) == Wrap(b * p)
  {
    var q := p / WORDS;
    assert p == Wrap(p) + q * WORDS;
    assert b * p == b * Wrap(p) + (b * q) * WORDS;
    WrapShift(b * Wrap(p), b * q);
  }

  lemma WrapDifference(x: int, y: int)
    ensures Wrap(Wrap(x) - Wrap(y)) == Wrap(x - y)
  {
    var q, r := x / WORDS, y / WORDS;
    assert x - y == Wrap(x) - Wrap(y) + (q - r) * WORDS;
    WrapShift(Wrap(x) - Wrap(y), q - r);
  }

  /** The first byte of a window carries the highest power. */
  lemma {:induction false} PolyFirst(x: Byte, s: Text)
    ensures Poly([x] + s) == x * BasePower(|s|) + Poly(s)
  {
    var w := [x] + s;
    if s == [] {
      assert w[..0] == [] && Poly(w) == Poly(w[..0]) * BASE + x;
    } else {
      var n := |s| - 1;
      PolyFirst(x, s[..n]);
      assert w[..|w| - 1] == [x] + s[..n];
      Distribute(x, BasePower(n), Poly(s[..n]));
    }
  }

  lemma PolyLast(s: Text, y: Byte)
    ensures Poly(s + [y]) == Poly(s) * BASE + y
  {
    assert (s + [y])[..|s|] == s;
  }

  lemma Distribute(x: int, p: int, q: int)
    ensures (x * p + q) * BASE == x * (p * BASE) + q * BASE
  {
    assert x * p * BASE == x * (p * BASE);
  }

  /** One roll: drop the first byte, append the next. */
  function Rolled(h: int, first: Byte, power: int, next: Byte): int {
    Wrap(Wrap(h - Wrap(first * power)) * BASE + next)
  }

  lemma DropFirst(whole: int, x: int, p: int, t: int)
    requires whole == x * p + t
    ensures Wrap(Wrap(whole) - Wrap(x * Wrap(p))) == Wrap(t)
  {
    WrapProduct(x, p);
    WrapDifference(whole, x * p);
  }

  lemma RollNumbers(whole: int, x: Byte, p: int, t: int, y: Byte, last: int)
    requires whole == x * p + t && last == t * BASE + y
    ensures Rolled(Wrap(whole), x, Wrap(p), y) == Wrap(last)
  {
    DropFirst(whole, x, p, t);
    WrapStep(t, y);
  }

  /** Rolling the hash of a window gives the hash of the window one further. */
  lemma RollIsHash(x: Byte, s: Text, y: Byte)
    ensures Rolled(Hash([x] + s), x, Wrap(BasePower(|s|)), y) == Hash(s + [y])
  {
    PolyFirst(x, s);
    PolyLast(s, y);
    RollNumbers(Poly([x] + s), x, BasePower(|s|), Poly(s), y, Poly(s + [y]));
  }

  lemma RollWindow(b: Text, i: nat, length: nat)
    requires 0 < length <= i < |b|
    ensures Rolled(Hash(b[i - length..i]), b[i - length], Wrap(BasePower(length - 1)), b[i]) ==
            Hash(b[i - length + 1..i + 1])
  {
    var middle := b[i - length + 1..i];
    assert b[i - length..i] == [b[i - length]] + middle;
    RollIsHash(b[i - length], middle, b[i]);
    assert b[i - length + 1..i + 1] == middle + [b[i]];
  }

  method Power(n: nat) returns (p: int)
    ensures p == Wrap(BasePower(n))
  {
    p := 1;
    for i := 0 to n
      invariant p == Wrap(BasePower(i))
    {
      WrapStep(BasePower(i), 0);
      p := Wrap(p * BASE);
    }
  }

  method DirectHash(s: Text) returns (h: int)
    ensures h == Hash(s)
  {
    h := 0;
    for i := 0 to |s|
      invariant h == Hash(s[..i])
    {
      assert s[..i + 1][..i] == s[..i];
      WrapStep(Poly(s[..i]), s[i]);
      h := Wrap(h * BASE + s[i]);
    }
    assert s[..|s|] == s;
  }

  /** The hashes of all windows of this length in b[lo..hi], left to right. */
  method RollHashes(b: Text, lo: nat, hi: nat, length: int) returns (hashes: seq<int>)
    requires lo <= hi <= |b|
    ensures length <= 0 || length > hi - lo ==> hashes == []
    ensures 0 < length <= hi - lo ==>
              && |hashes| == hi - lo - length + 1
              && forall k :: 0 <= k < |hashes| ==> hashes[k] == Hash(b[lo + k..lo + k + length])
  {
    if length <= 0 || length > hi - lo {
      return [];
    }
    var power := Power(length - 1);
    var h := DirectHash(b[lo..lo + length]);
    hashes := [h];
    for i := lo + length to hi
      invariant |hashes| == i - lo - length + 1 && h == Hash(b[i - length..i])
      invariant forall k :: 0 <= k < |hashes| ==> hashes[k] == Hash(b[lo + k..lo + k + length])
    {
      RollWindow(b, i, length);
      h := Rolled(h, b[i - length], power, b[i]);
      hashes := hashes + [h];
    }
  }
}
