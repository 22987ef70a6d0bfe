/** UTF-8, as the language's string iteration and validity check treat it. */
module Utf8 {

  type Byte = b: int | 0 <= b < 256

  type Text = seq<Byte>

  const REPLACEMENT := 0xfffd

  /** A code point that UTF-8 can carry. */
  predicate Scalar(r: int) { 0 <= r < 0xd800 || 0xe000 <= r < 0x110000 }

  function EncodeRune(r: int): (s: Text)
    requires Scalar(r)
    ensures 1 <= |s| <= 4
  {
    if r < 0x80 then [r]
    else if r < 0x800 then [0xc0 + r / 64, 0x80 + r % 64]
    else if r < 0x10000 then [0xe0 + r / 4096, 0x80 + r / 64 % 64, 0x80 + r % 64]
    else [0xf0 + r / 0x40000, 0x80 + r / 4096 % 64, 0x80 + r / 64 % 64, 0x80 + r % 64]
  }

  datatype Decoding = Rune(value: int, size: nat) | Malformed

  predicate Continues(s: Text, i: nat) { i < |s| && 0x80 <= s[i] < 0xc0 }

  /** The six bits of a continuation byte. */
  function Bits(s: Text, i: nat): (r: int)
    requires Continues(s, i)
    ensures 0 <= r < 64
  {
    s[i] as int - 0x80
  }

  function DecodeRune(s: Text): (d: Decoding)
    requires s != []
    ensures d.Rune? ==> Scalar(d.value) && 1 <= d.size <= |s|
  {
    var b: int := s[0];
    if b < 0x80 then Rune(b, 1)
    else if 0xc2 <= b < 0xe0 then Decode2(s, b - 0xc0)
    else if 0xe0 <= b < 0xf0 then Decode3(s, b - 0xe0)
    else if 0xf0 <= b < 0xf5 then Decode4(s, b - 0xf0)
    else Malformed
  }

  function Decode2(s: Text, lead: int): (d: Decoding)
    requires 2 <= lead < 32
    ensures d.Rune? ==> Scalar(d.value) && d.size == 2 <= |s|
  {
    if Continues(s, 1) then Rune(lead * 64 + Bits(s, 1), 2) else Malformed
  }

  /** Neither overlong forms nor surrogates. */
  function Decode3(s: Text, lead: int): (d: Decoding)
    requires 0 <= lead < 16
    ensures d.Rune? ==> Scalar(d.value) && d.size == 3 <= |s|
  {
    if !Continues(s, 1) || !Continues(s, 2) || (lead == 0 && Bits(s, 1) < 32) ||
    (lead == 13 && Bits(s, 1) >= 32) then Malformed
    else Rune(lead * 4096 + Bits(s, 1) * 64 + Bits(s, 2), 3)
  }

  /** Neither overlong forms nor values beyond the last code point. */
  function Decode4(s: Text, lead: int): (d: Decoding)
    requires 0 <= lead < 5
    ensures d.Rune? ==> Scalar(d.value) && d.size == 4 <= |s|
  {
    if !Continues(s, 1) || !Continues(s, 2) || !Continues(s, 3) || (lead == 0 && Bits(s, 1) < 16) ||
    (lead == 4 && Bits(s, 1) >= 16) then Malformed
    else Rune(lead * 0x40000 + Bits(s, 1) * 4096 + Bits(s, 2) * 64 + Bits(s, 3), 4)
  }

  lemma Split3(r: int)
    requires 0 <= r < 0x10000
    ensures r == r / 4096 * 4096 + r / 64 % 64 * 64 + r % 64 && r / 4096 < 16
    ensures r >= 0x800 && r / 4096 == 0 ==> r / 64 % 64 >= 32
    ensures r / 4096 == 13 && r < 0xd800 ==> r / 64 % 64 < 32
    ensures r / 4096 == 13 ==> r < 0xe000
  {
    assert r / 64 / 64 == r / 4096;
  }

  lemma Split4(r: int)
    requires 0x10000 <= r < 0x110000
    ensures r == r / 0x40000 * 0x40000 + r / 4096 % 64 * 4096 + r / 64 % 64 * 64 + r % 64 && r / 0x40000 < 5
    ensures r / 0x40000 == 0 ==> r / 4096 % 64 >= 16
    ensures r / 0x40000 == 4 ==> r / 4096 % 64 < 16
  {
    assert r / 64 / 64 == r / 4096 && r / 4096 / 64 == r / 0x40000;
  }

  lemma DecodeEncoded3(r: int, s: Text)
    requires Scalar(r) && 0x800 <= r < 0x10000 && |s| >= 3 && s[..3] == EncodeRune(r)
    ensures DecodeRune(s) == Rune(r, 3)
  {
    Split3(r);
    assert s[0] == s[..3][0] && s[1] == s[..3][1] && s[2] == s[..3][2];
  }

  lemma DecodeEncoded4(r: int, s: Text)
    requires Scalar(r) && 0x10000 <= r && |s| >= 4 && s[..4] == EncodeRune(r)
    ensures DecodeRune(s) == Rune(r, 4)
  {
    Split4(r);
    assert s[0] == s[..4][0] && s[1] == s[..4][1] && s[2] == s[..4][2] && s[3] == s[..4][3];
  }

  lemma DecodeEncoded(r: int, rest: Text)
    requires Scalar(r)
    ensures DecodeRune(EncodeRune(r) + rest) == Rune(r, |EncodeRune(r)|)
  {
    var s := EncodeRune(r) + rest;
    assert s[..|EncodeRune(r)|] == EncodeRune(r);
    if r >= 0x10000 {
      DecodeEncoded4(r, s);
    } else if r >= 0x800 {
      DecodeEncoded3(r, s);
    }
  }

  lemma EncodeDecoded(s: Text)
    requires s != [] && DecodeRune(s).Rune?
    ensures EncodeRune(DecodeRune(s).value) == s[..DecodeRune(s).size]
  {
    if DecodeRune(s).size == 3 {
      EncodeDecoded3(s);
    } else if DecodeRune(s).size == 4 {
      EncodeDecoded4(s);
    }
  }

  lemma EncodeDecoded3(s: Text)
    requires s != [] && DecodeRune(s).Rune? && DecodeRune(s).size == 3
    ensures EncodeRune(DecodeRune(s).value) == s[..3]
  {
    Digits3(s[0] as int - 0xe0, Bits(s, 1), Bits(s, 2));
  }

  lemma EncodeDecoded4(s: Text)
    requires s != [] && DecodeRune(s).Rune? && DecodeRune(s).size == 4
    ensures EncodeRune(DecodeRune(s).value) == s[..4]
  {
    Digits4(s[0] as int - 0xf0, Bits(s, 1), Bits(s, 2), Bits(s, 3));
  }

  lemma Digits3(a: nat, b: nat, c: nat)
    requires b < 64 && c < 64
    ensures var r := a * 4096 + b * 64 + c; r / 4096 == a && r / 64 % 64 == b && r % 64 == c
  {
    assert (a * 4096 + b * 64 + c) / 64 == a * 64 + b;
  }

  lemma Digits4(a: nat, b: nat, c: nat, d: nat)
    requires b < 64 && c < 64 && d < 64
    ensures var r := a * 0x40000 + b * 4096 + c * 64 + d;
            r / 0x40000 == a && r / 4096 % 64 == b && r / 64 % 64 == c && r % 64 == d
  {
    Digits3(a * 64 + b, c, d);
  }

  /** The runes of a text; a malformed byte stands for the replacement character. */
  function Runes(s: Text): (r: seq<int>)
    ensures forall i :: 0 <= i < |r| ==> Scalar(r[i])
  {
    if s == [] then []
    else
      match DecodeRune(s)
      case Rune(value, size) => [value] + Runes(s[size..])
      case Malformed => [REPLACEMENT] + Runes(s[1..])
  }

  predicate Valid(s: Text) { s == [] || (DecodeRune(s).Rune? && Valid(s[DecodeRune(s).size..])) }

  predicate Scalars(r: seq<int>) { forall i :: 0 <= i < |r| ==> Scalar(r[i]) }

  function EncodeAll(r: seq<int>): Text
    requires Scalars(r)
  {
    if r == [] then [] else EncodeRune(r[0]) + EncodeAll(r[1..])
  }

  lemma EncodeCons(v: int, rest: seq<int>)
    requires Scalar(v) && Scalars(rest)
    ensures Scalars([v] + rest) && EncodeAll([v] + rest) == EncodeRune(v) + EncodeAll(rest)
  {
    assert ([v] + rest)[1..] == rest;
  }

  /** A valid text is the encoding of its runes. */
  lemma {:induction false} EncodeRunes(s: Text)
    requires Valid(s)
    ensures EncodeAll(Runes(s)) == s
  {
    if s != [] {
      var value, size := FirstRune(s);
      EncodeRunes(s[size..]);
      EncodeCons(value, Runes(s[size..]));
    }
  }

  lemma FirstRune(s: Text) returns (value: int, size: nat)
    requires s != [] && Valid(s)
    ensures 0 < size <= |s| && Scalar(value) && Valid(s[size..]) && s == EncodeRune(value) + s[size..]
    ensures Runes(s) == [value] + Runes(s[size..])
  {
    value, size := DecodeRune(s).value, DecodeRune(s).size;
    EncodeDecoded(s);
    assert s == s[..size] + s[size..];
  }

  /** Encoded runes are a valid text with those runes. */
  lemma {:induction false} RunesOfEncoded(r: seq<int>)
    requires Scalars(r)
    ensures Valid(EncodeAll(r)) && Runes(EncodeAll(r)) == r
  {
    if r != [] {
      RunesOfEncoded(r[1..]);
      DecodeEncoded(r[0], EncodeAll(r[1..]));
      var e := EncodeRune(r[0]);
      assert (e + EncodeAll(r[1..]))[|e|..] == EncodeAll(r[1..]);
    }
  }

  predicate Ascii(s: Text) { forall i :: 0 <= i < |s| ==> s[i] < 0x80 }

  lemma {:induction false} AsciiIsValid(s: Text)
    requires Ascii(s)
    ensures Valid(s)
  {
    if s != [] {
      AsciiIsValid(s[1..]);
    }
  }
}
