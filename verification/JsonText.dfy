/** JSON strings in printable ASCII, section 7 of RFC 8259: printing and reading back. */
module JsonText {
  import opened Sequences
  import opened Utf8

  const QUOTE := 34
  const BACKSLASH := 92
  const LETTER_U := 117

  // ------------------------------------------------------------------- printing

  function Hex(d: int): (c: Byte)
    requires 0 <= d < 16
    ensures 0x20 < c < 0x7f
  {
    if d < 10 then 48 + d else 97 + d - 10
  }

  function UnicodeEscape(u: int): (s: Text)
    requires 0 <= u < 0x10000
    ensures |s| == 6 && forall i :: 0 <= i < 6 ==> 0x20 <= s[i] <= 0x7e
  {
    [BACKSLASH, LETTER_U, Hex(u / 4096), Hex(u / 256 % 16), Hex(u / 16 % 16), Hex(u % 16)]
  }

  function High(r: int): (u: int)
    requires 0x10000 <= r < 0x110000
    ensures 0xd800 <= u < 0xdc00
  {
    0xd800 + (r - 0x10000) / 1024
  }

  function Low(r: int): (u: int)
    ensures 0xdc00 <= u < 0xe000
  {
    0xdc00 + (r - 0x10000) % 1024
  }

  /** The letter of a short escape. */
  function Short(r: int): Option<Byte> {
    if r == 8 then Some(98) else if r == 12 then Some(102) else if r == 10 then Some(110)
    else if r == 13 then Some(114) else if r == 9 then Some(116)
    else if r == QUOTE || r == BACKSLASH then Some(r) else None
  }

  function Escape(r: int): (s: Text)
    requires Scalar(r)
    ensures s != [] && s[0] != QUOTE && forall i :: 0 <= i < |s| ==> 0x20 <= s[i] <= 0x7e
  {
    if Short(r).Some? then [BACKSLASH, Short(r).value]
    else if 0x20 <= r <= 0x7e then [r]
    else if r <= 0xffff then UnicodeEscape(r)
    else UnicodeEscape(High(r)) + UnicodeEscape(Low(r))
  }

  function EscapeAll(runes: seq<int>): (s: Text)
    requires Scalars(runes)
    ensures forall i :: 0 <= i < |s| ==> 0x20 <= s[i] <= 0x7e
  {
    if runes == [] then [] else Escape(runes[0]) + EscapeAll(runes[1..])
  }

  function Printed(s: Text): (t: Text)
    ensures forall i :: 0 <= i < |t| ==> 0x20 <= t[i] <= 0x7e
  {
    [QUOTE] + EscapeAll(Runes(s)) + [QUOTE]
  }

  lemma EscapeNext(rest: Text, r: int, size: nat)
    requires rest != [] &&
             (r, size) == (match DecodeRune(rest) case Rune(v, n) => (v, n) case Malformed => (REPLACEMENT, 1))
    ensures Scalar(r) && size <= |rest| && EscapeAll(Runes(rest)) == Escape(r) + EscapeAll(Runes(rest[size..]))
  {
    assert Runes(rest) == [r] + Runes(rest[size..]);
    assert Runes(rest)[1..] == Runes(rest[size..]);
  }

  method Close(dst: Text, open: Text, body: Text) returns (out: Text)
    requires open == dst + [QUOTE] + body
    ensures out == dst + ([QUOTE] + body + [QUOTE])
  {
    out := open + [QUOTE];
  }

  /** Appends the printed string rune by rune. */
  method AppendString(dst: Text, s: Text) returns (out: Text)
    ensures out == dst + Printed(s)
  {
    out := dst + [QUOTE];
    var rest := s;
    while rest != []
      invariant out + EscapeAll(Runes(rest)) == dst + [QUOTE] + EscapeAll(Runes(s))
      decreases |rest|
    {
      var d := DecodeRune(rest);
      var r, size := if d.Rune? then d.value else REPLACEMENT, if d.Rune? then d.size else 1;
      EscapeNext(rest, r, size);
      Reassociate(out, Escape(r), EscapeAll(Runes(rest[size..])));
      out := out + Escape(r);
      rest := rest[size..];
    }
    out := Close(dst, out, EscapeAll(Runes(s)));
  }

  // ---------------------------------------------------------------- reading back

  function HexValue(c: Byte): (v: Option<int>)
    ensures v.Some? ==> 0 <= v.value < 16
  {
    if 48 <= c <= 57 then Some(c as int - 48)
    else if 97 <= c <= 102 then Some(c as int - 87)
    else if 65 <= c <= 70 then Some(c as int - 55)
    else None
  }

  /** The value of \\uXXXX at the start of s. */
  function UnicodeValue(s: Text): (v: Option<int>)
    ensures v.Some? ==> 0 <= v.value < 0x10000 && |s| >= 6
  {
    if |s| < 6 || s[0] != BACKSLASH || s[1] != LETTER_U then None
    else
      var a, b, c, d := HexValue(s[2]), HexValue(s[3]), HexValue(s[4]), HexValue(s[5]);
      if a.None? || b.None? || c.None? || d.None? then None
      else Some(a.value * 4096 + b.value * 256 + c.value * 16 + d.value)
  }

  function ShortValue(c: Byte): Option<int> {
    if c == QUOTE || c == BACKSLASH || c == 47 then Some(c)
    else if c == 98 then Some(8) else if c == 102 then Some(12) else if c == 110 then Some(10)
    else if c == 114 then Some(13) else if c == 116 then Some(9) else None
  }

  datatype Token = Token(rune: int, size: nat) | Bad

  /** A unicode escape, joined with a second one if they are a surrogate pair; a lone
      surrogate reads as the replacement character. */
  function ReadUnicode(s: Text, u: int): (t: Token)
    requires |s| >= 6 && 0 <= u < 0x10000
    ensures t.Token? && Scalar(t.rune) && 1 <= t.size <= |s|
  {
    if Scalar(u) then Token(u, 6)
    else
      var next := UnicodeValue(s[6..]);
      if u < 0xdc00 && next.Some? && 0xdc00 <= next.value < 0xe000 then
        Token(0x10000 + (u - 0xd800) * 1024 + (next.value - 0xdc00), 12)
      else Token(REPLACEMENT, 6)
  }

  /** The next rune of a string body and the bytes it takes. */
  function ReadToken(s: Text): (t: Token)
    requires s != []
    ensures t.Token? ==> Scalar(t.rune) && 1 <= t.size <= |s|
  {
    if s[0] == BACKSLASH then
      if |s| < 2 then Bad
      else if s[1] == LETTER_U then
        var u := UnicodeValue(s);
        if u.None? then Bad else ReadUnicode(s, u.value)
      else
        var short := ShortValue(s[1]);
        if short.None? then Bad else Token(short.value, 2)
    else if s[0] < 0x20 then Bad
    else
      match DecodeRune(s)
      case Rune(value, size) => Token(value, size)
      case Malformed => Token(REPLACEMENT, 1)
  }

  /** The text after the opening quote, up to a closing quote at the very end. */
  function ReadBody(s: Text): Option<Text>
    decreases |s|
  {
    if s == [] then None
    else if s[0] == QUOTE then (if |s| == 1 then Some([]) else None)
    else
      match ReadToken(s)
      case Bad => None
      case Token(rune, size) =>
        var rest := ReadBody(s[size..]);
        if rest.None? then None else Some(EncodeRune(rune) + rest.value)
  }

  function Parse(s: Text): Option<Text> {
    if s == [] || s[0] != QUOTE then None else ReadBody(s[1..])
  }

  // ------------------------------------------------------------------- round trip

  lemma HexRoundTrip(d: int)
    requires 0 <= d < 16
    ensures HexValue(Hex(d)) == Some(d)
  {
  }

  lemma HexDigits(u: int)
    requires 0 <= u < 0x10000
    ensures u / 4096 < 16 && u == u / 4096 * 4096 + u / 256 % 16 * 256 + u / 16 % 16 * 16 + u % 16
  {
    assert u / 16 / 16 == u / 256 && u / 256 / 16 == u / 4096;
  }

  lemma UnicodeRoundTrip(u: int, rest: Text)
    requires 0 <= u < 0x10000
    ensures UnicodeValue(UnicodeEscape(u) + rest) == Some(u)
  {
    HexDigits(u);
    HexRoundTrip(u / 4096);
    HexRoundTrip(u / 256 % 16);
    HexRoundTrip(u / 16 % 16);
    HexRoundTrip(u % 16);
  }

  lemma SurrogatePair(r: int)
    requires 0x10000 <= r < 0x110000
    ensures 0x10000 + (High(r) - 0xd800) * 1024 + (Low(r) - 0xdc00) == r
  {
  }

  /** Reading what was printed for a rune gives the rune back. */
  lemma TokenRoundTrip(r: int, rest: Text)
    requires Scalar(r)
    ensures ReadToken(Escape(r) + rest) == Token(r, |Escape(r)|)
  {
    var s := Escape(r) + rest;
    if Short(r).Some? {
      assert s[0] == BACKSLASH && s[1] == Short(r).value;
    } else if 0x20 <= r <= 0x7e {
      assert s[0] == r;
    } else if r <= 0xffff {
      UnicodeRoundTrip(r, rest);
    } else {
      UnicodeRoundTrip(High(r), UnicodeEscape(Low(r)) + rest);
      assert s == UnicodeEscape(High(r)) + (UnicodeEscape(Low(r)) + rest);
      assert s[6..] == UnicodeEscape(Low(r)) + rest;
      UnicodeRoundTrip(Low(r), rest);
      SurrogatePair(r);
    }
  }

  lemma {:induction false} BodyRoundTrip(runes: seq<int>)
    requires Scalars(runes)
    ensures ReadBody(EscapeAll(runes) + [QUOTE]) == Some(EncodeAll(runes))
  {
    if runes != [] {
      var e, rest := Escape(runes[0]), EscapeAll(runes[1..]) + [QUOTE];
      BodyRoundTrip(runes[1..]);
      TokenRoundTrip(runes[0], rest);
      assert EscapeAll(runes) + [QUOTE] == e + rest;
      assert (e + rest)[|e|..] == rest;
    }
  }

  /** Parsing a printed valid text gives it back. */
  lemma ParsePrinted(s: Text)
    requires Valid(s)
    ensures Parse(Printed(s)) == Some(s)
  {
    BodyRoundTrip(Runes(s));
    EncodeRunes(s);
    ParseQuoted(EscapeAll(Runes(s)));
  }

  lemma ParseQuoted(body: Text)
    ensures Parse([QUOTE] + body + [QUOTE]) == ReadBody(body + [QUOTE])
  {
    assert ([QUOTE] + body + [QUOTE])[1..] == body + [QUOTE];
  }
}
