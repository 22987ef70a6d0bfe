/** Base64 with the standard alphabet and padding, section 4 of RFC 4648. */
module Base64 {
  import opened Sequences
  import opened Utf8

  const PAD := 61
  const NEWLINE := 10
  const RETURN := 13

  /** A-Z, a-z, 0-9, + and /. */
  function Symbol(v: int): (c: Byte)
    requires 0 <= v < 64
    ensures 0x20 < c < 0x7f && c != PAD
  {
    if v < 26 then 65 + v
    else if v < 52 then 97 + v - 26
    else if v < 62 then 48 + v - 52
    else if v == 62 then 43 else 47
  }

  function Value(c: Byte): (v: Option<int>)
    ensures v.Some? ==> 0 <= v.value < 64
  {
    if 65 <= c <= 90 then Some(c - 65)
    else if 97 <= c <= 122 then Some(c - 97 + 26)
    else if 48 <= c <= 57 then Some(c - 48 + 52)
    else if c == 43 then Some(62)
    else if c == 47 then Some(63)
    else None
  }

  lemma SymbolValue(v: int)
    requires 0 <= v < 64
    ensures Value(Symbol(v)) == Some(v)
  {
  }

  function Encode(x: Text): (s: Text)
    ensures forall i :: 0 <= i < |s| ==> 0x20 < s[i] < 0x7f
  {
    if |x| == 0 then []
    else if |x| == 1 then [Symbol(x[0] / 4), Symbol(x[0] % 4 * 16), PAD, PAD]
    else if |x| == 2 then
      [Symbol(x[0] / 4), Symbol(x[0] % 4 * 16 + x[1] / 16), Symbol(x[1] % 16 * 4), PAD]
    else
      Group(x[0], x[1], x[2]) + Encode(x[3..])
  }

  /** The decoder skips line breaks wherever they are. */
  function WithoutBreaks(s: Text): Text {
    if s == [] then []
    else (if s[0] == NEWLINE || s[0] == RETURN then [] else [s[0]]) + WithoutBreaks(s[1..])
  }

  /** Whole groups of four; padding only at the end. Unused low bits are ignored. */
  function DecodeGroups(s: Text): Option<Text> {
    if s == [] then Some([])
    else if |s| < 4 then None
    else
      var a, b := Value(s[0]), Value(s[1]);
      if a.None? || b.None? then None
      else
        var first := a.value * 4 + b.value / 16;
        if s[2] == PAD then
          if s[3] == PAD && |s| == 4 then Some([first]) else None
        else
          var c := Value(s[2]);
          if c.None? then None
          else
            var second := b.value % 16 * 16 + c.value / 4;
            if s[3] == PAD then
              if |s| == 4 then Some([first, second]) else None
            else
              var d, rest := Value(s[3]), DecodeGroups(s[4..]);
              if d.None? || rest.None? then None
              else Some([first, second, c.value % 4 * 64 + d.value] + rest.value)
  }

  function Decode(s: Text): Option<Text> { DecodeGroups(WithoutBreaks(s)) }

  lemma {:induction false} NoBreaks(s: Text)
    requires forall i :: 0 <= i < |s| ==> s[i] > 0x20
    ensures WithoutBreaks(s) == s
  {
    if s != [] {
      NoBreaks(s[1..]);
      assert s == [s[0]] + s[1..];
    }
  }

  /** The four symbols of a whole group. */
  function Group(a: Byte, b: Byte, c: Byte): (s: Text)
    ensures |s| == 4 && forall i :: 0 <= i < 4 ==> 0x20 < s[i] < 0x7f && s[i] != PAD
  {
    [Symbol(a / 4), Symbol(a % 4 * 16 + b / 16), Symbol(b % 16 * 4 + c / 64), Symbol(c % 64)]
  }

  /** Four symbols without padding decode to three bytes. */
  lemma FourValues(s: Text, v: int, w: int, x: int, y: int)
    requires |s| >= 4 && s[2] != PAD && s[3] != PAD
    requires Value(s[0]) == Some(v) && Value(s[1]) == Some(w) && Value(s[2]) == Some(x) && Value(s[3]) == Some(y)
    ensures DecodeGroups(s) ==
            if DecodeGroups(s[4..]).None? then None
            else Some([v * 4 + w / 16, w % 16 * 16 + x / 4, x % 4 * 64 + y] + DecodeGroups(s[4..]).value)
  {
  }

  lemma Regroup(a: Byte, b: Byte, c: Byte)
    ensures var w, x := a as int % 4 * 16 + b as int / 16, b as int % 16 * 4 + c as int / 64;
            a as int / 4 * 4 + w / 16 == a && w % 16 * 16 + x / 4 == b && x % 4 * 64 + c as int % 64 == c
  {
  }

  lemma GroupValues(a: Byte, b: Byte, c: Byte, v: int, w: int, x: int, y: int)
    requires v == a as int / 4 && w == a as int % 4 * 16 + b as int / 16 && x == b as int % 16 * 4 + c as int / 64 &&
             y == c as int % 64
    ensures var s := Group(a, b, c);
            Value(s[0]) == Some(v) && Value(s[1]) == Some(w) && Value(s[2]) == Some(x) && Value(s[3]) == Some(y)
    ensures [v * 4 + w / 16, w % 16 * 16 + x / 4, x % 4 * 64 + y] == [a, b, c]
  {
    SymbolValue(v);
    SymbolValue(w);
    SymbolValue(x);
    SymbolValue(y);
    Regroup(a, b, c);
  }

  lemma FourFollowed(g: Text, rest: Text, v: int, w: int, x: int, y: int)
    requires |g| == 4 && g[2] != PAD && g[3] != PAD
    requires Value(g[0]) == Some(v) && Value(g[1]) == Some(w) && Value(g[2]) == Some(x) && Value(g[3]) == Some(y)
    ensures DecodeGroups(g + rest) ==
            if DecodeGroups(rest).None? then None
            else Some([v * 4 + w / 16, w % 16 * 16 + x / 4, x % 4 * 64 + y] + DecodeGroups(rest).value)
  {
    assert (g + rest)[4..] == rest;
    FourValues(g + rest, v, w, x, y);
  }

  lemma GroupDecodes(a: Byte, b: Byte, c: Byte, rest: Text)
    ensures DecodeGroups(Group(a, b, c) + rest) ==
            if DecodeGroups(rest).Some? then Some([a, b, c] + DecodeGroups(rest).value) else None
  {
    var v, w, x, y := a as int / 4, a as int % 4 * 16 + b as int / 16, b as int % 16 * 4 + c as int / 64, c as int % 64;
    GroupValues(a, b, c, v, w, x, y);
    FourFollowed(Group(a, b, c), rest, v, w, x, y);
  }

  lemma ThreeValues(s: Text, v: int, w: int, x: int)
    requires |s| == 4 && s[2] != PAD && s[3] == PAD && Value(s[0]) == Some(v) && Value(s[1]) == Some(w) &&
             Value(s[2]) == Some(x)
    ensures DecodeGroups(s) == Some([v * 4 + w / 16, w % 16 * 16 + x / 4])
  {
  }

  lemma LastTwo(a: Byte, b: Byte)
    ensures DecodeGroups(Encode([a, b])) == Some([a, b])
  {
    var v, w, x := a as int / 4, a as int % 4 * 16 + b as int / 16, b as int % 16 * 4;
    SymbolValue(v);
    SymbolValue(w);
    SymbolValue(x);
    var s := Encode([a, b]);
    assert s[0] == Symbol(v) && s[1] == Symbol(w) && s[2] == Symbol(x);
    ThreeValues(s, v, w, x);
    Regroup(a, b, 0);
  }

  lemma LastOne(a: Byte)
    ensures DecodeGroups(Encode([a])) == Some([a])
  {
    SymbolValue(a / 4);
    SymbolValue(a % 4 * 16);
  }

  lemma {:induction false} GroupsOfEncoded(x: Text)
    ensures DecodeGroups(Encode(x)) == Some(x)
  {
    if |x| >= 3 {
      GroupsOfEncoded(x[3..]);
      GroupDecodes(x[0], x[1], x[2], Encode(x[3..]));
      assert x == [x[0], x[1], x[2]] + x[3..];
    } else if |x| == 2 {
      LastTwo(x[0], x[1]);
      assert x == [x[0], x[1]];
    } else if |x| == 1 {
      LastOne(x[0]);
      assert x == [x[0]];
    }
  }

  /** Decoding undoes encoding. */
  lemma DecodeEncode(x: Text)
    ensures Decode(Encode(x)) == Some(x)
  {
    NoBreaks(Encode(x));
    GroupsOfEncoded(x);
  }
}
