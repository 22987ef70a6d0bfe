/** The injective encoding of byte strings as JSON strings: valid text stays as it is;
    other bytes, and text that looks like the reserved marker, become base64. */
module WireString {
  import opened Sequences
  import opened Utf8
  import opened Base64
  import opened JsonText

  /** $B64[ */
  const PREFIX: Text := [36, 66, 54, 52, 91]
  const CLOSE := 93

  function Marked(payload: Text): Text { PREFIX + payload + [CLOSE] }

  function Payload(s: Text): Text
    requires |s| >= 6
  {
    s[5..|s| - 1]
  }

  /** The text is a marker around canonical base64. */
  predicate IsMarker(s: Text) {
    if |s| < 6 || s[..5] != PREFIX || s[|s| - 1] != CLOSE then false
    else
      var decoded := Decode(Payload(s));
      decoded.Some? && Encode(decoded.value) == Payload(s)
  }

  function Encoded(s: Text): Text { if !Valid(s) || IsMarker(s) then Marked(Encode(s)) else s }

  function Decoded(value: Text): Text {
    if !IsMarker(value) then value
    else
      var decoded := Decode(Payload(value));
      if decoded.Some? then decoded.value else []
  }

  /** A marker is exactly a marked encoding of some bytes. */
  lemma MarkerIsMarkedEncoding(s: Text)
    ensures IsMarker(s) <==> exists x: Text :: s == Marked(Encode(x))
  {
    if IsMarker(s) {
      MarkedPayload(s);
      assert s == Marked(Encode(Decode(Payload(s)).value));
    }
    if x: Text :| s == Marked(Encode(x)) {
      MarkedIsMarker(x);
    }
  }

  lemma MarkedPayload(s: Text)
    requires |s| >= 6 && s[..5] == PREFIX && s[|s| - 1] == CLOSE
    ensures s == Marked(Payload(s))
  {
    assert s == s[..5] + s[5..|s| - 1] + [s[|s| - 1]];
  }

  lemma MarkedIsMarker(x: Text)
    ensures IsMarker(Marked(Encode(x))) && Payload(Marked(Encode(x))) == Encode(x)
  {
    var s := Marked(Encode(x));
    assert s[..5] == PREFIX;
    assert Payload(s) == Encode(x);
    DecodeEncode(x);
  }

  /** Decoding gives every byte string back. */
  lemma DecodedEncoded(s: Text)
    ensures Decoded(Encoded(s)) == s
  {
    if !Valid(s) || IsMarker(s) {
      MarkedIsMarker(s);
      DecodeEncode(s);
    }
  }

  /** Different byte strings have different encodings. */
  lemma EncodedInjective(s: Text, t: Text)
    ensures Encoded(s) == Encoded(t) <==> s == t
  {
    DecodedEncoded(s);
    DecodedEncoded(t);
  }

  /** The encoding is always valid text. */
  lemma EncodedIsValid(s: Text)
    ensures Valid(Encoded(s))
  {
    if !Valid(s) || IsMarker(s) {
      AsciiIsValid(Marked(Encode(s)));
    }
  }

  function Marshal(s: Text): Text { Printed(Encoded(s)) }

  function Unmarshal(json: Text): Option<Text> {
    var value := Parse(json);
    if value.None? then None else Some(Decoded(value.value))
  }

  /** Every byte string survives the way through JSON, which is printable ASCII. */
  lemma MarshalRoundTrip(s: Text)
    ensures Unmarshal(Marshal(s)) == Some(s)
    ensures forall i :: 0 <= i < |Marshal(s)| ==> 0x20 <= Marshal(s)[i] <= 0x7e
  {
    EncodedIsValid(s);
    ParsePrinted(Encoded(s));
    DecodedEncoded(s);
  }

  // ------------------------------------------------------------------------ maps

  /** e holds the encoded entries of m and nothing else. */
  predicate EncodesMap(e: map<Text, Text>, m: map<Text, Text>) {
    && (forall k :: k in m ==> Encoded(k) in e && e[Encoded(k)] == Encoded(m[k]))
    && (forall s :: s in e ==> Decoded(s) in m && Encoded(Decoded(s)) == s)
  }

  lemma EncodesMore(e: map<Text, Text>, m: map<Text, Text>, k: Text, v: Text)
    requires EncodesMap(e, m) && k !in m
    ensures EncodesMap(e[Encoded(k) := Encoded(v)], m[k := v]) && Encoded(k) !in e
  {
    var e', m' := e[Encoded(k) := Encoded(v)], m[k := v];
    DecodedEncoded(k);
    forall j | j in m'
      ensures Encoded(j) in e' && e'[Encoded(j)] == Encoded(m'[j])
    {
      EncodedInjective(j, k);
    }
  }

  /** Each entry of m is in exactly one of the two parts. */
  ghost predicate Parts(m: map<Text, Text>, done: map<Text, Text>, rest: map<Text, Text>) {
    && (forall k :: k in m <==> k in rest || k in done)
    && (forall k :: k in rest ==> k !in done && rest[k] == m[k])
    && (forall k :: k in done ==> done[k] == m[k])
  }

  lemma PartsMove(m: map<Text, Text>, done: map<Text, Text>, rest: map<Text, Text>, k: Text)
    requires Parts(m, done, rest) && k in rest
    ensures Parts(m, done[k := rest[k]], rest - {k})
  {
  }

  /** Encodes the keys and values of a map; no two keys collide. */
  method EncodeMap(m: map<Text, Text>) returns (e: map<Text, Text>)
    ensures EncodesMap(e, m) && |e| == |m|
  {
    var rest := m;
    ghost var done: map<Text, Text> := map[];
    e := map[];
    while exists k :: k in rest
      invariant EncodesMap(e, done) && |e| == |done|
      invariant Parts(m, done, rest)
      decreases |rest|
    {
      var k :| k in rest;
      EncodesMore(e, done, k, rest[k]);
      PartsMove(m, done, rest, k);
      Sizes(e, Encoded(k), Encoded(rest[k]));
      Sizes(done, k, rest[k]);
      e := e[Encoded(k) := Encoded(rest[k])];
      done := done[k := rest[k]];
      rest := rest - {k};
    }
    PartsDone(m, done, rest);
  }

  lemma Sizes(e: map<Text, Text>, k: Text, v: Text)
    requires k !in e
    ensures |e[k := v]| == |e| + 1
  {
    assert e[k := v].Keys == e.Keys + {k};
  }

  lemma PartsDone(m: map<Text, Text>, done: map<Text, Text>, rest: map<Text, Text>)
    requires Parts(m, done, rest) && forall k :: k !in rest
    ensures done == m
  {
  }

  /** Decoding the entries of an encoded map, in any order, restores the map. */
  method DecodeMap(e: map<Text, Text>, ghost m: map<Text, Text>) returns (decoded: map<Text, Text>)
    requires EncodesMap(e, m)
    ensures decoded == m
  {
    var rest := e;
    decoded := map[];
    while exists s :: s in rest
      invariant forall s :: s in rest ==> s in e && rest[s] == e[s]
      invariant Restored(m, rest, decoded)
      decreases |rest|
    {
      var s :| s in rest;
      EntryDecodes(e, m, s);
      RestoredMore(m, rest, decoded, s);
      decoded := decoded[Decoded(s) := Decoded(rest[s])];
      rest := rest - {s};
    }
    RestoredAll(m, rest, decoded);
  }

  lemma RestoredAll(m: map<Text, Text>, rest: map<Text, Text>, decoded: map<Text, Text>)
    requires Restored(m, rest, decoded) && forall s :: s !in rest
    ensures decoded == m
  {
    assert decoded.Keys == m.Keys;
  }

  /** decoded holds the entries of m whose encoded keys are not in rest. */
  ghost predicate Restored(m: map<Text, Text>, rest: map<Text, Text>, decoded: map<Text, Text>) {
    && (forall k :: k in decoded <==> k in m && Encoded(k) !in rest)
    && (forall k :: k in decoded ==> decoded[k] == m[k])
  }

  lemma RestoredMore(m: map<Text, Text>, rest: map<Text, Text>, decoded: map<Text, Text>, s: Text)
    requires Restored(m, rest, decoded) && s in rest && Decoded(s) in m && m[Decoded(s)] == Decoded(rest[s])
    requires forall k :: Encoded(k) == s <==> k == Decoded(s)
    ensures Restored(m, rest - {s}, decoded[Decoded(s) := Decoded(rest[s])])
  {
  }

  lemma EntryDecodes(e: map<Text, Text>, m: map<Text, Text>, s: Text)
    requires EncodesMap(e, m) && s in e
    ensures Decoded(s) in m && m[Decoded(s)] == Decoded(e[s])
    ensures forall k :: Encoded(k) == s <==> k == Decoded(s)
  {
    DecodedEncoded(m[Decoded(s)]);
    forall k
      ensures Encoded(k) == s <==> k == Decoded(s)
    {
      DecodedEncoded(k);
    }
  }
}
