/** UTF-8 as section 3 of RFC 3629 defines it, and as Python's strict codec implements it. */
module Utf8 {
  import opened Types

  predicate IsSurrogate(c: CodePoint) {
    0xD800 <= c < 0xE000
  }

  predicate Encodable(t: Text) {
    forall i | 0 <= i < |t| :: !IsSurrogate(t[i])
  }

  /** The octet sequence of one character (the table of section 3). */
  function EncodePoint(c: CodePoint): Bytes {
    if c < 0x80 then [c]
    else if c < 0x800 then [0xC0 + c / 0x40, 0x80 + c % 0x40]
    else if c < 0x1_0000 then [0xE0 + c / 0x40 / 0x40, 0x80 + c / 0x40 % 0x40, 0x80 + c % 0x40]
    else [0xF0 + c / 0x40 / 0x40 / 0x40, 0x80 + c / 0x40 / 0x40 % 0x40, 0x80 + c / 0x40 % 0x40, 0x80 + c % 0x40]
  }

  function EncodeAll(t: Text): Bytes {
    if t == [] then [] else EncodePoint(t[0]) + EncodeAll(t[1..])
  }

  /** `str.encode("utf-8")`; None is UnicodeEncodeError. */
  function Encode(t: Text): Option<Bytes> {
    if Encodable(t) then Some(EncodeAll(t)) else None
  }

  /** The table of section 3 of RFC 3629, read from the octets: how many there are, in which ranges they
      lie, and that their free bits make up the character. */
  lemma OctetTable(c: CodePoint)
    requires !IsSurrogate(c)
    ensures var e := EncodePoint(c);
            && |e| == (if c <= 0x7F then 1 else if c <= 0x7FF then 2 else if c <= 0xFFFF then 3 else 4)
            && (|e| == 1 ==> e[0] <= 0x7F && c == e[0])
            && (|e| == 2 ==> 0xC2 <= e[0] <= 0xDF && c as int == (e[0] as int - 0xC0) * 0x40 + Free(e[1]))
            && (|e| == 3 ==> 0xE0 <= e[0] <= 0xEF
                             && c as int == (e[0] as int - 0xE0) * 0x1000 + Free(e[1]) * 0x40 + Free(e[2]))
            && (|e| == 4 ==> 0xF0 <= e[0] <= 0xF4
                             && c as int == (e[0] as int - 0xF0) * 0x4_0000 + Free(e[1]) * 0x1000
                                            + Free(e[2]) * 0x40 + Free(e[3]))
            && forall i | 1 <= i < |e| :: 0x80 <= e[i] <= 0xBF
  {
  }

  /** The six free bits of an octet that follows the first. */
  function Free(b: Byte): int {
    b as int - 0x80
  }

  /** The first example of section 7 of RFC 3629. */
  lemma RfcExample()
    ensures Encode([0x41, 0x2262, 0x0391, 0x2E]) == Some([0x41, 0xE2, 0x89, 0xA2, 0xCE, 0x91, 0x2E])
  {
    var t: Text := [0x41, 0x2262, 0x0391, 0x2E];
    assert t[1..] == [0x2262, 0x0391, 0x2E] && t[1..][1..] == [0x0391, 0x2E] && t[1..][1..][1..] == [0x2E];
    assert Encodable(t);
    assert EncodeAll([0x2E]) == [0x2E];
    assert EncodeAll([0x0391, 0x2E]) == [0xCE, 0x91, 0x2E];
    assert EncodeAll([0x2262, 0x0391, 0x2E]) == [0xE2, 0x89, 0xA2, 0xCE, 0x91, 0x2E];
    assert EncodeAll(t) == EncodePoint(t[0]) + EncodeAll(t[1..]) == [0x41] + EncodeAll(t[1..]);
    assert [0x41] + EncodeAll(t[1..]) == [0x41, 0xE2, 0x89, 0xA2, 0xCE, 0x91, 0x2E];
  }

  /** Exactly the texts without a lone surrogate can be encoded. */
  lemma EncodesExactly(t: Text)
    ensures Encode(t).None? <==> exists i :: 0 <= i < |t| && 0xD800 <= t[i] <= 0xDFFF
  {
    assert forall i | 0 <= i < |t| :: IsSurrogate(t[i]) <==> 0xD800 <= t[i] <= 0xDFFF;
  }

  predicate IsTail(b: Byte) {
    0x80 <= b < 0xC0
  }

  /** Six more bits, taken from a tail octet. */
  function Shift(high: int, tail: Byte): int {
    high * 0x40 + tail as int - 0x80
  }

  /** The character at the head of `b` and its length, if the head is well formed: no overlong
      form, no surrogate, nothing above 10FFFF (section 4 of RFC 3629). */
  function DecodePoint(b: Bytes): (r: Option<(CodePoint, nat)>)
    ensures r.Some? ==> 0 < r.value.1 <= |b|
  {
    if b == [] then None
    else if b[0] < 0x80 then Some((b[0], 1))
    else if 0xC2 <= b[0] < 0xE0 && |b| >= 2 && IsTail(b[1]) then
      Some((Shift(b[0] as int - 0xC0, b[1]), 2))
    else if 0xE0 <= b[0] < 0xF0 && |b| >= 3 && IsTail(b[1]) && IsTail(b[2])
         && (b[0] == 0xE0 ==> 0xA0 <= b[1]) && (b[0] == 0xED ==> b[1] < 0xA0) then
      Some((Shift(Shift(b[0] as int - 0xE0, b[1]), b[2]), 3))
    else if 0xF0 <= b[0] < 0xF5 && |b| >= 4 && IsTail(b[1]) && IsTail(b[2]) && IsTail(b[3])
         && (b[0] == 0xF0 ==> 0x90 <= b[1]) && (b[0] == 0xF4 ==> b[1] < 0x90) then
      Some((Shift(Shift(Shift(b[0] as int - 0xF0, b[1]), b[2]), b[3]), 4))
    else None
  }

  /** `bytes.decode("utf-8")`; None is UnicodeDecodeError. */
  function Decode(b: Bytes): Option<Text> {
    if b == [] then Some([])
    else
      var head := DecodePoint(b);
      if head.None? then None
      else
        var rest := Decode(b[head.value.1..]);
        if rest.None? then None else Some([head.value.0] + rest.value)
  }

  /** One character survives, whatever bytes follow it. */
  lemma PointRoundTrip(c: CodePoint, b: Bytes)
    requires !IsSurrogate(c) && EncodePoint(c) <= b
    ensures DecodePoint(b) == Some((c, |EncodePoint(c)|))
  {
    var e := EncodePoint(c);
    assert forall i | 0 <= i < |e| :: b[i] == e[i];
  }

  lemma {:induction false} DecodeEncodeAll(t: Text)
    requires Encodable(t)
    ensures Decode(EncodeAll(t)) == Some(t)
  {
    hide DecodePoint, EncodePoint, IsSurrogate;
    if t != [] {
      var b, e := EncodeAll(t), EncodePoint(t[0]);
      PointRoundTrip(t[0], b);
      DecodeEncodeAll(t[1..]);
      DecodeStep(b, t[0], |e|, EncodeAll(t[1..]));
      assert [t[0]] + t[1..] == t;
    }
  }

  lemma DecodeStep(b: Bytes, c: CodePoint, n: nat, rest: Bytes)
    requires DecodePoint(b) == Some((c, n)) && b[n..] == rest
    ensures Decode(b) == if Decode(rest).None? then None else Some([c] + Decode(rest).value)
  {
  }

  /** Decoding undoes encoding on every text that can be encoded at all. */
  lemma DecodeEncode(t: Text)
    ensures Encode(t).Some? ==> Decode(Encode(t).value) == Some(t)
  {
    if Encodable(t) {
      DecodeEncodeAll(t);
    }
  }

  lemma ShiftInverse(high: int, tail: Byte)
    requires IsTail(tail)
    ensures Shift(high, tail) / 0x40 == high && 0x80 + Shift(high, tail) % 0x40 == tail
  {
  }

  lemma PointRoundTripBack(b: Bytes)
    requires DecodePoint(b).Some?
    ensures var (c, n) := DecodePoint(b).value; !IsSurrogate(c) && EncodePoint(c) == b[..n]
  {
    if 0xC2 <= b[0] {
      var high := b[0] as int - (if b[0] < 0xE0 then 0xC0 else if b[0] < 0xF0 then 0xE0 else 0xF0);
      var c1 := Shift(high, b[1]);
      ShiftInverse(high, b[1]);
      if 0xE0 <= b[0] {
        ShiftInverse(c1, b[2]);
        if 0xF0 <= b[0] {
          ShiftInverse(Shift(c1, b[2]), b[3]);
        }
      }
    }
  }

  /** Encoding undoes decoding on every byte string that decodes: the two are inverse bijections,
      so a well-formed text has exactly one byte form. */
  lemma {:induction false} EncodeDecode(b: Bytes)
    ensures Decode(b).Some? ==> Encode(Decode(b).value) == Some(b)
  {
    if b != [] && Decode(b).Some? {
      PointRoundTripBack(b);
      var n := DecodePoint(b).value.1;
      EncodeDecode(b[n..]);
      var t := Decode(b).value;
      assert t[1..] == Decode(b[n..]).value;
      assert b == b[..n] + b[n..];
    }
  }
}
