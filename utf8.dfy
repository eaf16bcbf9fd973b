/**
 * UTF-8 decoding of one line, the conversion an `NSData` line goes through before the
 * field grammar reads it as text. A well-formed byte sequence decodes to its Unicode scalar
 * values; anything else has no decoding. Well-formedness is that of Table 3-7 of the
 * Unicode Standard: no overlong form, no surrogate, nothing above U+10FFFF.
 */
module Utf8 {
  import opened Wrappers
  import opened Octets

  predicate IsContinuation(b: byte) {
    0x80 <= b <= 0xBF
  }

  /** The range a second byte must fall in after the lead byte `b0` (Table 3-7). */
  predicate SecondByteOk(b0: byte, b1: byte) {
    (if b0 == 0xE0 then 0xA0 else if b0 == 0xF0 then 0x90 else 0x80) <= b1 <=
    (if b0 == 0xED then 0x9F else if b0 == 0xF4 then 0x8F else 0xBF)
  }

  predicate IsScalarValue(v: int) {
    0 <= v < 0xD800 || 0xE000 <= v < 0x11_0000
  }

  /** The length of the well-formed sequence that starts `s`, or 0 when `s` starts with none. */
  function SequenceLength(s: bytes): (n: nat)
    ensures n <= 4 && n <= |s|
    ensures s != [] && s[0] < 0x80 ==> n == 1
  {
    if |s| == 0 then 0
    else if s[0] < 0x80 then 1
    else if 0xC2 <= s[0] <= 0xDF then
      if 2 <= |s| && IsContinuation(s[1]) then 2 else 0
    else if 0xE0 <= s[0] <= 0xEF then
      if 3 <= |s| && SecondByteOk(s[0], s[1]) && IsContinuation(s[2]) then 3 else 0
    else if 0xF0 <= s[0] <= 0xF4 then
      if 4 <= |s| && SecondByteOk(s[0], s[1]) && IsContinuation(s[2]) && IsContinuation(s[3]) then 4 else 0
    else 0
  }

  /** The scalar value of the well-formed sequence `s[..n]`; each length covers exactly its own range (shortest form). */
  function ScalarValue(s: bytes, n: nat): (v: int)
    requires 1 <= n && n == SequenceLength(s)
    ensures IsScalarValue(v)
    ensures n == 1 <==> v < 0x80
    ensures n == 2 <==> 0x80 <= v < 0x800
    ensures n == 3 <==> 0x800 <= v < 0x1_0000
    ensures n == 4 <==> 0x1_0000 <= v
  {
    if n == 1 then s[0] as int
    else if n == 2 then (s[0] as int - 0xC0) * 0x40 + (s[1] as int - 0x80)
    else if n == 3 then (s[0] as int - 0xE0) * 0x1000 + (s[1] as int - 0x80) * 0x40 + (s[2] as int - 0x80)
    else (s[0] as int - 0xF0) * 0x4_0000 + (s[1] as int - 0x80) * 0x1000 + (s[2] as int - 0x80) * 0x40 + (s[3] as int - 0x80)
  }

  /** Decodes a whole line; `None` when any part of it is not well-formed UTF-8. */
  function Decode(s: bytes): (r: Option<string>)
    decreases |s|
  {
    if s == [] then Some("")
    else
      var n := SequenceLength(s);
      if n == 0 then None
      else
        match Decode(s[n..])
        case None => None
        case Some(rest) => Some([ScalarValue(s, n) as char] + rest)
  }

  /** The shortest-form UTF-8 encoding of one scalar value. */
  function EncodeScalar(v: int): (e: bytes)
    requires IsScalarValue(v)
  {
    if v < 0x80 then [v]
    else if v < 0x800 then [0xC0 + v / 0x40, 0x80 + v % 0x40]
    else if v < 0x1_0000 then [0xE0 + v / 0x1000, 0x80 + v / 0x40 % 0x40, 0x80 + v % 0x40]
    else [0xF0 + v / 0x4_0000, 0x80 + v / 0x1000 % 0x40, 0x80 + v / 0x40 % 0x40, 0x80 + v % 0x40]
  }

  function Encode(s: string): bytes {
    if s == [] then [] else EncodeScalar(s[0] as int) + Encode(s[1..])
  }

  lemma EncodeTwoDecodes(v: int, rest: bytes)
    requires 0x80 <= v < 0x800
    ensures SequenceLength(EncodeScalar(v) + rest) == 2 && ScalarValue(EncodeScalar(v) + rest, 2) == v
  {
    assert v == v / 0x40 * 0x40 + v % 0x40;
  }

  lemma EncodeThreeDecodes(v: int, rest: bytes)
    requires 0x800 <= v < 0x1_0000 && IsScalarValue(v)
    ensures SequenceLength(EncodeScalar(v) + rest) == 3 && ScalarValue(EncodeScalar(v) + rest, 3) == v
  {
    assert v / 0x40 == v / 0x1000 * 0x40 + v / 0x40 % 0x40;
    assert v == v / 0x40 * 0x40 + v % 0x40;
  }

  lemma EncodeFourDecodes(v: int, rest: bytes)
    requires 0x1_0000 <= v < 0x11_0000
    ensures SequenceLength(EncodeScalar(v) + rest) == 4 && ScalarValue(EncodeScalar(v) + rest, 4) == v
  {
    assert v / 0x1000 == v / 0x4_0000 * 0x40 + v / 0x1000 % 0x40;
    assert v / 0x40 == v / 0x1000 * 0x40 + v / 0x40 % 0x40;
    assert v == v / 0x40 * 0x40 + v % 0x40;
  }

  /** The encoding of one scalar value is read back as exactly that value, whatever follows it. */
  lemma EncodeScalarDecodes(v: int, rest: bytes)
    requires IsScalarValue(v)
    ensures SequenceLength(EncodeScalar(v) + rest) == |EncodeScalar(v)|
    ensures ScalarValue(EncodeScalar(v) + rest, |EncodeScalar(v)|) == v
  {
    if v < 0x80 {
    } else if v < 0x800 {
      EncodeTwoDecodes(v, rest);
    } else if v < 0x1_0000 {
      EncodeThreeDecodes(v, rest);
    } else {
      EncodeFourDecodes(v, rest);
    }
  }

  /** Decoding undoes encoding: every string is the decoding of its UTF-8 encoding. */
  lemma {:induction false} DecodeEncode(s: string)
    ensures Decode(Encode(s)) == Some(s)
  {
    if s != [] {
      var e := EncodeScalar(s[0] as int);
      var tail := Encode(s[1..]);
      assert Encode(s) == e + tail;
      assert (e + tail)[|e|..] == tail;
      EncodeScalarDecodes(s[0] as int, tail);
      DecodeEncode(s[1..]);
      assert [s[0]] + s[1..] == s;
    }
  }

  /** Division by 0x40 is determined by quotient and remainder. */
  lemma DivMod40(v: int, q: int, r: int)
    requires 0 <= r < 0x40 && v == q * 0x40 + r
    ensures v / 0x40 == q && v % 0x40 == r
  {
  }

  lemma DivMod1000(v: int, q: int, r: int)
    requires 0 <= r < 0x1000 && v == q * 0x1000 + r
    ensures v / 0x1000 == q
  {
  }

  lemma DivMod40000(v: int, q: int, r: int)
    requires 0 <= r < 0x4_0000 && v == q * 0x4_0000 + r
    ensures v / 0x4_0000 == q
  {
  }

  /** Re-encoding a well-formed sequence gives back its bytes. */
  lemma ScalarValueEncodes(s: bytes, n: nat)
    requires 1 <= n && n == SequenceLength(s)
    ensures EncodeScalar(ScalarValue(s, n)) == s[..n]
  {
    var v := ScalarValue(s, n);
    if n == 2 {
      DivMod40(v, s[0] as int - 0xC0, s[1] as int - 0x80);
    } else if n == 3 {
      var q := (s[0] as int - 0xE0) * 0x40 + (s[1] as int - 0x80);
      DivMod40(v, q, s[2] as int - 0x80);
      DivMod40(q, s[0] as int - 0xE0, s[1] as int - 0x80);
      DivMod1000(v, s[0] as int - 0xE0, (s[1] as int - 0x80) * 0x40 + (s[2] as int - 0x80));
    } else if n == 4 {
      var q1 := (s[0] as int - 0xF0) * 0x40 + (s[1] as int - 0x80);
      var q2 := q1 * 0x40 + (s[2] as int - 0x80);
      DivMod40(v, q2, s[3] as int - 0x80);
      DivMod40(q2, q1, s[2] as int - 0x80);
      DivMod1000(v, q1, (s[2] as int - 0x80) * 0x40 + (s[3] as int - 0x80));
      DivMod40(q1, s[0] as int - 0xF0, s[1] as int - 0x80);
      DivMod40000(v, s[0] as int - 0xF0, ((s[1] as int - 0x80) * 0x40 + (s[2] as int - 0x80)) * 0x40 + (s[3] as int - 0x80));
    }
  }

  /** A well-formed line decodes as its first sequence's value followed by the decoding of the rest. */
  lemma DecodeCons(s: bytes)
    requires s != [] && Decode(s).Some?
    ensures var n := SequenceLength(s);
            && 1 <= n && Decode(s[n..]).Some?
            && Decode(s).value == [ScalarValue(s, n) as char] + Decode(s[n..]).value
  {
  }

  lemma EncodeCons(v: int, rest: string)
    requires IsScalarValue(v)
    ensures Encode([v as char] + rest) == EncodeScalar(v) + Encode(rest)
  {
    var str := [v as char] + rest;
    assert str[0] as int == v && str[1..] == rest;
  }

  /** Re-encoding the decoding of a line gives back its first sequence, then the re-encoding of the rest. */
  lemma DecodeFirst(s: bytes)
    requires s != [] && Decode(s).Some?
    ensures var n := SequenceLength(s);
            && 1 <= n && Decode(s[n..]).Some?
            && Encode(Decode(s).value) == s[..n] + Encode(Decode(s[n..]).value)
  {
    var n := SequenceLength(s);
    DecodeCons(s);
    var v := ScalarValue(s, n);
    EncodeCons(v, Decode(s[n..]).value);
    ScalarValueEncodes(s, n);
  }

  /** Encoding undoes decoding: a line decodes to at most one string, and only its own bytes decode to it. */
  lemma {:induction false} EncodeDecode(s: bytes)
    requires Decode(s).Some?
    ensures Encode(Decode(s).value) == s
    decreases |s|
  {
    if s != [] {
      var n := SequenceLength(s);
      DecodeFirst(s);
      EncodeDecode(s[n..]);
      assert s == s[..n] + s[n..];
    }
  }

  /** Text without CR or LF encodes to bytes without CR or LF: every byte of a multi-byte sequence is 0x80 or above. */
  lemma {:induction false} EncodeKeepsLineBreaksOut(s: string)
    requires '\r' !in s && '\n' !in s
    ensures CR !in Encode(s) && LF !in Encode(s)
    decreases |s|
  {
    if s != [] {
      assert s[0] in s;
      assert forall c :: c in s[1..] ==> c in s;
      EncodeKeepsLineBreaksOut(s[1..]);
      var e := EncodeScalar(s[0] as int);
      assert forall k :: 0 <= k < |e| ==> e[k] != CR && e[k] != LF;
      assert Encode(s) == e + Encode(s[1..]);
    }
  }
}
