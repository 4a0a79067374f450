/** UTF-8, the byte form that Borsh gives every `string` field. Text is a
    sequence of Unicode scalar values (Dafny's `char`); decoding is strict
    (no overlong forms, no surrogates, nothing above U+10FFFF), as a fatal
    `TextDecoder` is. */
module Utf8 {
  import opened Base

  predicate IsContinuation(b: byte) {
    0x80 <= b < 0xC0
  }

  /** The bytes of one scalar value: 1 to 4 of them, by magnitude. */
  function EncodeChar(c: char): (r: seq<byte>)
    ensures 1 <= |r| <= 4
  {
    var v := c as int;
    if v < 0x80 then [v]
    else if v < 0x800 then [0xC0 + v / 0x40, 0x80 + v % 0x40]
    else if v < 0x1_0000 then [0xE0 + v / 0x1000, 0x80 + (v / 0x40) % 0x40, 0x80 + v % 0x40]
    else [0xF0 + v / 0x4_0000, 0x80 + (v / 0x1000) % 0x40, 0x80 + (v / 0x40) % 0x40, 0x80 + v % 0x40]
  }

  function Encode(s: string): seq<byte> {
    if s == [] then [] else EncodeChar(s[0]) + Encode(s[1..])
  }

  /** Reads one scalar value from the front of `b`, returning it with the
      number of bytes it took, or None when the front is not well formed. */
  function DecodeChar(b: seq<byte>): (r: Option<(char, nat)>)
    ensures r.Some? ==> 1 <= r.value.1 <= |b| && r.value.1 <= 4
  {
    if |b| == 0 then None
    else
    var b0: int, b1: int, b2: int, b3: int :=
      b[0], (if |b| > 1 then b[1] else 0), (if |b| > 2 then b[2] else 0), (if |b| > 3 then b[3] else 0);
    if b0 < 0x80 then Some((b[0] as char, 1))
    else if 0xC2 <= b0 < 0xE0 then
      if |b| < 2 || !IsContinuation(b[1]) then None
      else Some((((b0 - 0xC0) * 0x40 + (b1 - 0x80)) as char, 2))
    else if 0xE0 <= b0 < 0xF0 then
      if |b| < 3 || !IsContinuation(b[1]) || !IsContinuation(b[2]) then None
      else
        var v := (b0 - 0xE0) * 0x1000 + (b1 - 0x80) * 0x40 + (b2 - 0x80);
        if v < 0x800 || (0xD800 <= v < 0xE000) then None else Some((v as char, 3))
    else if 0xF0 <= b0 < 0xF5 then
      if |b| < 4 || !IsContinuation(b[1]) || !IsContinuation(b[2]) || !IsContinuation(b[3]) then None
      else
        var v := (b0 - 0xF0) * 0x4_0000 + (b1 - 0x80) * 0x1000 + (b2 - 0x80) * 0x40 + (b3 - 0x80);
        if v < 0x1_0000 || v > 0x10_FFFF then None else Some((v as char, 4))
    else None
  }

  function Decode(b: seq<byte>): Option<string>
    decreases |b|
  {
    if b == [] then Some([])
    else match DecodeChar(b)
      case None => None
      case Some((c, n)) =>
        match Decode(b[n..])
        case None => None
        case Some(rest) => Some([c] + rest)
  }

  // The arithmetic of the multi-byte forms, one form at a time.

  lemma TwoByteForm(v: int)
    requires 0x80 <= v < 0x800
    ensures 0xC2 <= 0xC0 + v / 0x40 < 0xE0
    ensures (v / 0x40) * 0x40 + v % 0x40 == v
  {
  }

  lemma ThreeByteForm(v: int)
    requires 0x800 <= v < 0x1_0000
    ensures 0xE0 <= 0xE0 + v / 0x1000 < 0xF0
    ensures (v / 0x1000) * 0x1000 + ((v / 0x40) % 0x40) * 0x40 + v % 0x40 == v
  {
    var q := v / 0x40;
    assert v == q * 0x40 + v % 0x40;
    assert q == (v / 0x1000) * 0x40 + q % 0x40;
  }

  lemma FourByteForm(v: int)
    requires 0x1_0000 <= v < 0x11_0000
    ensures 0xF0 <= 0xF0 + v / 0x4_0000 < 0xF5
    ensures (v / 0x4_0000) * 0x4_0000 + ((v / 0x1000) % 0x40) * 0x1000 + ((v / 0x40) % 0x40) * 0x40 + v % 0x40 == v
  {
    var q := v / 0x40;
    var p := v / 0x1000;
    assert v == q * 0x40 + v % 0x40;
    assert q == p * 0x40 + q % 0x40;
    assert p == (v / 0x4_0000) * 0x40 + p % 0x40;
  }

  lemma TwoBytesBack(b0: int, b1: int)
    requires 0xC2 <= b0 < 0xE0 && 0x80 <= b1 < 0xC0
    ensures var v := (b0 - 0xC0) * 0x40 + (b1 - 0x80);
      0x80 <= v < 0x800 && 0xC0 + v / 0x40 == b0 && 0x80 + v % 0x40 == b1
  {
  }

  lemma ThreeBytesBack(b0: int, b1: int, b2: int)
    requires 0xE0 <= b0 < 0xF0 && 0x80 <= b1 < 0xC0 && 0x80 <= b2 < 0xC0
    ensures var v := (b0 - 0xE0) * 0x1000 + (b1 - 0x80) * 0x40 + (b2 - 0x80);
      v < 0x1_0000 && 0xE0 + v / 0x1000 == b0 && 0x80 + (v / 0x40) % 0x40 == b1 && 0x80 + v % 0x40 == b2
  {
    var v := (b0 - 0xE0) * 0x1000 + (b1 - 0x80) * 0x40 + (b2 - 0x80);
    var q := (b0 - 0xE0) * 0x40 + (b1 - 0x80);
    assert v == q * 0x40 + (b2 - 0x80);
    assert v / 0x40 == q;
    assert q / 0x40 == b0 - 0xE0;
  }

  lemma FourBytesBack(b0: int, b1: int, b2: int, b3: int)
    requires 0xF0 <= b0 < 0xF5 && 0x80 <= b1 < 0xC0 && 0x80 <= b2 < 0xC0 && 0x80 <= b3 < 0xC0
    ensures var v := (b0 - 0xF0) * 0x4_0000 + (b1 - 0x80) * 0x1000 + (b2 - 0x80) * 0x40 + (b3 - 0x80);
      0xF0 + v / 0x4_0000 == b0 && 0x80 + (v / 0x1000) % 0x40 == b1
      && 0x80 + (v / 0x40) % 0x40 == b2 && 0x80 + v % 0x40 == b3
  {
    var v := (b0 - 0xF0) * 0x4_0000 + (b1 - 0x80) * 0x1000 + (b2 - 0x80) * 0x40 + (b3 - 0x80);
    var q := (b0 - 0xF0) * 0x1000 + (b1 - 0x80) * 0x40 + (b2 - 0x80);
    var p := (b0 - 0xF0) * 0x40 + (b1 - 0x80);
    assert v == q * 0x40 + (b3 - 0x80);
    assert v / 0x40 == q;
    assert q == p * 0x40 + (b2 - 0x80);
    assert q / 0x40 == p;
    assert v / 0x1000 == p;
    assert p / 0x40 == b0 - 0xF0;
    assert v / 0x4_0000 == b0 - 0xF0;
  }

  /** One scalar value survives encoding then decoding, whatever follows. */
  lemma DecodeEncodeChar(c: char, rest: seq<byte>)
    ensures DecodeChar(EncodeChar(c) + rest) == Some((c, |EncodeChar(c)|))
  {
    var v := c as int;
    if 0x80 <= v < 0x800 {
      TwoByteForm(v);
    } else if 0x800 <= v < 0x1_0000 {
      ThreeByteForm(v);
    } else if 0x1_0000 <= v {
      FourByteForm(v);
    }
  }

  /** Whatever one decoding step accepts, it accepts as the encoding of the
      value it returns. */
  lemma EncodeDecodeChar(b: seq<byte>)
    requires DecodeChar(b).Some?
    ensures EncodeChar(DecodeChar(b).value.0) == b[..DecodeChar(b).value.1]
  {
    var (c, n) := DecodeChar(b).value;
    var v := c as int;
    var b0: int, b1: int, b2: int, b3: int :=
      b[0], (if |b| > 1 then b[1] else 0), (if |b| > 2 then b[2] else 0), (if |b| > 3 then b[3] else 0);
    if n == 2 {
      TwoBytesBack(b0, b1);
      assert EncodeChar(c) == [b[0], b[1]];
    } else if n == 3 {
      ThreeBytesBack(b0, b1, b2);
      assert EncodeChar(c) == [b[0], b[1], b[2]];
    } else if n == 4 {
      FourBytesBack(b0, b1, b2, b3);
      assert EncodeChar(c) == [b[0], b[1], b[2], b[3]];
    }
  }

  /** Decoding inverts encoding: every text is recovered from its bytes. */
  lemma {:induction false} DecodeEncode(s: string)
    ensures Decode(Encode(s)) == Some(s)
  {
    if s != [] {
      var e := EncodeChar(s[0]);
      DecodeEncodeChar(s[0], Encode(s[1..]));
      assert (e + Encode(s[1..]))[|e|..] == Encode(s[1..]);
      DecodeEncode(s[1..]);
      assert [s[0]] + s[1..] == s;
    }
  }

  /** Encoding inverts decoding: the only byte strings that decode are
      encodings, so text and well-formed UTF-8 are in one-to-one
      correspondence. */
  lemma {:induction false} EncodeDecode(b: seq<byte>)
    requires Decode(b).Some?
    ensures Encode(Decode(b).value) == b
    decreases |b|
  {
    if b != [] {
      var (c, n) := DecodeChar(b).value;
      EncodeDecodeChar(b);
      EncodeDecode(b[n..]);
      var s := Decode(b).value;
      assert s == [c] + Decode(b[n..]).value;
      assert s[0] == c && s[1..] == Decode(b[n..]).value;
      assert b == b[..n] + b[n..];
    }
  }

  lemma {:induction false} EncodeAppend(s: string, t: string)
    ensures Encode(s + t) == Encode(s) + Encode(t)
  {
    if s != [] {
      assert (s + t)[1..] == s[1..] + t;
      EncodeAppend(s[1..], t);
    } else {
      assert s + t == t;
    }
  }

  /** Text made only of ASCII characters encodes one byte per character,
      each byte the character's code. */
  lemma {:induction false} EncodeAscii(s: string)
    requires forall i :: 0 <= i < |s| ==> s[i] as int < 0x80
    ensures |Encode(s)| == |s|
    ensures forall i :: 0 <= i < |s| ==> Encode(s)[i] == s[i] as int
  {
    if s != [] {
      EncodeAscii(s[1..]);
    }
  }
}
