/** The Borsh binary format as the record schemas use it: little-endian
    unsigned integers, strings as a u32 byte length followed by UTF-8,
    options as a 0/1 tag followed by the value, vectors as a u32 count
    followed by the elements, and fixed arrays with no prefix. Readers
    take the input and return the value together with what is left. */
module Borsh {
  import opened Base
  import Utf8

  /** A string Borsh can write: its UTF-8 form fits a u32 length prefix.
      (A JavaScript string's UTF-8 form is always far below that.) */
  type Text = s: string | |Utf8.Encode(s)| < 0x1_0000_0000

  datatype DecodeError =
    | EndOfInput
    | InvalidUtf8
    | TrailingBytes(count: nat)

  type Read<T> = Result<(T, seq<byte>), DecodeError>

  function Pow256(n: nat): (r: nat)
    ensures r >= 1
  {
    if n == 0 then 1 else 0x100 * Pow256(n - 1)
  }

  lemma Pow256Widths()
    ensures Pow256(1) == 0x100 && Pow256(2) == 0x1_0000
    ensures Pow256(4) == 0x1_0000_0000 && Pow256(8) == 0x1_0000_0000_0000_0000
  {
    assert Pow256(1) == 0x100;
    assert Pow256(2) == 0x1_0000;
    assert Pow256(3) == 0x100_0000;
    assert Pow256(4) == 0x1_0000_0000;
    assert Pow256(5) == 0x100_0000_0000;
    assert Pow256(6) == 0x1_0000_0000_0000;
    assert Pow256(7) == 0x100_0000_0000_0000;
  }

  /** The n little-endian bytes of x, least significant first. */
  function LE(x: nat, n: nat): (r: seq<byte>)
    requires x < Pow256(n)
    ensures |r| == n
  {
    if n == 0 then [] else [x % 0x100] + LE(x / 0x100, n - 1)
  }

  /** The number whose little-endian bytes are s. */
  function FromLE(s: seq<byte>): (r: nat)
    ensures r < Pow256(|s|)
  {
    if s == [] then 0 else s[0] + 0x100 * FromLE(s[1..])
  }

  lemma {:induction false} FromLEOfLE(x: nat, n: nat)
    requires x < Pow256(n)
    ensures FromLE(LE(x, n)) == x
  {
    if n > 0 {
      FromLEOfLE(x / 0x100, n - 1);
      assert LE(x, n)[1..] == LE(x / 0x100, n - 1);
    }
  }

  lemma {:induction false} LEOfFromLE(s: seq<byte>)
    ensures LE(FromLE(s), |s|) == s
  {
    if s != [] {
      LEOfFromLE(s[1..]);
      var x := FromLE(s);
      assert x % 0x100 == s[0] && x / 0x100 == FromLE(s[1..]);
      assert s == [s[0]] + s[1..];
    }
  }

  // Writers

  function WriteU8(x: byte): seq<byte> { [x] }
  function WriteU16(x: u16): seq<byte> { Pow256Widths(); LE(x, 2) }
  function WriteU32(x: u32): seq<byte> { Pow256Widths(); LE(x, 4) }
  function WriteU64(x: u64): seq<byte> { Pow256Widths(); LE(x, 8) }

  /** A JavaScript boolean handed to a `u8` field: `true` is 1, `false` 0. */
  function WriteBool(b: bool): seq<byte> { [if b then 1 else 0] }

  function WriteString(s: Text): seq<byte> {
    WriteU32(|Utf8.Encode(s)|) + Utf8.Encode(s)
  }

  function WriteOption<T>(o: Option<T>, write: T -> seq<byte>): seq<byte> {
    match o
    case None => [0]
    case Some(x) => [1] + write(x)
  }

  // Readers

  function ReadFixedArray(s: seq<byte>, n: nat): (r: Read<seq<byte>>)
    ensures r.Ok? ==> |r.value.0| == n && s == r.value.0 + r.value.1
  {
    if |s| < n then Err(EndOfInput) else Ok((s[..n], s[n..]))
  }

  function ReadLE(s: seq<byte>, n: nat): (r: Read<nat>)
    ensures r.Ok? ==> r.value.0 < Pow256(n)
  {
    match ReadFixedArray(s, n)
    case Err(e) => Err(e)
    case Ok((b, rest)) => Ok((FromLE(b), rest))
  }

  function ReadU8(s: seq<byte>): Read<byte> {
    if |s| == 0 then Err(EndOfInput) else Ok((s[0], s[1..]))
  }

  function ReadU16(s: seq<byte>): Read<u16> {
    Pow256Widths();
    match ReadLE(s, 2)
    case Err(e) => Err(e)
    case Ok((x, rest)) => Ok((x, rest))
  }

  function ReadU32(s: seq<byte>): Read<u32> {
    Pow256Widths();
    match ReadLE(s, 4)
    case Err(e) => Err(e)
    case Ok((x, rest)) => Ok((x, rest))
  }

  function ReadU64(s: seq<byte>): Read<u64> {
    Pow256Widths();
    match ReadLE(s, 8)
    case Err(e) => Err(e)
    case Ok((x, rest)) => Ok((x, rest))
  }

  /** A `u8` read back into a boolean field: any non-zero byte is true. */
  function ReadBool(s: seq<byte>): Read<bool> {
    match ReadU8(s)
    case Err(e) => Err(e)
    case Ok((b, rest)) => Ok((b != 0, rest))
  }

  function ReadString(s: seq<byte>): Read<Text> {
    match ReadU32(s)
    case Err(e) => Err(e)
    case Ok((n, s1)) =>
      match ReadFixedArray(s1, n)
      case Err(e) => Err(e)
      case Ok((b, rest)) =>
        match Utf8.Decode(b)
        case None => Err(InvalidUtf8)
        case Some(t) =>
          Utf8.EncodeDecode(b);
          Ok((t, rest))
  }

  /** Any non-zero tag announces a value, as the reference reader treats it. */
  function ReadOption<T>(s: seq<byte>, read: seq<byte> -> Read<T>): Read<Option<T>> {
    if |s| == 0 then Err(EndOfInput)
    else if s[0] == 0 then Ok((None, s[1..]))
    else match read(s[1..])
      case Err(e) => Err(e)
      case Ok((x, rest)) => Ok((Some(x), rest))
  }

  /** The whole input must be consumed; leftover bytes are an error. */
  function Finish<T>(r: Read<T>): Result<T, DecodeError> {
    match r
    case Err(e) => Err(e)
    case Ok((x, rest)) => if rest == [] then Ok(x) else Err(TrailingBytes(|rest|))
  }

  // Regrouping a concatenation to the right, the shape in which readers
  // consume it.

  lemma Regroup4(a: seq<byte>, b: seq<byte>, c: seq<byte>, d: seq<byte>)
    ensures a + b + c + d == a + (b + (c + d))
  {
  }

  lemma Regroup6(a: seq<byte>, b: seq<byte>, c: seq<byte>, d: seq<byte>, e: seq<byte>, f: seq<byte>)
    ensures a + b + c + d + e + f == a + (b + (c + (d + (e + f))))
  {
  }

  // Round trips: each reader recovers what its writer wrote and leaves the
  // rest of the input untouched.

  lemma ReadFixedArrayOf(b: seq<byte>, rest: seq<byte>)
    ensures ReadFixedArray(b + rest, |b|) == Ok((b, rest))
  {
    assert (b + rest)[..|b|] == b && (b + rest)[|b|..] == rest;
  }

  lemma ReadLEOfLE(x: nat, n: nat, rest: seq<byte>)
    requires x < Pow256(n)
    ensures ReadLE(LE(x, n) + rest, n) == Ok((x, rest))
  {
    ReadFixedArrayOf(LE(x, n), rest);
    FromLEOfLE(x, n);
  }

  lemma ReadU8OfWrite(x: byte, rest: seq<byte>)
    ensures ReadU8(WriteU8(x) + rest) == Ok((x, rest))
  {
    assert (WriteU8(x) + rest)[1..] == rest;
  }

  lemma ReadU16OfWrite(x: u16, rest: seq<byte>)
    ensures ReadU16(WriteU16(x) + rest) == Ok((x, rest))
  {
    Pow256Widths();
    ReadLEOfLE(x, 2, rest);
  }

  lemma ReadU32OfWrite(x: u32, rest: seq<byte>)
    ensures ReadU32(WriteU32(x) + rest) == Ok((x, rest))
  {
    Pow256Widths();
    ReadLEOfLE(x, 4, rest);
  }

  lemma ReadU64OfWrite(x: u64, rest: seq<byte>)
    ensures ReadU64(WriteU64(x) + rest) == Ok((x, rest))
  {
    Pow256Widths();
    ReadLEOfLE(x, 8, rest);
  }

  lemma ReadBoolOfWrite(b: bool, rest: seq<byte>)
    ensures ReadBool(WriteBool(b) + rest) == Ok((b, rest))
  {
    assert (WriteBool(b) + rest)[1..] == rest;
  }

  lemma ReadStringOfWrite(t: Text, rest: seq<byte>)
    ensures ReadString(WriteString(t) + rest) == Ok((t, rest))
  {
    var e := Utf8.Encode(t);
    var n := |e|;
    ReadU32OfWrite(n, e + rest);
    assert WriteString(t) + rest == WriteU32(n) + (e + rest);
    ReadFixedArrayOf(e, rest);
    Utf8.DecodeEncode(t);
  }

  lemma ReadOptionOfWrite<T>(o: Option<T>, write: T -> seq<byte>, read: seq<byte> -> Read<T>, rest: seq<byte>)
    requires o.Some? ==> read(write(o.value) + rest) == Ok((o.value, rest))
    ensures ReadOption(WriteOption(o, write) + rest, read) == Ok((o, rest))
  {
    var s := WriteOption(o, write) + rest;
    if o.Some? {
      assert s[1..] == write(o.value) + rest;
    } else {
      assert s[1..] == rest;
    }
  }
}
