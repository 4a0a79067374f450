/** Where each field of a record sits in its encoding: the byte offsets a
    reader of the raw account data or instruction payload relies on. */
module SchemaLayout {
  import opened Base
  import opened Borsh
  import opened Pubkeys
  import opened Schema
  import Utf8

  lemma {:induction false} CreatorsAt(cs: seq<Creator>, i: nat)
    requires i < |cs|
    ensures |EncodeCreators(cs)| == 34 * |cs|
    ensures EncodeCreators(cs)[34 * i..34 * i + 34] == EncodeCreator(cs[i])
  {
    var head := EncodeCreator(cs[0]);
    assert |head| == 34;
    if i == 0 {
      if |cs| > 1 {
        CreatorsAt(cs[1..], 0);
      } else {
        assert cs[1..] == [];
      }
      assert (head + EncodeCreators(cs[1..]))[..34] == head;
    } else {
      CreatorsAt(cs[1..], i - 1);
      assert cs[1..][i - 1] == cs[i];
      assert (head + EncodeCreators(cs[1..]))[34 * i..34 * i + 34]
          == EncodeCreators(cs[1..])[34 * (i - 1)..34 * (i - 1) + 34];
    }
  }

  /** A creator entry is 34 bytes: the address, the `verified` flag as a
      byte, the `share` byte. */
  lemma CreatorLayout(c: Creator)
    ensures var e := EncodeCreator(c);
      |e| == 34 && e[..32] == c.address.decoded
      && e[32] == (if c.verified then 1 else 0) && e[33] == c.share
  {
  }

  lemma CreatorsOptionLayout(o: Option<CreatorList>)
    ensures var e := WriteOption(o, WriteCreatorVec);
      (o.None? ==> e == [0])
      && (o.Some? ==>
            |e| == 5 + 34 * |o.value| && e[0] == 1
            && e[1..5] == WriteU32(|o.value|) && e[5..] == EncodeCreators(o.value))
  {
    if o.Some? {
      var cs := o.value;
      if cs != [] {
        CreatorsAt(cs, 0);
      }
      var e := WriteOption(o, WriteCreatorVec);
      assert e == [1] + WriteU32(|cs|) + EncodeCreators(cs);
      assert e[1..5] == WriteU32(|cs|);
    }
  }

  /** Where each part of five concatenated pieces lands: three
      length-prefixed fields, two bytes, and whatever follows. */
  lemma DataSlices(e: seq<byte>, p: seq<byte>, x: seq<byte>, q: seq<byte>, y: seq<byte>,
                   r: seq<byte>, z: seq<byte>, f: seq<byte>, o: seq<byte>)
    requires |p| == 4 && |q| == 4 && |r| == 4 && |f| == 2
    requires e == (p + x) + (q + y) + (r + z) + f + o
    ensures |e| == 14 + |x| + |y| + |z| + |o|
    ensures e[..4] == p && e[4..4 + |x|] == x
    ensures e[4 + |x|..8 + |x|] == q && e[8 + |x|..8 + |x| + |y|] == y
    ensures e[8 + |x| + |y|..12 + |x| + |y|] == r && e[12 + |x| + |y|..12 + |x| + |y| + |z|] == z
    ensures e[12 + |x| + |y| + |z|..14 + |x| + |y| + |z|] == f
    ensures e[14 + |x| + |y| + |z|..] == o
  {
    var k := 12 + |x| + |y| + |z|;
    assert e[..4] == p;
    assert e[4..4 + |x|] == x;
    assert e[4 + |x|..8 + |x|] == q;
    assert e[8 + |x|..8 + |x| + |y|] == y;
    assert e[8 + |x| + |y|..12 + |x| + |y|] == r;
    assert e[12 + |x| + |y|..k] == z;
    assert e[k..k + 2] == f;
    assert e[k + 2..] == o;
  }

  /** `Data` is laid out as name, symbol and uri, each a u32 little-endian
      byte count followed by the UTF-8 bytes; then the royalty in basis
      points as a u16 little-endian; then the creators option, which
      `CreatorsOptionLayout` details. */
  lemma DataLayout(d: Data, n: seq<byte>, y: seq<byte>, u: seq<byte>)
    requires n == Utf8.Encode(d.name) && y == Utf8.Encode(d.symbol) && u == Utf8.Encode(d.uri)
    ensures |EncodeData(d)| > 14 + |n| + |y| + |u|
    ensures EncodeData(d)[..4] == WriteU32(|n|) && EncodeData(d)[4..4 + |n|] == n
    ensures EncodeData(d)[4 + |n|..8 + |n|] == WriteU32(|y|)
    ensures EncodeData(d)[8 + |n|..8 + |n| + |y|] == y
    ensures EncodeData(d)[8 + |n| + |y|..12 + |n| + |y|] == WriteU32(|u|)
    ensures EncodeData(d)[12 + |n| + |y|..12 + |n| + |y| + |u|] == u
    ensures EncodeData(d)[12 + |n| + |y| + |u|..14 + |n| + |y| + |u|] == WriteU16(d.sellerFeeBasisPoints)
    ensures EncodeData(d)[14 + |n| + |y| + |u|..] == WriteOption(d.creators, WriteCreatorVec)
  {
    var o := WriteOption(d.creators, WriteCreatorVec);
    assert |o| > 0;
    DataSlices(EncodeData(d), WriteU32(|n|), n, WriteU32(|y|), y, WriteU32(|u|), u,
      WriteU16(d.sellerFeeBasisPoints), o);
  }

  /** The update payload: the tag, then three optional fields. An absent
      field is a single 0 byte, so the program leaves it unchanged; a
      primary-sale flag of `false` is present, written as the bytes 1, 0. */
  lemma UpdateMetadataArgsLayout(a: UpdateMetadataArgs)
    ensures var e := EncodeUpdateMetadataArgs(a);
      |e| >= 4 && e[0] == UpdateMetadataTag
      && (a.data.None? <==> e[1] == 0)
      && (a.primarySaleHappened.None? ==> e[|e| - 1] == 0)
      && (a.primarySaleHappened.Some? ==>
            e[|e| - 2..] == [1, if a.primarySaleHappened.value then 1 else 0])
  {
    var d := WriteOption(a.data, EncodeData);
    var u := WriteOption(a.updateAuthority, WritePubkeyAsString);
    var p := WriteOption(a.primarySaleHappened, WriteBool);
    var e := EncodeUpdateMetadataArgs(a);
    assert e == [UpdateMetadataTag] + d + u + p;
    assert |d| >= 1 && |u| >= 1 && |p| >= 1;
    assert e[1] == d[0];
    assert e[|e| - |p|..] == p;
  }
}
