/** Every record of the schema is recovered from its encoding. */
module SchemaRoundTrip {
  import opened Base
  import opened Borsh
  import opened Pubkeys
  import opened Schema
  import Utf8

  lemma ReadCreatorOfEncode(c: Creator, rest: seq<byte>)
    ensures ReadCreator(EncodeCreator(c) + rest) == Ok((c, rest))
  {
    var tail := WriteBool(c.verified) + WriteU8(c.share) + rest;
    assert EncodeCreator(c) + rest == WritePubkeyAsString(c.address) + tail;
    ReadPubkeyAsStringOfWrite(c.address, tail);
    ReadBoolOfWrite(c.verified, WriteU8(c.share) + rest);
    ReadU8OfWrite(c.share, rest);
  }

  lemma {:induction false} ReadCreatorsOfEncode(cs: seq<Creator>, rest: seq<byte>)
    ensures ReadCreators(EncodeCreators(cs) + rest, |cs|) == Ok((cs, rest))
  {
    if cs != [] {
      var tail := EncodeCreators(cs[1..]) + rest;
      assert EncodeCreators(cs) + rest == EncodeCreator(cs[0]) + tail;
      ReadCreatorOfEncode(cs[0], tail);
      assert ReadCreator(EncodeCreators(cs) + rest) == Ok((cs[0], tail));
      ReadCreatorsOfEncode(cs[1..], rest);
      assert |cs[1..]| == |cs| - 1;
      assert ReadCreators(tail, |cs| - 1) == Ok((cs[1..], rest));
      assert [cs[0]] + cs[1..] == cs;
    } else {
      assert EncodeCreators(cs) + rest == rest;
    }
  }

  lemma ReadCreatorVecOfWrite(cs: CreatorList, rest: seq<byte>)
    ensures ReadCreatorVec(WriteCreatorVec(cs) + rest) == Ok((cs, rest))
  {
    assert WriteCreatorVec(cs) + rest == WriteU32(|cs|) + (EncodeCreators(cs) + rest);
    ReadU32OfWrite(|cs|, EncodeCreators(cs) + rest);
    ReadCreatorsOfEncode(cs, rest);
  }

  lemma ReadDataOfEncode(d: Data, rest: seq<byte>)
    ensures ReadData(EncodeData(d) + rest) == Ok((d, rest))
  {
    var s4 := WriteOption(d.creators, WriteCreatorVec) + rest;
    var s3 := WriteU16(d.sellerFeeBasisPoints) + s4;
    var s2 := WriteString(d.uri) + s3;
    var s1 := WriteString(d.symbol) + s2;
    Regroup6(WriteString(d.name), WriteString(d.symbol), WriteString(d.uri),
      WriteU16(d.sellerFeeBasisPoints), WriteOption(d.creators, WriteCreatorVec), rest);
    ReadStringOfWrite(d.name, s1);
    ReadStringOfWrite(d.symbol, s2);
    ReadStringOfWrite(d.uri, s3);
    ReadU16OfWrite(d.sellerFeeBasisPoints, s4);
    if d.creators.Some? {
      ReadCreatorVecOfWrite(d.creators.value, rest);
    }
    ReadOptionOfWrite(d.creators, WriteCreatorVec, ReadCreatorVec, rest);
    DataSteps(EncodeData(d) + rest, d, s1, s2, s3, s4, rest);
  }

  /** Reading `Data` field by field, from the facts about each field. */
  lemma DataSteps(e: seq<byte>, d: Data, s1: seq<byte>, s2: seq<byte>, s3: seq<byte>, s4: seq<byte>,
                  rest: seq<byte>)
    requires ReadString(e) == Ok((d.name, s1))
    requires ReadString(s1) == Ok((d.symbol, s2))
    requires ReadString(s2) == Ok((d.uri, s3))
    requires ReadU16(s3) == Ok((d.sellerFeeBasisPoints, s4))
    requires ReadOption(s4, ReadCreatorVec) == Ok((d.creators, rest))
    ensures ReadData(e) == Ok((d, rest))
  {
  }

  lemma DecodeEncodeCreateMetadataArgs(a: CreateMetadataArgs)
    ensures DecodeCreateMetadataArgs(EncodeCreateMetadataArgs(a)) == Ok(a)
  {
    var w := WriteBool(a.isMutable);
    var s1 := EncodeData(a.data) + w;
    var e := EncodeCreateMetadataArgs(a);
    assert ReadU8(e) == Ok((CreateMetadataTag, s1)) by {
      assert e == WriteU8(CreateMetadataTag) + s1;
      ReadU8OfWrite(CreateMetadataTag, s1);
    }
    assert ReadData(s1) == Ok((a.data, w)) by {
      ReadDataOfEncode(a.data, w);
    }
    assert ReadBool(w) == Ok((a.isMutable, [])) by {
      ReadBoolOfWrite(a.isMutable, []);
      assert w + [] == w;
    }
  }

  lemma DecodeEncodeUpdateMetadataArgs(a: UpdateMetadataArgs)
    ensures DecodeUpdateMetadataArgs(EncodeUpdateMetadataArgs(a)) == Ok(a)
  {
    var p := WriteOption(a.primarySaleHappened, WriteBool);
    var s2 := WriteOption(a.updateAuthority, WritePubkeyAsString) + p;
    var s1 := WriteOption(a.data, EncodeData) + s2;
    Regroup4(WriteU8(UpdateMetadataTag), WriteOption(a.data, EncodeData),
      WriteOption(a.updateAuthority, WritePubkeyAsString), p);
    ReadU8OfWrite(UpdateMetadataTag, s1);
    if a.data.Some? {
      ReadDataOfEncode(a.data.value, s2);
    }
    ReadOptionOfWrite(a.data, EncodeData, ReadData, s2);
    if a.updateAuthority.Some? {
      ReadPubkeyAsStringOfWrite(a.updateAuthority.value, p);
    }
    ReadOptionOfWrite(a.updateAuthority, WritePubkeyAsString, ReadPubkeyAsString, p);
    if a.primarySaleHappened.Some? {
      ReadBoolOfWrite(a.primarySaleHappened.value, []);
    }
    ReadOptionOfWrite(a.primarySaleHappened, WriteBool, ReadBool, []);
    assert p + [] == p;
    UpdateSteps(EncodeUpdateMetadataArgs(a), a, s1, s2, p);
  }

  /** Decoding the update arguments field by field, from the facts about
      each field. */
  lemma UpdateSteps(e: seq<byte>, a: UpdateMetadataArgs, s1: seq<byte>, s2: seq<byte>, s3: seq<byte>)
    requires ReadU8(e) == Ok((UpdateMetadataTag, s1))
    requires ReadOption(s1, ReadData) == Ok((a.data, s2))
    requires ReadOption(s2, ReadPubkeyAsString) == Ok((a.updateAuthority, s3))
    requires ReadOption(s3, ReadBool) == Ok((a.primarySaleHappened, []))
    ensures DecodeUpdateMetadataArgs(e) == Ok(a)
  {
  }

  lemma DecodeEncodeCreateMasterEditionArgs(a: CreateMasterEditionArgs)
    ensures DecodeCreateMasterEditionArgs(EncodeCreateMasterEditionArgs(a)) == Ok(a)
  {
    var w := WriteOption(a.maxSupply, WriteU64);
    assert EncodeCreateMasterEditionArgs(a) == WriteU8(CreateMasterEditionTag) + (w + []);
    ReadU8OfWrite(CreateMasterEditionTag, w + []);
    if a.maxSupply.Some? {
      ReadU64OfWrite(a.maxSupply.value, []);
    }
    ReadOptionOfWrite(a.maxSupply, WriteU64, ReadU64, []);
  }

  lemma DecodeEncodeMintPrintingTokensArgs(a: MintPrintingTokensArgs)
    ensures DecodeMintPrintingTokensArgs(EncodeMintPrintingTokensArgs(a)) == Ok(a)
  {
    ReadU8OfWrite(MintPrintingTokensTag, WriteU64(a.supply));
    ReadU64OfWrite(a.supply, []);
    assert WriteU64(a.supply) + [] == WriteU64(a.supply);
  }

  /** The payload as written differs from the intended one exactly in its
      tag byte: it announces instruction 0, which the program reads as
      create-metadata, instead of 9. The decoder skips the tag, so it
      cannot tell the two apart. */
  lemma MintPrintingTagLost(a: MintPrintingTokensArgs)
    ensures EncodeMintPrintingTokensArgsAsWritten(a)[0] == CreateMetadataTag
    ensures EncodeMintPrintingTokensArgs(a)[0] == MintPrintingTokensTag
    ensures EncodeMintPrintingTokensArgsAsWritten(a)[1..] == EncodeMintPrintingTokensArgs(a)[1..]
    ensures DecodeMintPrintingTokensArgs(EncodeMintPrintingTokensArgsAsWritten(a)) == Ok(a)
  {
    ReadU8OfWrite(0, WriteU64(a.supply));
    ReadU64OfWrite(a.supply, []);
    assert WriteU64(a.supply) + [] == WriteU64(a.supply);
  }

  lemma DecodeEncodeEdition(e: Edition)
    ensures DecodeEdition(EncodeEdition(e)) == Ok(e)
  {
    var w2 := WriteU64(e.edition);
    var w1 := WritePubkeyAsString(e.parent);
    assert EncodeEdition(e) == WriteU8(EditionV1Key) + (w1 + (w2 + []));
    ReadU8OfWrite(EditionV1Key, w1 + (w2 + []));
    ReadPubkeyAsStringOfWrite(e.parent, w2 + []);
    ReadU64OfWrite(e.edition, []);
  }

  lemma DecodeEncodeMasterEditionV1(m: MasterEditionV1)
    ensures DecodeMasterEditionV1(EncodeMasterEditionV1(m)) == Ok(m)
  {
    var w4 := WritePubkeyAsString(m.oneTimePrintingAuthorizationMint);
    var w3 := WritePubkeyAsString(m.printingMint);
    var w2 := WriteOption(m.maxSupply, WriteU64);
    var w1 := WriteU64(m.supply);
    assert EncodeMasterEditionV1(m) == WriteU8(MasterEditionV1Key) + (w1 + (w2 + (w3 + (w4 + []))));
    ReadU8OfWrite(MasterEditionV1Key, w1 + (w2 + (w3 + (w4 + []))));
    ReadU64OfWrite(m.supply, w2 + (w3 + (w4 + [])));
    if m.maxSupply.Some? {
      ReadU64OfWrite(m.maxSupply.value, w3 + (w4 + []));
    }
    ReadOptionOfWrite(m.maxSupply, WriteU64, ReadU64, w3 + (w4 + []));
    ReadPubkeyAsStringOfWrite(m.printingMint, w4 + []);
    ReadPubkeyAsStringOfWrite(m.oneTimePrintingAuthorizationMint, []);
  }

  lemma DecodeEncodeMasterEditionV2(m: MasterEditionV2)
    ensures DecodeMasterEditionV2(EncodeMasterEditionV2(m)) == Ok(m)
  {
    var w2 := WriteOption(m.maxSupply, WriteU64);
    var w1 := WriteU64(m.supply);
    assert EncodeMasterEditionV2(m) == WriteU8(MasterEditionV2Key) + (w1 + (w2 + []));
    ReadU8OfWrite(MasterEditionV2Key, w1 + (w2 + []));
    ReadU64OfWrite(m.supply, w2 + []);
    if m.maxSupply.Some? {
      ReadU64OfWrite(m.maxSupply.value, []);
    }
    ReadOptionOfWrite(m.maxSupply, WriteU64, ReadU64, []);
  }

  /** The account record comes back field for field, except `editionNonce`,
      which the schema does not carry: it decodes as absent. */
  lemma DecodeEncodeMetadata(m: Metadata)
    ensures DecodeMetadata(EncodeMetadata(m)) == Ok(m.(editionNonce := None))
  {
    var s5 := WriteBool(m.isMutable);
    var s4 := WriteBool(m.primarySaleHappened) + s5;
    var s3 := EncodeData(m.data) + s4;
    var s2 := WritePubkeyAsString(m.mint) + s3;
    var s1 := WritePubkeyAsString(m.updateAuthority) + s2;
    Regroup6(WriteU8(MetadataV1Key), WritePubkeyAsString(m.updateAuthority),
      WritePubkeyAsString(m.mint), EncodeData(m.data), WriteBool(m.primarySaleHappened), s5);
    ReadU8OfWrite(MetadataV1Key, s1);
    ReadPubkeyAsStringOfWrite(m.updateAuthority, s2);
    ReadPubkeyAsStringOfWrite(m.mint, s3);
    ReadDataOfEncode(m.data, s4);
    ReadBoolOfWrite(m.primarySaleHappened, s5);
    ReadBoolOfWrite(m.isMutable, []);
    assert s5 + [] == s5;
    MetadataSteps(EncodeMetadata(m), m, s1, s2, s3, s4, s5);
  }

  /** Decoding a metadata account field by field, from the facts about
      each field; the edition nonce is never read. */
  lemma MetadataSteps(e: seq<byte>, m: Metadata, s1: seq<byte>, s2: seq<byte>, s3: seq<byte>,
                      s4: seq<byte>, s5: seq<byte>)
    requires ReadU8(e) == Ok((MetadataV1Key, s1))
    requires ReadPubkeyAsString(s1) == Ok((m.updateAuthority, s2))
    requires ReadPubkeyAsString(s2) == Ok((m.mint, s3))
    requires ReadData(s3) == Ok((m.data, s4))
    requires ReadBool(s4) == Ok((m.primarySaleHappened, s5))
    requires ReadBool(s5) == Ok((m.isMutable, []))
    ensures DecodeMetadata(e) == Ok(m.(editionNonce := None))
  {
  }

  lemma DecodeEncodeEditionMarker(m: EditionMarker)
    ensures DecodeEditionMarker(EncodeEditionMarker(m)) == Ok(m)
  {
    assert EncodeEditionMarker(m) == WriteU8(EditionMarkerKey) + (m.ledger + []);
    ReadU8OfWrite(EditionMarkerKey, m.ledger + []);
    ReadFixedArrayOf(m.ledger, []);
  }

  /** The decoder does not check the key byte: any byte in its place yields
      the same record, because the constructor overwrites the key. */
  lemma {:induction false} KeyByteIgnored(m: MasterEditionV2, k: byte)
    ensures DecodeMasterEditionV2([k] + EncodeMasterEditionV2(m)[1..]) == Ok(m)
  {
    var tail := EncodeMasterEditionV2(m)[1..];
    assert ([k] + tail)[1..] == tail;
    assert EncodeMasterEditionV2(m) == [EncodeMasterEditionV2(m)[0]] + tail;
    DecodeEncodeMasterEditionV2(m);
  }

  /** Bytes after a complete record make decoding fail. */
  lemma TrailingBytesRejected(m: EditionMarker, extra: seq<byte>)
    requires extra != []
    ensures DecodeEditionMarker(EncodeEditionMarker(m) + extra) == Err(TrailingBytes(|extra|))
  {
    assert EncodeEditionMarker(m) + extra == WriteU8(EditionMarkerKey) + (m.ledger + extra);
    ReadU8OfWrite(EditionMarkerKey, m.ledger + extra);
    ReadFixedArrayOf(m.ledger, extra);
  }
}
