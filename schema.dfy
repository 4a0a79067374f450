/** The records of the Token-Metadata program and their Borsh layout, one
    entry of the record schema each: field order and primitive type per
    field. Encoding is `serialize(schema, record)`; decoding is
    `deserialize`, which reads every field and then hands them to the
    record's constructor, so the leading `key` or `instruction` byte is
    read but its value is discarded: the constructor sets it. */
module Schema {
  import opened Base
  import opened Borsh
  import opened Pubkeys
  import Utf8

  // MetadataKey values written in the `key` field of account records.
  const UninitializedKey: byte := 0
  const EditionV1Key: byte := 1
  const MasterEditionV1Key: byte := 2
  const MetadataV1Key: byte := 4
  const MasterEditionV2Key: byte := 6
  const EditionMarkerKey: byte := 7

  // Instruction tags written in the `instruction` field of argument records.
  const CreateMetadataTag: byte := 0
  const UpdateMetadataTag: byte := 1
  const CreateMasterEditionTag: byte := 10
  const MintPrintingTokensTag: byte := 9

  datatype Creator = Creator(address: Base58, verified: bool, share: byte)

  /** A creator list Borsh can write: its count fits the u32 prefix. */
  type CreatorList = s: seq<Creator> | |s| < 0x1_0000_0000

  datatype Data = Data(
    name: Text,
    symbol: Text,
    uri: Text,
    sellerFeeBasisPoints: u16,
    creators: Option<CreatorList>)

  datatype CreateMetadataArgs = CreateMetadataArgs(data: Data, isMutable: bool)

  datatype UpdateMetadataArgs = UpdateMetadataArgs(
    data: Option<Data>,
    updateAuthority: Option<Base58>,
    primarySaleHappened: Option<bool>)

  datatype CreateMasterEditionArgs = CreateMasterEditionArgs(maxSupply: Option<u64>)

  datatype MintPrintingTokensArgs = MintPrintingTokensArgs(supply: u64)

  datatype Edition = Edition(parent: Base58, edition: u64)

  datatype MasterEditionV1 = MasterEditionV1(
    supply: u64,
    maxSupply: Option<u64>,
    printingMint: Base58,
    oneTimePrintingAuthorizationMint: Base58)

  datatype MasterEditionV2 = MasterEditionV2(supply: u64, maxSupply: Option<u64>)

  /** `editionNonce` is a field of the record but not of its schema entry. */
  datatype Metadata = Metadata(
    updateAuthority: Base58,
    mint: Base58,
    data: Data,
    primarySaleHappened: bool,
    isMutable: bool,
    editionNonce: Option<byte>)

  /** The 31-byte bitset of an edition marker, written with no prefix. */
  type Ledger = s: seq<byte> | |s| == 31 witness seq(31, _ => 0)

  datatype EditionMarker = EditionMarker(ledger: Ledger)

  // Creator and the creator vector

  function EncodeCreator(c: Creator): seq<byte> {
    WritePubkeyAsString(c.address) + WriteBool(c.verified) + WriteU8(c.share)
  }

  function ReadCreator(s: seq<byte>): Read<Creator> {
    match ReadPubkeyAsString(s)
    case Err(e) => Err(e)
    case Ok((address, s1)) =>
      match ReadBool(s1)
      case Err(e) => Err(e)
      case Ok((verified, s2)) =>
        match ReadU8(s2)
        case Err(e) => Err(e)
        case Ok((share, rest)) => Ok((Creator(address, verified, share), rest))
  }

  /** The creators' encodings back to back. */
  function EncodeCreators(cs: seq<Creator>): seq<byte> {
    if cs == [] then [] else EncodeCreator(cs[0]) + EncodeCreators(cs[1..])
  }

  function WriteCreatorVec(cs: CreatorList): seq<byte> {
    WriteU32(|cs|) + EncodeCreators(cs)
  }

  function ReadCreators(s: seq<byte>, n: nat): (r: Read<seq<Creator>>)
    ensures r.Ok? ==> |r.value.0| == n
  {
    if n == 0 then Ok(([], s))
    else match ReadCreator(s)
      case Err(e) => Err(e)
      case Ok((c, s1)) =>
        match ReadCreators(s1, n - 1)
        case Err(e) => Err(e)
        case Ok((cs, rest)) => Ok(([c] + cs, rest))
  }

  function ReadCreatorVec(s: seq<byte>): Read<CreatorList> {
    match ReadU32(s)
    case Err(e) => Err(e)
    case Ok((n, s1)) =>
      match ReadCreators(s1, n)
      case Err(e) => Err(e)
      case Ok((cs, rest)) => Ok((cs, rest))
  }

  // Data

  function EncodeData(d: Data): seq<byte> {
    WriteString(d.name) + WriteString(d.symbol) + WriteString(d.uri)
    + WriteU16(d.sellerFeeBasisPoints) + WriteOption(d.creators, WriteCreatorVec)
  }

  function ReadData(s: seq<byte>): Read<Data> {
    match ReadString(s)
    case Err(e) => Err(e)
    case Ok((name, s1)) =>
      match ReadString(s1)
      case Err(e) => Err(e)
      case Ok((symbol, s2)) =>
        match ReadString(s2)
        case Err(e) => Err(e)
        case Ok((uri, s3)) =>
          match ReadU16(s3)
          case Err(e) => Err(e)
          case Ok((fee, s4)) =>
            match ReadOption(s4, ReadCreatorVec)
            case Err(e) => Err(e)
            case Ok((creators, rest)) => Ok((Data(name, symbol, uri, fee, creators), rest))
  }

  // Instruction arguments

  function EncodeCreateMetadataArgs(a: CreateMetadataArgs): seq<byte> {
    WriteU8(CreateMetadataTag) + EncodeData(a.data) + WriteBool(a.isMutable)
  }

  function DecodeCreateMetadataArgs(s: seq<byte>): Result<CreateMetadataArgs, DecodeError> {
    Finish(
      match ReadU8(s)
      case Err(e) => Err(e)
      case Ok((_, s1)) =>
        match ReadData(s1)
        case Err(e) => Err(e)
        case Ok((data, s2)) =>
          match ReadBool(s2)
          case Err(e) => Err(e)
          case Ok((isMutable, rest)) => Ok((CreateMetadataArgs(data, isMutable), rest)))
  }

  function EncodeUpdateMetadataArgs(a: UpdateMetadataArgs): seq<byte> {
    WriteU8(UpdateMetadataTag) + WriteOption(a.data, EncodeData)
    + WriteOption(a.updateAuthority, WritePubkeyAsString)
    + WriteOption(a.primarySaleHappened, WriteBool)
  }

  function DecodeUpdateMetadataArgs(s: seq<byte>): Result<UpdateMetadataArgs, DecodeError> {
    Finish(
      match ReadU8(s)
      case Err(e) => Err(e)
      case Ok((_, s1)) =>
        match ReadOption(s1, ReadData)
        case Err(e) => Err(e)
        case Ok((data, s2)) =>
          match ReadOption(s2, ReadPubkeyAsString)
          case Err(e) => Err(e)
          case Ok((authority, s3)) =>
            match ReadOption(s3, ReadBool)
            case Err(e) => Err(e)
            case Ok((sold, rest)) => Ok((UpdateMetadataArgs(data, authority, sold), rest)))
  }

  function EncodeCreateMasterEditionArgs(a: CreateMasterEditionArgs): seq<byte> {
    WriteU8(CreateMasterEditionTag) + WriteOption(a.maxSupply, WriteU64)
  }

  function DecodeCreateMasterEditionArgs(s: seq<byte>): Result<CreateMasterEditionArgs, DecodeError> {
    Finish(
      match ReadU8(s)
      case Err(e) => Err(e)
      case Ok((_, s1)) =>
        match ReadOption(s1, ReadU64)
        case Err(e) => Err(e)
        case Ok((maxSupply, rest)) => Ok((CreateMasterEditionArgs(maxSupply), rest)))
  }

  /** The payload with its tag, as the record was evidently meant to be
      written: `instruction` set to 9. */
  function EncodeMintPrintingTokensArgs(a: MintPrintingTokensArgs): seq<byte> {
    WriteU8(MintPrintingTokensTag) + WriteU64(a.supply)
  }

  /** The payload as the class is written: it declares a field named
      `instruction9` and never sets `instruction`, so the schema's
      `instruction` field is `undefined`, which a `u8` write stores as 0. */
  function EncodeMintPrintingTokensArgsAsWritten(a: MintPrintingTokensArgs): seq<byte> {
    WriteU8(0) + WriteU64(a.supply)
  }

  function DecodeMintPrintingTokensArgs(s: seq<byte>): Result<MintPrintingTokensArgs, DecodeError> {
    Finish(
      match ReadU8(s)
      case Err(e) => Err(e)
      case Ok((_, s1)) =>
        match ReadU64(s1)
        case Err(e) => Err(e)
        case Ok((supply, rest)) => Ok((MintPrintingTokensArgs(supply), rest)))
  }

  // Account records

  function EncodeEdition(e: Edition): seq<byte> {
    WriteU8(EditionV1Key) + WritePubkeyAsString(e.parent) + WriteU64(e.edition)
  }

  function DecodeEdition(s: seq<byte>): Result<Edition, DecodeError> {
    Finish(
      match ReadU8(s)
      case Err(e) => Err(e)
      case Ok((_, s1)) =>
        match ReadPubkeyAsString(s1)
        case Err(e) => Err(e)
        case Ok((parent, s2)) =>
          match ReadU64(s2)
          case Err(e) => Err(e)
          case Ok((edition, rest)) => Ok((Edition(parent, edition), rest)))
  }

  function EncodeMasterEditionV1(m: MasterEditionV1): seq<byte> {
    WriteU8(MasterEditionV1Key) + WriteU64(m.supply) + WriteOption(m.maxSupply, WriteU64)
    + WritePubkeyAsString(m.printingMint) + WritePubkeyAsString(m.oneTimePrintingAuthorizationMint)
  }

  function DecodeMasterEditionV1(s: seq<byte>): Result<MasterEditionV1, DecodeError> {
    Finish(
      match ReadU8(s)
      case Err(e) => Err(e)
      case Ok((_, s1)) =>
        match ReadU64(s1)
        case Err(e) => Err(e)
        case Ok((supply, s2)) =>
          match ReadOption(s2, ReadU64)
          case Err(e) => Err(e)
          case Ok((maxSupply, s3)) =>
            match ReadPubkeyAsString(s3)
            case Err(e) => Err(e)
            case Ok((printing, s4)) =>
              match ReadPubkeyAsString(s4)
              case Err(e) => Err(e)
              case Ok((oneTime, rest)) => Ok((MasterEditionV1(supply, maxSupply, printing, oneTime), rest)))
  }

  function EncodeMasterEditionV2(m: MasterEditionV2): seq<byte> {
    WriteU8(MasterEditionV2Key) + WriteU64(m.supply) + WriteOption(m.maxSupply, WriteU64)
  }

  function DecodeMasterEditionV2(s: seq<byte>): Result<MasterEditionV2, DecodeError> {
    Finish(
      match ReadU8(s)
      case Err(e) => Err(e)
      case Ok((_, s1)) =>
        match ReadU64(s1)
        case Err(e) => Err(e)
        case Ok((supply, s2)) =>
          match ReadOption(s2, ReadU64)
          case Err(e) => Err(e)
          case Ok((maxSupply, rest)) => Ok((MasterEditionV2(supply, maxSupply), rest)))
  }

  function EncodeMetadata(m: Metadata): seq<byte> {
    WriteU8(MetadataV1Key) + WritePubkeyAsString(m.updateAuthority) + WritePubkeyAsString(m.mint)
    + EncodeData(m.data) + WriteBool(m.primarySaleHappened) + WriteBool(m.isMutable)
  }

  function DecodeMetadata(s: seq<byte>): Result<Metadata, DecodeError> {
    Finish(
      match ReadU8(s)
      case Err(e) => Err(e)
      case Ok((_, s1)) =>
        match ReadPubkeyAsString(s1)
        case Err(e) => Err(e)
        case Ok((authority, s2)) =>
          match ReadPubkeyAsString(s2)
          case Err(e) => Err(e)
          case Ok((mint, s3)) =>
            match ReadData(s3)
            case Err(e) => Err(e)
            case Ok((data, s4)) =>
              match ReadBool(s4)
              case Err(e) => Err(e)
              case Ok((sold, s5)) =>
                match ReadBool(s5)
                case Err(e) => Err(e)
                case Ok((isMutable, rest)) => Ok((Metadata(authority, mint, data, sold, isMutable, None), rest)))
  }

  function EncodeEditionMarker(m: EditionMarker): seq<byte> {
    WriteU8(EditionMarkerKey) + m.ledger
  }

  function DecodeEditionMarker(s: seq<byte>): Result<EditionMarker, DecodeError> {
    Finish(
      match ReadU8(s)
      case Err(e) => Err(e)
      case Ok((_, s1)) =>
        match ReadFixedArray(s1, 31)
        case Err(e) => Err(e)
        case Ok((ledger, rest)) => Ok((EditionMarker(ledger), rest)))
  }
}
