/** The two address codecs that are attached to the Borsh reader and
    writer at start-up: `pubkey` moves an address as its 32 raw bytes,
    `pubkeyAsString` moves the base58 text form of an address, on the wire
    also as the 32 bytes it decodes to. Neither has a length prefix. */
module Pubkeys {
  import opened Base
  import opened Borsh

  /** writePubkey: the key's own bytes, exactly 32 of them. */
  function WritePubkey(key: Address): (r: seq<byte>)
    ensures |r| == 32
  {
    key
  }

  /** writePubkeyAsString: the text is base58-decoded and the resulting
      bytes are written as a fixed array. */
  function WritePubkeyAsString(text: Base58): (r: seq<byte>)
    ensures |r| == 32
  {
    text.decoded
  }

  function ReadPubkey(s: seq<byte>): (r: Read<Address>)
    ensures r.Ok? <==> |s| >= 32
    ensures r.Ok? ==> s == r.value.0 + r.value.1
  {
    match ReadFixedArray(s, 32)
    case Err(e) => Err(e)
    case Ok((b, rest)) => Ok((b, rest))
  }

  /** readPubkeyAsString: 32 bytes, base58-encoded into text. */
  function ReadPubkeyAsString(s: seq<byte>): (r: Read<Base58>)
    ensures r.Ok? <==> |s| >= 32
    ensures r.Ok? ==> s == WritePubkeyAsString(r.value.0) + r.value.1
  {
    match ReadFixedArray(s, 32)
    case Err(e) => Err(e)
    case Ok((b, rest)) => Ok((Base58(b), rest))
  }

  lemma ReadPubkeyOfWrite(key: Address, rest: seq<byte>)
    ensures ReadPubkey(WritePubkey(key) + rest) == Ok((key, rest))
  {
    ReadFixedArrayOf(key, rest);
  }

  lemma ReadPubkeyAsStringOfWrite(text: Base58, rest: seq<byte>)
    ensures ReadPubkeyAsString(WritePubkeyAsString(text) + rest) == Ok((text, rest))
  {
    ReadFixedArrayOf(text.decoded, rest);
  }

  /** The two codecs agree on the wire: an address and its text form are
      written as the same 32 bytes. */
  lemma SameWireForm(key: Address)
    ensures WritePubkey(key) == WritePubkeyAsString(Base58(key))
  {
  }
}
