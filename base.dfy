/** Vocabulary shared by every part of the model: bytes, fixed-width
    unsigned integers, ledger addresses, results, and the caller-owned
    growable arrays that the instruction builders push onto. */
module Base {

  type byte = b: int | 0 <= b < 0x100
  type u16 = x: int | 0 <= x < 0x1_0000
  type u32 = x: int | 0 <= x < 0x1_0000_0000
  type u64 = x: int | 0 <= x < 0x1_0000_0000_0000_0000

  /** A ledger address (public key): exactly 32 raw bytes. */
  type Address = s: seq<byte> | |s| == 32 witness seq(32, _ => 0)

  /** The base58 text form of an address. Base58 is a bijection between
      32-byte addresses and their text; the model keeps it opaque by
      wrapping the decoded bytes, so `Base58(a).decoded == a` is the
      decoding and the constructor is the encoding. */
  datatype Base58 = Base58(decoded: Address)

  datatype Option<+T> = None | Some(value: T)

  datatype Result<+T, +E> = Ok(value: T) | Err(error: E)

  /** A keypair produced by `Keypair.generate()`; only its public half is
      observable by the code being modelled. */
  datatype Keypair = Keypair(publicKey: Address)

  /** A JavaScript array owned by a caller and grown with `push`. */
  class Vec<T> {
    var elems: seq<T>

    constructor (init: seq<T>)
      ensures elems == init
    {
      elems := init;
    }

    method Push(x: T)
      modifies this
      ensures elems == old(elems) + [x]
    {
      elems := elems + [x];
    }
  }
}
