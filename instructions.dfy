/** Ledger instructions as the builders emit them, and the fixed program
    and account identifiers they refer to. An instruction names the
    program that runs it, the accounts it touches (each flagged signer
    and/or writable), and an opaque data payload. The System and Token
    helpers that build their own instructions are kept as named forms:
    their account tables belong to those libraries. */
module Instructions {
  import opened Base
  import Utf8

  // Program and account identifiers, as the 32 bytes their base58 text
  // decodes to.

  /** The Token-Metadata program ("metaqbxx…x1s"). */
  const MetadataProgramId: Address := MetadataProgramIdBytes
  const MetadataProgramIdBytes: seq<byte> := [
    11, 112, 101, 177, 227, 209, 124, 69, 56, 157, 82, 127, 107, 4, 195, 205,
    88, 184, 108, 115, 26, 160, 253, 181, 73, 182, 209, 188, 3, 248, 41, 70]

  /** The Associated-Token-Account program ("ATokenGPv…8knL"). */
  const AssociatedTokenProgramId: Address := AssociatedTokenProgramIdBytes
  const AssociatedTokenProgramIdBytes: seq<byte> := [
    140, 151, 37, 143, 78, 36, 137, 241, 187, 61, 16, 41, 20, 142, 13, 131,
    11, 90, 19, 153, 218, 255, 16, 132, 4, 142, 123, 216, 219, 233, 248, 89]

  /** The Memo program ("MemoSq4g…fcHr"). */
  const MemoProgramId: Address := MemoProgramIdBytes
  const MemoProgramIdBytes: seq<byte> := [
    5, 74, 83, 90, 153, 41, 33, 6, 77, 36, 232, 113, 96, 218, 56, 124,
    124, 53, 181, 221, 188, 146, 187, 129, 228, 31, 168, 64, 65, 5, 68, 141]

  /** The account that collects storage fees ("HvwC9QSA…FTm"). */
  const ArSolHolderId: Address := ArSolHolderIdBytes
  const ArSolHolderIdBytes: seq<byte> := [
    251, 140, 12, 137, 6, 2, 108, 1, 120, 73, 23, 69, 149, 123, 223, 225,
    168, 83, 244, 131, 57, 170, 171, 207, 220, 85, 224, 252, 165, 50, 114, 168]

  /** The SPL Token program ("Tokenkeg…Q5DA"). */
  const TokenProgramId: Address := TokenProgramIdBytes
  const TokenProgramIdBytes: seq<byte> := [
    6, 221, 246, 225, 215, 101, 161, 147, 217, 203, 225, 70, 206, 235, 121, 172,
    28, 180, 133, 237, 95, 91, 55, 145, 58, 140, 245, 133, 126, 255, 0, 169]

  /** The rent sysvar ("SysvarRent111…"). */
  const RentSysvarId: Address := RentSysvarIdBytes
  const RentSysvarIdBytes: seq<byte> := [
    6, 167, 213, 23, 25, 44, 92, 81, 33, 140, 201, 76, 61, 74, 241, 127,
    88, 218, 238, 8, 155, 161, 253, 68, 227, 219, 217, 138, 0, 0, 0, 0]

  /** The System program ("11111111111111111111111111111111"). */
  const SystemProgramId: Address := SystemProgramIdBytes
  const SystemProgramIdBytes: seq<byte> := [
    0, 0, 0, 0, 0, 0, 0, 0, 0, 0, 0, 0, 0, 0, 0, 0,
    0, 0, 0, 0, 0, 0, 0, 0, 0, 0, 0, 0, 0, 0, 0, 0]

  /** Bytes of a token account (`AccountLayout.span`) and of a mint
      (`MintLayout.span`). */
  const TokenAccountSpan: nat := 165
  const MintSpan: nat := 82

  /** Seeds of derived addresses are byte strings; textual seeds are their
      UTF-8 bytes. */
  const MetadataPrefix: string := "metadata"
  const EditionSeed: string := "edition"
  const MetadataPrefixBytes: seq<byte> := [109, 101, 116, 97, 100, 97, 116, 97]
  const EditionSeedBytes: seq<byte> := [101, 100, 105, 116, 105, 111, 110]

  /** The textual seeds are ASCII, so their bytes are their character
      codes. */
  lemma MetadataPrefixIsAscii()
    ensures Utf8.Encode(MetadataPrefix) == MetadataPrefixBytes
  {
    Utf8.EncodeAscii(MetadataPrefix);
  }

  lemma EditionSeedIsAscii()
    ensures Utf8.Encode(EditionSeed) == EditionSeedBytes
  {
    Utf8.EncodeAscii(EditionSeed);
  }

  /** `findProgramAddress(seeds, programId)`: a deterministic derivation the
      ledger client performs. The model takes it as a parameter. */
  type Derive = (seq<seq<byte>>, Address) -> Address

  datatype AccountMeta = AccountMeta(pubkey: Address, isSigner: bool, isWritable: bool)

  datatype Instruction =
    /** `new TransactionInstruction({keys, programId, data})`. */
    | Custom(programId: Address, keys: seq<AccountMeta>, data: seq<byte>)
    /** `SystemProgram.transfer`. */
    | Transfer(from: Address, to: Address, lamports: nat)
    /** `SystemProgram.createAccount`. */
    | CreateAccount(from: Address, newAccount: Address, lamports: nat, space: nat, owner: Address)
    /** `Token.createInitMintInstruction`. */
    | InitializeMint(tokenProgram: Address, mint: Address, decimals: nat,
                     mintAuthority: Address, freezeAuthority: Address)
    /** `Token.createMintToInstruction`. */
    | MintTo(tokenProgram: Address, mint: Address, destination: Address,
             authority: Address, multiSigners: seq<Address>, amount: nat)

  /** The accounts of a table, in table order. */
  function KeyOrder(keys: seq<AccountMeta>): (r: seq<Address>)
    ensures |r| == |keys|
    ensures forall i :: 0 <= i < |keys| ==> r[i] == keys[i].pubkey
  {
    if keys == [] then [] else [keys[0].pubkey] + KeyOrder(keys[1..])
  }

  /** The seeds of a mint's metadata account: the prefix, the program, the
      mint. */
  function MetadataSeeds(mint: Address): (r: seq<seq<byte>>)
    ensures |r| == 3 && r[0] == MetadataPrefixBytes && r[1] == MetadataProgramId && r[2] == mint
  {
    [MetadataPrefixBytes, MetadataProgramId, mint]
  }

  /** The seeds of a mint's edition account: the metadata seeds, then the
      edition marker text. */
  function EditionSeeds(mint: Address): (r: seq<seq<byte>>)
    ensures |r| == 4 && r[..3] == MetadataSeeds(mint) && r[3] == EditionSeedBytes
  {
    MetadataSeeds(mint) + [EditionSeedBytes]
  }
}
