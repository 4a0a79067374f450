/** The Token-Metadata instruction builders and the storage-payment
    transaction. Each builder derives the accounts it needs, encodes its
    argument record, and pushes one instruction onto the caller's list;
    the account table of each instruction is fixed by the program. */
module MetadataBuilders {
  import opened Base
  import opened Borsh
  import opened Schema
  import opened Instructions
  import opened AccountTables
  import SchemaRoundTrip

  // Instructions, as values

  /** The create-metadata instruction. The metadata is always created
      mutable. */
  function CreateMetadataInstruction(data: Data, updateAuthority: Address, mint: Address,
                                     mintAuthority: Address, payer: Address,
                                     metadataAccount: Address): Instruction
  {
    Custom(MetadataProgramId,
      CreateMetadataKeys(metadataAccount, mint, mintAuthority, payer, updateAuthority),
      EncodeCreateMetadataArgs(CreateMetadataArgs(data, true)))
  }

  /** The instruction goes to the Token-Metadata program with the
      create-metadata table; its payload is the tag, the data and a final
      1, and decodes back to the data, mutable. */
  lemma CreateMetadataInstructionShape(data: Data, updateAuthority: Address, mint: Address,
                                       mintAuthority: Address, payer: Address, metadataAccount: Address)
    ensures var ins := CreateMetadataInstruction(data, updateAuthority, mint, mintAuthority, payer, metadataAccount);
      ins.Custom? && ins.programId == MetadataProgramId
      && ins.data == [CreateMetadataTag] + EncodeData(data) + [1]
      && DecodeCreateMetadataArgs(ins.data) == Ok(CreateMetadataArgs(data, true))
      && KeyOrder(ins.keys)
         == [metadataAccount, mint, mintAuthority, payer, updateAuthority, SystemProgramId, RentSysvarId]
  {
    SchemaRoundTrip.DecodeEncodeCreateMetadataArgs(CreateMetadataArgs(data, true));
    CreateMetadataTable(metadataAccount, mint, mintAuthority, payer, updateAuthority);
  }

  /** The update-metadata instruction; `SchemaLayout.UpdateMetadataArgsLayout`
      gives the bytes of its payload. */
  function UpdateMetadataInstruction(args: UpdateMetadataArgs, metadataAccount: Address,
                                     updateAuthority: Address): Instruction
  {
    Custom(MetadataProgramId, UpdateMetadataKeys(metadataAccount, updateAuthority),
      EncodeUpdateMetadataArgs(args))
  }

  /** The instruction goes to the Token-Metadata program with the
      update-metadata table, and its payload decodes back to the
      arguments. */
  lemma UpdateMetadataInstructionShape(args: UpdateMetadataArgs, metadataAccount: Address,
                                       updateAuthority: Address)
    ensures var ins := UpdateMetadataInstruction(args, metadataAccount, updateAuthority);
      ins.Custom? && ins.programId == MetadataProgramId
      && DecodeUpdateMetadataArgs(ins.data) == Ok(args)
      && KeyOrder(ins.keys) == [metadataAccount, updateAuthority]
  {
    SchemaRoundTrip.DecodeEncodeUpdateMetadataArgs(args);
    UpdateMetadataTable(metadataAccount, updateAuthority);
  }

  /** What a caller may hand over as the maximum supply. */
  datatype SupplyArg =
    | Undefined
    | Null
    | Number(n: u64)
    /** A big-number object, which is truthy whatever its value. */
    | BigNumber(n: u64)

  /** `maxSupply || null`: undefined, null and the number 0 become an
      absent maximum (unlimited prints); anything else is kept. */
  function MaxSupplyOf(arg: SupplyArg): (r: Option<u64>)
    ensures r.None? <==> arg.Undefined? || arg.Null? || arg == Number(0)
    ensures r.Some? ==> r.value == arg.n
  {
    match arg
    case Number(n) => if n == 0 then None else Some(n)
    case BigNumber(n) => Some(n)
    case _ => None
  }

  /** The create-master-edition instruction: the tag 10 and the optional
      maximum supply. */
  function CreateMasterEditionInstruction(maxSupply: Option<u64>, edition: Address, mint: Address,
                                          updateAuthority: Address, mintAuthority: Address,
                                          payer: Address, metadataAccount: Address): Instruction
  {
    Custom(MetadataProgramId,
      MasterEditionKeys(edition, mint, updateAuthority, mintAuthority, payer, metadataAccount),
      EncodeCreateMasterEditionArgs(CreateMasterEditionArgs(maxSupply)))
  }

  /** The instruction goes to the Token-Metadata program with the
      master-edition table; its payload is the tag and the optional maximum
      as a u64, and decodes back to it. */
  lemma CreateMasterEditionInstructionShape(maxSupply: Option<u64>, edition: Address, mint: Address,
                                            updateAuthority: Address, mintAuthority: Address,
                                            payer: Address, metadataAccount: Address)
    ensures var ins := CreateMasterEditionInstruction(maxSupply, edition, mint, updateAuthority,
                                                      mintAuthority, payer, metadataAccount);
      ins.Custom? && ins.programId == MetadataProgramId
      && DecodeCreateMasterEditionArgs(ins.data) == Ok(CreateMasterEditionArgs(maxSupply))
      && (maxSupply.None? ==> ins.data == [CreateMasterEditionTag, 0])
      && (maxSupply.Some? ==> ins.data == [CreateMasterEditionTag, 1] + WriteU64(maxSupply.value))
      && KeyOrder(ins.keys) == [edition, mint, updateAuthority, mintAuthority, payer,
                                metadataAccount, TokenProgramId, SystemProgramId, RentSysvarId]
  {
    SchemaRoundTrip.DecodeEncodeCreateMasterEditionArgs(CreateMasterEditionArgs(maxSupply));
    MasterEditionTable(edition, mint, updateAuthority, mintAuthority, payer, metadataAccount);
  }

  /** A master edition of one, as a big number, allows at most one print:
      the maximum is present and encodes as the u64 1. */
  lemma MasterEditionOfOne()
    ensures MaxSupplyOf(BigNumber(1)) == Some(1)
    ensures EncodeCreateMasterEditionArgs(CreateMasterEditionArgs(Some(1))) == [10, 1, 1, 0, 0, 0, 0, 0, 0, 0]
  {
    Pow256Widths();
    var zeros := LE(0, 7);
    assert zeros == [0, 0, 0, 0, 0, 0, 0] by {
      assert LE(0, 0) == [];
    }
    assert WriteU64(1) == [1] + zeros;
  }

  // Builders: each pushes onto the caller's list

  /** `createMetadata`: derives the mint's metadata account, pushes the
      instruction, and returns the account. */
  method CreateMetadata(data: Data, updateAuthority: Address, mint: Address, mintAuthority: Address,
                        instructions: Vec<Instruction>, payer: Address, derive: Derive)
    returns (metadataAccount: Address)
    modifies instructions
    ensures metadataAccount == derive(MetadataSeeds(mint), MetadataProgramId)
    ensures instructions.elems == old(instructions.elems)
      + [CreateMetadataInstruction(data, updateAuthority, mint, mintAuthority, payer, metadataAccount)]
  {
    metadataAccount := derive(MetadataSeeds(mint), MetadataProgramId);
    instructions.Push(CreateMetadataInstruction(data, updateAuthority, mint, mintAuthority, payer, metadataAccount));
  }

  /** `updateMetadata`: uses the metadata account the caller passes, or
      derives it when none is given; pushes the instruction and returns the
      account used. */
  method UpdateMetadata(data: Option<Data>, newUpdateAuthority: Option<Base58>,
                        primarySaleHappened: Option<bool>, mint: Address, updateAuthority: Address,
                        instructions: Vec<Instruction>, metadataAccount: Option<Address>, derive: Derive)
    returns (account: Address)
    modifies instructions
    ensures account == if metadataAccount.Some? then metadataAccount.value
                       else derive(MetadataSeeds(mint), MetadataProgramId)
    ensures instructions.elems == old(instructions.elems)
      + [UpdateMetadataInstruction(UpdateMetadataArgs(data, newUpdateAuthority, primarySaleHappened),
                                   account, updateAuthority)]
  {
    if metadataAccount.Some? {
      account := metadataAccount.value;
    } else {
      account := derive(MetadataSeeds(mint), MetadataProgramId);
    }
    var args := UpdateMetadataArgs(data, newUpdateAuthority, primarySaleHappened);
    instructions.Push(UpdateMetadataInstruction(args, account, updateAuthority));
  }

  /** `createMasterEdition`: derives the metadata and edition accounts and
      pushes the instruction. */
  method CreateMasterEdition(maxSupply: SupplyArg, mint: Address, updateAuthority: Address,
                             mintAuthority: Address, payer: Address,
                             instructions: Vec<Instruction>, derive: Derive)
    modifies instructions
    ensures instructions.elems == old(instructions.elems)
      + [CreateMasterEditionInstruction(MaxSupplyOf(maxSupply), derive(EditionSeeds(mint), MetadataProgramId),
           mint, updateAuthority, mintAuthority, payer, derive(MetadataSeeds(mint), MetadataProgramId))]
  {
    var metadataAccount := derive(MetadataSeeds(mint), MetadataProgramId);
    var edition := derive(EditionSeeds(mint), MetadataProgramId);
    instructions.Push(CreateMasterEditionInstruction(MaxSupplyOf(maxSupply), edition, mint,
      updateAuthority, mintAuthority, payer, metadataAccount));
  }

  // Paying for file storage

  datatype File = File(name: string, contents: seq<byte>)

  /** The bytes of the lowercase hexadecimal sha-256 digest that a file's
      memo carries. The source hashes what `files[i].test()` returns; the
      model takes the digest as given and assumes that call yields the
      file's text. Hashing is not modelled. */
  type HexDigest = File -> seq<byte>

  /** Lamports sent to the storage-fee account. */
  const StorageFee: nat := 100000000

  /** One memo per file, carrying the file's digest and no accounts. */
  function MemoInstruction(file: File, digest: HexDigest): (ins: Instruction)
    ensures ins.Custom? && ins.programId == MemoProgramId && ins.keys == []
  {
    Custom(MemoProgramId, [], digest(file))
  }

  /** The memos of a file list, in file order. */
  function Memos(files: seq<File>, digest: HexDigest): seq<Instruction> {
    if files == [] then [] else Memos(files[..|files| - 1], digest) + [MemoInstruction(files[|files| - 1], digest)]
  }

  /** The storage-payment instructions: a fee transfer from the wallet when
      it has a key, then the memos. */
  function PayForFiles(wallet: Option<Address>, files: seq<File>, digest: HexDigest): seq<Instruction> {
    (if wallet.Some? then [Transfer(wallet.value, ArSolHolderId, StorageFee)] else []) + Memos(files, digest)
  }

  lemma {:induction false} MemosAt(files: seq<File>, digest: HexDigest, i: nat)
    requires i < |files|
    ensures |Memos(files, digest)| == |files|
    ensures Memos(files, digest)[i] == MemoInstruction(files[i], digest)
  {
    var init := files[..|files| - 1];
    if i < |files| - 1 {
      MemosAt(init, digest, i);
    } else if init != [] {
      MemosAt(init, digest, 0);
    }
  }

  /** The payment transaction carries one instruction per file plus the fee
      transfer when the wallet has a key; the transfer comes first, and
      file i's memo sits right after it, at i or i + 1. */
  lemma PayForFilesShape(wallet: Option<Address>, files: seq<File>, digest: HexDigest)
    ensures var r, k := PayForFiles(wallet, files, digest), if wallet.Some? then 1 else 0;
      |r| == |files| + k
      && (wallet.Some? ==> r[0] == Transfer(wallet.value, ArSolHolderId, StorageFee))
      && forall i :: 0 <= i < |files| ==> r[k + i] == MemoInstruction(files[i], digest)
  {
    var k := if wallet.Some? then 1 else 0;
    var r := PayForFiles(wallet, files, digest);
    if files == [] {
      assert Memos(files, digest) == [];
    } else {
      MemosAt(files, digest, 0);
    }
    forall i | 0 <= i < |files|
      ensures r[k + i] == MemoInstruction(files[i], digest)
    {
      MemosAt(files, digest, i);
    }
  }

  /** `prepPayForFilesTxn`: the fee transfer when the wallet has a key,
      then a memo per file in a loop; no extra signers. */
  method PrepPayForFilesTxn(wallet: Option<Address>, files: seq<File>, digest: HexDigest)
    returns (instructions: seq<Instruction>, signers: seq<Keypair>)
    ensures instructions == PayForFiles(wallet, files, digest)
    ensures signers == []
  {
    instructions := [];
    signers := [];
    if wallet.Some? {
      instructions := instructions + [Transfer(wallet.value, ArSolHolderId, StorageFee)];
    }
    var head := instructions;
    for i := 0 to |files|
      invariant instructions == head + Memos(files[..i], digest)
    {
      assert files[..i + 1][..i] == files[..i];
      instructions := instructions + [MemoInstruction(files[i], digest)];
    }
    assert files[..|files|] == files;
  }
}
