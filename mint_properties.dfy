/** What the minting flow guarantees. The run-level facts are stated over
    `Mint.Flow` for any two instruction lists, so they hold of
    `Mint.MintSpec`, which is the flow over the builders' lists; the
    contents of those lists are stated over `Mint.Phase1Instructions` and
    `Mint.Phase2Instructions`. */
module MintProperties {
  import opened Base
  import opened Borsh
  import opened Schema
  import opened Instructions
  import opened MetadataBuilders
  import opened TokenBuilders
  import opened Confirmation
  import opened Transactions
  import opened Mint

  /** `MintSpec` with a wallet key is the flow over the builders' lists. */
  lemma MintSpecIsFlow(env: Env, payer: Address, files: seq<File>, metadata: MetadataInput)
    ensures MintSpec(env, Some(payer), files, metadata)
         == Flow(env, payer, files, Phase1Instructions(env, payer, files, metadata),
                 SecondInstructions(env, payer, metadata))
  {
  }

  /** A transaction is sent exactly when the wallet agrees to sign the
      first one; the upload happens exactly when, in addition, the first
      confirmation wait returns, whatever its verdict. */
  lemma WhatIsSent(env: Env, payer: Address, files: seq<File>, first: seq<Instruction>, second: seq<Instruction>)
    ensures var r := Flow(env, payer, files, first, second);
      (r.sent != [] <==> env.phase1.walletApproves)
      && (r.upload.Some? <==> env.phase1.walletApproves
                              && SendSignedTransaction(env.phase1.txid, env.phase1.subscribed, env.phase1.events).Some?)
  {
  }

  /** The first transaction carries the first list and a fresh blockhash;
      the wallet pays the fee and the new mint's keypair signs first. */
  lemma FirstTransaction(env: Env, payer: Address, files: seq<File>, first: seq<Instruction>, second: seq<Instruction>)
    requires Flow(env, payer, files, first, second).sent != []
    ensures var t := Flow(env, payer, files, first, second).sent[0];
      t.instructions == first
      && t.recentBlockhash == env.phase1.fetchedBlockhash
      && t.signers == [payer, MintOf(env)]
      && t.signatures == [MintOf(env), payer]
  {
  }

  /** The upload is paid for by the first transaction: it names that
      transaction's signature and carries every file, the metadata file
      last, each tagged with the mint (`Mint.TagsOf`). */
  lemma UploadRequestShape(env: Env, payer: Address, files: seq<File>, first: seq<Instruction>,
                           second: seq<Instruction>)
    requires Flow(env, payer, files, first, second).upload.Some?
    ensures Flow(env, payer, files, first, second).upload.value
         == UploadRequest(TagsOf(files + [File(MetadataFileName, env.metadataJson)], MintOf(env)),
                          env.phase1.txid, files + [File(MetadataFileName, env.metadataJson)])
  {
  }

  /** A minted NFT reports the derived addresses (the mint's metadata
      account, the mint, the wallet's associated token account) and the
      manifest's permanent link, or an empty link when the service
      reported no manifest with an identifier; a second transaction was
      sent exactly when the link is not empty. */
  lemma MintedResult(env: Env, payer: Address, files: seq<File>, first: seq<Instruction>, second: seq<Instruction>)
    requires Flow(env, payer, files, first, second).outcome.Minted?
    ensures env.upload.Some?
    ensures var r := Flow(env, payer, files, first, second);
      var res := r.outcome.result;
      res.metadataAccount == env.derive(MetadataSeeds(MintOf(env)), MetadataProgramId)
      && res.mintKey == env.mintKeypair.publicKey
      && res.account == env.derive(AssociatedSeeds(payer, MintOf(env)), AssociatedTokenProgramId)
      && res.arweaveLink == (match ManifestId(env.upload.value) case Some(id) => ArweavePrefix + id case None => "")
      && (|r.sent| == 2 <==> res.arweaveLink != "")
  {
  }

  /** The verdict of the first confirmation wait does not matter: a wait
      that returns with a rejection (a timeout, a failed transaction) leads
      to the same run as one that returns with a confirmation. */
  lemma FirstVerdictIgnored(env: Env, events: seq<Event>, payer: Address, files: seq<File>,
                            first: seq<Instruction>, second: seq<Instruction>)
    requires SendSignedTransaction(env.phase1.txid, env.phase1.subscribed, env.phase1.events).Some?
    requires SendSignedTransaction(env.phase1.txid, env.phase1.subscribed, events).Some?
    ensures Flow(env.(phase1 := env.phase1.(events := events)), payer, files, first, second)
         == Flow(env, payer, files, first, second)
  {
  }

  /** The second transaction carries the second list and is signed by the
      wallet alone; it is sent only for a link a Borsh string can hold. */
  lemma SecondTransaction(env: Env, payer: Address, files: seq<File>, first: seq<Instruction>,
                          second: seq<Instruction>)
    requires |Flow(env, payer, files, first, second).sent| == 2
    ensures env.upload.Some? && LinkOf(env.upload.value).Some? && IsText(LinkOf(env.upload.value).value)
    ensures var t := Flow(env, payer, files, first, second).sent[1];
      t.instructions == second && t.signers == [payer] && t.signatures == [payer]
      && t.recentBlockhash == env.phase2.fetchedBlockhash
  {
  }

  /** The first instruction list opens with the storage payment: the fee,
      then one memo per file with the metadata file last. */
  lemma {:induction false} FirstInstructionsPay(env: Env, payer: Address, files: seq<File>, metadata: MetadataInput)
    ensures var ins, n := Phase1Instructions(env, payer, files, metadata), |files| + 1;
      |ins| == n + 5
      && ins[0] == Transfer(payer, ArSolHolderId, StorageFee)
      && (forall i :: 0 <= i < |files| ==> ins[1 + i] == MemoInstruction(files[i], env.digest))
      && ins[n] == MemoInstruction(File(MetadataFileName, env.metadataJson), env.digest)
  {
    var realFiles := RealFiles(files, env);
    var pay := PayForFiles(Some(payer), realFiles, env.digest);
    PayForFilesShape(Some(payer), realFiles, env.digest);
    var ins := Phase1Instructions(env, payer, files, metadata);
    var n := |files| + 1;
    assert ins[..n + 1] == pay;
    forall i | 0 <= i < |files|
      ensures ins[1 + i] == MemoInstruction(files[i], env.digest)
    {
      assert ins[1 + i] == pay[1 + i] == MemoInstruction(realFiles[i], env.digest);
    }
    assert ins[n] == pay[n] == MemoInstruction(realFiles[n - 1], env.digest);
  }

  /** After the payment, the first list creates and initialises the mint
      (no decimals, the wallet as both authorities), creates the wallet's
      associated token account, and creates the metadata with the blank
      uri. */
  lemma {:induction false} FirstInstructionsMint(env: Env, payer: Address, files: seq<File>, metadata: MetadataInput)
    ensures var ins, n, mint := Phase1Instructions(env, payer, files, metadata), |files| + 1, MintOf(env);
      |ins| == n + 5
      && ins[n + 1] == CreateAccount(payer, mint, env.mintRent, MintSpan, TokenProgramId)
      && ins[n + 2] == InitializeMint(TokenProgramId, mint, 0, payer, payer)
      && ins[n + 3] == AssociatedAccountInstruction(RecipientOf(env, payer), payer, payer, mint)
      && ins[n + 4] == CreateMetadataInstruction(DataWith(metadata, BlankUri()), payer, mint, payer, payer,
                                                 MetadataAccountOf(env))
  {
    var pay := PayForFiles(Some(payer), RealFiles(files, env), env.digest);
    PayForFilesShape(Some(payer), RealFiles(files, env), env.digest);
    assert |pay| == |files| + 2;
  }

  /** The placeholder uri is 64 spaces. */
  lemma BlankUriSpaces()
    ensures |BlankUri()| == 64 && forall i :: 0 <= i < 64 ==> BlankUri()[i] == ' '
  {
  }

  /** The second instruction list updates the metadata to the same fields
      with the link as uri, leaving the update authority and the
      primary-sale flag alone; mints exactly one token to the wallet's
      associated account; and makes the mint a master edition allowing at
      most one print. */
  lemma SecondInstructionsShape(env: Env, payer: Address, metadata: MetadataInput, link: Text)
    ensures var ins, mint := Phase2Instructions(env, payer, metadata, link), MintOf(env);
      |ins| == 3
      && ins[0].Custom? && ins[0].programId == MetadataProgramId
      && DecodeUpdateMetadataArgs(ins[0].data)
         == Ok(UpdateMetadataArgs(Some(Data(metadata.name, metadata.symbol, link, metadata.sellerFeeBasisPoints,
                                            Some(metadata.creators))), None, None))
      && ins[1] == MintTo(TokenProgramId, mint, RecipientOf(env, payer), payer, [], 1)
      && ins[2].Custom? && ins[2].programId == MetadataProgramId
      && DecodeCreateMasterEditionArgs(ins[2].data) == Ok(CreateMasterEditionArgs(Some(1)))
  {
    UpdateMetadataInstructionShape(UpdateMetadataArgs(Some(DataWith(metadata, link)), None, None),
      MetadataAccountOf(env), payer);
    MasterEditionOfOne();
    CreateMasterEditionInstructionShape(Some(1), env.derive(EditionSeeds(MintOf(env)), MetadataProgramId),
      MintOf(env), payer, payer, payer, MetadataAccountOf(env));
  }
}
