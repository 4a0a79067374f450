/** Minting one NFT. The flow pays for the storage of the files and of the
    off-chain metadata file, creates and initialises a mint, creates the
    wallet's associated token account and the on-chain metadata (with a
    placeholder uri), and sends all of that as one transaction. It then
    uploads the files tagged with the mint. When the storage service
    reports a manifest, a second transaction points the metadata at the
    manifest's permanent link, mints the single token and makes the mint a
    master edition of at most one print.

    Everything the outside world decides is an input: the wallet's key,
    the new mint's keypair, address derivation, file digests, the rent,
    the ledger's answers for each transaction, and the storage service's
    reply. */
module Mint {
  import opened Base
  import opened Borsh
  import opened Schema
  import opened Instructions
  import opened MetadataBuilders
  import opened TokenBuilders
  import opened Confirmation
  import opened Transactions
  import Utf8

  /** The reserved file names: the off-chain metadata file the flow adds,
      and the manifest the storage service reports. */
  const MetadataFileName: string := "metadata.json"
  const ManifestName: string := "manifest.json"
  const ArweavePrefix: string := "https://arweave.net/"

  /** What the caller says about the NFT. The description, image and other
      presentation fields only reach the off-chain JSON file, whose bytes
      are an input here. */
  datatype MetadataInput = MetadataInput(name: Text, symbol: Text, sellerFeeBasisPoints: u16,
                                         creators: CreatorList)

  /** One entry of the storage service's reply. */
  datatype Message = Message(filename: string, transactionId: Option<string>)

  /** The storage service's reply; `messages` may be missing. */
  datatype UploadResponse = UploadResponse(messages: Option<seq<Message>>)

  /** A tag attached to an uploaded file. */
  datatype Tag = Tag(name: string, value: Base58)

  /** The upload form: per-file tags, the signature of the paying
      transaction, and the files. */
  datatype UploadRequest = UploadRequest(tags: map<string, seq<Tag>>, transaction: string, files: seq<File>)

  datatype Env = Env(
    metadataJson: seq<byte>,
    digest: HexDigest,
    mintRent: nat,
    mintKeypair: Keypair,
    derive: Derive,
    phase1: Submission,
    upload: Option<UploadResponse>,
    phase2: Submission)

  datatype MintError =
    | NoWalletKey
    | WalletRefused
    | UploadFailed
    /** The link is too long for the u32 length prefix of a Borsh string. */
    | LinkTooLong

  datatype MintResult = MintResult(metadataAccount: Address, arweaveLink: string, mintKey: Address, account: Address)

  datatype MintOutcome =
    | Minted(result: MintResult)
    | Failed(error: MintError)
    /** A confirmation wait never returned. */
    | Stalled

  /** The outcome and the effects: the transactions sent, in order, and
      the upload made, if any. */
  datatype Run = Run(outcome: MintOutcome, sent: seq<Transaction>, upload: Option<UploadRequest>)

  /** The placeholder uri of the first transaction: 64 spaces. */
  function BlankUri(): Text {
    var s := seq(64, _ => ' ');
    Utf8.EncodeAscii(s);
    s
  }

  function MintTag(mint: Address): Tag {
    Tag("mint", Base58(mint))
  }

  /** The tags of the upload, built by folding over the files: each file
      name is tagged with the mint. */
  function TagsOf(files: seq<File>, mint: Address): (r: map<string, seq<Tag>>)
    ensures forall name :: name in r <==> exists i :: 0 <= i < |files| && files[i].name == name
    ensures forall name :: name in r ==> r[name] == [MintTag(mint)]
  {
    if files == [] then map[]
    else
      var init := files[..|files| - 1];
      var r := TagsOf(init, mint)[files[|files| - 1].name := [MintTag(mint)]];
      assert forall i :: 0 <= i < |init| ==> init[i] == files[i];
      r
  }

  /** The first message named after the manifest. */
  function FindManifest(messages: seq<Message>): (r: Option<Message>)
    ensures r.None? <==> forall i :: 0 <= i < |messages| ==> messages[i].filename != ManifestName
    ensures r.Some? ==> r.value.filename == ManifestName
    ensures r.Some? ==> exists i :: 0 <= i < |messages| && messages[i] == r.value
                                    && forall j :: 0 <= j < i ==> messages[j].filename != ManifestName
  {
    if messages == [] then None
    else if messages[0].filename == ManifestName then Some(messages[0])
    else
      var r := FindManifest(messages[1..]);
      assert forall i :: 1 <= i < |messages| ==> messages[i] == messages[1..][i - 1];
      r
  }

  /** `metadata_file?.transactionId`, when truthy (present and not empty). */
  function ManifestId(response: UploadResponse): (r: Option<string>)
    ensures r.Some? <==> response.messages.Some? && FindManifest(response.messages.value).Some?
                         && FindManifest(response.messages.value).value.transactionId.Some?
                         && FindManifest(response.messages.value).value.transactionId.value != ""
    ensures r.Some? ==> r.value != "" && response.messages.Some?
    ensures r.Some? ==> FindManifest(response.messages.value) == Some(Message(ManifestName, Some(r.value)))
  {
    if response.messages.None? then None
    else
      match FindManifest(response.messages.value)
      case None => None
      case Some(m) => if m.transactionId.Some? && m.transactionId.value != "" then Some(m.transactionId.value) else None
  }

  /** The files uploaded and paid for: the caller's, then the metadata file. */
  function RealFiles(files: seq<File>, env: Env): seq<File> {
    files + [File(MetadataFileName, env.metadataJson)]
  }

  /** The addresses the flow works with, given the payer. */
  function MintOf(env: Env): Address { env.mintKeypair.publicKey }
  function RecipientOf(env: Env, payer: Address): Address {
    env.derive(AssociatedSeeds(payer, MintOf(env)), AssociatedTokenProgramId)
  }
  function MetadataAccountOf(env: Env): Address {
    env.derive(MetadataSeeds(MintOf(env)), MetadataProgramId)
  }

  /** The on-chain data: the caller's fields, the given uri, and the
      creators. */
  function DataWith(metadata: MetadataInput, uri: Text): Data {
    Data(metadata.name, metadata.symbol, uri, metadata.sellerFeeBasisPoints, Some(metadata.creators))
  }

  /** The first transaction's instructions. */
  function Phase1Instructions(env: Env, payer: Address, files: seq<File>, metadata: MetadataInput): seq<Instruction> {
    var mint := MintOf(env);
    PayForFiles(Some(payer), RealFiles(files, env), env.digest)
    + MintSetup(payer, mint, env.mintRent, 0, payer, payer)
    + [ AssociatedAccountInstruction(RecipientOf(env, payer), payer, payer, mint),
        CreateMetadataInstruction(DataWith(metadata, BlankUri()), payer, mint, payer, payer, MetadataAccountOf(env)) ]
  }

  /** The second transaction's instructions, for the permanent link. */
  function Phase2Instructions(env: Env, payer: Address, metadata: MetadataInput, link: Text): seq<Instruction> {
    var mint := MintOf(env);
    [ UpdateMetadataInstruction(UpdateMetadataArgs(Some(DataWith(metadata, link)), None, None),
        MetadataAccountOf(env), payer),
      MintTo(TokenProgramId, mint, RecipientOf(env, payer), payer, [], 1),
      CreateMasterEditionInstruction(MaxSupplyOf(BigNumber(1)), env.derive(EditionSeeds(mint), MetadataProgramId),
        mint, payer, payer, payer, MetadataAccountOf(env)) ]
  }

  function IsText(s: string): bool {
    |Utf8.Encode(s)| < 0x1_0000_0000
  }

  /** The permanent link the storage service's reply yields, if any. */
  function LinkOf(response: UploadResponse): Option<string> {
    match ManifestId(response)
    case Some(id) => Some(ArweavePrefix + id)
    case None => None
  }

  /** The second transaction's instructions, when the reply yields a link
      a Borsh string can hold; otherwise none is built. */
  function SecondInstructions(env: Env, payer: Address, metadata: MetadataInput): seq<Instruction> {
    if env.upload.Some? && LinkOf(env.upload.value).Some? && IsText(LinkOf(env.upload.value).value) then
      Phase2Instructions(env, payer, metadata, LinkOf(env.upload.value).value)
    else []
  }

  /** From the confirmed first transaction on: the upload, then the second
      transaction when there is a link. */
  function AfterFirst(env: Env, payer: Address, files: seq<File>, first: Transaction, txid: string,
                      second: seq<Instruction>): (r: Run)
    ensures 1 <= |r.sent| <= 2 && r.sent[0] == first
    ensures r.upload.Some?
  {
    var request := UploadRequest(TagsOf(RealFiles(files, env), MintOf(env)), txid, RealFiles(files, env));
    var result := MintResult(MetadataAccountOf(env), "", MintOf(env), RecipientOf(env, payer));
    if env.upload.None? then Run(Failed(UploadFailed), [first], Some(request))
    else
      match LinkOf(env.upload.value)
      case None => Run(Minted(result), [first], Some(request))
      case Some(link) =>
        if !IsText(link) then Run(Failed(LinkTooLong), [first], Some(request))
        else
          var t := SignedTransaction(payer, second, [], false, None, env.phase2);
          if t.Err? then Run(Failed(MintError.WalletRefused), [first], Some(request))
          else if SendSignedTransaction(env.phase2.txid, env.phase2.subscribed, env.phase2.events).None? then
            Run(Stalled, [first, t.value], Some(request))
          else Run(Minted(result.(arweaveLink := link)), [first, t.value], Some(request))
  }

  /** The flow once the wallet's key is known, over the two instruction
      lists: the first is signed by the wallet and the mint's keypair and
      sent; the rest follows once its confirmation wait returns. */
  function Flow(env: Env, payer: Address, files: seq<File>, first: seq<Instruction>,
                second: seq<Instruction>): (r: Run)
    ensures |r.sent| <= 2
  {
    var t := SignedTransaction(payer, first, [env.mintKeypair], false, None, env.phase1);
    if t.Err? then Run(Failed(MintError.WalletRefused), [], None)
    else
      var sent := SendSignedTransaction(env.phase1.txid, env.phase1.subscribed, env.phase1.events);
      if sent.None? then Run(Stalled, [t.value], None)
      else AfterFirst(env, payer, files, t.value, sent.value.txid, second)
  }

  /** `mintNFT`, from the inputs to the run: without a wallet key nothing
      is sent; otherwise the flow over the builders' instruction lists. */
  function MintSpec(env: Env, wallet: Option<Address>, files: seq<File>, metadata: MetadataInput): (r: Run)
    ensures wallet.None? ==> r == Run(Failed(NoWalletKey), [], None)
    ensures |r.sent| <= 2
  {
    if wallet.None? then Run(Failed(NoWalletKey), [], None)
    else Flow(env, wallet.value, files, Phase1Instructions(env, wallet.value, files, metadata),
              SecondInstructions(env, wallet.value, metadata))
  }

  /** The first transaction's lists, built through the builders on top of
      the storage payment. */
  method BuildFirst(env: Env, payer: Address, files: seq<File>, metadata: MetadataInput,
                    pushInstructions: seq<Instruction>)
    returns (instructions: seq<Instruction>, signers: seq<Keypair>)
    requires pushInstructions == PayForFiles(Some(payer), RealFiles(files, env), env.digest)
    ensures instructions == Phase1Instructions(env, payer, files, metadata)
    ensures signers == [env.mintKeypair]
  {
    var list := new Vec(pushInstructions);
    var keys := new Vec([]);
    var mint := CreateMint(list, payer, env.mintRent, 0, payer, payer, keys, env.mintKeypair);
    var recipient := env.derive(AssociatedSeeds(payer, mint), AssociatedTokenProgramId);
    CreateAssociatedTokenAccountInstruction(list, recipient, payer, payer, mint);
    var metadataAccount := CreateMetadata(DataWith(metadata, BlankUri()), payer, mint, payer, list, payer, env.derive);
    instructions, signers := list.elems, keys.elems;
  }

  /** The second transaction's list, built through the builders. */
  method BuildSecond(env: Env, payer: Address, metadata: MetadataInput, link: Text)
    returns (instructions: seq<Instruction>)
    ensures instructions == Phase2Instructions(env, payer, metadata, link)
  {
    var mint := MintOf(env);
    var list := new Vec([]);
    var _ := UpdateMetadata(Some(DataWith(metadata, link)), None, None, mint, payer, list,
                            Some(MetadataAccountOf(env)), env.derive);
    list.Push(MintTo(TokenProgramId, mint, RecipientOf(env, payer), payer, [], 1));
    CreateMasterEdition(BigNumber(1), mint, payer, payer, payer, list, env.derive);
    instructions := list.elems;
  }

  /** `mintNFT`: the storage payment, the first transaction, the upload,
      and the second transaction when there is a link. */
  method MintNFT(env: Env, wallet: Option<Address>, files: seq<File>, metadata: MetadataInput)
    returns (run: Run)
    ensures run == MintSpec(env, wallet, files, metadata)
  {
    var realFiles := files + [File(MetadataFileName, env.metadataJson)];
    var pushInstructions, pushSigners := PrepPayForFilesTxn(wallet, realFiles, env.digest);
    if wallet.None? {
      return Run(Failed(NoWalletKey), [], None);
    }
    var payer := wallet.value;
    var instructions, signers := BuildFirst(env, payer, files, metadata, pushInstructions);
    var first := SendTransactionWithRetry(payer, instructions, pushSigners + signers, false, None, env.phase1);
    if first.Err? {
      return Run(Failed(MintError.WalletRefused), [], None);
    }
    if first.value.sent.None? {
      return Run(Stalled, [first.value.transaction], None);
    }
    run := Upload(env, payer, files, metadata, first.value.transaction, first.value.sent.value.txid);
  }

  /** The part of `mintNFT` from the upload on. */
  method Upload(env: Env, payer: Address, files: seq<File>, metadata: MetadataInput, first: Transaction, txid: string)
    returns (run: Run)
    ensures run == AfterFirst(env, payer, files, first, txid, SecondInstructions(env, payer, metadata))
  {
    var realFiles := files + [File(MetadataFileName, env.metadataJson)];
    var request := UploadRequest(TagsOf(realFiles, MintOf(env)), txid, realFiles);
    var result := MintResult(MetadataAccountOf(env), "", MintOf(env), RecipientOf(env, payer));
    if env.upload.None? {
      return Run(Failed(UploadFailed), [first], Some(request));
    }
    var id := ManifestId(env.upload.value);
    if id.None? {
      return Run(Minted(result), [first], Some(request));
    }
    var link := ArweavePrefix + id.value;
    if !IsText(link) {
      return Run(Failed(LinkTooLong), [first], Some(request));
    }
    var instructions := BuildSecond(env, payer, metadata, link);
    var second := SendTransactionWithRetry(payer, instructions, [], false, None, env.phase2);
    if second.Err? {
      return Run(Failed(MintError.WalletRefused), [first], Some(request));
    }
    if second.value.sent.None? {
      return Run(Stalled, [first, second.value.transaction], Some(request));
    }
    run := Run(Minted(result.(arweaveLink := link)), [first, second.value.transaction], Some(request));
  }
}
