# acgamefi NFT minting, modelled in Dafny

This project models the NFT side of the acgamefi web client. The client
mints a one-of-one NFT on Solana under the Token-Metadata program and stores
its files on Arweave. The model covers:

- the Borsh records of the metadata program (`METADATA_SCHEMA`): their
  encoders, their decoders, the `pubkey` and `pubkeyAsString` codecs that
  are attached to Borsh at start-up, and the edition-marker bitset query;
- the instruction builders: storage payment (`prepPayForFilesTxn`), mint
  and token accounts (`createAccount`, `createMintAccount`, `createMint`),
  the associated token account, and `createMetadata`, `updateMetadata` and
  `createMasterEdition` with their account tables and derived-address seeds;
- signing and sending (`sendTransactionWithRetry`, `sendSignedTransaction`)
  and the confirmation wait (`awaitTransactionSignatureConfirmation`). The
  wait is a state machine driven by a trace of timer, subscription and
  poll events;
- the `mintNFT` flow. Phase one pays for storage, creates the mint, the
  associated account and the metadata with a blank URI. Then the files are
  uploaded, and phase two points the metadata at the Arweave link, mints
  the single token and creates the master edition.

Everything the client asks of the outside world is an input to the model:

- the rent, the mint's keypair and program-address derivation;
- the sha-256 digests of the files;
- the wallet's answer when asked to sign, the blockhash, the signature
  returned by a send and the events of each confirmation wait;
- the upload service's response.

Modules, in dependency order:

- `Base`: bytes, widths, addresses, base58 text, `Option`/`Result`, and
  `Vec`, the caller-owned JavaScript array that builders push onto.
- `Bits` and `Utf8`: the arithmetic behind `&`/`|` and the UTF-8 form of
  strings.
- `Borsh` and `Pubkeys`: the wire primitives.
- `Schema`, `SchemaRoundTrip` and `SchemaLayout`: the records, their round
  trips and where each field sits.
- `EditionMarkers`: the edition-marker bitset query.
- `Instructions` and `AccountTables`: the instructions and their account
  tables.
- `MetadataBuilders` and `TokenBuilders`: the builders.
- `Confirmation` and `Transactions`: the confirmation wait and sending.
- `Mint` and `MintProperties`: the mint flow and what it is proved to do.

Three behaviours of the code are easy to misread:

- A failed or unconfirmed first transaction does not stop `mintNFT`.
  `sendSignedTransaction` swallows every rejection of the wait, and the
  flow goes on to upload and to the second phase. `MintProperties.FirstVerdictIgnored`
  states it.
- `editionTaken` never reports an error. The byte index is at most 30 for
  every integer edition, so the "bad index" branch is dead. A negative
  edition reads the bit as unset. `EditionMarkers.EditionTaken` states it.
- `deserialize` does not check a record's `key` or `instruction` byte. It
  reads the byte and lets the constructor set the field.
  `SchemaRoundTrip.KeyByteIgnored` states it.

## Model

| member | source | states |
|---|---|---|
| Base.Vec.constructor | src/utils/nft/index.js:126-127 | a new array holds exactly the given elements (the spread copies of the payment instructions and signers) |
| Base.Vec.Push | src/utils/nft/index.js:49-58 | `push` appends one element at the end and leaves the rest in place |
| Borsh.LE | src/utils/nft/state.js:251-378 | a little-endian integer of width n is exactly n bytes |
| Borsh.FromLEOfLE | src/utils/nft/state.js:251-378 | reading back n little-endian bytes gives the written integer, for every value below 256^n |
| Borsh.LEOfFromLE | src/utils/nft/state.js:251-378 | every byte string is the little-endian form of the number it denotes |
| Borsh.ReadFixedArrayOf | src/utils/nft/index.js:26-30 | reading a fixed array of n bytes takes exactly the first n bytes and leaves the rest |
| Borsh.ReadU8OfWrite | src/utils/nft/state.js:252-262 | a `u8` field reads back as written, whatever follows it |
| Borsh.ReadU16OfWrite | src/utils/nft/state.js:330-342 | a `u16` field reads back as written, whatever follows it |
| Borsh.ReadU32OfWrite | src/utils/nft/state.js:330-342 | a `u32` (string length or vector count) reads back as written |
| Borsh.ReadU64OfWrite | src/utils/nft/state.js:275-284 | a `u64` field reads back as written, whatever follows it |
| Borsh.ReadBoolOfWrite | src/utils/nft/state.js:343-353 | a `u8` flag holding a boolean reads back as written |
| Borsh.ReadStringOfWrite | src/utils/nft/state.js:330-342 | a length-prefixed UTF-8 string reads back as the same text |
| Borsh.ReadOptionOfWrite | src/utils/nft/state.js:263-274 | an optional field reads back as written when its payload does: absent and present values alike |
| Utf8.EncodeChar | src/utils/nft/state.js:330-342 | a character's UTF-8 form is one to four bytes |
| Utf8.DecodeChar | src/utils/nft/state.js:330-342 | decoding one character consumes between one and four bytes of the input |
| Utf8.DecodeEncodeChar | src/utils/nft/state.js:330-342 | a character is decoded from its own encoding, consuming exactly that encoding, whatever follows it |
| Utf8.EncodeDecodeChar | src/utils/nft/state.js:330-342 | a decoded character re-encodes to exactly the bytes it was read from |
| Utf8.DecodeEncode | src/utils/nft/state.js:330-342 | every string decodes back from its UTF-8 form |
| Utf8.EncodeDecode | src/utils/nft/state.js:330-342 | every byte string that decodes is the UTF-8 form of what it decodes to, so the encoding is a bijection onto valid input |
| Utf8.EncodeAppend | src/utils/nft/state.js:330-342 | the encoding of a concatenation is the concatenation of the encodings |
| Utf8.EncodeAscii | src/utils/nft/constant.js:21-22 | ASCII text encodes to one byte per character, each the character's code |
| Pubkeys.WritePubkey | src/utils/nft/index.js:31-34 | `writePubkey` writes exactly 32 bytes, with no length prefix |
| Pubkeys.WritePubkeyAsString | src/utils/nft/index.js:40-43 | `writePubkeyAsString` writes the 32 bytes that the base58 text decodes to |
| Pubkeys.ReadPubkey | src/utils/nft/index.js:26-30 | `readPubkey` succeeds exactly when 32 bytes remain, and splits the input into the key and the rest |
| Pubkeys.ReadPubkeyAsString | src/utils/nft/index.js:35-39 | `readPubkeyAsString` succeeds exactly when 32 bytes remain, and yields the text whose decoding is those bytes |
| Pubkeys.ReadPubkeyOfWrite | src/utils/nft/index.js:26-34 | the raw key codec round-trips |
| Pubkeys.ReadPubkeyAsStringOfWrite | src/utils/nft/index.js:35-43 | the text key codec round-trips |
| Pubkeys.SameWireForm | src/utils/nft/index.js:31-43 | an address and its base58 text have the same wire form |
| Schema.ReadCreators | src/utils/nft/state.js:343-353 | reading n creator entries either fails or yields exactly n creators |
| SchemaRoundTrip.ReadCreatorOfEncode | src/utils/nft/state.js:343-353 | a creator entry (address, verified flag, share) reads back as written |
| SchemaRoundTrip.ReadCreatorsOfEncode | src/utils/nft/state.js:343-353 | n consecutive creator entries read back as the same list |
| SchemaRoundTrip.ReadCreatorVecOfWrite | src/utils/nft/state.js:330-342 | the creator vector (u32 count, then the entries) reads back as written |
| SchemaRoundTrip.ReadDataOfEncode | src/utils/nft/state.js:330-342 | a `Data` record reads back as written, whatever follows it |
| SchemaRoundTrip.DecodeEncodeCreateMetadataArgs | src/utils/nft/state.js:252-262 | the create-metadata payload decodes to the arguments that were encoded |
| SchemaRoundTrip.DecodeEncodeUpdateMetadataArgs | src/utils/nft/state.js:263-274 | the update-metadata payload decodes to the encoded arguments, for every combination of absent fields |
| SchemaRoundTrip.DecodeEncodeCreateMasterEditionArgs | src/utils/nft/state.js:275-284 | the create-master-edition payload round-trips, with or without a maximum supply |
| SchemaRoundTrip.DecodeEncodeMintPrintingTokensArgs | src/utils/nft/state.js:285-294 | the printing-tokens payload, tagged 9 as intended, round-trips |
| SchemaRoundTrip.MintPrintingTagLost | src/utils/nft/state.js:114-120 | as written, the printing-tokens payload starts with tag 0 instead of 9, differs from the intended one in that byte only, and still decodes to the same arguments |
| SchemaRoundTrip.DecodeEncodeEdition | src/utils/nft/state.js:319-329 | an `Edition` account record round-trips |
| SchemaRoundTrip.DecodeEncodeMasterEditionV1 | src/utils/nft/state.js:295-307 | a `MasterEditionV1` account record round-trips |
| SchemaRoundTrip.DecodeEncodeMasterEditionV2 | src/utils/nft/state.js:308-318 | a `MasterEditionV2` account record round-trips |
| SchemaRoundTrip.DecodeEncodeMetadata | src/utils/nft/state.js:354-367 | a `Metadata` account record round-trips except `editionNonce`, which the schema entry does not list and which comes back absent |
| SchemaRoundTrip.DecodeEncodeEditionMarker | src/utils/nft/state.js:368-377 | an `EditionMarker` record (key and 31-byte ledger) round-trips |
| SchemaRoundTrip.KeyByteIgnored | src/utils/nft/state.js:150-161 | decoding ignores the key byte: any first byte yields the same record |
| SchemaRoundTrip.TrailingBytesRejected | src/utils/nft/state.js:368-377 | bytes left over after a complete record make decoding fail, reporting how many there are |
| SchemaLayout.CreatorsAt | src/utils/nft/state.js:343-353 | the creator entries are 34 bytes each, entry i at offset 34·i |
| SchemaLayout.CreatorLayout | src/utils/nft/state.js:343-353 | a creator entry is the 32 address bytes, the verified flag, then the share |
| SchemaLayout.CreatorsOptionLayout | src/utils/nft/state.js:330-342 | an absent creator list is the single byte 0; a present one is 1, the u32 count, then the entries |
| SchemaLayout.DataLayout | src/utils/nft/state.js:330-342 | where each `Data` field sits: name, symbol and uri each as a u32 length and its bytes, then the fee and the creators |
| SchemaLayout.UpdateMetadataArgsLayout | src/utils/nft/state.js:263-274 | the update payload starts with tag 1; its second byte is 0 exactly when the new `Data` is absent; it ends with 0 when the primary-sale flag is absent, else with 1 and the flag |
| EditionMarkers.JsRem | src/utils/nft/state.js:171-186 | JavaScript's remainder: strictly between -n and n, equal to Dafny's for a non-negative dividend, never positive for a negative one |
| EditionMarkers.EditionTaken | src/utils/nft/state.js:171-186 | `editionTaken` never errors; for a non-negative edition it is the bit at offset `edition mod 248`, most-significant bit first within its byte; a negative remainder reads as not taken |
| EditionMarkers.MarkEdition | src/utils/nft/state.js:171-186 | marking an edition (the program's side of the bitset) changes only the byte that holds its bit |
| EditionMarkers.MarkThenTaken | src/utils/nft/state.js:171-186 | after marking edition n, edition k is taken iff it was taken before or it is congruent to n modulo 248 |
| EditionMarkers.MarkFreshLedger | src/utils/nft/state.js:171-186 | on an empty ledger, marking n < 248 makes exactly the editions congruent to n taken |
| EditionMarkers.TakenPeriodic | src/utils/nft/state.js:171-186 | for non-negative editions the answer depends only on the edition modulo 248 |
| EditionMarkers.NegativeMultipleIsZero | src/utils/nft/state.js:171-186 | a negative multiple of 248 reads the slot of edition 0, since the remainder -0 indexes like 0 |
| Instructions.MetadataPrefixIsAscii | src/utils/nft/constant.js:21 | the seed bytes used for `METADATA_PREFIX` are the UTF-8 form of "metadata" |
| Instructions.EditionSeedIsAscii | src/utils/nft/constant.js:22 | the seed bytes used for `EDITION` are the UTF-8 form of "edition" |
| Instructions.MetadataSeeds | src/utils/nft/state.js:384-388 | the metadata account is derived from three seeds: the prefix, the metadata program id, the mint |
| Instructions.EditionSeeds | src/utils/nft/state.js:460-470 | the edition account's seeds are the metadata account's seeds followed by "edition" |
| AccountTables.CreateMetadataTable | src/utils/nft/state.js:397-405 | create-metadata accounts in order: metadata, mint, mint authority, payer, update authority, system program, rent; only the metadata account is writable; only the mint authority and the payer sign |
| AccountTables.UpdateMetadataTable | src/utils/nft/state.js:434-437 | update-metadata accounts: the metadata account (writable) and the update authority (the only signer) |
| AccountTables.MasterEditionTable | src/utils/nft/state.js:476-486 | create-master-edition accounts in order: edition, mint, update authority, mint authority, payer, metadata, token program, system program, rent; the first two are writable; authorities and payer sign |
| AccountTables.AssociatedAccountTable | src/utils/nft/index.js:240-261 | associated-account accounts in order: payer (the only signer), the new account, wallet, mint, system program, token program, rent; payer and new account writable |
| MetadataBuilders.CreateMetadataInstructionShape | src/utils/nft/state.js:380-412 | create-metadata goes to the metadata program; its payload is tag 0, the `Data`, then `isMutable` = 1, and it decodes back to the arguments; its accounts follow the table |
| MetadataBuilders.UpdateMetadataInstructionShape | src/utils/nft/state.js:414-446 | update-metadata goes to the metadata program, decodes back to its arguments, and lists the metadata account then the update authority |
| MetadataBuilders.MaxSupplyOf | src/utils/nft/state.js:472-474 | `maxSupply` of `undefined`, `null` or 0 is absent; any other supply is kept as it is |
| MetadataBuilders.CreateMasterEditionInstructionShape | src/utils/nft/state.js:448-492 | create-master-edition goes to the metadata program and decodes back; with no maximum its payload is [10, 0], otherwise 10, 1 and the u64 maximum; its accounts follow the table |
| MetadataBuilders.MasterEditionOfOne | src/utils/nft/index.js:220-227 | the master edition created with `new BN(1)` has maximum supply 1, written as [10, 1, 1, 0, 0, 0, 0, 0, 0, 0] |
| MetadataBuilders.CreateMetadata | src/utils/nft/state.js:380-412 | `createMetadata` returns the address derived from the metadata seeds and appends exactly one create-metadata instruction for it |
| MetadataBuilders.UpdateMetadata | src/utils/nft/state.js:414-446 | `updateMetadata` uses the given metadata account, else the derived one, and appends exactly one update instruction |
| MetadataBuilders.CreateMasterEdition | src/utils/nft/state.js:448-492 | `createMasterEdition` appends exactly one instruction for the derived edition and metadata accounts, with the supply as `maxSupply` reads it |
| MetadataBuilders.MemoInstruction | src/utils/nft/state.js:237-243 | a file's memo goes to the memo program, with no accounts and the file's digest as data |
| MetadataBuilders.MemosAt | src/utils/nft/state.js:233-244 | there is one memo per file, and memo i is file i's |
| MetadataBuilders.PayForFilesShape | src/utils/nft/state.js:220-249 | the payment is the fee transfer to the storage holder (when the wallet has a key) followed by one memo per file in file order |
| MetadataBuilders.PrepPayForFilesTxn | src/utils/nft/state.js:220-249 | the loop builds exactly the payment instructions, with no extra signers |
| TokenBuilders.CreateTokenAccount | src/utils/nft/index.js:47-60 | appends one account creation of token-account size owned by the Token program, adds the new keypair to the signers, returns its address |
| TokenBuilders.CreateMintAccount | src/utils/nft/index.js:62-75 | the same, sized for a mint |
| TokenBuilders.MintSetup | src/utils/nft/index.js:77-93 | creating a mint is two instructions: the funded account creation, then the mint initialisation with the given decimals and authorities |
| TokenBuilders.CreateMint | src/utils/nft/index.js:77-93 | `createMint` appends exactly those two instructions, adds one signer and returns the mint's address |
| TokenBuilders.CreateAssociatedTokenAccountInstruction | src/utils/nft/index.js:240-261 | appends exactly one associated-account instruction, with no data |
| TokenBuilders.AssociatedSeeds | src/utils/nft/index.js:137-145 | the recipient account is derived from the wallet, the Token program and the mint, in that order |
| Confirmation.Settle | src/utils/nft/index.js:304 | a promise settles once: a second settlement is ignored |
| Confirmation.Start | src/utils/nft/index.js:315-337 | the wait starts pending, and `done` is set at once exactly when subscribing threw |
| Confirmation.PollVerdict | src/utils/nft/index.js:343-360 | a poll answer with an error rejects with that error; one with a nonzero confirmation count resolves with that status; anything else keeps waiting |
| Confirmation.Step | src/utils/nft/index.js:305-369 | a settled wait stays settled; once `done`, only the subscription callback runs; `done` never clears; the outcome changes only while setting `done` |
| Confirmation.ReplayAppend | src/utils/nft/index.js:293-377 | one more event is one more step |
| Confirmation.AwaitTransactionSignatureConfirmation | src/utils/nft/index.js:293-377 | the loop over the events computes the outcome of the replayed state machine |
| Confirmation.SettledIsFinal | src/utils/nft/index.js:305-369 | once the wait has settled, later events do not change its outcome |
| Confirmation.DoneIffSettled | src/utils/nft/index.js:305-369 | with a working subscription, `done` is set exactly when the wait has settled |
| Confirmation.FailedSubscriptionHangs | src/utils/nft/index.js:333-337 | when subscribing throws, the wait never settles, whatever happens afterwards |
| Confirmation.TimerSettles | src/utils/nft/index.js:305-313 | with a working subscription, the wait has settled once the timer has fired |
| Confirmation.FirstSettlementDecides | src/utils/nft/index.js:305-369 | the first event that settles the wait decides the outcome for good |
| Confirmation.NotificationFirst | src/utils/nft/index.js:315-330 | a signature notification arriving first resolves with its slot, or rejects with its status when it carries an error |
| Confirmation.WithoutPolls | src/utils/nft/index.js:338 | the trace with the poll events removed has no poll events |
| Confirmation.PollsIgnoredWithoutQuery | src/utils/nft/index.js:338 | without `queryStatus`, poll events do not matter: the outcome is that of the trace without them |
| Confirmation.PollsAsWritten | src/utils/nft/index.js:338-369 | as written, the wait sees no more events than arrive |
| Confirmation.FirstPollAt | src/utils/nft/index.js:338-369 | the position of a trace's first poll event: a poll, with none before it |
| Confirmation.PollsAsWrittenKeepsOthers | src/utils/nft/index.js:338-369 | as written, every timer and notification event still reaches the wait, in the order it arrives |
| Confirmation.PollsAsWrittenSeen | src/utils/nft/index.js:338-369 | as written, a poll reaches the wait exactly when the trace has one |
| Confirmation.PollsAsWrittenOnePoll | src/utils/nft/index.js:368 | as written, at most one poll reaches the wait |
| Confirmation.PollsAsWrittenFirstPoll | src/utils/nft/index.js:338-369 | as written, the poll that reaches the wait is the trace's first poll |
| Confirmation.SecondPollDropped | src/utils/nft/index.js:368 | as written, of two polls followed by another event, the second poll is dropped and the other event kept |
| Confirmation.SecondPollLost | src/utils/nft/index.js:368 | a transaction that the second poll would confirm is confirmed when polling continues, but times out as written, because the pause between polls throws |
| Confirmation.SendSignedTransaction | src/utils/nft/index.js:379-414 | `sendSignedTransaction` returns once the wait settles, always with the first send's signature; the slot is the confirmed status's slot, or 0 after any rejection |
| Confirmation.SendReturnsAfterTimer | src/utils/nft/index.js:379-414 | sending never fails: with a working subscription it has returned the signature by the time the timer fires |
| Transactions.Keys | src/utils/nft/index.js:269-273 | the signers' public keys, in order |
| Transactions.SignedTransaction | src/utils/nft/index.js:263-287 | the wallet's refusal is the only failure, and it only matters when the wallet must sign; the instructions are kept in order; the blockhash is the caller's or a fresh one; the wallet is declared first and signs last unless the fee payer is among the signers |
| Transactions.AllSignersSigned | src/utils/nft/index.js:268-279 | every declared signer signs exactly once: the signatures are the declared signers in another order |
| Transactions.FeePayer | src/utils/nft/index.js:268-273 | the fee payer (first declared signer) is the wallet, or the first extra signer when the caller says it pays |
| Transactions.SendTransactionWithRetry | src/utils/nft/index.js:263-287 | the method fails exactly when signing is refused; otherwise it sends the signed transaction and returns what the send returns |
| Mint.TagsOf | src/utils/nft/index.js:176-179 | the upload tags have exactly one key per file name, each mapped to the single tag `mint` with the mint's address |
| Mint.FindManifest | src/utils/nft/index.js:190 | the first message named `manifest.json`, if there is one; absent exactly when no message has that name |
| Mint.ManifestId | src/utils/nft/index.js:190-196 | an id is returned exactly when the reply has messages and the first message named `manifest.json` carries a present, non-empty `transactionId`, and it is that id |
| Mint.AfterFirst | src/utils/nft/index.js:162-237 | after the first send: the upload always happens; the first transaction is sent, and at most one more |
| Mint.Flow | src/utils/nft/index.js:95-237 | at most two transactions are sent |
| Mint.MintSpec | src/utils/nft/index.js:95-237 | without a wallet key the mint fails before anything is sent or uploaded; it never sends more than two transactions |
| Mint.BuildFirst | src/utils/nft/index.js:119-161 | the first phase's instruction list is payment, mint setup, associated account and blank-URI metadata, and the mint's keypair is the only extra signer |
| Mint.BuildSecond | src/utils/nft/index.js:193-227 | the second phase's instruction list is the metadata update, the mint of one token and the master edition |
| Mint.MintNFT | src/utils/nft/index.js:95-237 | the mint flow does what its specification `MintSpec` says |
| Mint.Upload | src/utils/nft/index.js:172-237 | the upload and second phase do what `AfterFirst` says |
| MintProperties.MintSpecIsFlow | src/utils/nft/index.js:95-237 | with a wallet key, the mint is the flow over the phase-one and phase-two instruction lists |
| MintProperties.WhatIsSent | src/utils/nft/index.js:162-189 | something is sent iff the wallet approves the first transaction; the upload happens iff it also returns |
| MintProperties.FirstTransaction | src/utils/nft/index.js:162 | the first transaction carries the phase-one instructions and the fetched blockhash; it declares the wallet then the mint, and is signed by the mint then the wallet |
| MintProperties.UploadRequestShape | src/utils/nft/index.js:115-182 | the upload carries the files plus `metadata.json`, the tags for those names, and the first transaction's signature |
| MintProperties.MintedResult | src/utils/nft/index.js:190-237 | a successful mint reports the derived metadata account, the mint, the associated account and the link (prefix plus manifest id, or empty); a second transaction was sent iff the link is not empty |
| MintProperties.FirstVerdictIgnored | src/utils/nft/index.js:164-171 | how the first transaction's confirmation ends does not change the rest of the mint |
| MintProperties.SecondTransaction | src/utils/nft/index.js:228-230 | the second transaction is sent only after an upload with a usable link; it carries the phase-two instructions, signed and declared by the wallet alone |
| MintProperties.FirstInstructionsPay | src/utils/nft/index.js:115-122 | phase one opens with the storage-fee transfer and one memo per file, `metadata.json`'s last |
| MintProperties.FirstInstructionsMint | src/utils/nft/index.js:124-161 | then come the mint account, its initialisation with 0 decimals and the wallet as both authorities, the associated account, and the metadata with a blank URI |
| MintProperties.BlankUriSpaces | src/utils/nft/index.js:155 | the placeholder URI is 64 spaces |
| MintProperties.SecondInstructionsShape | src/utils/nft/index.js:196-227 | phase two is three instructions: an update that decodes to the new `Data` with the link as URI and nothing else changed, a mint of exactly one token to the recipient, and a master edition of maximum supply 1 |

## Left out

- `MetadataBuilders.MemoInstruction`: each memo hashes `await files[i].test()` (src/utils/nft/state.js:235). A browser `File`, including the `metadata.json` file that `mintNFT` builds, has `text()` and no `test()`, so as written the call throws before anything is sent. The model takes the digest as an input and assumes it is the sha-256 of the file's text, as `text()` would give.
- `MetadataBuilders.CreateMetadata`: `Creator.share` is a `byte` and `Data.sellerFeeBasisPoints` a `u16`. A share above 255 or a fee above 65535 makes the Borsh writer throw a range error, so `createMetadata` and `mintNFT` reject. The model's types exclude those inputs, and this error path is not modelled.
- `Borsh.ReadStringOfWrite`: the reader decodes with a `TextDecoder`, which strips a leading U+FEFF. The proved round trip is over strict UTF-8. A string that starts with U+FEFF comes back without it in JavaScript, and the model does not capture that.
- `Confirmation.SendSignedTransaction`: the wait is replayed with polling going on as intended. A run of the code as written is the same run over `Confirmation.PollsAsWritten(events)`, because `Confirmation.ReplayAsWritten` is `Replay` over that trace. So the polling Finding below changes only which events reach the wait.
- Timers, the re-broadcast loop in `sendSignedTransaction` and the pacing `sleep` calls are not modelled. Their effect on the outcome is carried by the order of events in the trace.
- The timeout's unit (milliseconds for the timer, seconds for the re-broadcast deadline) is not modelled, because time is not modelled.
- The content of `metadata.json` (the JSON document of name, symbol, description, image and creators) is not modelled; the file's bytes are an input.
- `getEdition` (src/utils/nft/state.js:207-218) is not modelled; nothing in the core calls it. Its seeds are the ones `Instructions.EditionSeeds` gives.
- `findProgramAddress` is a parameter (`derive`), and the model does not compute derived addresses. `Keypair.generate`, the rent query, sha-256 and the blockhash query are inputs too.
- `confirmTransaction` and `getParsedConfirmedTransaction` are awaited and then ignored. They are not modelled, and neither are failures of `sendRawTransaction`.
- `beforeSend` and `commitment` are not modelled; no caller in the core passes them.
- `removeSignatureListener` and console logging are not modelled.
- The web3 `Transaction` checks (`setSigners` with no signer, duplicate signers) are not modelled. The flows here always declare the wallet or a signer.
- `MetadataBuilders.MaxSupplyOf`, `EditionMarkers.EditionTaken`: editions are taken as integers. A fractional JavaScript edition would make the mask fractional, and `&` would truncate it. Fractional or out-of-range `BN` values are not modelled.
- `Borsh.ReadBool`: the `u8` flag fields (`isMutable`, `verified`, `primarySaleHappened`; src/utils/nft/state.js:259, 349, 363-364) are read as booleans, so a byte other than 0 or 1 decodes to `true`. The JavaScript reader keeps the number, which re-serialises unchanged. The proved round trips start from 0 or 1 and are unaffected.
- `Pubkeys.ReadPubkeyAsString`: base58 text is kept opaque as the 32 bytes it decodes to. Malformed text, or text that decodes to another length, is not modelled.
- `Utf8.Encode`: strings are sequences of Unicode scalar values. Lone surrogates in JavaScript strings are not modelled.
- `Mint.MintSpec`: names, symbols and the link are `Text`, whose UTF-8 form fits a u32 length. A link beyond that ends the flow with `LinkTooLong` where the JavaScript writer would throw.
- `Mint.MintSpec` builds the phase-two instruction list before it checks for a link. The list is only used when the link exists, so this matches the code.
- The uploaded form's other fields and the upload endpoint's URL are not modelled; the response is an input.
- `Metadata` account initialisation in the class constructor (the key and the edition nonce) is not modelled beyond the schema. The decoder returns `editionNonce` absent.
- `data_url_to_file`, `src/utils/transfer_token.js`, `src/App.js` and `src/utils/index.js` are not part of this model.

## Findings

| source | as written | input that shows it | evidently intended | confidence | as-written member | corrected member |
|---|---|---|---|---|---|---|
| src/utils/nft/state.js:114-120 | `MintPrintingTokensArgs` sets a field named `instruction9`, so the schema's `instruction` field is undefined and is written as 0 | any supply: the payload starts with 0, the create-metadata tag | the payload starts with tag 9 | not executed; medium | SchemaRoundTrip.MintPrintingTagLost | SchemaRoundTrip.DecodeEncodeMintPrintingTokensArgs |
| src/utils/nft/index.js:368 | the poll loop awaits `sleep`, which src/utils/nft/constant.js:17 defines but does not export; the call throws once the first poll is issued, and polling stops | the events: first poll unanswered, second poll confirmed, then the timer | polling continues until the wait settles | not executed; medium, depends on how the bundler resolves a missing export | Confirmation.SecondPollLost | Confirmation.AwaitTransactionSignatureConfirmation |
