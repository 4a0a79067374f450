/** The fixed account tables of the instructions the builders emit: which
    accounts each instruction lists, in which order, and which of them sign
    or are written. Each table is a function; the lemma beside it states
    the order of its accounts and their signer and writable flags, entry by
    entry. */
module AccountTables {
  import opened Base
  import opened Instructions

  /** The create-metadata table. */
  function CreateMetadataKeys(metadataAccount: Address, mint: Address, mintAuthority: Address,
                              payer: Address, updateAuthority: Address): seq<AccountMeta>
  {
    [ AccountMeta(metadataAccount, false, true),
      AccountMeta(mint, false, false),
      AccountMeta(mintAuthority, true, false),
      AccountMeta(payer, true, false),
      AccountMeta(updateAuthority, false, false),
      AccountMeta(SystemProgramId, false, false),
      AccountMeta(RentSysvarId, false, false) ]
  }

  /** The new metadata account, the mint, the mint authority, the payer,
      the update authority, then the System program and the rent sysvar;
      only the metadata account is written, and the mint authority and the
      payer sign. */
  lemma CreateMetadataTable(metadataAccount: Address, mint: Address, mintAuthority: Address,
                            payer: Address, updateAuthority: Address)
    ensures var keys := CreateMetadataKeys(metadataAccount, mint, mintAuthority, payer, updateAuthority);
      KeyOrder(keys) == [metadataAccount, mint, mintAuthority, payer, updateAuthority, SystemProgramId, RentSysvarId]
      && forall i :: 0 <= i < |keys| ==>
           (keys[i].isSigner <==> i == 2 || i == 3) && (keys[i].isWritable <==> i == 0)
  {
  }

  /** The update-metadata table. */
  function UpdateMetadataKeys(metadataAccount: Address, updateAuthority: Address): seq<AccountMeta>
  {
    [ AccountMeta(metadataAccount, false, true),
      AccountMeta(updateAuthority, true, false) ]
  }

  /** The metadata account, written, and the update authority, signing. */
  lemma UpdateMetadataTable(metadataAccount: Address, updateAuthority: Address)
    ensures var keys := UpdateMetadataKeys(metadataAccount, updateAuthority);
      KeyOrder(keys) == [metadataAccount, updateAuthority]
      && forall i :: 0 <= i < |keys| ==> (keys[i].isSigner <==> i == 1) && (keys[i].isWritable <==> i == 0)
  {
  }

  /** The create-master-edition table. */
  function MasterEditionKeys(edition: Address, mint: Address, updateAuthority: Address,
                             mintAuthority: Address, payer: Address,
                             metadataAccount: Address): seq<AccountMeta>
  {
    [ AccountMeta(edition, false, true),
      AccountMeta(mint, false, true),
      AccountMeta(updateAuthority, true, false),
      AccountMeta(mintAuthority, true, false),
      AccountMeta(payer, true, false),
      AccountMeta(metadataAccount, false, false),
      AccountMeta(TokenProgramId, false, false),
      AccountMeta(SystemProgramId, false, false),
      AccountMeta(RentSysvarId, false, false) ]
  }

  /** The edition, the mint, the update authority, the mint authority, the
      payer, the metadata account, then the Token and System programs and
      the rent sysvar; the edition and the mint are written (the mint's
      authority passes to the edition), and the update authority, the mint
      authority and the payer sign. */
  lemma MasterEditionTable(edition: Address, mint: Address, updateAuthority: Address,
                           mintAuthority: Address, payer: Address, metadataAccount: Address)
    ensures var keys := MasterEditionKeys(edition, mint, updateAuthority, mintAuthority, payer, metadataAccount);
      KeyOrder(keys) == [edition, mint, updateAuthority, mintAuthority, payer,
                         metadataAccount, TokenProgramId, SystemProgramId, RentSysvarId]
      && forall i :: 0 <= i < |keys| ==>
           (keys[i].isSigner <==> 2 <= i <= 4) && (keys[i].isWritable <==> i <= 1)
  {
  }

  /** The associated-token-account table. */
  function AssociatedAccountKeys(payer: Address, associatedAccount: Address, wallet: Address,
                                 mint: Address): seq<AccountMeta>
  {
    [ AccountMeta(payer, true, true),
      AccountMeta(associatedAccount, false, true),
      AccountMeta(wallet, false, false),
      AccountMeta(mint, false, false),
      AccountMeta(SystemProgramId, false, false),
      AccountMeta(TokenProgramId, false, false),
      AccountMeta(RentSysvarId, false, false) ]
  }

  /** The payer, the new associated account, the wallet that will own it,
      the mint, then the System and Token programs and the rent sysvar;
      only the payer signs, and the payer and the new account are
      written. */
  lemma AssociatedAccountTable(payer: Address, associatedAccount: Address, wallet: Address, mint: Address)
    ensures var keys := AssociatedAccountKeys(payer, associatedAccount, wallet, mint);
      KeyOrder(keys) == [payer, associatedAccount, wallet, mint, SystemProgramId, TokenProgramId, RentSysvarId]
      && forall i :: 0 <= i < |keys| ==> (keys[i].isSigner <==> i == 0) && (keys[i].isWritable <==> i <= 1)
  {
  }
}
