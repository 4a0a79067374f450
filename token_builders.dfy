/** The token-side builders of the minting flow: creating a token account
    or a mint account funded by the payer, initialising a mint, and the
    instruction that creates a wallet's associated token account. Each
    pushes onto the caller's instruction list and, when it creates a new
    account, onto the caller's signer list; the new account's keypair is
    generated by the client and is a parameter here. */
module TokenBuilders {
  import opened Base
  import opened Instructions
  import opened AccountTables

  /** `createAccount`: a System-program account of token-account size,
      owned by the Token program and funded with `amount`; the new
      account's keypair must sign. */
  method CreateTokenAccount(instructions: Vec<Instruction>, payer: Address, amount: nat,
                            signers: Vec<Keypair>, account: Keypair)
    returns (key: Address)
    modifies instructions, signers
    ensures key == account.publicKey
    ensures instructions.elems == old(instructions.elems)
      + [CreateAccount(payer, account.publicKey, amount, TokenAccountSpan, TokenProgramId)]
    ensures signers.elems == old(signers.elems) + [account]
  {
    instructions.Push(CreateAccount(payer, account.publicKey, amount, TokenAccountSpan, TokenProgramId));
    signers.Push(account);
    key := account.publicKey;
  }

  /** `createMintAccount`: the same, sized for a mint. */
  method CreateMintAccount(instructions: Vec<Instruction>, payer: Address, amount: nat,
                           signers: Vec<Keypair>, account: Keypair)
    returns (key: Address)
    modifies instructions, signers
    ensures key == account.publicKey
    ensures instructions.elems == old(instructions.elems)
      + [CreateAccount(payer, account.publicKey, amount, MintSpan, TokenProgramId)]
    ensures signers.elems == old(signers.elems) + [account]
  {
    instructions.Push(CreateAccount(payer, account.publicKey, amount, MintSpan, TokenProgramId));
    signers.Push(account);
    key := account.publicKey;
  }

  /** The two instructions that bring a mint into being: the account is
      created and funded, then initialised with its decimals and
      authorities. */
  function MintSetup(payer: Address, mint: Address, mintRentExempt: nat, decimals: nat,
                     owner: Address, freezeAuthority: Address): (r: seq<Instruction>)
    ensures |r| == 2
    ensures r[0].CreateAccount? && r[0].newAccount == mint && r[0].space == MintSpan
         && r[0].owner == TokenProgramId && r[0].from == payer && r[0].lamports == mintRentExempt
    ensures r[1].InitializeMint? && r[1].mint == mint && r[1].tokenProgram == TokenProgramId
         && r[1].decimals == decimals && r[1].mintAuthority == owner
         && r[1].freezeAuthority == freezeAuthority
  {
    [ CreateAccount(payer, mint, mintRentExempt, MintSpan, TokenProgramId),
      InitializeMint(TokenProgramId, mint, decimals, owner, freezeAuthority) ]
  }

  /** `createMint`: creates the mint account, then initialises it; the
      mint's keypair is added to the signers and its address returned. */
  method CreateMint(instructions: Vec<Instruction>, payer: Address, mintRentExempt: nat, decimals: nat,
                    owner: Address, freezeAuthority: Address, signers: Vec<Keypair>, account: Keypair)
    returns (mint: Address)
    modifies instructions, signers
    ensures mint == account.publicKey
    ensures instructions.elems == old(instructions.elems)
      + MintSetup(payer, mint, mintRentExempt, decimals, owner, freezeAuthority)
    ensures signers.elems == old(signers.elems) + [account]
  {
    mint := CreateMintAccount(instructions, payer, mintRentExempt, signers, account);
    instructions.Push(InitializeMint(TokenProgramId, mint, decimals, owner, freezeAuthority));
  }

  /** The instruction that creates `wallet`'s associated token account for
      `mint` at `associatedAccount`, paid by `payer`; it carries no data. */
  function AssociatedAccountInstruction(associatedAccount: Address, payer: Address, wallet: Address,
                                        mint: Address): Instruction
  {
    Custom(AssociatedTokenProgramId, AssociatedAccountKeys(payer, associatedAccount, wallet, mint), [])
  }

  /** `createAssociatedTokenAccountInstruction`. */
  method CreateAssociatedTokenAccountInstruction(instructions: Vec<Instruction>, associatedAccount: Address,
                                                 payer: Address, wallet: Address, mint: Address)
    modifies instructions
    ensures instructions.elems == old(instructions.elems)
      + [AssociatedAccountInstruction(associatedAccount, payer, wallet, mint)]
  {
    instructions.Push(AssociatedAccountInstruction(associatedAccount, payer, wallet, mint));
  }

  /** The seeds of a wallet's associated token account for a mint: the
      wallet, the Token program, the mint. */
  function AssociatedSeeds(wallet: Address, mint: Address): (r: seq<seq<byte>>)
    ensures |r| == 3 && r[0] == wallet && r[1] == TokenProgramId && r[2] == mint
  {
    [wallet, TokenProgramId, mint]
  }
}
