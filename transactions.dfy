/** Assembling, signing and sending a transaction. The wallet pays the fee
    unless the caller says the fee payer is among its own signers; extra
    signers are keypairs the client holds and signs with first; the wallet
    signs last, and may refuse. */
module Transactions {
  import opened Base
  import opened Instructions
  import opened Confirmation

  /** A recent blockhash, in its base58 text form. */
  type Blockhash = string

  /** A transaction as the client builds it: its instructions in order, the
      blockhash, the accounts declared as signers (the first pays the fee),
      and the accounts that have signed so far, in signing order. */
  datatype Transaction = Transaction(instructions: seq<Instruction>, recentBlockhash: Blockhash,
                                     signers: seq<Address>, signatures: seq<Address>)

  /** What the outside world answers while one transaction is sent: the
      blockhash the ledger hands out, whether the wallet agrees to sign,
      the signature of the first send, whether subscribing to it worked,
      and the events of the confirmation wait. */
  datatype Submission = Submission(fetchedBlockhash: Blockhash, walletApproves: bool, txid: string,
                                   subscribed: bool, events: seq<Event>)

  datatype SendError = WalletRefused

  /** A signed transaction and what sending it returned: `None` while the
      confirmation wait has not returned. */
  datatype Delivery = Delivery(transaction: Transaction, sent: Option<Sent>)

  /** The public keys of a list of keypairs, in order. */
  function Keys(ks: seq<Keypair>): (r: seq<Address>)
    ensures |r| == |ks|
    ensures forall i :: 0 <= i < |ks| ==> r[i] == ks[i].publicKey
  {
    if ks == [] then [] else [ks[0].publicKey] + Keys(ks[1..])
  }

  /** The transaction `sendTransactionWithRetry` signs, or the wallet's
      refusal. */
  function SignedTransaction(wallet: Address, instructions: seq<Instruction>, signers: seq<Keypair>,
                             includesFeePayer: bool, block: Option<Blockhash>, net: Submission)
    : (r: Result<Transaction, SendError>)
    ensures r.Err? <==> !includesFeePayer && !net.walletApproves
    ensures r.Ok? ==> r.value.instructions == instructions
    ensures r.Ok? ==> r.value.recentBlockhash == (if block.Some? then block.value else net.fetchedBlockhash)
    ensures r.Ok? && !includesFeePayer ==> r.value.signers == [wallet] + Keys(signers)
    ensures r.Ok? && includesFeePayer ==> r.value.signers == Keys(signers)
    ensures r.Ok? && !includesFeePayer ==> r.value.signatures == Keys(signers) + [wallet]
    ensures r.Ok? && includesFeePayer ==> r.value.signatures == Keys(signers)
  {
    if !includesFeePayer && !net.walletApproves then Err(WalletRefused)
    else
      var blockhash := if block.Some? then block.value else net.fetchedBlockhash;
      if includesFeePayer then Ok(Transaction(instructions, blockhash, Keys(signers), Keys(signers)))
      else Ok(Transaction(instructions, blockhash, [wallet] + Keys(signers), Keys(signers) + [wallet]))
  }

  /** Every declared signer has signed, each once: the signatures are the
      declared signers, reordered. */
  lemma AllSignersSigned(wallet: Address, instructions: seq<Instruction>, signers: seq<Keypair>,
                         includesFeePayer: bool, block: Option<Blockhash>, net: Submission)
    requires SignedTransaction(wallet, instructions, signers, includesFeePayer, block, net).Ok?
    ensures var t := SignedTransaction(wallet, instructions, signers, includesFeePayer, block, net).value;
      multiset(t.signatures) == multiset(t.signers)
  {
  }

  /** The wallet pays the fee, unless the caller says otherwise; then the
      first extra signer does. */
  lemma FeePayer(wallet: Address, instructions: seq<Instruction>, signers: seq<Keypair>,
                 includesFeePayer: bool, block: Option<Blockhash>, net: Submission)
    requires SignedTransaction(wallet, instructions, signers, includesFeePayer, block, net).Ok?
    requires includesFeePayer ==> signers != []
    ensures var t := SignedTransaction(wallet, instructions, signers, includesFeePayer, block, net).value;
      t.signers[0] == if includesFeePayer then signers[0].publicKey else wallet
  {
  }

  /** `sendTransactionWithRetry`: adds the instructions one by one, sets the
      blockhash (the caller's, or a fresh one), declares the signers, lets
      the extra keypairs sign when there are any, has the wallet sign
      unless the fee payer is among the extra signers, then sends. A
      refusal by the wallet propagates before anything is sent. */
  method SendTransactionWithRetry(wallet: Address, instructions: seq<Instruction>, signers: seq<Keypair>,
                                  includesFeePayer: bool, block: Option<Blockhash>, net: Submission)
    returns (r: Result<Delivery, SendError>)
    ensures r.Err? <==> SignedTransaction(wallet, instructions, signers, includesFeePayer, block, net).Err?
    ensures r.Ok? ==>
      r.value.transaction == SignedTransaction(wallet, instructions, signers, includesFeePayer, block, net).value
      && r.value.sent == SendSignedTransaction(net.txid, net.subscribed, net.events)
  {
    var tx := Transaction([], "", [], []);
    for i := 0 to |instructions|
      invariant tx == Transaction(instructions[..i], "", [], [])
    {
      assert instructions[..i + 1] == instructions[..i] + [instructions[i]];
      tx := tx.(instructions := tx.instructions + [instructions[i]]);
    }
    assert instructions[..|instructions|] == instructions;
    tx := tx.(recentBlockhash := if block.Some? then block.value else net.fetchedBlockhash);
    if includesFeePayer {
      tx := tx.(signers := Keys(signers));
    } else {
      tx := tx.(signers := [wallet] + Keys(signers));
    }
    if |signers| > 0 {
      tx := tx.(signatures := tx.signatures + Keys(signers));
    }
    if !includesFeePayer {
      if !net.walletApproves {
        return Err(WalletRefused);
      }
      tx := tx.(signatures := tx.signatures + [wallet]);
    }
    r := Ok(Delivery(tx, SendSignedTransaction(net.txid, net.subscribed, net.events)));
  }
}
