/** What sequences of safePay instructions do to one escrow: the two
    settlements after an initiate, what a stored bump decides, and why a
    vault can be emptied only once. */
module Lifecycle {
  import opened Addresses
  import opened Token
  import opened SafePay

  /** The record of a triple whose stored bumps are not the canonical ones
      can never be withdrawn: the seed constraints of both withdrawals fail. */
  lemma WrongBumpLocksEscrow(find: BumpSearch, tokens: Ledger, states: map<Address, State>, mints: set<Address>,
                             signers: set<Address>, pb: PullBackAccounts, cg: CompleteGrantAccounts)
    requires pb.applicationState in states && RecordAt(find, pb.applicationState, states[pb.applicationState])
    requires forall a :: a in tokens && a.Pda? ==> VaultAt(find, a, tokens[a], states)
    requires cg.applicationState == pb.applicationState
    requires var st := states[pb.applicationState];
      var (s, r, m) := (st.userSending, st.userReceiving, st.mintOfTokenBeingSent);
      st.applicationStateBump != find(STATE_SEED, s, r, m) || st.escrowWalletStateBump != find(WALLET_SEED, s, r, m)
    ensures ValidatePullBack(tokens, states, mints, signers, pb) != Pass
    ensures ValidateCompleteGrant(tokens, states, mints, signers, cg) != Pass
  {
  }

  /** A vault's tokens move only with its authority's signature, and its
      authority is the record's derived address, for which no transaction
      signer can sign: only the program, through `transfer_escrow_out`, can
      move them or close the vault. */
  lemma VaultNeedsProgramSignature(find: BumpSearch, tokens: Ledger, states: map<Address, State>,
                                   vault: Address, to: Address, authority: Address,
                                   signers: set<Address>, amount: u64)
    requires vault in tokens && VaultAt(find, vault, tokens[vault], states)
    requires Keypairs(signers)
    ensures CheckTransfer(tokens, vault, to, authority, signers, amount).Fail?
    ensures CheckClose(tokens, vault, to, authority, signers).Fail?
  {
  }

  /** `initiate` then `pull_back` into the same wallet: with canonical bumps
      the pull back succeeds and the token ledger is back where it started;
      the sender recovers the vault's rent but not the record's, since the
      record is never closed. With a wrong stored bump the pull back fails. */
  method InitiateThenPullBack(c: Cluster, signers: set<Address>, acc: InitiateAccounts, amount: u64,
                              stateBump: u8, walletBump: u8)
    returns (initiated: Outcome<Error>, pulledBack: Outcome<Error>)
    requires c.Valid() && Keypairs(signers)
    modifies c
    ensures c.Valid()
    ensures var (s, r, m) := (acc.userSending, acc.userReceiving, acc.mintOfTokenBeingSent);
      initiated.Pass? && stateBump == c.find(STATE_SEED, s, r, m) && walletBump == c.find(WALLET_SEED, s, r, m)
      ==> pulledBack.Pass? && c.tokens == old(c.tokens)
          && Balance(c.lamports, s) == Balance(old(c.lamports), s) - TopUp(old(c.lamports), acc.applicationState, c.stateRent)
                                       + Balance(old(c.lamports), acc.escrowWalletState)
          && acc.applicationState in c.states && acc.escrowWalletState !in c.tokens
    ensures var (s, r, m) := (acc.userSending, acc.userReceiving, acc.mintOfTokenBeingSent);
      initiated.Pass? && (stateBump != c.find(STATE_SEED, s, r, m) || walletBump != c.find(WALLET_SEED, s, r, m))
      ==> pulledBack.Fail?
  {
    var (s, r, m) := (acc.userSending, acc.userReceiving, acc.mintOfTokenBeingSent);
    var tokens0, lamports0 := c.tokens, c.lamports;
    initiated := c.Initiate(signers, acc, amount, stateBump, walletBump);
    var tokens1 := c.tokens;
    var pb := PullBackAccounts(acc.applicationState, acc.escrowWalletState, s, r, m, acc.walletToWithdrawFrom);
    if initiated.Pass? && (stateBump != c.find(STATE_SEED, s, r, m) || walletBump != c.find(WALLET_SEED, s, r, m)) {
      assert RecordAt(c.find, acc.applicationState, c.states[acc.applicationState]);
      var cg := CompleteGrantAccounts(acc.applicationState, acc.escrowWalletState, acc.walletToWithdrawFrom, s, r, m);
      WrongBumpLocksEscrow(c.find, c.tokens, c.states, c.mints, signers, pb, cg);
    }
    pulledBack := c.PullBack(signers, pb);
    if initiated.Pass? && stateBump == c.find(STATE_SEED, s, r, m) && walletBump == c.find(WALLET_SEED, s, r, m) {
      assert PullBackConstraints(tokens1, c.states, c.mints, signers, pb);
      assert pulledBack.Pass?;
      DepositThenDrain(tokens0, acc.walletToWithdrawFrom, acc.escrowWalletState, acc.walletToWithdrawFrom,
                       m, acc.applicationState, amount);
      assert Transferred(tokens0, acc.walletToWithdrawFrom, acc.walletToWithdrawFrom, amount) == tokens0;
      FundThenRefund(lamports0, s, acc.applicationState, acc.escrowWalletState, c.stateRent, c.vaultRent);
    }
  }

  /** `initiate` then `complete_grant` into the receiver's associated token
      account: with canonical bumps, the receiver signing, and room in that
      account, the grant succeeds and the ledger is the one a direct transfer
      of `amount` from the sender's wallet to the receiver's would give. */
  method InitiateThenCompleteGrant(c: Cluster, senderSigners: set<Address>, receiverSigners: set<Address>,
                                   acc: InitiateAccounts, amount: u64, stateBump: u8, walletBump: u8)
    returns (initiated: Outcome<Error>, granted: Outcome<Error>)
    requires c.Valid() && Keypairs(senderSigners) && Keypairs(receiverSigners)
    modifies c
    ensures c.Valid()
    ensures var (s, r, m) := (acc.userSending, acc.userReceiving, acc.mintOfTokenBeingSent);
      initiated.Pass? && stateBump == c.find(STATE_SEED, s, r, m) && walletBump == c.find(WALLET_SEED, s, r, m)
      && r in receiverSigners && Ata(r, m) in old(c.tokens) && old(c.tokens)[Ata(r, m)].owner == r
      && CanMove(old(c.tokens), acc.walletToWithdrawFrom, Ata(r, m), amount)
      ==> granted.Pass? && c.tokens == Transferred(old(c.tokens), acc.walletToWithdrawFrom, Ata(r, m), amount)
          && acc.applicationState in c.states && acc.escrowWalletState !in c.tokens
    ensures initiated.Pass? && acc.userReceiving !in receiverSigners ==> granted.Fail?
  {
    var (s, r, m) := (acc.userSending, acc.userReceiving, acc.mintOfTokenBeingSent);
    var tokens0 := c.tokens;
    initiated := c.Initiate(senderSigners, acc, amount, stateBump, walletBump);
    var tokens1 := c.tokens;
    var cg := CompleteGrantAccounts(acc.applicationState, acc.escrowWalletState, Ata(r, m), s, r, m);
    granted := c.CompleteGrant(receiverSigners, cg);
    if initiated.Pass? && stateBump == c.find(STATE_SEED, s, r, m) && walletBump == c.find(WALLET_SEED, s, r, m)
       && r in receiverSigners && Ata(r, m) in tokens0 && tokens0[Ata(r, m)].owner == r
       && CanMove(tokens0, acc.walletToWithdrawFrom, Ata(r, m), amount)
    {
      assert CompleteGrantConstraints(tokens1, c.states, c.mints, receiverSigners, cg);
      assert granted.Pass?;
      DepositThenDrain(tokens0, acc.walletToWithdrawFrom, acc.escrowWalletState, Ata(r, m),
                       m, acc.applicationState, amount);
    }
  }

  /** Once `pull_back` has emptied and closed a vault, neither a
      `complete_grant` nor another `pull_back` on the same record can succeed,
      and neither moves any tokens or lamports. */
  method PullBackThenWithdrawAgain(c: Cluster, signers: set<Address>, pb: PullBackAccounts,
                                   grantSigners: set<Address>, cg: CompleteGrantAccounts,
                                   againSigners: set<Address>, again: PullBackAccounts)
    returns (first: Outcome<Error>, grant: Outcome<Error>, pullAgain: Outcome<Error>,
             tokensAfterFirst: Ledger, lamportsAfterFirst: Lamports)
    requires c.Valid() && Keypairs(signers) && Keypairs(grantSigners) && Keypairs(againSigners)
    requires cg.applicationState == pb.applicationState && again.applicationState == pb.applicationState
    modifies c
    ensures c.Valid()
    ensures first.Pass? ==> pb.escrowWalletState !in tokensAfterFirst && pb.applicationState in c.states
    ensures first.Pass? ==> grant.Fail? && pullAgain.Fail?
    ensures first.Pass? ==> c.tokens == tokensAfterFirst && c.lamports == lamportsAfterFirst
  {
    first := c.PullBack(signers, pb);
    tokensAfterFirst, lamportsAfterFirst := c.tokens, c.lamports;
    grant := c.CompleteGrant(grantSigners, cg);
    pullAgain := c.PullBack(againSigners, again);
  }

  /** Once `complete_grant` has emptied and closed a vault, neither a
      `pull_back` nor another `complete_grant` on the same record can
      succeed, and neither moves any tokens or lamports. */
  method CompleteGrantThenWithdrawAgain(c: Cluster, signers: set<Address>, cg: CompleteGrantAccounts,
                                        pullSigners: set<Address>, pb: PullBackAccounts,
                                        againSigners: set<Address>, again: CompleteGrantAccounts)
    returns (first: Outcome<Error>, pull: Outcome<Error>, grantAgain: Outcome<Error>,
             tokensAfterFirst: Ledger, lamportsAfterFirst: Lamports)
    requires c.Valid() && Keypairs(signers) && Keypairs(pullSigners) && Keypairs(againSigners)
    requires pb.applicationState == cg.applicationState && again.applicationState == cg.applicationState
    modifies c
    ensures c.Valid()
    ensures first.Pass? ==> cg.escrowWalletState !in tokensAfterFirst && cg.applicationState in c.states
    ensures first.Pass? ==> pull.Fail? && grantAgain.Fail?
    ensures first.Pass? ==> c.tokens == tokensAfterFirst && c.lamports == lamportsAfterFirst
  {
    first := c.CompleteGrant(signers, cg);
    tokensAfterFirst, lamportsAfterFirst := c.tokens, c.lamports;
    pull := c.PullBack(pullSigners, pb);
    grantAgain := c.CompleteGrant(againSigners, again);
  }
}
