/** The two flows of the repository's test suite, on concrete values: a
    mint, Alice and Bob each with an associated token account of 1337000000
    base units and 5 SOL, and an escrow of 20000000 base units. */
module Scenarios {
  import opened Addresses
  import opened Token
  import opened SafePay

  const START_BALANCE: int := 1337000000
  const ESCROWED: int := 20000000
  const FIVE_SOL: nat := 5000000000
  /** Rent-exempt minimums of a 1000-byte account and of a 165-byte token account. */
  const STATE_RENT: nat := 7850880
  const VAULT_RENT: nat := 2039280

  /** A fresh cluster with the two funded users, and the escrow's addresses. */
  method Setup() returns (c: Cluster, alice: Address, bob: Address, mint: Address, acc: InitiateAccounts)
    ensures fresh(c) && c.Valid()
    ensures alice == Key(1) && bob == Key(2) && mint == Key(0)
    ensures c.mints == {mint}
    ensures c.find(STATE_SEED, alice, bob, mint) == 255 && c.find(WALLET_SEED, alice, bob, mint) == 255
    ensures c.tokens == map[Ata(alice, mint) := TokenAccount(mint, alice, START_BALANCE),
                            Ata(bob, mint) := TokenAccount(mint, bob, START_BALANCE)]
    ensures c.states == map[] && c.lamports == map[alice := FIVE_SOL, bob := FIVE_SOL]
    ensures c.stateRent == STATE_RENT && c.vaultRent == VAULT_RENT
    ensures acc == InitiateAccounts(Pda(STATE_SEED, alice, bob, mint, 255), Pda(WALLET_SEED, alice, bob, mint, 255),
                                    alice, bob, mint, Ata(alice, mint))
  {
    alice, bob, mint := Key(1), Key(2), Key(0);
    var find: BumpSearch := (seed: string, s: Address, r: Address, m: Address) => 255;
    var tokens := map[Ata(alice, mint) := TokenAccount(mint, alice, START_BALANCE),
                      Ata(bob, mint) := TokenAccount(mint, bob, START_BALANCE)];
    c := new Cluster({mint}, find, STATE_RENT, VAULT_RENT, tokens, map[alice := FIVE_SOL, bob := FIVE_SOL]);
    acc := InitiateAccounts(FindProgramAddress(find, STATE_SEED, alice, bob, mint),
                            FindProgramAddress(find, WALLET_SEED, alice, bob, mint),
                            alice, bob, mint, Ata(alice, mint));
  }

  /** The first step of both flows: Alice escrows 20000000 for Bob, with the
      canonical bumps. The vault then holds 20000000 and Alice 1317000000. */
  method SetupAndInitiate() returns (c: Cluster, alice: Address, bob: Address, mint: Address, acc: InitiateAccounts)
    ensures fresh(c) && c.Valid()
    ensures alice == Key(1) && bob == Key(2) && mint == Key(0) && c.mints == {mint}
    ensures acc == InitiateAccounts(Pda(STATE_SEED, alice, bob, mint, 255), Pda(WALLET_SEED, alice, bob, mint, 255),
                                    alice, bob, mint, Ata(alice, mint))
    ensures c.states == map[acc.applicationState := State(alice, bob, mint, acc.escrowWalletState, ESCROWED, 255, 255)]
    ensures c.tokens == map[Ata(alice, mint) := TokenAccount(mint, alice, START_BALANCE - ESCROWED),
                            Ata(bob, mint) := TokenAccount(mint, bob, START_BALANCE),
                            acc.escrowWalletState := TokenAccount(mint, acc.applicationState, ESCROWED)]
  {
    c, alice, bob, mint, acc := Setup();
    assert InitiateConstraints(c.tokens, c.states, c.mints, c.find, {alice}, acc);
    var r := c.Initiate({alice}, acc, ESCROWED, 255, 255);
    assert r.Pass?;
  }

  /** "initiate and pull back from escrow": after the initiate the vault holds
      20000000 and Alice 1317000000; after the pull back Alice has her
      1337000000 again and the vault is closed. Bob signing the pull back
      instead is turned away. */
  method InitiateAndPullBack()
    returns (vaultAfterInitiate: int, aliceAfterInitiate: int, bobTriesPullBack: Outcome<Error>,
             aliceAfterPullBack: int, vaultClosed: bool)
    ensures vaultAfterInitiate == ESCROWED && aliceAfterInitiate == START_BALANCE - ESCROWED
    ensures bobTriesPullBack == Fail(AccountNotSigner)
    ensures aliceAfterPullBack == START_BALANCE && vaultClosed
  {
    var c, alice, bob, mint, acc := SetupAndInitiate();
    vaultAfterInitiate := c.tokens[acc.escrowWalletState].amount;
    aliceAfterInitiate := c.tokens[Ata(alice, mint)].amount;

    var pb := PullBackAccounts(acc.applicationState, acc.escrowWalletState, alice, bob, mint, Ata(alice, mint));
    bobTriesPullBack := c.PullBack({bob}, pb);
    assert PullBackConstraints(c.tokens, c.states, c.mints, {alice}, pb);
    var r := c.PullBack({alice}, pb);
    assert r.Pass?;
    aliceAfterPullBack := c.tokens[Ata(alice, mint)].amount;
    vaultClosed := acc.escrowWalletState !in c.tokens;
  }

  /** "initiate and complete escrow": Bob signs the grant and receives the
      20000000; the vault is closed, the record remains, and a later pull back
      by Alice fails without moving anything. */
  method InitiateAndCompleteGrant()
    returns (aliceAfter: int, bobAfter: int, vaultClosed: bool, recordKept: bool,
             lateAlicePullBack: Outcome<Error>, aliceAfterLatePullBack: int)
    ensures aliceAfter == START_BALANCE - ESCROWED && bobAfter == START_BALANCE + ESCROWED
    ensures vaultClosed && recordKept
    ensures lateAlicePullBack == Fail(AccountNotInitialized) && aliceAfterLatePullBack == aliceAfter
  {
    var c, alice, bob, mint, acc := SetupAndInitiate();
    var cg := CompleteGrantAccounts(acc.applicationState, acc.escrowWalletState, Ata(bob, mint), alice, bob, mint);
    assert CompleteGrantConstraints(c.tokens, c.states, c.mints, {bob}, cg);
    var r := c.CompleteGrant({bob}, cg);
    assert r.Pass?;
    aliceAfter := c.tokens[Ata(alice, mint)].amount;
    bobAfter := c.tokens[Ata(bob, mint)].amount;
    vaultClosed := acc.escrowWalletState !in c.tokens;
    recordKept := acc.applicationState in c.states;

    var pb := PullBackAccounts(acc.applicationState, acc.escrowWalletState, alice, bob, mint, Ata(alice, mint));
    lateAlicePullBack := c.PullBack({alice}, pb);
    aliceAfterLatePullBack := c.tokens[Ata(alice, mint)].amount;
  }
}
