/** The safePay escrow program: a sender locks an amount of one token in a
    vault whose authority is a program-derived address; afterwards either the
    sender pulls it back or the receiver is granted it.

    The chain's state that the program reads and writes is the class
    `Cluster`: the token accounts, the program's `State` records and the
    native balances. Each instruction is one method; an instruction either
    completes or leaves every account as it was. */
module SafePay {
  import opened Addresses
  import opened Token

  /** The escrow record, stored at the address derived from `STATE_SEED`. */
  datatype State = State(
    userSending: Address,
    userReceiving: Address,
    mintOfTokenBeingSent: Address,
    escrowWallet: Address,
    amountTokens: u64,
    applicationStateBump: u8,
    escrowWalletStateBump: u8)

  /** Why an instruction fails: Anchor's account loading and constraint
      errors, the system program's, and those of the token program. */
  datatype Error =
    | AccountNotSigner
    | AccountNotInitialized
    | AccountAlreadyInUse
    | ConstraintSeeds
    | ConstraintHasOne
    | ConstraintRaw
    | ConstraintTokenOwner
    | ConstraintAssociated
    | InsufficientLamports
    | TokenProgram(err: TokenError)

  /** The accounts an `initiate` names (program and sysvar accounts omitted). */
  datatype InitiateAccounts = InitiateAccounts(
    applicationState: Address,
    escrowWalletState: Address,
    userSending: Address,
    userReceiving: Address,
    mintOfTokenBeingSent: Address,
    walletToWithdrawFrom: Address)

  /** The accounts a `pull_back` names. */
  datatype PullBackAccounts = PullBackAccounts(
    applicationState: Address,
    escrowWalletState: Address,
    userSending: Address,
    userReceiving: Address,
    mintOfTokenBeingSent: Address,
    refundWallet: Address)

  /** The accounts a `complete_grant` names. */
  datatype CompleteGrantAccounts = CompleteGrantAccounts(
    applicationState: Address,
    escrowWalletState: Address,
    walletToDepositTo: Address,
    userSending: Address,
    userReceiving: Address,
    mintOfTokenBeingSent: Address)

  /** Only keypairs sign transactions; a derived address signs only inside a
      call the program makes with its seeds. */
  predicate Keypairs(signers: set<Address>) {
    forall k :: k in signers ==> k.Key?
  }

  /** An address `init` cannot take: it already holds a token account or a record. */
  predicate InUse(tokens: Ledger, states: map<Address, State>, a: Address) {
    a in tokens || a in states
  }

  /* ---------------- the account-constraint structs ---------------- */

  /** What the `Initiate` struct demands: the sender signs, the mint is a
      mint, the record and the vault are fresh accounts at the addresses
      derived (with the canonical bumps) from the triple, and the source
      wallet belongs to the sender and holds the escrowed mint. */
  predicate InitiateConstraints(tokens: Ledger, states: map<Address, State>, mints: set<Address>,
                                find: BumpSearch, signers: set<Address>, acc: InitiateAccounts)
  {
    var (s, r, m) := (acc.userSending, acc.userReceiving, acc.mintOfTokenBeingSent);
    s in signers && m in mints && acc.walletToWithdrawFrom in tokens
    && acc.applicationState == FindProgramAddress(find, STATE_SEED, s, r, m)
    && !InUse(tokens, states, acc.applicationState)
    && acc.escrowWalletState == FindProgramAddress(find, WALLET_SEED, s, r, m)
    && !InUse(tokens, states, acc.escrowWalletState)
    && tokens[acc.walletToWithdrawFrom].owner == s
    && tokens[acc.walletToWithdrawFrom].mint == m
  }

  /** The sender's lamports cover the `init` of both the record and the vault. */
  predicate CanPayRent(lamports: Lamports, acc: InitiateAccounts, stateRent: nat, vaultRent: nat) {
    Balance(lamports, acc.userSending)
      >= TopUp(lamports, acc.applicationState, stateRent) + TopUp(lamports, acc.escrowWalletState, vaultRent)
  }

  /** Everything Anchor does for `initiate` before the handler runs, in its
      order, with the error each step reports: it loads the accounts in field
      order, then runs the two `init`s (the seeds, a free address, the sender
      paying the rent), then the constraints on the sender's wallet. The
      record's address is distinct from the vault's and from the sender's, so
      funding the record leaves the vault's balance as it was. */
  function ValidateInitiate(tokens: Ledger, states: map<Address, State>, lamports: Lamports, mints: set<Address>,
                            find: BumpSearch, stateRent: nat, vaultRent: nat,
                            signers: set<Address>, acc: InitiateAccounts): (r: Outcome<Error>)
    ensures r.Pass? <==> InitiateConstraints(tokens, states, mints, find, signers, acc)
                         && CanPayRent(lamports, acc, stateRent, vaultRent)
    ensures acc.userSending !in signers ==> r == Fail(AccountNotSigner)
    ensures FindProgramAddress(find, STATE_SEED, acc.userSending, acc.userReceiving, acc.mintOfTokenBeingSent) in states
            ==> r.Fail?
    // the record's rent is charged before the vault's seeds and the wallet's constraints are checked
    ensures acc.userSending in signers && acc.mintOfTokenBeingSent in mints && acc.walletToWithdrawFrom in tokens
            && acc.applicationState == FindProgramAddress(find, STATE_SEED, acc.userSending, acc.userReceiving,
                                                          acc.mintOfTokenBeingSent)
            && !InUse(tokens, states, acc.applicationState)
            && Balance(lamports, acc.userSending) < TopUp(lamports, acc.applicationState, stateRent)
            ==> r == Fail(InsufficientLamports)
  {
    var (s, r, m) := (acc.userSending, acc.userReceiving, acc.mintOfTokenBeingSent);
    var stateTopUp := TopUp(lamports, acc.applicationState, stateRent);
    if s !in signers then Fail(AccountNotSigner)
    else if m !in mints then Fail(AccountNotInitialized)
    else if acc.walletToWithdrawFrom !in tokens then Fail(AccountNotInitialized)
    // `init` of the record
    else if acc.applicationState != FindProgramAddress(find, STATE_SEED, s, r, m) then Fail(ConstraintSeeds)
    else if InUse(tokens, states, acc.applicationState) then Fail(AccountAlreadyInUse)
    else if Balance(lamports, s) < stateTopUp then Fail(InsufficientLamports)
    // `init` of the vault
    else if acc.escrowWalletState != FindProgramAddress(find, WALLET_SEED, s, r, m) then Fail(ConstraintSeeds)
    else if InUse(tokens, states, acc.escrowWalletState) then Fail(AccountAlreadyInUse)
    else if Balance(lamports, s) - stateTopUp < TopUp(lamports, acc.escrowWalletState, vaultRent)
    then Fail(InsufficientLamports)
    // the constraints on `wallet_to_withdraw_from`
    else if tokens[acc.walletToWithdrawFrom].owner != s then Fail(ConstraintRaw)
    else if tokens[acc.walletToWithdrawFrom].mint != m then Fail(ConstraintRaw)
    else Pass
  }

  /** What the `PullBackInstruction` struct demands: the record and the vault
      exist at the addresses derived with the bumps the record stores, the
      record names this sender, receiver and mint (`has_one`), the sender
      signs, and the refund wallet belongs to the sender and holds the mint. */
  predicate PullBackConstraints(tokens: Ledger, states: map<Address, State>, mints: set<Address>,
                                signers: set<Address>, acc: PullBackAccounts)
  {
    var (s, r, m) := (acc.userSending, acc.userReceiving, acc.mintOfTokenBeingSent);
    acc.applicationState in states && acc.escrowWalletState in tokens
    && s in signers && m in mints && acc.refundWallet in tokens
    && var st := states[acc.applicationState];
    st.userSending == s && st.userReceiving == r && st.mintOfTokenBeingSent == m
    && acc.applicationState == Pda(STATE_SEED, s, r, m, st.applicationStateBump)
    && acc.escrowWalletState == Pda(WALLET_SEED, s, r, m, st.escrowWalletStateBump)
    && tokens[acc.refundWallet].owner == s
    && tokens[acc.refundWallet].mint == m
  }

  /** Anchor's loading of the `PullBackInstruction` accounts in field order,
      then its constraints field by field; on `application_state` the seeds
      come before the `has_one` checks. */
  function ValidatePullBack(tokens: Ledger, states: map<Address, State>, mints: set<Address>,
                            signers: set<Address>, acc: PullBackAccounts): (r: Outcome<Error>)
    ensures r.Pass? <==> PullBackConstraints(tokens, states, mints, signers, acc)
    // a vault that is gone (already withdrawn) cannot be loaded
    ensures acc.applicationState in states && acc.escrowWalletState !in tokens ==> r == Fail(AccountNotInitialized)
    // nobody but the recorded sender can pull back, the receiver included
    ensures acc.applicationState in states && states[acc.applicationState].userSending !in signers ==> r.Fail?
    // once the accounts load, a record address that does not derive from the named triple is a seeds error
    ensures acc.applicationState in states && acc.escrowWalletState in tokens && acc.userSending in signers
            && acc.mintOfTokenBeingSent in mints && acc.refundWallet in tokens
            && acc.applicationState != Pda(STATE_SEED, acc.userSending, acc.userReceiving, acc.mintOfTokenBeingSent,
                                           states[acc.applicationState].applicationStateBump)
            ==> r == Fail(ConstraintSeeds)
  {
    var (s, r, m) := (acc.userSending, acc.userReceiving, acc.mintOfTokenBeingSent);
    if acc.applicationState !in states then Fail(AccountNotInitialized)
    else if acc.escrowWalletState !in tokens then Fail(AccountNotInitialized)
    else if s !in signers then Fail(AccountNotSigner)
    else if m !in mints then Fail(AccountNotInitialized)
    else if acc.refundWallet !in tokens then Fail(AccountNotInitialized)
    else
      var st := states[acc.applicationState];
      if acc.applicationState != Pda(STATE_SEED, s, r, m, st.applicationStateBump) then Fail(ConstraintSeeds)
      else if st.userSending != s || st.userReceiving != r || st.mintOfTokenBeingSent != m then Fail(ConstraintHasOne)
      else if acc.escrowWalletState != Pda(WALLET_SEED, s, r, m, st.escrowWalletStateBump) then Fail(ConstraintSeeds)
      else if tokens[acc.refundWallet].owner != s || tokens[acc.refundWallet].mint != m then Fail(ConstraintRaw)
      else Pass
  }

  /** What the `CompleteGrant` struct demands: the record and the vault as for
      `pull_back`, the receiver signs, and the destination is the receiver's
      associated token account for the mint, owned by the receiver. */
  predicate CompleteGrantConstraints(tokens: Ledger, states: map<Address, State>, mints: set<Address>,
                                     signers: set<Address>, acc: CompleteGrantAccounts)
  {
    var (s, r, m) := (acc.userSending, acc.userReceiving, acc.mintOfTokenBeingSent);
    acc.applicationState in states && acc.escrowWalletState in tokens && acc.walletToDepositTo in tokens
    && r in signers && m in mints
    && var st := states[acc.applicationState];
    st.userSending == s && st.userReceiving == r && st.mintOfTokenBeingSent == m
    && acc.applicationState == Pda(STATE_SEED, s, r, m, st.applicationStateBump)
    && acc.escrowWalletState == Pda(WALLET_SEED, s, r, m, st.escrowWalletStateBump)
    && tokens[acc.walletToDepositTo].owner == r
    && acc.walletToDepositTo == Ata(r, m)
  }

  /** Anchor's loading of the `CompleteGrant` accounts in field order, then
      its constraints field by field; on `application_state` the seeds come
      before the `has_one` checks. */
  function ValidateCompleteGrant(tokens: Ledger, states: map<Address, State>, mints: set<Address>,
                                 signers: set<Address>, acc: CompleteGrantAccounts): (r: Outcome<Error>)
    ensures r.Pass? <==> CompleteGrantConstraints(tokens, states, mints, signers, acc)
    ensures acc.applicationState in states && acc.escrowWalletState !in tokens ==> r == Fail(AccountNotInitialized)
    // nobody but the recorded receiver can complete the grant, the sender included
    ensures acc.applicationState in states && states[acc.applicationState].userReceiving !in signers ==> r.Fail?
    // once the accounts load, a record address that does not derive from the named triple is a seeds error
    ensures acc.applicationState in states && acc.escrowWalletState in tokens && acc.walletToDepositTo in tokens
            && acc.userReceiving in signers && acc.mintOfTokenBeingSent in mints
            && acc.applicationState != Pda(STATE_SEED, acc.userSending, acc.userReceiving, acc.mintOfTokenBeingSent,
                                           states[acc.applicationState].applicationStateBump)
            ==> r == Fail(ConstraintSeeds)
  {
    var (s, r, m) := (acc.userSending, acc.userReceiving, acc.mintOfTokenBeingSent);
    if acc.applicationState !in states then Fail(AccountNotInitialized)
    else if acc.escrowWalletState !in tokens then Fail(AccountNotInitialized)
    else if acc.walletToDepositTo !in tokens then Fail(AccountNotInitialized)
    else if r !in signers then Fail(AccountNotSigner)
    else if m !in mints then Fail(AccountNotInitialized)
    else
      var st := states[acc.applicationState];
      if acc.applicationState != Pda(STATE_SEED, s, r, m, st.applicationStateBump) then Fail(ConstraintSeeds)
      else if st.userSending != s || st.userReceiving != r || st.mintOfTokenBeingSent != m then Fail(ConstraintHasOne)
      else if acc.escrowWalletState != Pda(WALLET_SEED, s, r, m, st.escrowWalletStateBump) then Fail(ConstraintSeeds)
      else if tokens[acc.walletToDepositTo].owner != r then Fail(ConstraintTokenOwner)
      else if acc.walletToDepositTo != Ata(r, m) then Fail(ConstraintAssociated)
      else Pass
  }

  /* ---------------- invariant of the escrow accounts ---------------- */

  /** A record lives at the canonical address derived from its triple, names
      the canonical vault address, and its sender is a keypair. */
  ghost predicate RecordAt(find: BumpSearch, a: Address, st: State) {
    var (s, r, m) := (st.userSending, st.userReceiving, st.mintOfTokenBeingSent);
    s.Key?
    && a == FindProgramAddress(find, STATE_SEED, s, r, m)
    && st.escrowWallet == FindProgramAddress(find, WALLET_SEED, s, r, m)
  }

  /** A token account at a program-derived address is the vault of an
      escrow: it sits at the canonical vault address of a triple whose record
      exists, holds that triple's mint, its authority is the record's address,
      and it holds at least the recorded amount. */
  ghost predicate VaultAt(find: BumpSearch, a: Address, acct: TokenAccount, states: map<Address, State>) {
    a.Pda?
    && a == FindProgramAddress(find, WALLET_SEED, a.sender, a.receiver, a.mint)
    && var record := FindProgramAddress(find, STATE_SEED, a.sender, a.receiver, a.mint);
    record in states
    && acct.mint == a.mint && acct.owner == record
    && acct.amount >= states[record].amountTokens
  }

  /** The invariant of the escrow accounts over the whole chain: every record
      is where its triple puts it, every token account at a derived address
      is an escrow's vault, and an associated token account holds the mint
      its address was derived from. */
  ghost predicate Escrows(find: BumpSearch, tokens: Ledger, states: map<Address, State>) {
    (forall a :: a in states ==> RecordAt(find, a, states[a]))
    && (forall a :: a in tokens && a.Pda? ==> VaultAt(find, a, tokens[a], states))
    && (forall a :: a in tokens && a.Ata? ==> tokens[a].mint == a.mint)
  }

  /** The accounts after a successful `initiate`: the new record stores the
      inputs, the wallet is debited and the new vault holds `amount`. These
      are escrow accounts again. */
  lemma InitiateKeepsEscrows(find: BumpSearch, tokens: Ledger, states: map<Address, State>, mints: set<Address>,
                             signers: set<Address>, acc: InitiateAccounts, amount: u64, stateBump: u8, walletBump: u8)
    requires Escrows(find, tokens, states) && Keypairs(signers)
    requires InitiateConstraints(tokens, states, mints, find, signers, acc)
    requires amount <= tokens[acc.walletToWithdrawFrom].amount
    ensures Escrows(find,
              Deposited(tokens, acc.walletToWithdrawFrom, acc.escrowWalletState,
                        acc.mintOfTokenBeingSent, acc.applicationState, amount),
              states[acc.applicationState := State(acc.userSending, acc.userReceiving, acc.mintOfTokenBeingSent,
                                                   acc.escrowWalletState, amount, stateBump, walletBump)])
  {
  }

  /** Once the `Initiate` constraints hold, the inbound transfer into the
      freshly created, empty vault can fail only for want of funds in the
      sender's wallet. */
  lemma InboundTransferChecks(find: BumpSearch, tokens: Ledger, states: map<Address, State>, mints: set<Address>,
                              signers: set<Address>, acc: InitiateAccounts, amount: u64)
    requires InitiateConstraints(tokens, states, mints, find, signers, acc)
    ensures var vault := TokenAccount(acc.mintOfTokenBeingSent, acc.applicationState, 0);
      CheckTransfer(tokens[acc.escrowWalletState := vault], acc.walletToWithdrawFrom, acc.escrowWalletState,
                    acc.userSending, signers, amount)
      == if amount <= tokens[acc.walletToWithdrawFrom].amount then Pass else Fail(InsufficientFunds)
  {
  }

  /** The lamports an `init` of `a` takes from the payer: the shortfall of
      `a`'s balance against the rent-exempt minimum. */
  function TopUp(lamports: Lamports, a: Address, rent: nat): nat {
    if Balance(lamports, a) >= rent then 0 else rent - Balance(lamports, a)
  }

  /** The lamports after `payer` tops `a` up to `rent`. */
  function Fund(lamports: Lamports, payer: Address, a: Address, rent: nat): (after: Lamports)
    requires payer != a && Balance(lamports, payer) >= TopUp(lamports, a, rent)
    ensures Balance(after, a) >= rent
    ensures Balance(after, payer) + Balance(after, a) == Balance(lamports, payer) + Balance(lamports, a)
    ensures forall b :: b != payer && b != a ==> Balance(after, b) == Balance(lamports, b)
  {
    var t := TopUp(lamports, a, rent);
    lamports[payer := Balance(lamports, payer) - t][a := Balance(lamports, a) + t]
  }

  /** When `payer` funds two new accounts and the second is later closed
      back into `payer`, `payer` has lost exactly what the first one took,
      and has gained what the second address held before. */
  lemma FundThenRefund(lamports: Lamports, payer: Address, first: Address, second: Address,
                       firstRent: nat, secondRent: nat)
    requires payer != first && payer != second && first != second
    requires Balance(lamports, payer) >= TopUp(lamports, first, firstRent) + TopUp(lamports, second, secondRent)
    ensures var funded := Fund(lamports, payer, first, firstRent);
      Balance(funded, payer) >= TopUp(funded, second, secondRent)
      && Balance(Refunded(Fund(funded, payer, second, secondRent), second, payer), payer)
         == Balance(lamports, payer) - TopUp(lamports, first, firstRent) + Balance(lamports, second)
  {
  }

  /** The signers of a call the program makes from `transfer_escrow_out`: the
      transaction's signers and the record address its seeds sign for. */
  function EscrowSigners(signers: set<Address>, s: Address, r: Address, m: Address, stateBump: u8): set<Address>
  {
    signers + {Pda(STATE_SEED, s, r, m, stateBump)}
  }

  /** The chain: the token ledger, the program's records, native balances. */
  class Cluster {
    /** Addresses that hold a mint account. */
    const mints: set<Address>
    /** The runtime's canonical-bump search. */
    const find: BumpSearch
    /** Rent-exempt minimum of a 1000-byte record and of a token account. */
    const stateRent: nat
    const vaultRent: nat

    var tokens: Ledger
    var states: map<Address, State>
    var lamports: Lamports

    ghost predicate Valid()
      reads this
    {
      Escrows(find, tokens, states)
    }

    /** A cluster with no escrow yet: no record and no account at any of the
        program's derived addresses; an associated token account holds the
        mint its address was derived from. */
    constructor (mints: set<Address>, find: BumpSearch, stateRent: nat, vaultRent: nat,
                 tokens: Ledger, lamports: Lamports)
      requires forall a :: a in tokens ==> !a.Pda?
      requires forall a :: a in tokens && a.Ata? ==> tokens[a].mint == a.mint
      ensures Valid()
      ensures this.mints == mints && this.find == find
      ensures this.stateRent == stateRent && this.vaultRent == vaultRent
      ensures this.tokens == tokens && this.states == map[] && this.lamports == lamports
    {
      this.mints, this.find := mints, find;
      this.stateRent, this.vaultRent := stateRent, vaultRent;
      this.tokens, this.states, this.lamports := tokens, map[], lamports;
    }

    /** The token program's Transfer, as the escrow calls it. */
    method Transfer(from: Address, to: Address, authority: Address, signers: set<Address>, amount: u64)
      returns (r: Outcome<TokenError>)
      modifies this`tokens
      ensures r == CheckTransfer(old(tokens), from, to, authority, signers, amount)
      ensures r.Pass? ==> tokens == Transferred(old(tokens), from, to, amount)
      ensures r.Fail? ==> tokens == old(tokens)
    {
      r := CheckTransfer(tokens, from, to, authority, signers, amount);
      if r.Pass? && from != to {
        var src := tokens[from];
        tokens := tokens[from := src.(amount := src.amount - amount)];
        var dst := tokens[to];
        tokens := tokens[to := dst.(amount := dst.amount + amount)];
      }
    }

    /** The token program's CloseAccount: the empty account disappears and
        its lamports go to `destination`. */
    method CloseAccount(account: Address, destination: Address, authority: Address, signers: set<Address>)
      returns (r: Outcome<TokenError>)
      modifies this`tokens, this`lamports
      ensures r == CheckClose(old(tokens), account, destination, authority, signers)
      ensures r.Pass? ==> tokens == old(tokens) - {account} && lamports == Refunded(old(lamports), account, destination)
      ensures r.Fail? ==> tokens == old(tokens) && lamports == old(lamports)
    {
      r := CheckClose(tokens, account, destination, authority, signers);
      if r.Pass? {
        lamports := Refunded(lamports, account, destination);
        tokens := tokens - {account};
      }
    }

    /** `transfer_escrow_out`: move `amount` from the vault to `destination`
        under the record's derived signature, then, if the reloaded vault is
        empty, close it and send its lamports to `userSending`. Any failing
        step aborts the whole instruction. */
    method TransferEscrowOut(userSending: Address, userReceiving: Address, mint: Address,
                             escrowWallet: Address, state: Address, stateBump: u8,
                             destination: Address, signers: set<Address>, amount: u64)
      returns (r: Outcome<Error>)
      modifies this`tokens, this`lamports
      ensures r.Fail? ==> tokens == old(tokens) && lamports == old(lamports)
      ensures
        var sig := EscrowSigners(signers, userSending, userReceiving, mint, stateBump);
        var t := CheckTransfer(old(tokens), escrowWallet, destination, state, sig, amount);
        if t.Fail? then r == Fail(TokenProgram(t.error))
        else
          var moved := Transferred(old(tokens), escrowWallet, destination, amount);
          if moved[escrowWallet].amount != 0 then r == Pass && tokens == moved && lamports == old(lamports)
          else
            var c := CheckClose(moved, escrowWallet, userSending, state, sig);
            if c.Fail? then r == Fail(TokenProgram(c.error))
            else r == Pass && tokens == moved - {escrowWallet}
                 && lamports == Refunded(old(lamports), escrowWallet, userSending)
    {
      var sig := EscrowSigners(signers, userSending, userReceiving, mint, stateBump);
      var before := tokens;
      var t := Transfer(escrowWallet, destination, state, sig, amount);
      if t.Fail? {
        return Fail(TokenProgram(t.error));
      }
      // reload the vault
      var shouldClose := tokens[escrowWallet].amount == 0;
      if shouldClose {
        var c := CloseAccount(escrowWallet, userSending, state, sig);
        if c.Fail? {
          tokens := before;
          return Fail(TokenProgram(c.error));
        }
      }
      r := Pass;
    }

        /** `initiate`: Anchor loads and checks the accounts of the `Initiate`
        struct, including the rent of both new accounts, then `OpenEscrow`
        creates the record and the vault and runs the handler. */
    method Initiate(signers: set<Address>, acc: InitiateAccounts, amount: u64,
                    applicationStateBump: u8, escrowWalletStateBump: u8)
      returns (r: Outcome<Error>)
      requires Valid() && Keypairs(signers)
      modifies this`tokens, this`states, this`lamports
      ensures Valid()
      ensures r.Pass? <==>
        InitiateConstraints(old(tokens), old(states), mints, find, signers, acc)
        && CanPayRent(old(lamports), acc, stateRent, vaultRent)
        && amount <= old(tokens)[acc.walletToWithdrawFrom].amount
      ensures r.Fail? ==> tokens == old(tokens) && states == old(states) && lamports == old(lamports)
      // a failing check before the handler is the error reported
      ensures var v := ValidateInitiate(old(tokens), old(states), old(lamports), mints, find, stateRent, vaultRent,
                                        signers, acc);
              v.Fail? ==> r == v
      // a second initiate for the same triple fails
      ensures var record := FindProgramAddress(find, STATE_SEED, acc.userSending, acc.userReceiving, acc.mintOfTokenBeingSent);
              record in old(states) ==> r.Fail?
      // past the checks, a short wallet fails with the token program's own error
      ensures ValidateInitiate(old(tokens), old(states), old(lamports), mints, find, stateRent, vaultRent, signers, acc).Pass?
              && amount > old(tokens)[acc.walletToWithdrawFrom].amount
              ==> r == Fail(TokenProgram(InsufficientFunds))
      // the record stores exactly the inputs
      ensures r.Pass? ==> states == old(states)[acc.applicationState := State(
                acc.userSending, acc.userReceiving, acc.mintOfTokenBeingSent, acc.escrowWalletState,
                amount, applicationStateBump, escrowWalletStateBump)]
      // the wallet is debited by amount, the new vault holds amount, its authority is the record
      ensures r.Pass? ==> tokens == Deposited(old(tokens), acc.walletToWithdrawFrom, acc.escrowWalletState,
                                             acc.mintOfTokenBeingSent, acc.applicationState, amount)
      ensures r.Pass? ==> forall m :: Supply(tokens, m) == Supply(old(tokens), m)
      // the sender pays the rent of both new accounts
      ensures r.Pass? ==> lamports == Fund(Fund(old(lamports), acc.userSending, acc.applicationState, stateRent),
                                           acc.userSending, acc.escrowWalletState, vaultRent)
    {
      r := ValidateInitiate(tokens, states, lamports, mints, find, stateRent, vaultRent, signers, acc);
      if r.Pass? {
        r := OpenEscrow(signers, acc, amount, applicationStateBump, escrowWalletStateBump);
      }
    }

    /** The `init` of the record and of the vault, paid by the sender, then
        the handler: store the inputs in the record and move `amount` from
        the sender's wallet into the vault on the sender's signature. */
    method OpenEscrow(signers: set<Address>, acc: InitiateAccounts, amount: u64,
                      applicationStateBump: u8, escrowWalletStateBump: u8)
      returns (r: Outcome<Error>)
      requires Valid() && Keypairs(signers)
      requires InitiateConstraints(tokens, states, mints, find, signers, acc)
      requires CanPayRent(lamports, acc, stateRent, vaultRent)
      modifies this`tokens, this`states, this`lamports
      ensures Valid()
      ensures r.Pass? <==> amount <= old(tokens)[acc.walletToWithdrawFrom].amount
      ensures r.Fail? ==> tokens == old(tokens) && states == old(states) && lamports == old(lamports)
      ensures r.Fail? ==> r == Fail(TokenProgram(InsufficientFunds))
      ensures r.Pass? ==> states == old(states)[acc.applicationState := State(
                acc.userSending, acc.userReceiving, acc.mintOfTokenBeingSent, acc.escrowWalletState,
                amount, applicationStateBump, escrowWalletStateBump)]
      ensures r.Pass? ==> tokens == Deposited(old(tokens), acc.walletToWithdrawFrom, acc.escrowWalletState,
                                             acc.mintOfTokenBeingSent, acc.applicationState, amount)
      ensures r.Pass? ==> forall m :: Supply(tokens, m) == Supply(old(tokens), m)
      ensures r.Pass? ==> lamports == Fund(Fund(old(lamports), acc.userSending, acc.applicationState, stateRent),
                                           acc.userSending, acc.escrowWalletState, vaultRent)
    {
      var (s, rcv, m) := (acc.userSending, acc.userReceiving, acc.mintOfTokenBeingSent);
      var (stateKey, vaultKey, source) := (acc.applicationState, acc.escrowWalletState, acc.walletToWithdrawFrom);
      var (tokens0, states0, lamports0) := (tokens, states, lamports);

      // `init` of the record and of the vault, paid by the sender
      lamports := Fund(lamports, s, stateKey, stateRent);
      lamports := Fund(lamports, s, vaultKey, vaultRent);
      states := states[stateKey := State(s, rcv, m, vaultKey, amount, applicationStateBump, escrowWalletStateBump)];
      tokens := tokens[vaultKey := TokenAccount(m, stateKey, 0)];

      // the inbound leg, on the sender's signature
      InboundTransferChecks(find, tokens0, states0, mints, signers, acc, amount);
      var t := Transfer(source, vaultKey, s, signers, amount);
      if t.Fail? {
        tokens, states, lamports := tokens0, states0, lamports0;
        return Fail(TokenProgram(t.error));
      }
      r := Pass;

      OpenAndFund(tokens0, source, vaultKey, m, stateKey, amount);
      forall mint: Address
        ensures Supply(tokens, mint) == Supply(tokens0, mint)
      {
        DepositConservesSupply(tokens0, source, vaultKey, stateKey, amount, mint);
      }
      InitiateKeepsEscrows(find, tokens0, states0, mints, signers, acc, amount, applicationStateBump, escrowWalletStateBump);
    }

    /** `pull_back`: the recorded sender takes the whole vault balance back
        into a wallet of theirs; the vault is closed, the record stays. */
    method PullBack(signers: set<Address>, acc: PullBackAccounts) returns (r: Outcome<Error>)
      requires Valid() && Keypairs(signers)
      modifies this`tokens, this`lamports
      ensures Valid()
      ensures r.Pass? <==>
        PullBackConstraints(old(tokens), old(states), mints, signers, acc)
        && old(tokens)[acc.refundWallet].amount + old(tokens)[acc.escrowWalletState].amount <= U64_MAX
      ensures r.Fail? ==> tokens == old(tokens) && lamports == old(lamports)
      // a constraint that fails is the error reported
      ensures ValidatePullBack(old(tokens), old(states), mints, signers, acc).Fail?
              ==> r == ValidatePullBack(old(tokens), old(states), mints, signers, acc)
      ensures r.Pass? ==>
        var st := states[acc.applicationState];
        st.userSending in signers && acc.escrowWalletState == st.escrowWallet
        && old(tokens)[acc.escrowWalletState].amount >= st.amountTokens
        && acc.escrowWalletState != acc.refundWallet
        && CanMove(old(tokens), acc.escrowWalletState, acc.refundWallet, old(tokens)[acc.escrowWalletState].amount)
        && tokens == Drain(old(tokens), acc.escrowWalletState, acc.refundWallet)
        && tokens[acc.refundWallet].owner == st.userSending
        && lamports == Refunded(old(lamports), acc.escrowWalletState, st.userSending)
      ensures r.Pass? ==> forall m :: Supply(tokens, m) == Supply(old(tokens), m)
    {
      r := ValidatePullBack(tokens, states, mints, signers, acc);
      if r.Fail? {
        return;
      }
      var st := states[acc.applicationState];
      var walletAmount := tokens[acc.escrowWalletState].amount;
      ghost var tokens0 := tokens;
      VaultOfRecord(acc.applicationState, acc.escrowWalletState, signers);
      r := TransferEscrowOut(acc.userSending, acc.userReceiving, acc.mintOfTokenBeingSent,
                             acc.escrowWalletState, acc.applicationState, st.applicationStateBump,
                             acc.refundWallet, signers, walletAmount);
      if r.Pass? {
        forall mint: Address
          ensures Supply(tokens, mint) == Supply(tokens0, mint)
        {
          DrainConservesSupply(tokens0, acc.escrowWalletState, acc.refundWallet, mint);
        }
      }
    }

    /** `complete_grant`: the recorded receiver takes the whole vault balance
        into their associated token account; the vault is closed with its
        lamports going to the sender, the record stays. */
    method CompleteGrant(signers: set<Address>, acc: CompleteGrantAccounts) returns (r: Outcome<Error>)
      requires Valid() && Keypairs(signers)
      modifies this`tokens, this`lamports
      ensures Valid()
      ensures r.Pass? <==>
        CompleteGrantConstraints(old(tokens), old(states), mints, signers, acc)
        && old(tokens)[acc.walletToDepositTo].amount + old(tokens)[acc.escrowWalletState].amount <= U64_MAX
      ensures r.Fail? ==> tokens == old(tokens) && lamports == old(lamports)
      ensures ValidateCompleteGrant(old(tokens), old(states), mints, signers, acc).Fail?
              ==> r == ValidateCompleteGrant(old(tokens), old(states), mints, signers, acc)
      ensures r.Pass? ==>
        var st := states[acc.applicationState];
        st.userReceiving in signers && acc.escrowWalletState == st.escrowWallet
        && old(tokens)[acc.escrowWalletState].amount >= st.amountTokens
        && acc.escrowWalletState != acc.walletToDepositTo
        && CanMove(old(tokens), acc.escrowWalletState, acc.walletToDepositTo, old(tokens)[acc.escrowWalletState].amount)
        && tokens == Drain(old(tokens), acc.escrowWalletState, acc.walletToDepositTo)
        && acc.walletToDepositTo == Ata(st.userReceiving, st.mintOfTokenBeingSent)
        && tokens[acc.walletToDepositTo].owner == st.userReceiving
        && lamports == Refunded(old(lamports), acc.escrowWalletState, st.userSending)
      ensures r.Pass? ==> forall m :: Supply(tokens, m) == Supply(old(tokens), m)
    {
      r := ValidateCompleteGrant(tokens, states, mints, signers, acc);
      if r.Fail? {
        return;
      }
      var st := states[acc.applicationState];
      var walletAmount := tokens[acc.escrowWalletState].amount;
      ghost var tokens0 := tokens;
      VaultOfRecord(acc.applicationState, acc.escrowWalletState, signers);
      assert RecordAt(find, acc.applicationState, st);
      assert acc.userSending != acc.escrowWalletState;
      r := TransferEscrowOut(acc.userSending, acc.userReceiving, acc.mintOfTokenBeingSent,
                             acc.escrowWalletState, acc.applicationState, st.applicationStateBump,
                             acc.walletToDepositTo, signers, walletAmount);
      if r.Pass? {
        forall mint: Address
          ensures Supply(tokens, mint) == Supply(tokens0, mint)
        {
          DrainConservesSupply(tokens0, acc.escrowWalletState, acc.walletToDepositTo, mint);
        }
      }
    }

    /** When the seeds and `has_one` checks pass on a valid cluster, the vault
        is the record's, its authority is the record's address, and that
        address is the one the stored bump signs for. */
    lemma VaultOfRecord(state: Address, vault: Address, signers: set<Address>)
      requires Valid()
      requires state in states && vault in tokens
      requires var st := states[state];
        state == Pda(STATE_SEED, st.userSending, st.userReceiving, st.mintOfTokenBeingSent, st.applicationStateBump)
        && vault == Pda(WALLET_SEED, st.userSending, st.userReceiving, st.mintOfTokenBeingSent, st.escrowWalletStateBump)
      ensures var st := states[state];
        vault == st.escrowWallet && tokens[vault].owner == state
        && tokens[vault].mint == st.mintOfTokenBeingSent && tokens[vault].amount >= st.amountTokens
        && st.applicationStateBump == find(STATE_SEED, st.userSending, st.userReceiving, st.mintOfTokenBeingSent)
        && st.escrowWalletStateBump == find(WALLET_SEED, st.userSending, st.userReceiving, st.mintOfTokenBeingSent)
    {
    }
  }
}
