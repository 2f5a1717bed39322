/** The part of the SPL token program the escrow relies on: token accounts,
    the Transfer and CloseAccount instructions (their checks and their effect),
    and the supply of a mint, which transfers conserve. */
module Token {
  import opened Addresses

  const U64_MAX: int := 0xFFFF_FFFF_FFFF_FFFF
  type u64 = x: int | 0 <= x <= U64_MAX

  /** A token account: which mint it holds, who may move its tokens, and how many it holds. */
  datatype TokenAccount = TokenAccount(mint: Address, owner: Address, amount: u64)

  /** Every token account on the chain, by address. */
  type Ledger = map<Address, TokenAccount>

  /** The token program's errors that the escrow can run into. */
  datatype TokenError =
    | UninitializedAccount
    | InsufficientFunds
    | MintMismatch
    | OwnerMismatch
    | MissingRequiredSignature
    | Overflow
    | InvalidAccountData
    | NonNativeHasBalance

  /** The result of an instruction that returns nothing on success. */
  datatype Outcome<+E> = Pass | Fail(error: E)

  /** The checks of the token program's Transfer, in the order it makes them. */
  function CheckTransfer(ledger: Ledger, from: Address, to: Address, authority: Address,
                         signers: set<Address>, amount: u64): (r: Outcome<TokenError>)
    // only the source's owner, having signed, can move its tokens
    ensures r.Pass? ==> from in ledger && ledger[from].owner == authority && authority in signers
    // the source holds enough, the two accounts hold the same mint, and the credit fits in 64 bits
    ensures r.Pass? ==> CanMove(ledger, from, to, amount) && ledger[from].mint == ledger[to].mint
    ensures from in ledger && to in ledger && ledger[from].amount < amount ==> r == Fail(InsufficientFunds)
    ensures from in ledger && authority !in signers ==> r.Fail?
  {
    if from !in ledger || to !in ledger then Fail(UninitializedAccount)
    else if ledger[from].amount < amount then Fail(InsufficientFunds)
    else if ledger[from].mint != ledger[to].mint then Fail(MintMismatch)
    else if ledger[from].owner != authority then Fail(OwnerMismatch)
    else if authority !in signers then Fail(MissingRequiredSignature)
    else if from != to && ledger[to].amount + amount > U64_MAX then Fail(Overflow)
    else Pass
  }

  /** The balances allow moving `amount` from `from` to `to`. */
  predicate CanMove(ledger: Ledger, from: Address, to: Address, amount: int) {
    from in ledger && to in ledger && 0 <= amount <= ledger[from].amount
    && (from != to ==> ledger[to].amount + amount <= U64_MAX)
  }

  /** The ledger after a transfer: the source is debited, the destination
      credited (a transfer to oneself changes nothing), nothing else moves. */
  function Transferred(ledger: Ledger, from: Address, to: Address, amount: u64): (after: Ledger)
    requires CanMove(ledger, from, to, amount)
    ensures after.Keys == ledger.Keys
    ensures from != to ==>
              after[from].amount == ledger[from].amount - amount && after[to].amount == ledger[to].amount + amount
    ensures forall a :: a in ledger ==> after[a].mint == ledger[a].mint && after[a].owner == ledger[a].owner
    ensures forall a :: a in ledger && a != from && a != to ==> after[a] == ledger[a]
  {
    if from == to then ledger
    else
      var src, dst := ledger[from], ledger[to];
      ledger[from := src.(amount := src.amount - amount)][to := dst.(amount := dst.amount + amount)]
  }

  /** The checks of the token program's CloseAccount, in the order it makes them. */
  function CheckClose(ledger: Ledger, account: Address, destination: Address, authority: Address,
                      signers: set<Address>): (r: Outcome<TokenError>)
    // only an empty account can be closed, only by its owner, and never into itself
    ensures r.Pass? ==> account in ledger && ledger[account].amount == 0 && account != destination
    ensures r.Pass? ==> ledger[account].owner == authority && authority in signers
    ensures account in ledger && account != destination && ledger[account].amount != 0 ==> r == Fail(NonNativeHasBalance)
  {
    if account == destination then Fail(InvalidAccountData)
    else if account !in ledger then Fail(UninitializedAccount)
    else if ledger[account].amount != 0 then Fail(NonNativeHasBalance)
    else if ledger[account].owner != authority then Fail(OwnerMismatch)
    else if authority !in signers then Fail(MissingRequiredSignature)
    else Pass
  }

  /** Native balances (lamports), by address; an absent address holds none. */
  type Lamports = map<Address, nat>

  function Balance(lamports: Lamports, a: Address): nat {
    if a in lamports then lamports[a] else 0
  }

  /** The lamports after a closed account's balance goes to `destination`. */
  function Refunded(lamports: Lamports, account: Address, destination: Address): (after: Lamports)
    requires account != destination
    ensures account !in after
    ensures Balance(after, destination) == Balance(lamports, destination) + Balance(lamports, account)
    ensures forall a :: a != account && a != destination ==> Balance(after, a) == Balance(lamports, a)
  {
    lamports[destination := Balance(lamports, destination) + Balance(lamports, account)] - {account}
  }

  /** The ledger after the whole balance of `vault` moved to `dest` and `vault` was closed. */
  function Drain(ledger: Ledger, vault: Address, dest: Address): (after: Ledger)
    requires vault in ledger && vault != dest && CanMove(ledger, vault, dest, ledger[vault].amount)
    ensures after.Keys == ledger.Keys - {vault}
    ensures after[dest].amount == ledger[dest].amount + ledger[vault].amount
    ensures after[dest].mint == ledger[dest].mint && after[dest].owner == ledger[dest].owner
    ensures forall a :: a in after && a != dest ==> after[a] == ledger[a]
  {
    Transferred(ledger, vault, dest, ledger[vault].amount) - {vault}
  }

  /* ---------------- supply of a mint ---------------- */

  /** What one account contributes to the supply of `mint`. */
  function Holding(acct: TokenAccount, mint: Address): nat {
    if acct.mint == mint then acct.amount else 0
  }

  /** Some address of a non-empty ledger. */
  ghost function Pick(ledger: Ledger): (a: Address)
    requires ledger != map[]
    ensures a in ledger
  {
    var a :| a in ledger; a
  }

  /** The total amount of `mint` held over the whole ledger. */
  ghost function Supply(ledger: Ledger, mint: Address): nat
    decreases |ledger|
  {
    if ledger == map[] then 0
    else
      var a := Pick(ledger);
      assert |ledger - {a}| < |ledger| by {
        assert (ledger - {a}).Keys == ledger.Keys - {a};
      }
      Holding(ledger[a], mint) + Supply(ledger - {a}, mint)
  }

  /** The supply is any one account's holding plus the supply of the others. */
  lemma {:induction false} SupplyRemove(ledger: Ledger, a: Address, mint: Address)
    requires a in ledger
    ensures Supply(ledger, mint) == Holding(ledger[a], mint) + Supply(ledger - {a}, mint)
    decreases |ledger|
  {
    var b := Pick(ledger);
    if b != a {
      assert (ledger - {b}).Keys == ledger.Keys - {b};
      assert (ledger - {a}).Keys == ledger.Keys - {a};
      SupplyRemove(ledger - {b}, a, mint);
      SupplyRemove(ledger - {a}, b, mint);
      assert ledger - {b} - {a} == ledger - {a} - {b};
    }
  }

  /** Replacing one account changes the supply by the difference of its holdings. */
  lemma SupplyUpdate(ledger: Ledger, a: Address, v: TokenAccount, mint: Address)
    requires a in ledger
    ensures Supply(ledger[a := v], mint) + Holding(ledger[a], mint) == Supply(ledger, mint) + Holding(v, mint)
  {
    SupplyRemove(ledger[a := v], a, mint);
    SupplyRemove(ledger, a, mint);
    assert ledger[a := v] - {a} == ledger - {a};
  }

  /** Adding a new account adds its holding to the supply. */
  lemma SupplyInsert(ledger: Ledger, a: Address, v: TokenAccount, mint: Address)
    requires a !in ledger
    ensures Supply(ledger[a := v], mint) == Supply(ledger, mint) + Holding(v, mint)
  {
    SupplyRemove(ledger[a := v], a, mint);
    assert ledger[a := v] - {a} == ledger;
  }

  /** A transfer between two accounts of the same mint leaves the supply of every mint unchanged. */
  lemma TransferConservesSupply(ledger: Ledger, from: Address, to: Address, amount: u64, mint: Address)
    requires CanMove(ledger, from, to, amount) && ledger[from].mint == ledger[to].mint
    ensures Supply(Transferred(ledger, from, to, amount), mint) == Supply(ledger, mint)
  {
    if from != to {
      var src, dst := ledger[from], ledger[to];
      var mid := ledger[from := src.(amount := src.amount - amount)];
      SupplyUpdate(ledger, from, mid[from], mint);
      SupplyUpdate(mid, to, dst.(amount := dst.amount + amount), mint);
    }
  }

  /** Closing an empty account leaves the supply of every mint unchanged. */
  lemma CloseConservesSupply(ledger: Ledger, account: Address, mint: Address)
    requires account in ledger && ledger[account].amount == 0
    ensures Supply(ledger - {account}, mint) == Supply(ledger, mint)
  {
    SupplyRemove(ledger, account, mint);
  }

  /** The ledger after `amount` moved from `source` into a new account
      `vault` of `mint` whose authority is `owner`. */
  function Deposited(ledger: Ledger, source: Address, vault: Address, mint: Address, owner: Address,
                     amount: u64): Ledger
    requires source in ledger && amount <= ledger[source].amount
  {
    var src := ledger[source];
    ledger[source := src.(amount := src.amount - amount)][vault := TokenAccount(mint, owner, amount)]
  }

  /** Creating an empty account and transferring `amount` into it from
      `source` gives the deposited ledger. */
  lemma OpenAndFund(ledger: Ledger, source: Address, vault: Address, mint: Address, owner: Address, amount: u64)
    requires source in ledger && vault !in ledger && amount <= ledger[source].amount
    ensures CanMove(ledger[vault := TokenAccount(mint, owner, 0)], source, vault, amount)
    ensures Transferred(ledger[vault := TokenAccount(mint, owner, 0)], source, vault, amount)
            == Deposited(ledger, source, vault, mint, owner, amount)
  {
  }

  /** Depositing `amount` from `source` into a new vault and then draining
      the vault into `dest` gives the ledger of a direct transfer from
      `source` to `dest`; when `dest` is `source` itself, the ledger is back
      where it started. */
  lemma DepositThenDrain(ledger: Ledger, source: Address, vault: Address, dest: Address,
                         mint: Address, owner: Address, amount: u64)
    requires vault !in ledger && CanMove(ledger, source, dest, amount)
    ensures var funded := Deposited(ledger, source, vault, mint, owner, amount);
      vault != dest && CanMove(funded, vault, dest, amount)
      && Drain(funded, vault, dest) == Transferred(ledger, source, dest, amount)
  {
  }

  /** A deposit into a new account of the source's mint leaves the supply of
      every mint unchanged. */
  lemma DepositConservesSupply(ledger: Ledger, source: Address, vault: Address, owner: Address,
                               amount: u64, mint: Address)
    requires source in ledger && vault !in ledger && amount <= ledger[source].amount
    ensures Supply(Deposited(ledger, source, vault, ledger[source].mint, owner, amount), mint) == Supply(ledger, mint)
  {
    var empty := TokenAccount(ledger[source].mint, owner, 0);
    OpenAndFund(ledger, source, vault, empty.mint, owner, amount);
    SupplyInsert(ledger, vault, empty, mint);
    TransferConservesSupply(ledger[vault := empty], source, vault, amount, mint);
  }

  /** Emptying an account into another of the same mint and closing it leaves
      the supply of every mint unchanged. */
  lemma DrainConservesSupply(ledger: Ledger, vault: Address, dest: Address, mint: Address)
    requires vault in ledger && vault != dest && CanMove(ledger, vault, dest, ledger[vault].amount)
    requires ledger[vault].mint == ledger[dest].mint
    ensures Supply(Drain(ledger, vault, dest), mint) == Supply(ledger, mint)
  {
    var moved := Transferred(ledger, vault, dest, ledger[vault].amount);
    TransferConservesSupply(ledger, vault, dest, ledger[vault].amount, mint);
    CloseConservesSupply(moved, vault, mint);
  }
}
