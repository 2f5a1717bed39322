# safePay escrow, modelled in Dafny

safePay is an Anchor program. A sender (Alice) locks a fixed quantity of one
SPL token in a vault token account. The vault's authority is a
program-derived address (PDA), so no private key controls it. After that,
exactly one of two instructions empties the vault:

- `pull_back` returns the tokens to the sender;
- `complete_grant` pays them to the receiver (Bob).

The vault is then closed. The escrow record itself stays on the chain.

This project models three instructions: `initiate`, `pull_back` and
`complete_grant`. It also models their shared helper `transfer_escrow_out`,
the three `#[derive(Accounts)]` constraint structs and the `State` record.
It proves who can move the escrowed tokens, how much moves, where it goes,
and that it can move only once.

## Files

- `addresses.dfy` (module `Addresses`): account addresses.
  - A PDA is the constructor `Pda(seed, sender, receiver, mint, bump)`, so
    derivation is injective by construction.
  - `STATE_SEED` and `WALLET_SEED` are the two seed tags.
  - The runtime's canonical-bump search (`find_program_address`) is a
    function parameter of type `BumpSearch`.
- `token.dfy` (module `Token`): the part of the SPL token program the
  escrow calls.
  - The checks of `Transfer` and `CloseAccount`, and the ledger after each.
  - `Supply` of a mint over the whole ledger, with lemmas that transfers,
    closing an empty account and draining a vault conserve it.
- `safepay.dfy` (module `SafePay`): the program itself.
  - The `State` record, the account structs as predicates, and validation
    functions that report Anchor's errors in order.
  - The class `Cluster` holds the token ledger, the records and native
    balances. `TransferEscrowOut`, `Initiate`, `PullBack` and
    `CompleteGrant` are methods on it. `Initiate` first checks the accounts,
    then calls `OpenEscrow`, which runs the `init` of both accounts and the
    handler body. Each method is all-or-nothing: on any error it leaves
    every account as it was.
  - `Cluster.Valid()` is the invariant every instruction keeps:
    - every record sits at the canonical address derived from its triple;
    - every token account at a program-derived address is the vault of an
      existing record, holds that record's mint, has the record's address
      as its authority, and holds at least the recorded amount.
- `lifecycle.dfy` (module `Lifecycle`): properties of instruction sequences.
  - `initiate` followed by either withdrawal.
  - A non-canonical stored bump locks an escrow.
  - A vault can be withdrawn only once.
- `scenarios.dfy` (module `Scenarios`): the two flows of the repository's
  test suite, on concrete values.

## Behaviour worth knowing

- **The record outlives the escrow.** The `State` account
  (programs/safePay/src/lib.rs:283-303) stores the triple, the vault
  address, the amount and two bumps, and nothing that marks it settled. The
  withdrawals close only the vault token account (lib.rs:71-83); no
  instruction closes the record. So once a triple has been used it can never
  be initiated again, and the record's rent is never returned to the sender
  (`Lifecycle.InitiateThenPullBack` states the sender's native balance
  afterwards). A settled escrow is recognised by its vault being gone.
- **Any amount is accepted.** `initiate` stores and transfers `amount`
  without checking it, so an escrow of 0 tokens is possible.
- **Withdrawals move the vault's balance.** `pull_back` and
  `complete_grant` read the vault's current balance (lib.rs:134, lib.rs:149)
  and move all of it; they never compare it with `amount_tokens`. Anyone
  may deposit more into the vault, so its balance is at least the recorded
  amount, not exactly that amount.
- **Bumps are stored unchecked.** The two bumps given to `initiate` are
  stored without being compared to the canonical ones. Both withdrawals
  check the vault and record addresses with the stored bumps. If a stored
  bump is not canonical, the escrow can never be withdrawn
  (`Lifecycle.WrongBumpLocksEscrow`).
- **Error order.** Anchor first loads the accounts in field order (a
  missing account or signature fails there), then runs the `init`s of
  `Initiate` (address seeds, a free address, the sender paying the rent),
  then the remaining constraints field by field, with `seeds` before
  `has_one`. The validation functions report the first failure in that
  order.

## Model

| member | source | states |
|---|---|---|
| `Addresses.DerivationInjective` | programs/safePay/src/lib.rs:171-178 | two derived addresses are equal exactly when their seeds, triple and bump are equal |
| `Addresses.RecordAndVaultDistinct` | programs/safePay/src/lib.rs:171-178 | for the same triple, the record and vault addresses never coincide, whatever the bumps, because the seed tags differ |
| `Token.CheckTransfer` | programs/safePay/src/lib.rs:117-128 | a token transfer passes only when the source's owner is the authority and has signed, the balance suffices, the mints agree and the credit fits in u64; a short balance gives `InsufficientFunds` |
| `Token.Transferred` | programs/safePay/src/lib.rs:50-60 | a transfer debits the source and credits the destination by exactly the amount and changes no other account |
| `Token.CheckClose` | programs/safePay/src/lib.rs:71-82 | a close passes only for an empty account, on its owner's signature, into another account |
| `Token.Drain` | programs/safePay/src/lib.rs:60-83 | after a full transfer and a close, the destination holds the vault's balance on top of its own, the vault is gone and nothing else changes |
| `Token.TransferConservesSupply` | programs/safePay/src/lib.rs:117-128 | a transfer between accounts of one mint leaves the supply of every mint unchanged |
| `Token.OpenAndFund` | programs/safePay/src/lib.rs:117-128 | creating the empty vault and transferring `amount` into it leaves the sender's wallet debited by `amount` and the vault holding exactly `amount` |
| `Token.DepositConservesSupply` | programs/safePay/src/lib.rs:175-183 | creating the vault and funding it from a wallet of the same mint leaves the supply of every mint unchanged |
| `Token.DepositThenDrain` | programs/safePay/src/lib.rs:117-160 | depositing into a new vault and later draining it into a destination gives the same ledger as a direct transfer; draining back into the source restores the ledger exactly |
| `Token.DrainConservesSupply` | programs/safePay/src/lib.rs:60-83 | emptying the vault into the destination and closing the vault leaves every supply unchanged |
| `SafePay.ValidateInitiate` | programs/safePay/src/lib.rs:164-204 | `initiate`'s accounts pass exactly when the `Initiate` constraints hold; a missing sender signature gives `AccountNotSigner`; an existing record for the triple makes it fail; a sender who cannot pay the record's rent fails with `InsufficientLamports` before the vault's seeds and the wallet's constraints are looked at |
| `SafePay.ValidatePullBack` | programs/safePay/src/lib.rs:206-242 | `pull_back`'s accounts pass exactly when the `PullBackInstruction` constraints hold; a missing vault gives `AccountNotInitialized`; it fails unless the recorded sender signs (a receiver signing alone fails); once the accounts load, a record address that the named triple and stored bump do not derive gives `ConstraintSeeds`, checked before `has_one` |
| `SafePay.ValidateCompleteGrant` | programs/safePay/src/lib.rs:244-281 | `complete_grant`'s accounts pass exactly when the `CompleteGrant` constraints hold; a missing vault gives `AccountNotInitialized`; it fails unless the recorded receiver signs (a sender signing alone fails); once the accounts load, a record address that the named triple and stored bump do not derive gives `ConstraintSeeds`, checked before `has_one` |
| `SafePay.InitiateKeepsEscrows` | programs/safePay/src/lib.rs:92-131 | the record and vault that `initiate` creates keep the escrow invariant: the record is at its canonical address, the vault at its canonical address, with the mint, the record as authority and at least the recorded amount |
| `SafePay.InboundTransferChecks` | programs/safePay/src/lib.rs:117-128 | once the `Initiate` constraints hold, the transfer into the fresh vault passes exactly when the sender's wallet holds `amount`, and otherwise fails with `InsufficientFunds` |
| `SafePay.Fund` | programs/safePay/src/lib.rs:167-183 | `init` tops the new account up to its rent-exempt minimum from the payer, and no lamports are created or lost |
| `SafePay.FundThenRefund` | programs/safePay/src/lib.rs:71-83 | when the sender funds the record and the vault and the vault is later closed back to them, the sender is short exactly the record's top-up and has gained what the vault address held before |
| `SafePay.Cluster.Transfer` | programs/safePay/src/lib.rs:117-128 | the token program's transfer reports its checks' verdict, and on success leaves the ledger its function specifies; on failure the ledger is unchanged |
| `SafePay.Cluster.CloseAccount` | programs/safePay/src/lib.rs:71-83 | closing removes the empty account and credits its lamports to the destination; on failure nothing changes |
| `SafePay.Cluster.TransferEscrowOut` | programs/safePay/src/lib.rs:22-86 | transfers `amount` under the record PDA's signature, closes the vault (lamports to `user_sending`) only when the reloaded balance is 0, and undoes everything if either step fails |
| `SafePay.Cluster.Initiate` | programs/safePay/src/lib.rs:92-204 | passes exactly when the constraints, the sender's lamports and the wallet balance allow; a failing constraint is the error reported; once the constraints and rents pass, a short wallet fails with the token program's `InsufficientFunds`; the record stores exactly the inputs; the wallet is debited and the new vault, owned by the record address, credited by `amount`; every supply is conserved; a failure changes nothing; a second initiate for a triple fails; the invariant is kept |
| `SafePay.Cluster.OpenEscrow` | programs/safePay/src/lib.rs:92-131 | once the constraints hold and the sender can pay both rents: passes exactly when the wallet holds `amount`, otherwise fails with the token program's `InsufficientFunds` and changes nothing; on success the record stores the inputs, the ledger is the deposit of `amount` into a vault owned by the record, the sender paid both top-ups, supply is conserved and the invariant kept |
| `SafePay.Cluster.PullBack` | programs/safePay/src/lib.rs:133-146 | passes exactly when the constraints hold and the refund does not overflow; then the recorded sender signed, the vault drained is the recorded one, its whole balance (at least `amount_tokens`) goes to the sender's wallet, the vault is closed with its lamports to the sender, the record is unchanged and supply conserved; a failure changes nothing |
| `SafePay.Cluster.CompleteGrant` | programs/safePay/src/lib.rs:148-161 | as `PullBack`, but the recorded receiver signed and the whole balance goes to the receiver's associated token account; the vault's lamports still go to the sender |
| `SafePay.Cluster.VaultOfRecord` | programs/safePay/src/lib.rs:208-222 | once the seeds and `has_one` checks pass, the vault is the record's, its authority is the record's address and the stored bumps are canonical |
| `Lifecycle.WrongBumpLocksEscrow` | programs/safePay/src/lib.rs:208-221 | a record whose stored bump is not canonical fails the seed constraints of both withdrawals |
| `Lifecycle.VaultNeedsProgramSignature` | programs/safePay/src/lib.rs:180-182 | transaction signers alone can neither transfer out of a vault nor close it, because its authority is a PDA |
| `Lifecycle.InitiateThenPullBack` | programs/safePay/src/lib.rs:92-146 | with canonical bumps, `initiate` followed by `pull_back` into the same wallet succeeds and restores the token ledger exactly; the sender gets back the vault's lamports but not the record's; with a wrong bump the pull back fails |
| `Lifecycle.InitiateThenCompleteGrant` | programs/safePay/src/lib.rs:92-161 | with canonical bumps and Bob signing, `initiate` followed by `complete_grant` gives the ledger of a direct transfer of `amount` from the sender's wallet to the receiver's associated account; without Bob's signature it fails |
| `Lifecycle.PullBackThenWithdrawAgain` | programs/safePay/src/lib.rs:217-222 | after a successful `pull_back`, a `complete_grant` or a second `pull_back` on the same record fails and leaves tokens and lamports as the first withdrawal left them; the vault is gone and the record remains |
| `Lifecycle.CompleteGrantThenWithdrawAgain` | programs/safePay/src/lib.rs:255-260 | after a successful `complete_grant`, a `pull_back` or a second `complete_grant` on the same record fails and leaves tokens and lamports as the first withdrawal left them; the vault is gone and the record remains |
| `Scenarios.SetupAndInitiate` | tests/safePay.ts:99-155 | with both users holding 1337000000 and the canonical bumps, Alice's initiate of 20000000 succeeds: the vault holds 20000000 and is owned by the record, Alice holds 1317000000, Bob is untouched, and the record stores the triple, the amount and the bumps |
| `Scenarios.InitiateAndPullBack` | tests/safePay.ts:110-195 | the vault holds 20000000 and Alice 1317000000 after the initiate; Alice's pull back restores her 1337000000 and closes the vault; a pull back signed by Bob, which the test does not make, fails with `AccountNotSigner` |
| `Scenarios.InitiateAndCompleteGrant` | tests/safePay.ts:197-300 | Bob's grant leaves Alice 1317000000 and Bob 1357000000, closes the vault and keeps the record; a later pull back by Alice, which the test does not make, fails with `AccountNotInitialized` and moves nothing |

## Left out

- **Bump search and curve check.** The hash behind derivation and the search
  for an off-curve bump are cryptographic. The bump search is a function
  parameter, and every bump gives a valid address. So the model never fails
  in the CPI signature when a stored bump lands on the curve; such a bump
  still locks the escrow, as proved.
- **Rent.** Native-balance accounting is kept only to show who pays and who
  gets the rent back. Rent-exempt minimums are constants. Transaction fees,
  the `space = 1000` layout and sysvars are not modelled.
- **Account checks not modelled.** Anchor's `mut` (writability) checks,
  program-id checks on `system_program`, `token_program` and `rent`,
  discriminators, and byte (de)serialisation are left out. A loaded
  `Account<State>` is a key of the record map, a loaded
  `Account<TokenAccount>` a key of the ledger, and a loaded `Account<Mint>`
  an element of `mints`.
- **SPL token details.** Delegates, frozen accounts, close authorities,
  native SOL accounts and mint decimals are not modelled.
- **Inbound PDA signer.** The record PDA's signer seeds are also passed on
  the inbound transfer in `initiate`. The model omits them: that leg is
  authorised by the sender's signature.
- **Logging and I/O.** `msg!` logging, transaction submission and the
  client's balance printing are not modelled.
- **Keypair signers.** The instruction methods require that every
  transaction signer is a keypair address. This is a runtime guarantee, not
  a check in the program.
- **Concurrency.** Each instruction is one atomic, sequential step. Races
  between transactions are the runtime's concern.
- **Other deposits.** Token transfers by other parties, including deposits
  into a vault, are not operations of the model. The invariant allows for
  them: it requires only that a vault holds at least the recorded amount.
