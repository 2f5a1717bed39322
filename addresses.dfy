/** Account addresses, and the program-derived addresses (PDAs) of the safePay escrow.

    On the chain a PDA is a hash of the program id, a list of seeds and one
    "bump" byte; the hash is collision resistant and the result has no private
    key. The model keeps exactly those two facts: a derived address is a
    datatype value built from its seeds (so derivation is injective), and it is
    a different constructor from a keypair's public key (so nobody can sign
    for it with a key). */
module Addresses {

  type u8 = x: int | 0 <= x < 0x100

  /** The first seed of the escrow record's address (`application_state`). */
  const STATE_SEED: string := "safe_pay_noah_state"
  /** The first seed of the escrow vault's address (`escrow_wallet_state`). */
  const WALLET_SEED: string := "safe_pay_noah_wallet"

  /** An account address.
      - `Key`: the public key of a keypair (a user, a mint, a token account made with its own key);
      - `Pda`: the address the safePay program derives from the seeds
        `[seed, sender, receiver, mint]` and a bump byte;
      - `Ata`: the associated token account address of a wallet for a mint. */
  datatype Address =
    | Key(id: nat)
    | Pda(seed: string, sender: Address, receiver: Address, mint: Address, bump: u8)
    | Ata(wallet: Address, mint: Address)

  /** The runtime's bump search (`find_program_address`): for a seed list it
      yields the canonical bump, the one Anchor's `seeds = [...], bump`
      constraint expects. It depends on the hash, so the model takes it as a
      parameter. */
  type BumpSearch = (string, Address, Address, Address) -> u8

  /** The address Anchor's `init, seeds = [...], bump` constraint demands:
      the derivation with the canonical bump. */
  function FindProgramAddress(find: BumpSearch, seed: string, sender: Address, receiver: Address, mint: Address): Address
  {
    Pda(seed, sender, receiver, mint, find(seed, sender, receiver, mint))
  }

  /** Two derivations give the same address only when all their inputs agree. */
  lemma DerivationInjective(seed1: string, s1: Address, r1: Address, m1: Address, b1: u8,
                            seed2: string, s2: Address, r2: Address, m2: Address, b2: u8)
    ensures Pda(seed1, s1, r1, m1, b1) == Pda(seed2, s2, r2, m2, b2)
        <==> seed1 == seed2 && s1 == s2 && r1 == r2 && m1 == m2 && b1 == b2
  {
  }

  /** The record and the vault of any escrow, whatever bumps are used, live at
      different addresses, because their first seeds differ. */
  lemma RecordAndVaultDistinct(sender: Address, receiver: Address, mint: Address, b1: u8, b2: u8)
    ensures Pda(STATE_SEED, sender, receiver, mint, b1) != Pda(WALLET_SEED, sender, receiver, mint, b2)
    ensures STATE_SEED != WALLET_SEED
  {
  }
}
