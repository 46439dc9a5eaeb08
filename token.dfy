/** The token program as the lending market sees it: token accounts identified
    by their owner and their mint, each holding a balance, and a transfer that
    moves an amount between two accounts of one mint or fails when the source
    holds too little. Nothing else of the token program is modelled. */
module Token {
  import opened Optional
  import opened Sums

  /** An account address or a mint address; only equality matters. */
  type Pubkey = nat

  /** Who owns (and may sign for) a token account: a user's wallet, or one of
      the program-derived addresses the lending program signs for itself. */
  datatype Authority =
    | Wallet(key: Pubkey)
      /** The address of the order account with this id (the lender placeholder). */
    | OrderAccount(id: nat)
      /** The shared stablecoin vault of a market, derived from its stablecoin mint. */
    | StablecoinVaultPda(stablecoinMint: Pubkey)
      /** The vault holding one NFT, derived from that NFT's mint. */
    | NftVaultPda(nftMint: Pubkey)

  datatype TokenAccount = TokenAccount(owner: Authority, mint: Pubkey)

  /** Balances of the token accounts that exist; a missing account holds nothing. */
  type Balances = map<TokenAccount, nat>

  function Balance(bal: Balances, a: TokenAccount): (r: nat) {
    if a in bal then bal[a] else 0
  }

  /** Counts an account's balance towards the supply of mint `m` only. */
  ghost function MintWeight(m: Pubkey): (TokenAccount, nat) -> nat {
    (a: TokenAccount, v: nat) => if a.mint == m then v else 0
  }

  /** The amount of mint `m` held over all accounts. */
  ghost function Supply(bal: Balances, m: Pubkey): nat {
    Total(bal, MintWeight(m))
  }

  /** Setting one account's balance shifts its own mint's supply by the
      difference and leaves every other mint's supply alone. */
  lemma SetBalanceSupply(bal: Balances, a: TokenAccount, v: nat, m: Pubkey)
    ensures a.mint == m ==> Supply(bal[a := v], m) + Balance(bal, a) == Supply(bal, m) + v
    ensures a.mint != m ==> Supply(bal[a := v], m) == Supply(bal, m)
  {
    TotalUpdate(bal, MintWeight(m), a, v);
  }

  /** The token program's transfer of `amount` from `from` to `to` (both of
      one mint). It fails, changing nothing, when `from` holds less than
      `amount`; otherwise exactly those two balances change and no token is
      created or destroyed. A transfer from an account to itself only checks
      the balance. */
  function Transfer(bal: Balances, from: TokenAccount, to: TokenAccount, amount: nat): (r: Option<Balances>)
    requires from.mint == to.mint
    ensures r.Some? <==> amount <= Balance(bal, from)
    ensures r.Some? ==> r.value.Keys == bal.Keys + {from, to}
    ensures r.Some? && from != to ==>
      Balance(r.value, from) + amount == Balance(bal, from) &&
      Balance(r.value, to) == Balance(bal, to) + amount
    ensures r.Some? && from == to ==> Balance(r.value, from) == Balance(bal, from)
    ensures r.Some? ==> forall a | a != from && a != to :: Balance(r.value, a) == Balance(bal, a)
    ensures r.Some? ==> forall m :: Supply(r.value, m) == Supply(bal, m)
  {
    if Balance(bal, from) < amount then None
    else
      var debited := bal[from := Balance(bal, from) - amount];
      var credited := debited[to := Balance(debited, to) + amount];
      assert forall m :: Supply(credited, m) == Supply(bal, m) by {
        forall m ensures Supply(credited, m) == Supply(bal, m) {
          SetBalanceSupply(bal, from, Balance(bal, from) - amount, m);
          SetBalanceSupply(debited, to, Balance(debited, to) + amount, m);
        }
      }
      Some(credited)
  }
}
