/** The NFT-collateralised lending program: one market per stablecoin (its
    Configuration account), order accounts that move through
    open -> funded -> closed, and the escrow transfers each instruction makes
    through the token program. */
module NftLoans {
  import opened Optional
  import opened Sums
  import opened Token

  const U64_MAX: nat := 0xFFFF_FFFF_FFFF_FFFF

  type u64 = x: nat | x <= U64_MAX
  type u8 = x: nat | x < 0x100

  /** Rust's `u64::checked_add`: `None` where the sum leaves the u64 range. */
  function CheckedAdd(a: u64, b: u64): (r: Option<u64>)
    ensures r.Some? <==> a + b <= U64_MAX
    ensures r.Some? ==> r.value == a + b
  {
    if a + b <= U64_MAX then Some(a + b) else None
  }

  /** Every way an instruction can fail: the program's own error codes, then
      the failures of the runtime and the token program it relies on. */
  datatype Error =
    | AmountMustBeGreaterThanZero
    | LoanAlreadyStarted
    | LoanNotProvided
    | RepaymentPeriodExceeded
    | RepaymentPeriodNotExceeded
    | AlreadyLiquidated
      /** An account the instruction loads does not exist: the order account for
          the given id (never created, or closed) or a user's token account. */
    | AccountNotInitialized
      /** An account the instruction must create exists already. */
    | AccountAlreadyInUse
      /** The token program refused a transfer: the source holds too little. */
    | InsufficientFunds
      /** A checked u64 addition overflowed and the instruction aborted. */
    | ArithmeticOverflow

  datatype Outcome = Ok | Err(error: Error)

  /** The market's shared stablecoin vault, derived from the stablecoin mint. */
  function StablecoinVault(stablecoinMint: Pubkey): (r: TokenAccount) {
    TokenAccount(StablecoinVaultPda(stablecoinMint), stablecoinMint)
  }

  /** The vault that holds an NFT while it is collateral, derived from its mint. */
  function NftVault(nftMint: Pubkey): (r: TokenAccount) {
    TokenAccount(NftVaultPda(nftMint), nftMint)
  }

  /** A user's token account for a mint. */
  function WalletAccount(key: Pubkey, mint: Pubkey): (r: TokenAccount) {
    TokenAccount(Wallet(key), mint)
  }

  predicate IsVault(a: Authority) {
    a.StablecoinVaultPda? || a.NftVaultPda?
  }

  /** An order account. */
  datatype Order = Order(
    borrower: Pubkey,
    stablecoinVault: TokenAccount,
    nftMint: Pubkey,
    nftVault: TokenAccount,
    requestAmount: u64,
    interest: u64,
    period: u64,
    additionalCollateral: u64,
    lender: Authority,
    createdAt: u64,
    loanStartTime: u64,
    paidBackAt: u64,
    withdrewAt: u64,
    orderStatus: bool)

  /** The order create_order stores under `id`: nothing funded, nothing repaid
      or withdrawn, the order's own address standing in for the lender. */
  function Opened(id: u64, borrower: Pubkey, stablecoinMint: Pubkey, nftMint: Pubkey,
                  requestAmount: u64, interest: u64, period: u64,
                  additionalCollateral: u64, now: u64): (r: Order)
  {
    Order(borrower, StablecoinVault(stablecoinMint), nftMint, NftVault(nftMint),
          requestAmount, interest, period, additionalCollateral,
          OrderAccount(id), now, 0, 0, 0, true)
  }

  // ---------------------------------------------------------------------
  // The guards on an order's fields

  /** Rejection condition of cancel_order and give_loan. */
  predicate StartedFlags(o: Order) {
    o.loanStartTime != 0 && !o.orderStatus
  }

  /** Rejection condition of payback and liquidate. */
  predicate UnfundedFlags(o: Order) {
    o.loanStartTime == 0 && o.orderStatus
  }

  /** The single state the two flags are meant to encode. */
  predicate Funded(o: Order) {
    o.loanStartTime != 0
  }

  /** The flags agree: the order is open exactly while no loan has started. */
  predicate FlagsAgree(o: Order) {
    o.orderStatus == (o.loanStartTime == 0)
  }

  /** Where the flags agree, both guards test just "funded or not". */
  lemma GuardsCollapse(o: Order)
    requires FlagsAgree(o)
    ensures StartedFlags(o) <==> Funded(o)
    ensures UnfundedFlags(o) <==> !Funded(o)
  {
  }

  /** The checks payback makes before moving tokens, in the program's order:
      funded, then the deadline sum (checked), then the deadline itself. */
  function PaybackCheck(o: Order, now: u64): (r: Option<Error>)
    ensures r == Some(LoanNotProvided) <==> UnfundedFlags(o)
    ensures r == Some(ArithmeticOverflow) <==>
      !UnfundedFlags(o) && o.loanStartTime + o.period > U64_MAX
    ensures r == Some(RepaymentPeriodExceeded) <==>
      !UnfundedFlags(o) && o.loanStartTime + o.period < now
    ensures r == None <==>
      !UnfundedFlags(o) && now <= o.loanStartTime + o.period <= U64_MAX
  {
    if UnfundedFlags(o) then Some(LoanNotProvided)
    else
      match CheckedAdd(o.loanStartTime, o.period)
      case None => Some(ArithmeticOverflow)
      case Some(deadline) =>
        if deadline < now then Some(RepaymentPeriodExceeded) else None
  }

  /** The checks liquidate makes before moving tokens, in the program's order:
      funded, the deadline sum (checked), deadline passed, not yet withdrawn. */
  function LiquidateCheck(o: Order, now: u64): (r: Option<Error>)
    ensures r == Some(LoanNotProvided) <==> UnfundedFlags(o)
    ensures r == Some(ArithmeticOverflow) <==>
      !UnfundedFlags(o) && o.loanStartTime + o.period > U64_MAX
    ensures r == Some(RepaymentPeriodNotExceeded) <==>
      !UnfundedFlags(o) && now < o.loanStartTime + o.period <= U64_MAX
    ensures r == Some(AlreadyLiquidated) <==>
      !UnfundedFlags(o) && o.loanStartTime + o.period <= now && o.withdrewAt != 0
    ensures r == None <==>
      !UnfundedFlags(o) && o.loanStartTime + o.period <= now && o.withdrewAt == 0
  {
    if UnfundedFlags(o) then Some(LoanNotProvided)
    else
      match CheckedAdd(o.loanStartTime, o.period)
      case None => Some(ArithmeticOverflow)
      case Some(deadline) =>
        if deadline > now then Some(RepaymentPeriodNotExceeded)
        else if o.withdrewAt != 0 then Some(AlreadyLiquidated)
        else None
  }

  /** For a funded order whose deadline fits in u64, payback and liquidate
      windows cover every instant and overlap only at the deadline itself. */
  lemma DeadlineWindows(o: Order, now: u64)
    requires !UnfundedFlags(o) && o.withdrewAt == 0
    requires o.loanStartTime + o.period <= U64_MAX
    ensures PaybackCheck(o, now) == None || LiquidateCheck(o, now) == None
    ensures PaybackCheck(o, now) == None && LiquidateCheck(o, now) == None
        <==> now == o.loanStartTime + o.period
  {
  }

  // ---------------------------------------------------------------------
  // The market

  /** Weighs an order by the stablecoin it locked in the shared vault. */
  ghost function Collateral(): (u64, Order) -> nat {
    (id: u64, o: Order) => o.additionalCollateral
  }

  /** Accounts outside `touched` keep their balances. */
  ghost predicate OthersUnchanged(before: Balances, after: Balances, touched: set<TokenAccount>) {
    forall a | a !in touched :: Balance(after, a) == Balance(before, a)
  }

  /** No mint's supply changed. */
  ghost predicate Conserved(before: Balances, after: Balances) {
    forall m :: Supply(after, m) == Supply(before, m)
  }

  /** The caller holds the NFT and, on top of it, `amount` of the stablecoin
      (the two accounts coincide if the mints do). */
  predicate CanPostCollateral(bal: Balances, caller: Pubkey, nftMint: Pubkey,
                              stablecoinMint: Pubkey, amount: nat)
  {
    Balance(bal, WalletAccount(caller, nftMint)) >= 1 &&
    Balance(bal, WalletAccount(caller, stablecoinMint)) >=
      amount + (if nftMint == stablecoinMint then 1 else 0)
  }

  /** The token accounts `owner` holds for the NFT and for the stablecoin
      exist. The runtime refuses to load an instruction's accounts, before
      its body runs, when one of them does not. */
  predicate HoldsAccounts(tokens: Balances, owner: Authority, nftMint: Pubkey, stablecoinMint: Pubkey) {
    TokenAccount(owner, nftMint) in tokens && TokenAccount(owner, stablecoinMint) in tokens
  }

  /** The accounts give_loan loads: the signer's and the borrower's
      stablecoin accounts. */
  predicate FundingAccounts(tokens: Balances, caller: Pubkey, o: Order, stablecoinMint: Pubkey) {
    WalletAccount(caller, stablecoinMint) in tokens && WalletAccount(o.borrower, stablecoinMint) in tokens
  }

  /** The accounts payback loads: the lender's stablecoin account and the
      signer's accounts for the stablecoin and the NFT. */
  predicate RepayingAccounts(tokens: Balances, caller: Pubkey, o: Order, stablecoinMint: Pubkey) {
    TokenAccount(o.lender, stablecoinMint) in tokens &&
    HoldsAccounts(tokens, Wallet(caller), o.nftMint, stablecoinMint)
  }

  /** Why create_order refuses, in the order the failures arise: the caller's
      token accounts are loaded, the NFT's vault is created, the amount is
      checked, the two deposits are made, the counters are raised. */
  function CreateCheck(tokens: Balances, caller: Pubkey, nftMint: Pubkey, stablecoinMint: Pubkey,
                       requestAmount: u64, additionalCollateral: u64,
                       orderId: u64, total: u64): (r: Option<Error>)
    ensures r == Some(AccountNotInitialized) <==>
      !HoldsAccounts(tokens, Wallet(caller), nftMint, stablecoinMint)
    ensures r == Some(AccountAlreadyInUse) <==>
      HoldsAccounts(tokens, Wallet(caller), nftMint, stablecoinMint) && NftVault(nftMint) in tokens
    ensures r == Some(AmountMustBeGreaterThanZero) <==>
      HoldsAccounts(tokens, Wallet(caller), nftMint, stablecoinMint) &&
      NftVault(nftMint) !in tokens && requestAmount == 0
    ensures r == Some(InsufficientFunds) <==>
      HoldsAccounts(tokens, Wallet(caller), nftMint, stablecoinMint) &&
      NftVault(nftMint) !in tokens && requestAmount != 0 &&
      !CanPostCollateral(tokens, caller, nftMint, stablecoinMint, additionalCollateral)
    ensures r == Some(ArithmeticOverflow) <==>
      HoldsAccounts(tokens, Wallet(caller), nftMint, stablecoinMint) &&
      NftVault(nftMint) !in tokens && requestAmount != 0 &&
      CanPostCollateral(tokens, caller, nftMint, stablecoinMint, additionalCollateral) &&
      (total + additionalCollateral > U64_MAX || orderId == U64_MAX)
    ensures r == None <==>
      HoldsAccounts(tokens, Wallet(caller), nftMint, stablecoinMint) &&
      NftVault(nftMint) !in tokens && requestAmount != 0 &&
      CanPostCollateral(tokens, caller, nftMint, stablecoinMint, additionalCollateral) &&
      total + additionalCollateral <= U64_MAX && orderId < U64_MAX
  {
    if !HoldsAccounts(tokens, Wallet(caller), nftMint, stablecoinMint) then Some(AccountNotInitialized)
    else if NftVault(nftMint) in tokens then Some(AccountAlreadyInUse)
    else if requestAmount == 0 then Some(AmountMustBeGreaterThanZero)
    else if !CanPostCollateral(tokens, caller, nftMint, stablecoinMint, additionalCollateral) then
      Some(InsufficientFunds)
    else if total + additionalCollateral > U64_MAX || orderId == U64_MAX then Some(ArithmeticOverflow)
    else None
  }

  /** The deposits of create_order, in order: one unit of the NFT from the
      caller's account into the NFT's newly created vault, then `amount` of
      the stablecoin from the caller's account into the market's vault. Fails
      when the caller cannot cover both. */
  function Deposit(tokens: Balances, caller: Pubkey, nftMint: Pubkey,
                   stablecoinMint: Pubkey, amount: nat): (r: Option<Balances>)
    requires NftVault(nftMint) !in tokens
    ensures r.Some? <==> CanPostCollateral(tokens, caller, nftMint, stablecoinMint, amount)
    ensures r.Some? ==>
      r.value.Keys >= tokens.Keys + {NftVault(nftMint)} &&
      Balance(r.value, NftVault(nftMint)) == 1 &&
      Balance(r.value, StablecoinVault(stablecoinMint)) ==
        Balance(tokens, StablecoinVault(stablecoinMint)) + amount
    ensures r.Some? && nftMint != stablecoinMint ==>
      Balance(r.value, WalletAccount(caller, nftMint)) + 1 ==
        Balance(tokens, WalletAccount(caller, nftMint)) &&
      Balance(r.value, WalletAccount(caller, stablecoinMint)) + amount ==
        Balance(tokens, WalletAccount(caller, stablecoinMint))
    ensures r.Some? && nftMint == stablecoinMint ==>
      Balance(r.value, WalletAccount(caller, nftMint)) + 1 + amount ==
        Balance(tokens, WalletAccount(caller, nftMint))
    ensures r.Some? ==>
      OthersUnchanged(tokens, r.value,
        {NftVault(nftMint), StablecoinVault(stablecoinMint),
         WalletAccount(caller, nftMint), WalletAccount(caller, stablecoinMint)})
    ensures r.Some? ==> Conserved(tokens, r.value)
  {
    var nftVault := NftVault(nftMint);
    var created := tokens[nftVault := 0];
    assert Conserved(tokens, created) by {
      forall m ensures Supply(created, m) == Supply(tokens, m) {
        SetBalanceSupply(tokens, nftVault, 0, m);
      }
    }
    match Transfer(created, WalletAccount(caller, nftMint), nftVault, 1)
    case None => None
    case Some(locked) =>
      Transfer(locked, WalletAccount(caller, stablecoinMint), StablecoinVault(stablecoinMint), amount)
  }

  /** The withdrawals of cancel_order, payback and liquidate, in order: the
      NFT from its vault, then `amount` from the market's vault, both into
      the accounts of `to` and both signed by the program for its vaults.
      They cannot fail while the vaults hold what the order locked. */
  function Release(tokens: Balances, to: Authority, nftMint: Pubkey,
                   stablecoinMint: Pubkey, amount: nat): (r: Balances)
    requires Balance(tokens, NftVault(nftMint)) >= 1
    requires Balance(tokens, StablecoinVault(stablecoinMint)) >= amount
    requires !IsVault(to)
    ensures r.Keys >= tokens.Keys
    ensures Balance(r, NftVault(nftMint)) + 1 == Balance(tokens, NftVault(nftMint))
    ensures Balance(r, StablecoinVault(stablecoinMint)) + amount ==
            Balance(tokens, StablecoinVault(stablecoinMint))
    ensures nftMint != stablecoinMint ==>
      Balance(r, TokenAccount(to, nftMint)) == Balance(tokens, TokenAccount(to, nftMint)) + 1 &&
      Balance(r, TokenAccount(to, stablecoinMint)) ==
        Balance(tokens, TokenAccount(to, stablecoinMint)) + amount
    ensures nftMint == stablecoinMint ==>
      Balance(r, TokenAccount(to, nftMint)) == Balance(tokens, TokenAccount(to, nftMint)) + 1 + amount
    ensures OthersUnchanged(tokens, r,
      {NftVault(nftMint), StablecoinVault(stablecoinMint),
       TokenAccount(to, nftMint), TokenAccount(to, stablecoinMint)})
    ensures Conserved(tokens, r)
  {
    var unlocked := Transfer(tokens, NftVault(nftMint), TokenAccount(to, nftMint), 1).value;
    Transfer(unlocked, StablecoinVault(stablecoinMint), TokenAccount(to, stablecoinMint), amount).value
  }

  /** What every stored order owes the market's bookkeeping: it names the
      market's vault and its own NFT's vault, and its lender is not a vault. */
  predicate WellFormed(o: Order, stablecoinMint: Pubkey) {
    o.stablecoinVault == StablecoinVault(stablecoinMint) &&
    o.nftVault == NftVault(o.nftMint) &&
    !IsVault(o.lender)
  }

  /** Vault accounts outside `touched` keep their balances. */
  ghost predicate VaultsUnchangedExcept(before: Balances, after: Balances, touched: set<TokenAccount>) {
    forall a: TokenAccount | IsVault(a.owner) && a !in touched :: Balance(after, a) == Balance(before, a)
  }

  /** Every stored order has an id below the counter and is well formed. */
  ghost predicate Registered(stablecoinMint: Pubkey, orderId: u64, orders: map<u64, Order>) {
    forall id | id in orders :: id < orderId && WellFormed(orders[id], stablecoinMint)
  }

  /** No NFT backs two stored orders. */
  ghost predicate DistinctNfts(orders: map<u64, Order>) {
    forall i, j | i in orders && j in orders && i != j :: orders[i].nftMint != orders[j].nftMint
  }

  /** Every stored order's NFT sits in that NFT's vault. */
  ghost predicate NftsLocked(orders: map<u64, Order>, tokens: Balances) {
    forall id | id in orders ::
      NftVault(orders[id].nftMint) in tokens && Balance(tokens, NftVault(orders[id].nftMint)) == 1
  }

  /** The running total is the sum of the stored orders' collateral (so it
      bounds each of them), and the shared vault holds at least that much
      (anyone may send it more through the token program). */
  ghost predicate Tallied(stablecoinMint: Pubkey, total: u64, orders: map<u64, Order>, tokens: Balances) {
    (forall id | id in orders :: orders[id].additionalCollateral <= total) &&
    total == Total(orders, Collateral()) &&
    Balance(tokens, StablecoinVault(stablecoinMint)) >= total
  }

  /** The accounting invariant of a market. */
  ghost predicate Books(stablecoinMint: Pubkey, orderId: u64, total: u64,
                        orders: map<u64, Order>, tokens: Balances)
  {
    Registered(stablecoinMint, orderId, orders) &&
    DistinctNfts(orders) &&
    NftsLocked(orders, tokens) &&
    Tallied(stablecoinMint, total, orders, tokens)
  }

  /** Storing a new order under the counter, with its NFT in a new vault and
      its collateral added to the shared vault, keeps the books. */
  lemma OpenKeepsBooks(stablecoinMint: Pubkey, orderId: u64, total: u64,
                       orders: map<u64, Order>, tokens: Balances, tokens': Balances, o: Order)
    requires Books(stablecoinMint, orderId, total, orders, tokens)
    requires orderId < U64_MAX && total + o.additionalCollateral <= U64_MAX
    requires WellFormed(o, stablecoinMint) && NftVault(o.nftMint) !in tokens
    requires tokens'.Keys >= tokens.Keys + {NftVault(o.nftMint)}
    requires Balance(tokens', NftVault(o.nftMint)) == 1
    requires Balance(tokens', StablecoinVault(stablecoinMint)) ==
             Balance(tokens, StablecoinVault(stablecoinMint)) + o.additionalCollateral
    requires VaultsUnchangedExcept(tokens, tokens', {NftVault(o.nftMint), StablecoinVault(stablecoinMint)})
    ensures Books(stablecoinMint, orderId + 1, total + o.additionalCollateral,
                  orders[orderId := o], tokens')
  {
    var orders' := orders[orderId := o];
    assert Registered(stablecoinMint, orderId + 1, orders');
    assert DistinctNfts(orders') by {
      assert forall id | id in orders :: NftVault(orders[id].nftMint) in tokens;
    }
    assert NftsLocked(orders', tokens') by {
      forall id | id in orders
        ensures NftVault(orders[id].nftMint) != NftVault(o.nftMint)
      {
      }
    }
    assert Tallied(stablecoinMint, total + o.additionalCollateral, orders', tokens') by {
      TotalUpdate(orders, Collateral(), orderId, o);
    }
  }

  /** Removing a stored order whose NFT and collateral left the vaults keeps
      the books with the total lowered by that order's collateral. */
  lemma CloseKeepsBooks(stablecoinMint: Pubkey, orderId: u64, total: u64,
                        orders: map<u64, Order>, tokens: Balances, tokens': Balances, id: u64)
    requires Books(stablecoinMint, orderId, total, orders, tokens)
    requires id in orders
    requires tokens'.Keys >= tokens.Keys
    requires Balance(tokens', StablecoinVault(stablecoinMint)) + orders[id].additionalCollateral ==
             Balance(tokens, StablecoinVault(stablecoinMint))
    requires VaultsUnchangedExcept(tokens, tokens',
               {NftVault(orders[id].nftMint), StablecoinVault(stablecoinMint)})
    ensures Books(stablecoinMint, orderId, total - orders[id].additionalCollateral,
                  orders - {id}, tokens')
  {
    var rest := orders - {id};
    var total' := total - orders[id].additionalCollateral;
    assert Registered(stablecoinMint, orderId, rest);
    assert DistinctNfts(rest);
    assert NftsLocked(rest, tokens') by {
      forall j | j in rest
        ensures NftVault(rest[j].nftMint) != NftVault(orders[id].nftMint)
      {
      }
    }
    assert Tallied(stablecoinMint, total', rest, tokens') by {
      TotalRemove(orders, Collateral(), id);
      forall j | j in rest
        ensures rest[j].additionalCollateral <= total'
      {
        EntryBelowTotal(rest, Collateral(), j);
      }
    }
  }

  /** Rewriting a stored order's lender and loan fields, with no vault
      touched, keeps the books. */
  lemma FundKeepsBooks(stablecoinMint: Pubkey, orderId: u64, total: u64,
                       orders: map<u64, Order>, tokens: Balances, tokens': Balances,
                       id: u64, o': Order)
    requires Books(stablecoinMint, orderId, total, orders, tokens)
    requires id in orders
    requires o' == orders[id].(lender := o'.lender, loanStartTime := o'.loanStartTime,
                               orderStatus := o'.orderStatus)
    requires !IsVault(o'.lender)
    requires tokens'.Keys >= tokens.Keys
    requires VaultsUnchangedExcept(tokens, tokens', {})
    ensures Books(stablecoinMint, orderId, total, orders[id := o'], tokens')
  {
    var orders' := orders[id := o'];
    assert Registered(stablecoinMint, orderId, orders');
    assert DistinctNfts(orders');
    assert NftsLocked(orders', tokens');
    assert Tallied(stablecoinMint, total, orders', tokens') by {
      TotalUpdate(orders, Collateral(), id, o');
    }
  }

  /** What the instructions keep of a stored order when the clock never
      reads 0: the two status flags agree, nothing is repaid or withdrawn,
      and an unfunded order still has its placeholder lender. */
  predicate OrderConsistent(id: u64, o: Order) {
    FlagsAgree(o) && o.paidBackAt == 0 && o.withdrewAt == 0 &&
    (o.loanStartTime == 0 ==> o.lender == OrderAccount(id))
  }

  ghost predicate AllConsistent(orders: map<u64, Order>) {
    forall id | id in orders :: OrderConsistent(id, orders[id])
  }

  /** Storing (or rewriting) one consistent order keeps every order consistent. */
  lemma StoreKeepsConsistent(orders: map<u64, Order>, id: u64, o: Order)
    requires AllConsistent(orders) && OrderConsistent(id, o)
    ensures AllConsistent(orders[id := o])
  {
  }

  /** Removing an order keeps every other order consistent. */
  lemma RemoveKeepsConsistent(orders: map<u64, Order>, id: u64)
    requires AllConsistent(orders)
    ensures AllConsistent(orders - {id})
  {
  }

  /** A deposit moves nothing into or out of any vault but the two it names. */
  lemma DepositKeepsOtherVaults(tokens: Balances, caller: Pubkey, nftMint: Pubkey,
                                stablecoinMint: Pubkey, amount: nat)
    requires NftVault(nftMint) !in tokens
    requires Deposit(tokens, caller, nftMint, stablecoinMint, amount).Some?
    ensures VaultsUnchangedExcept(tokens, Deposit(tokens, caller, nftMint, stablecoinMint, amount).value,
                                  {NftVault(nftMint), StablecoinVault(stablecoinMint)})
  {

  }

  /** A release moves nothing out of any vault but the two it names. */
  lemma ReleaseKeepsOtherVaults(tokens: Balances, released: Balances, to: Authority,
                                nftMint: Pubkey, stablecoinMint: Pubkey, amount: nat)
    requires Balance(tokens, NftVault(nftMint)) >= 1
    requires Balance(tokens, StablecoinVault(stablecoinMint)) >= amount
    requires !IsVault(to)
    requires released == Release(tokens, to, nftMint, stablecoinMint, amount)
    ensures VaultsUnchangedExcept(tokens, released, {NftVault(nftMint), StablecoinVault(stablecoinMint)})
  {

  }

  /** Releasing to the depositor what a deposit locked gives every account
      its balance back; only the emptied NFT vault remains as a trace. */
  lemma ReleaseUndoesDeposit(tokens: Balances, caller: Pubkey, nftMint: Pubkey,
                             stablecoinMint: Pubkey, amount: nat)
    requires NftVault(nftMint) !in tokens
    requires CanPostCollateral(tokens, caller, nftMint, stablecoinMint, amount)
    ensures
      var deposited := Deposit(tokens, caller, nftMint, stablecoinMint, amount).value;
      var released := Release(deposited, Wallet(caller), nftMint, stablecoinMint, amount);
      NftVault(nftMint) in released && Balance(released, NftVault(nftMint)) == 0 &&
      forall a | a != NftVault(nftMint) :: Balance(released, a) == Balance(tokens, a)
  {

  }

  /** A transfer between two accounts that are not vaults leaves every vault alone. */
  lemma PaymentKeepsVaults(tokens: Balances, paid: Balances, from: TokenAccount,
                           to: TokenAccount, amount: nat)
    requires from.mint == to.mint && !IsVault(from.owner) && !IsVault(to.owner)
    requires Transfer(tokens, from, to, amount) == Some(paid)
    ensures paid.Keys >= tokens.Keys
    ensures VaultsUnchangedExcept(tokens, paid, {})
  {
  }

  /** The token movements of payback, in order: principal plus interest from
      the payer's account to the lender's account, then the NFT and the
      collateral from the vaults to the payer's accounts. Only the payment
      can fail, when the payer holds too little. */
  function Settle(tokens: Balances, payer: Pubkey, o: Order, stablecoinMint: Pubkey): (r: Option<Balances>)
    requires !IsVault(o.lender)
    requires Balance(tokens, NftVault(o.nftMint)) >= 1
    requires Balance(tokens, StablecoinVault(stablecoinMint)) >= o.additionalCollateral
    ensures r.Some? <==>
      o.requestAmount + o.interest <= Balance(tokens, WalletAccount(payer, stablecoinMint))
    ensures r.Some? ==>
      r.value.Keys >= tokens.Keys &&
      Balance(r.value, NftVault(o.nftMint)) + 1 == Balance(tokens, NftVault(o.nftMint)) &&
      Balance(r.value, StablecoinVault(stablecoinMint)) + o.additionalCollateral ==
        Balance(tokens, StablecoinVault(stablecoinMint))
    ensures r.Some? && o.nftMint != stablecoinMint ==>
      Balance(r.value, WalletAccount(payer, o.nftMint)) ==
        Balance(tokens, WalletAccount(payer, o.nftMint)) + 1
    ensures r.Some? && o.lender != Wallet(payer) ==>
      Balance(r.value, TokenAccount(o.lender, stablecoinMint)) ==
        Balance(tokens, TokenAccount(o.lender, stablecoinMint)) + o.requestAmount + o.interest &&
      Balance(r.value, WalletAccount(payer, stablecoinMint)) + o.requestAmount + o.interest ==
        Balance(tokens, WalletAccount(payer, stablecoinMint)) + o.additionalCollateral +
        (if o.nftMint == stablecoinMint then 1 else 0)
    ensures r.Some? && o.lender == Wallet(payer) ==>
      Balance(r.value, WalletAccount(payer, stablecoinMint)) ==
        Balance(tokens, WalletAccount(payer, stablecoinMint)) + o.additionalCollateral +
        (if o.nftMint == stablecoinMint then 1 else 0)
    ensures r.Some? ==>
      OthersUnchanged(tokens, r.value,
        {NftVault(o.nftMint), StablecoinVault(stablecoinMint), WalletAccount(payer, o.nftMint),
         WalletAccount(payer, stablecoinMint), TokenAccount(o.lender, stablecoinMint)})
    ensures r.Some? ==>
      VaultsUnchangedExcept(tokens, r.value, {NftVault(o.nftMint), StablecoinVault(stablecoinMint)})
    ensures r.Some? ==> Conserved(tokens, r.value)
  {
    var from := WalletAccount(payer, stablecoinMint);
    var to := TokenAccount(o.lender, stablecoinMint);
    match Transfer(tokens, from, to, o.requestAmount + o.interest)
    case None => None
    case Some(paid) =>
      PaymentKeepsVaults(tokens, paid, from, to, o.requestAmount + o.interest);
      var released := Release(paid, Wallet(payer), o.nftMint, stablecoinMint, o.additionalCollateral);
      ReleaseKeepsOtherVaults(paid, released, Wallet(payer), o.nftMint, stablecoinMint,
                              o.additionalCollateral);
      Some(released)
  }

  /** One market: its Configuration account, the order accounts that exist
      (their address is derived from the id and the configuration), and the
      token balances the instructions move. */
  class Market {
    var stablecoinMint: Pubkey
    var stablecoinVault: TokenAccount
    var orderId: u64
    var totalAdditionalCollateral: u64
    var feePt: u8
    var orders: map<u64, Order>
    var tokens: Balances

    ghost predicate Valid()
      reads this
    {
      stablecoinVault == StablecoinVault(stablecoinMint) &&
      StablecoinVault(stablecoinMint) in tokens &&
      Books(stablecoinMint, orderId, totalAdditionalCollateral, orders, tokens)
    }

    ghost predicate Consistent()
      reads this
    {
      AllConsistent(orders)
    }

    /** The configuration fields no instruction after initialize writes. */
    ghost predicate SameSetup(stablecoinMint0: Pubkey, feePt0: u8)
      reads this
    {
      stablecoinMint == stablecoinMint0 && feePt == feePt0 &&
      stablecoinVault == StablecoinVault(stablecoinMint0)
    }

    /** initialize: a new market with no orders and an empty shared vault. The
        runtime refuses to create the vault (and so the market) twice. */
    constructor Initialize(stablecoinMint: Pubkey, feePt: u8, tokens: Balances)
      requires StablecoinVault(stablecoinMint) !in tokens
      ensures Valid() && Consistent()
      ensures SameSetup(stablecoinMint, feePt)
      ensures orderId == 0 && totalAdditionalCollateral == 0 && orders == map[]
      ensures this.tokens == tokens[StablecoinVault(stablecoinMint) := 0]
      ensures Conserved(tokens, this.tokens)
    {
      this.stablecoinMint := stablecoinMint;
      stablecoinVault := StablecoinVault(stablecoinMint);
      orderId := 0;
      totalAdditionalCollateral := 0;
      this.feePt := feePt;
      orders := map[];
      this.tokens := tokens[StablecoinVault(stablecoinMint) := 0];
      new;
      forall m ensures Supply(this.tokens, m) == Supply(tokens, m) {
        SetBalanceSupply(tokens, StablecoinVault(stablecoinMint), 0, m);
      }
    }

    /** The end of an instruction: the runtime writes the changed accounts back. */
    method Commit(orderId': u64, total': u64, orders': map<u64, Order>, tokens': Balances)
      modifies this
      ensures stablecoinMint == old(stablecoinMint) && stablecoinVault == old(stablecoinVault)
      ensures feePt == old(feePt)
      ensures orderId == orderId' && totalAdditionalCollateral == total'
      ensures orders == orders' && tokens == tokens'
    {
      orderId, totalAdditionalCollateral, orders, tokens := orderId', total', orders', tokens';
    }

    /** create_order: lock the NFT and the additional collateral in the vaults
        and store a new open order under the current counter value. */
    method CreateOrder(caller: Pubkey, nftMint: Pubkey, requestAmount: u64, interest: u64,
                       period: u64, additionalCollateral: u64, now: u64)
      returns (r: Outcome)
      requires Valid()
      modifies this
      ensures r.Err? ==> unchanged(this)
      ensures Valid()
      ensures old(Consistent()) ==> Consistent()
      ensures SameSetup(old(stablecoinMint), old(feePt))
      ensures r.Ok? <==>
        CreateCheck(old(tokens), caller, nftMint, stablecoinMint, requestAmount,
                    additionalCollateral, old(orderId), old(totalAdditionalCollateral)).None?
      ensures r.Err? ==>
        Some(r.error) == CreateCheck(old(tokens), caller, nftMint, stablecoinMint, requestAmount,
                                     additionalCollateral, old(orderId),
                                     old(totalAdditionalCollateral))
      ensures r.Ok? ==>
        old(orderId) !in old(orders) &&
        orders == old(orders)[old(orderId) := Opened(old(orderId), caller, stablecoinMint, nftMint,
                                                     requestAmount, interest, period,
                                                     additionalCollateral, now)] &&
        orderId == old(orderId) + 1 &&
        totalAdditionalCollateral == old(totalAdditionalCollateral) + additionalCollateral
      ensures r.Ok? ==>
        tokens == Deposit(old(tokens), caller, nftMint, stablecoinMint, additionalCollateral).value
      ensures tokens.Keys >= old(tokens).Keys
      ensures Conserved(old(tokens), tokens)
    {
      // The runtime loads the caller's accounts and creates the NFT vault
      // before the body runs.
      if !HoldsAccounts(tokens, Wallet(caller), nftMint, stablecoinMint) {
        r := Err(AccountNotInitialized);
      } else if NftVault(nftMint) in tokens {
        r := Err(AccountAlreadyInUse);
      } else if requestAmount == 0 {
        r := Err(AmountMustBeGreaterThanZero);
      } else {
        var deposited := Deposit(tokens, caller, nftMint, stablecoinMint, additionalCollateral);
        var total := CheckedAdd(totalAdditionalCollateral, additionalCollateral);
        var next := CheckedAdd(orderId, 1);
        if deposited.None? {
          r := Err(InsufficientFunds);
        } else if total.None? || next.None? {
          // The `+=` on the counters panics and the whole instruction is undone.
          r := Err(ArithmeticOverflow);
        } else {
          var order := Opened(orderId, caller, stablecoinMint, nftMint, requestAmount, interest,
                              period, additionalCollateral, now);
          DepositKeepsOtherVaults(tokens, caller, nftMint, stablecoinMint, additionalCollateral);
          OpenKeepsBooks(stablecoinMint, orderId, totalAdditionalCollateral, orders, tokens,
                         deposited.value, order);
          if AllConsistent(orders) {
            StoreKeepsConsistent(orders, orderId, order);
          }
          Commit(next.value, total.value, orders[orderId := order], deposited.value);
          r := Ok;
        }
      }
    }

    /** cancel_order: give the NFT and the collateral of an order no loan
        was given for back to whoever signs, and close the order. The NFT's
        vault stays open (empty). */
    method CancelOrder(caller: Pubkey, id: u64) returns (r: Outcome)
      requires Valid()
      modifies this
      ensures r.Err? ==> unchanged(this)
      ensures Valid()
      ensures old(Consistent()) ==> Consistent()
      ensures SameSetup(old(stablecoinMint), old(feePt)) && orderId == old(orderId)
      ensures r == Err(AccountNotInitialized) <==>
        id !in old(orders) ||
        !HoldsAccounts(old(tokens), Wallet(caller), old(orders)[id].nftMint, stablecoinMint)
      ensures r == Err(LoanAlreadyStarted) <==>
        id in old(orders) &&
        HoldsAccounts(old(tokens), Wallet(caller), old(orders)[id].nftMint, stablecoinMint) &&
        StartedFlags(old(orders)[id])
      ensures r.Ok? <==>
        id in old(orders) &&
        HoldsAccounts(old(tokens), Wallet(caller), old(orders)[id].nftMint, stablecoinMint) &&
        !StartedFlags(old(orders)[id])
      ensures r.Ok? ==>
        var o := old(orders)[id];
        orders == old(orders) - {id} &&
        totalAdditionalCollateral + o.additionalCollateral == old(totalAdditionalCollateral) &&
        tokens == Release(old(tokens), Wallet(caller), o.nftMint, stablecoinMint,
                          o.additionalCollateral) &&
        NftVault(o.nftMint) in tokens
      ensures tokens.Keys >= old(tokens).Keys
      ensures Conserved(old(tokens), tokens)
    {
      if id !in orders {
        r := Err(AccountNotInitialized);
      } else {
        var o := orders[id];
        if !HoldsAccounts(tokens, Wallet(caller), o.nftMint, stablecoinMint) {
          r := Err(AccountNotInitialized);
        } else if StartedFlags(o) {
          r := Err(LoanAlreadyStarted);
        } else {
          var released := Release(tokens, Wallet(caller), o.nftMint, stablecoinMint,
                                  o.additionalCollateral);
          ReleaseKeepsOtherVaults(tokens, released, Wallet(caller), o.nftMint, stablecoinMint,
                                  o.additionalCollateral);
          CloseKeepsBooks(stablecoinMint, orderId, totalAdditionalCollateral, orders, tokens,
                          released, id);
          if AllConsistent(orders) {
            RemoveKeepsConsistent(orders, id);
          }
          Commit(orderId, totalAdditionalCollateral - o.additionalCollateral, orders - {id},
                 released);
          r := Ok;
        }
      }
    }

    /** give_loan: the signer pays the requested amount to the borrower and
        becomes the order's lender; the loan starts at `now`. */
    method GiveLoan(caller: Pubkey, id: u64, now: u64) returns (r: Outcome)
      requires Valid()
      modifies this
      ensures r.Err? ==> unchanged(this)
      ensures Valid()
      ensures old(Consistent()) && now != 0 ==> Consistent()
      ensures SameSetup(old(stablecoinMint), old(feePt)) && orderId == old(orderId)
      ensures totalAdditionalCollateral == old(totalAdditionalCollateral)
      ensures r == Err(AccountNotInitialized) <==>
        id !in old(orders) || !FundingAccounts(old(tokens), caller, old(orders)[id], stablecoinMint)
      ensures r == Err(LoanAlreadyStarted) <==>
        id in old(orders) && FundingAccounts(old(tokens), caller, old(orders)[id], stablecoinMint) &&
        StartedFlags(old(orders)[id])
      ensures r == Err(InsufficientFunds) <==>
        id in old(orders) && FundingAccounts(old(tokens), caller, old(orders)[id], stablecoinMint) &&
        !StartedFlags(old(orders)[id]) &&
        Balance(old(tokens), WalletAccount(caller, stablecoinMint)) < old(orders)[id].requestAmount
      ensures r.Ok? <==>
        id in old(orders) && FundingAccounts(old(tokens), caller, old(orders)[id], stablecoinMint) &&
        !StartedFlags(old(orders)[id]) &&
        Balance(old(tokens), WalletAccount(caller, stablecoinMint)) >= old(orders)[id].requestAmount
      ensures r.Ok? ==>
        var o := old(orders)[id];
        orders == old(orders)[id := o.(lender := Wallet(caller), loanStartTime := now,
                                       orderStatus := false)] &&
        tokens == Transfer(old(tokens), WalletAccount(caller, stablecoinMint),
                           WalletAccount(o.borrower, stablecoinMint), o.requestAmount).value
      ensures tokens.Keys >= old(tokens).Keys
      ensures Conserved(old(tokens), tokens)
    {
      if id !in orders {
        r := Err(AccountNotInitialized);
      } else {
        var o := orders[id];
        if !FundingAccounts(tokens, caller, o, stablecoinMint) {
          r := Err(AccountNotInitialized);
        } else if StartedFlags(o) {
          r := Err(LoanAlreadyStarted);
        } else {
          var paid := Transfer(tokens, WalletAccount(caller, stablecoinMint),
                               WalletAccount(o.borrower, stablecoinMint), o.requestAmount);
          if paid.None? {
            r := Err(InsufficientFunds);
          } else {
            var funded := o.(lender := Wallet(caller), loanStartTime := now, orderStatus := false);
            PaymentKeepsVaults(tokens, paid.value, WalletAccount(caller, stablecoinMint),
                               WalletAccount(o.borrower, stablecoinMint), o.requestAmount);
            FundKeepsBooks(stablecoinMint, orderId, totalAdditionalCollateral, orders, tokens,
                           paid.value, id, funded);
            if AllConsistent(orders) && now != 0 {
              StoreKeepsConsistent(orders, id, funded);
            }
            Commit(orderId, totalAdditionalCollateral, orders[id := funded], paid.value);
            r := Ok;
          }
        }
      }
    }

    /** payback: the signer pays principal plus interest to the lender before
        the deadline, receives the NFT and the collateral, and the order closes. */
    method Payback(caller: Pubkey, id: u64, now: u64) returns (r: Outcome)
      requires Valid()
      modifies this
      ensures r.Err? ==> unchanged(this)
      ensures Valid()
      ensures old(Consistent()) ==> Consistent()
      ensures SameSetup(old(stablecoinMint), old(feePt)) && orderId == old(orderId)
      ensures r == Err(AccountNotInitialized) <==>
        id !in old(orders) || !RepayingAccounts(old(tokens), caller, old(orders)[id], stablecoinMint)
      ensures id in old(orders) && RepayingAccounts(old(tokens), caller, old(orders)[id], stablecoinMint) &&
              PaybackCheck(old(orders)[id], now).Some? ==>
        r == Err(PaybackCheck(old(orders)[id], now).value)
      ensures id in old(orders) && RepayingAccounts(old(tokens), caller, old(orders)[id], stablecoinMint) &&
              PaybackCheck(old(orders)[id], now).None? ==>
        var o := old(orders)[id];
        (r == Err(ArithmeticOverflow) <==> o.requestAmount + o.interest > U64_MAX) &&
        (r == Err(InsufficientFunds) <==>
           o.requestAmount + o.interest <= U64_MAX &&
           Balance(old(tokens), WalletAccount(caller, stablecoinMint)) < o.requestAmount + o.interest)
      ensures r.Ok? <==>
        id in old(orders) && RepayingAccounts(old(tokens), caller, old(orders)[id], stablecoinMint) &&
        PaybackCheck(old(orders)[id], now).None? &&
        old(orders)[id].requestAmount + old(orders)[id].interest <= U64_MAX &&
        Balance(old(tokens), WalletAccount(caller, stablecoinMint)) >=
          old(orders)[id].requestAmount + old(orders)[id].interest
      ensures r.Ok? ==>
        var o := old(orders)[id];
        orders == old(orders) - {id} &&
        totalAdditionalCollateral + o.additionalCollateral == old(totalAdditionalCollateral) &&
        tokens == Settle(old(tokens), caller, o, stablecoinMint).value &&
        NftVault(o.nftMint) in tokens
      ensures tokens.Keys >= old(tokens).Keys
      ensures Conserved(old(tokens), tokens)
    {
      if id !in orders {
        r := Err(AccountNotInitialized);
      } else {
        var o := orders[id];
        var check := PaybackCheck(o, now);
        if !RepayingAccounts(tokens, caller, o, stablecoinMint) {
          r := Err(AccountNotInitialized);
        } else if check.Some? {
          r := Err(check.value);
        } else {
          if CheckedAdd(o.requestAmount, o.interest).None? {
            r := Err(ArithmeticOverflow);
          } else {
            var settled := Settle(tokens, caller, o, stablecoinMint);
            if settled.None? {
              r := Err(InsufficientFunds);
            } else {
              CloseKeepsBooks(stablecoinMint, orderId, totalAdditionalCollateral, orders, tokens,
                              settled.value, id);
              if AllConsistent(orders) {
                RemoveKeepsConsistent(orders, id);
              }
              Commit(orderId, totalAdditionalCollateral - o.additionalCollateral, orders - {id},
                     settled.value);
              r := Ok;
            }
          }
        }
      }
    }

    /** liquidate: after the deadline, the lender's accounts receive the NFT
        and the collateral, and the order closes. Whoever signs only collects
        the closed account's rent, which is not modelled. */
    method Liquidate(id: u64, now: u64) returns (r: Outcome)
      requires Valid()
      modifies this
      ensures r.Err? ==> unchanged(this)
      ensures Valid()
      ensures old(Consistent()) ==> Consistent()
      ensures old(Consistent()) ==> r != Err(AlreadyLiquidated)
      ensures SameSetup(old(stablecoinMint), old(feePt)) && orderId == old(orderId)
      ensures r == Err(AccountNotInitialized) <==>
        id !in old(orders) ||
        !HoldsAccounts(old(tokens), old(orders)[id].lender, old(orders)[id].nftMint, stablecoinMint)
      ensures id in old(orders) &&
              HoldsAccounts(old(tokens), old(orders)[id].lender, old(orders)[id].nftMint, stablecoinMint) &&
              LiquidateCheck(old(orders)[id], now).Some? ==>
        r == Err(LiquidateCheck(old(orders)[id], now).value)
      ensures r.Ok? <==>
        id in old(orders) &&
        HoldsAccounts(old(tokens), old(orders)[id].lender, old(orders)[id].nftMint, stablecoinMint) &&
        LiquidateCheck(old(orders)[id], now).None?
      ensures r.Ok? ==>
        var o := old(orders)[id];
        orders == old(orders) - {id} &&
        totalAdditionalCollateral + o.additionalCollateral == old(totalAdditionalCollateral) &&
        tokens == Release(old(tokens), o.lender, o.nftMint, stablecoinMint,
                          o.additionalCollateral) &&
        NftVault(o.nftMint) in tokens
      ensures tokens.Keys >= old(tokens).Keys
      ensures Conserved(old(tokens), tokens)
    {
      if id !in orders {
        r := Err(AccountNotInitialized);
      } else {
        var o := orders[id];
        var check := LiquidateCheck(o, now);
        if !HoldsAccounts(tokens, o.lender, o.nftMint, stablecoinMint) {
          r := Err(AccountNotInitialized);
        } else if check.Some? {
          r := Err(check.value);
        } else {
          var released := Release(tokens, o.lender, o.nftMint, stablecoinMint,
                                  o.additionalCollateral);
          ReleaseKeepsOtherVaults(tokens, released, o.lender, o.nftMint, stablecoinMint,
                                  o.additionalCollateral);
          CloseKeepsBooks(stablecoinMint, orderId, totalAdditionalCollateral, orders, tokens,
                          released, id);
          if AllConsistent(orders) {
            RemoveKeepsConsistent(orders, id);
          }
          Commit(orderId, totalAdditionalCollateral - o.additionalCollateral, orders - {id},
                 released);
          r := Ok;
        }
      }
    }
  }
}
