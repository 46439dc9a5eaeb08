/** Whole order lifecycles on a fresh market, in the shape a client drives
    them: what each instruction returns given what ran before it. */
module Lifecycles {
  import opened Optional
  import opened Token
  import opened NftLoans

  /** List, fund, repay within the period. Once repaid the id names no
      order, so liquidating it fails. */
  method RepaidLoan(stablecoinMint: Pubkey, feePt: u8, tokens: Balances,
                    borrower: Pubkey, lender: Pubkey, nftMint: Pubkey,
                    requestAmount: u64, interest: u64, period: u64,
                    additionalCollateral: u64, start: u64, end: u64)
    returns (created: Outcome, given: Outcome, repaid: Outcome, liquidated: Outcome)
    requires StablecoinVault(stablecoinMint) !in tokens
    ensures given.Ok? ==> created.Ok?
    ensures created.Ok? && given.Ok? && start != 0 && end <= start + period ==>
      repaid.Ok? || repaid == Err(ArithmeticOverflow) || repaid == Err(InsufficientFunds)
    ensures repaid.Ok? ==> created.Ok? && given.Ok? && liquidated == Err(AccountNotInitialized)
  {
    var m := new Market.Initialize(stablecoinMint, feePt, tokens);
    created := m.CreateOrder(borrower, nftMint, requestAmount, interest, period,
                             additionalCollateral, start);
    ghost var listed := Opened(0, borrower, stablecoinMint, nftMint, requestAmount, interest,
                               period, additionalCollateral, start);
    assert created.Ok? ==> 0 in m.orders && m.orders[0] == listed;
    assert created.Err? ==> 0 !in m.orders;
    given := m.GiveLoan(lender, 0, start);
    ghost var funded := listed.(lender := Wallet(lender), loanStartTime := start,
                                orderStatus := false);
    assert given.Ok? ==> created.Ok? && 0 in m.orders && m.orders[0] == funded;
    assert given.Ok? && start != 0 && end <= start + period ==>
      PaybackCheck(funded, end) == None || PaybackCheck(funded, end) == Some(ArithmeticOverflow);
    repaid := m.Payback(borrower, 0, end);
    assert repaid.Ok? ==> 0 !in m.orders;
    liquidated := m.Liquidate(0, end);
  }

  /** List, fund, let the period pass. Repayment is refused, liquidation
      succeeds once the lender has an account for the NFT, and afterwards no
      order is left to liquidate. */
  method LiquidatedLoan(stablecoinMint: Pubkey, feePt: u8, tokens: Balances,
                        borrower: Pubkey, lender: Pubkey, nftMint: Pubkey,
                        requestAmount: u64, interest: u64, period: u64,
                        additionalCollateral: u64, start: u64, end: u64)
    returns (created: Outcome, given: Outcome, late: Outcome,
             liquidated: Outcome, again: Outcome)
    requires StablecoinVault(stablecoinMint) !in tokens
    ensures created.Ok? && given.Ok? && start != 0 && start + period < end ==>
      late == Err(RepaymentPeriodExceeded) &&
      (WalletAccount(lender, nftMint) in tokens ==> liquidated.Ok?) &&
      again == Err(AccountNotInitialized)
  {
    var m := new Market.Initialize(stablecoinMint, feePt, tokens);
    created := m.CreateOrder(borrower, nftMint, requestAmount, interest, period,
                             additionalCollateral, start);
    ghost var listed := Opened(0, borrower, stablecoinMint, nftMint, requestAmount, interest,
                               period, additionalCollateral, start);
    assert created.Ok? ==> 0 in m.orders && m.orders[0] == listed;
    given := m.GiveLoan(lender, 0, start);
    ghost var funded := listed.(lender := Wallet(lender), loanStartTime := start,
                                orderStatus := false);
    assert created.Ok? && given.Ok? ==> 0 in m.orders && m.orders[0] == funded;
    assert start != 0 && start + period < end ==>
      PaybackCheck(funded, end) == Some(RepaymentPeriodExceeded) &&
      LiquidateCheck(funded, end) == None;
    late := m.Payback(borrower, 0, end);
    assert created.Ok? && given.Ok? && start + period < end ==>
      late == Err(RepaymentPeriodExceeded) && 0 in m.orders && m.orders[0] == funded;
    liquidated := m.Liquidate(0, end);
    again := m.Liquidate(0, end);
  }

  /** List, fund, try to liquidate before the deadline: refused. */
  method EarlyLiquidation(stablecoinMint: Pubkey, feePt: u8, tokens: Balances,
                          borrower: Pubkey, lender: Pubkey, nftMint: Pubkey,
                          requestAmount: u64, interest: u64, period: u64,
                          additionalCollateral: u64, start: u64, now: u64)
    returns (created: Outcome, given: Outcome, liquidated: Outcome)
    requires StablecoinVault(stablecoinMint) !in tokens
    ensures created.Ok? && given.Ok? && start != 0 && now < start + period <= U64_MAX &&
            WalletAccount(lender, nftMint) in tokens ==>
      liquidated == Err(RepaymentPeriodNotExceeded)
  {
    var m := new Market.Initialize(stablecoinMint, feePt, tokens);
    created := m.CreateOrder(borrower, nftMint, requestAmount, interest, period,
                             additionalCollateral, start);
    ghost var listed := Opened(0, borrower, stablecoinMint, nftMint, requestAmount, interest,
                               period, additionalCollateral, start);
    assert created.Ok? ==> 0 in m.orders && m.orders[0] == listed;
    given := m.GiveLoan(lender, 0, start);
    liquidated := m.Liquidate(0, now);
  }

  /** List, then cancel by someone else: nothing ties the signer of
      cancel_order to the borrower, so a signer holding accounts for the two
      mints receives the NFT (and the collateral), and the order can no
      longer be funded. Returns the
      signer's NFT balance afterwards. */
  method CancelledByStranger(stablecoinMint: Pubkey, feePt: u8, tokens: Balances,
                             borrower: Pubkey, stranger: Pubkey, nftMint: Pubkey,
                             requestAmount: u64, interest: u64, period: u64,
                             additionalCollateral: u64, now: u64)
    returns (created: Outcome, cancelled: Outcome, given: Outcome, strangerNfts: nat)
    requires StablecoinVault(stablecoinMint) !in tokens
    ensures created.Ok? && HoldsAccounts(tokens, Wallet(stranger), nftMint, stablecoinMint) ==>
      cancelled.Ok?
    ensures cancelled.Ok? ==> given == Err(AccountNotInitialized)
    ensures cancelled.Ok? && stranger != borrower && nftMint != stablecoinMint ==>
      strangerNfts == Balance(tokens, WalletAccount(stranger, nftMint)) + 1
  {
    var m := new Market.Initialize(stablecoinMint, feePt, tokens);
    created := m.CreateOrder(borrower, nftMint, requestAmount, interest, period,
                             additionalCollateral, now);
    ghost var listed := m.tokens;
    assert created.Ok? && stranger != borrower ==>
      Balance(listed, WalletAccount(stranger, nftMint)) ==
      Balance(tokens, WalletAccount(stranger, nftMint));
    cancelled := m.CancelOrder(stranger, 0);
    given := m.GiveLoan(stranger, 0, now);
    strangerNfts := Balance(m.tokens, WalletAccount(stranger, nftMint));
  }

  /** List, cancel, list the same NFT again: the NFT's vault outlived the
      order, so creating it again is refused, whoever tries (once their own
      accounts have loaded). */
  method RelistAfterCancel(stablecoinMint: Pubkey, feePt: u8, tokens: Balances,
                           borrower: Pubkey, nftMint: Pubkey, anyone: Pubkey,
                           requestAmount: u64, interest: u64, period: u64,
                           additionalCollateral: u64, now: u64)
    returns (created: Outcome, cancelled: Outcome, relisted: Outcome)
    requires StablecoinVault(stablecoinMint) !in tokens
    ensures created.Ok? ==> cancelled.Ok?
    ensures created.Ok? && HoldsAccounts(tokens, Wallet(anyone), nftMint, stablecoinMint) ==>
      relisted == Err(AccountAlreadyInUse)
  {
    var m := new Market.Initialize(stablecoinMint, feePt, tokens);
    created := m.CreateOrder(borrower, nftMint, requestAmount, interest, period,
                             additionalCollateral, now);
    cancelled := m.CancelOrder(borrower, 0);
    relisted := m.CreateOrder(anyone, nftMint, requestAmount, interest, period,
                              additionalCollateral, now);
  }
}
