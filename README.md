# NFT-collateralised loans, modelled in Dafny

This project models the `nft_loans` program: a lending market for one
stablecoin in which a borrower locks an NFT plus some stablecoin as
collateral and asks for a loan. A lender funds the order. The borrower then
repays before the deadline, or the lender liquidates after it.

The model follows `programs/nft-loans/src/lib.rs` handler by handler:

- `option.dfy` has the `Option` datatype.
- `sums.dfy` (module `Sums`) adds up weighted entries of a finite map. The
  collateral ledger and the per-mint token supply are both such sums.
- `token.dfy` (module `Token`) models the token program as the market uses it.
  A token account is identified by its owner and its mint and holds a balance.
  A transfer moves an amount between two accounts of the same mint, and fails
  when the source holds too little. No mint's supply changes.
- `nft_loans.dfy` (module `NftLoans`) holds the `Order` record, the error
  codes, the guards of each handler, and the token movements of each handler:
  `Deposit`, `Release` and `Settle`. It also holds the market's accounting
  invariant (`Books`) with one preservation lemma per kind of change. Class
  `Market` holds the `Configuration` fields, the order accounts that exist
  (a map from order id to `Order`), and the token balances. Its constructor
  is `initialize`; its methods are the five other handlers.
- `lifecycles.dfy` (module `Lifecycles`) drives a fresh market through whole
  order lifecycles, as the integration tests do. It states what each call
  returns, given the calls before it.

Each handler is all-or-nothing, like a Solana transaction. It computes the
new balances and records as values. Only on success does it write them back
through `Market.Commit`, which stands for the runtime storing the accounts
when the instruction ends. Every error leaves the market unchanged. Every
handler keeps `Valid()`, which says:

- the shared stablecoin vault exists;
- the stored orders' ids are below `order_id`;
- each stored order names the market's vault and its own NFT's vault;
- no NFT backs two stored orders;
- each stored order's NFT vault holds exactly 1;
- `total_additional_collateral` equals the sum of the stored orders'
  `additional_collateral`, and the shared stablecoin vault holds at least
  that much. It can hold more, because anyone may send stablecoin to it.

Because of this invariant, the withdrawals from the vaults in cancel, payback
and liquidate cannot fail, and the `-=` on the total never underflows.
`Consistent()` is kept separately, when the clock never reads 0. It says the
two status flags of every stored order agree, `paid_back_at` and
`withdrew_at` are 0, and an unfunded order still has its placeholder lender.
Under it the guards collapse to "funded or not", and liquidate never answers
`AlreadyLiquidated`.

Some of what the code does is worth spelling out:

- `cancel_order` and `payback` send the NFT and the collateral to whoever
  signs. The receiving accounts are tied to the signer (lines 436-437 and
  454-457, 567-568 and 585-587), and nothing checks that the signer is the
  borrower. `Lifecycles.CancelledByStranger` shows a stranger cancelling an
  order and receiving the NFT.
- The errors are the program's own `ErrorCode` values plus the failures the
  runtime reports. Those failures are:
  - an account the instruction loads is missing: the order account, or a
    user's token account;
  - an account that `init` must create already exists;
  - a transfer from an account that holds too little;
  - an aborted u64 addition.
- The runtime loads every account before the handler body runs. So a
  missing token account of the signer, the borrower or the lender fails the
  instruction with `AccountNotInitialized` before any of the program's own
  checks.
- The NFT vault is created by `create_order` and never closed. So an NFT
  whose order was closed can never be listed again: the vault's `init` fails
  (`Lifecycles.RelistAfterCancel`).

## Model

| member | source | states |
|---|---|---|
| NftLoans.Market.Initialize | programs/nft-loans/src/lib.rs:22-30 | a new market has `order_id` 0, total 0, no orders, the given fee and stablecoin, and a new empty shared vault; it is `Valid` and `Consistent`; no tokens appear |
| NftLoans.Market.CreateOrder | programs/nft-loans/src/lib.rs:33-90 | fails exactly when `CreateCheck` reports an error, and with that error. On success it stores the open order under the old `order_id`, adds 1 to `order_id` and the collateral to the total, and makes exactly the two deposits. Errors change nothing; `Valid`, `Consistent`, every token account and every mint's supply are kept |
| NftLoans.CreateCheck | programs/nft-loans/src/lib.rs:353-381 | create_order's failures in the order they arise: `AccountNotInitialized` iff the caller lacks a token account for the stablecoin or the NFT; then `AccountAlreadyInUse` iff the NFT's vault exists; then `AmountMustBeGreaterThanZero` iff the request is 0 (line 34); then `InsufficientFunds` iff the caller cannot post the NFT and the collateral (lines 38-62); then `ArithmeticOverflow` iff the total or `order_id` would leave u64 (lines 83-85); no error otherwise |
| NftLoans.Market.CancelOrder | programs/nft-loans/src/lib.rs:92-141 | fails with `AccountNotInitialized` iff no order has that id or the signer lacks a token account for the stablecoin or the NFT; then with `LoanAlreadyStarted` iff its flags say started; otherwise it removes the order, lowers the total by its collateral, and releases the NFT and the collateral to the signer's accounts, leaving the NFT vault in place; `order_id` is unchanged |
| NftLoans.Market.GiveLoan | programs/nft-loans/src/lib.rs:143-169 | fails with `AccountNotInitialized` iff no order has that id or the signer or the borrower lacks a stablecoin account; then `LoanAlreadyStarted` as cancel does; then `InsufficientFunds` iff the signer holds less than the request; on success the request moves from the signer to the borrower and the order gets `lender = signer`, `loan_start_time = now` and `order_status = false`; the configuration is untouched; `Consistent` is kept when `now != 0` |
| NftLoans.Market.Payback | programs/nft-loans/src/lib.rs:171-238 | fails with `AccountNotInitialized` iff no order has that id, the lender lacks a stablecoin account, or the signer lacks a token account for the stablecoin or the NFT; then with the first error `PaybackCheck` reports; then with an overflow iff principal plus interest leaves u64, then `InsufficientFunds` iff the signer cannot pay that sum; on success it pays the lender, returns the NFT and the collateral to the signer, removes the order and lowers the total |
| NftLoans.Market.Liquidate | programs/nft-loans/src/lib.rs:240-298 | fails with `AccountNotInitialized` iff no order has that id or the lender lacks a token account for the stablecoin or the NFT; then with the first error `LiquidateCheck` reports; on success it sends the NFT and the collateral to the lender's accounts, removes the order and lowers the total; on a `Consistent` market it never answers `AlreadyLiquidated` |
| NftLoans.CheckedAdd | programs/nft-loans/src/lib.rs:180 | `checked_add` gives the sum exactly when it fits in u64 |
| NftLoans.PaybackCheck | programs/nft-loans/src/lib.rs:175-182 | `LoanNotProvided` iff `loan_start_time == 0 && order_status`; otherwise an overflow iff the deadline leaves u64; otherwise `RepaymentPeriodExceeded` iff deadline `< now`; no error iff `now <= deadline` |
| NftLoans.LiquidateCheck | programs/nft-loans/src/lib.rs:244-255 | `LoanNotProvided` on the same flags; overflow of the deadline; `RepaymentPeriodNotExceeded` iff deadline `> now`; `AlreadyLiquidated` iff the deadline passed and `withdrew_at != 0`; no error otherwise |
| NftLoans.GuardsCollapse | programs/nft-loans/src/lib.rs:96-98 | when the flags agree, the `LoanAlreadyStarted` guard (also line 146) holds iff the order is funded, and the `LoanNotProvided` guard (lines 175, 244) holds iff it is not |
| NftLoans.DeadlineWindows | programs/nft-loans/src/lib.rs:180-182 | with the line 249-251 check: for a funded order, payback or liquidate passes its deadline check at every instant, and both pass exactly at `loan_start_time + period` |
| Token.Transfer | programs/nft-loans/src/lib.rs:39-48 | a transfer succeeds iff the source holds the amount; then exactly the source loses and the destination gains it (a self-transfer changes nothing), every other account is unchanged, and every mint's supply is the same |
| Token.SetBalanceSupply | programs/nft-loans/src/lib.rs:48 | overwriting one balance changes only its own mint's supply, by the difference |
| NftLoans.Deposit | programs/nft-loans/src/lib.rs:38-62 | create_order's two deposits succeed iff the caller holds the NFT and, besides it, the collateral; the new NFT vault then holds 1, the shared vault gains the collateral, the caller's accounts lose them, nothing else changes, and supply is conserved |
| NftLoans.Release | programs/nft-loans/src/lib.rs:102-137 | the two vault withdrawals move 1 NFT and the collateral from the vaults to the receiver's accounts, change nothing else, and conserve supply |
| NftLoans.Settle | programs/nft-loans/src/lib.rs:189-234 | payback's movements succeed iff the payer holds principal plus interest; the vaults lose the NFT and the collateral to the payer. When the lender is not the payer, the lender's stablecoin account gains that sum and the payer's loses it net of the returned collateral. When the lender signs payback themselves, their stablecoin account just gains the collateral. When the NFT's mint is the stablecoin, the returned NFT is counted in the same account. No account outside the two vaults, the payer's two accounts and the lender's stablecoin account changes, and supply is conserved |
| NftLoans.ReleaseUndoesDeposit | programs/nft-loans/src/lib.rs:102-137 | releasing to the depositor what create_order deposited gives every account its old balance back; the only trace is the empty NFT vault |
| NftLoans.DepositKeepsOtherVaults | programs/nft-loans/src/lib.rs:38-62 | a deposit changes no vault except the new NFT vault and the shared vault |
| NftLoans.ReleaseKeepsOtherVaults | programs/nft-loans/src/lib.rs:102-137 | a release changes no vault except the order's NFT vault and the shared vault |
| NftLoans.PaymentKeepsVaults | programs/nft-loans/src/lib.rs:150-161 | a transfer between two user accounts changes no vault |
| NftLoans.OpenKeepsBooks | programs/nft-loans/src/lib.rs:83-85 | storing a new order under the counter, with its NFT and collateral deposited, keeps the books with the counter plus 1 and the total plus the collateral |
| NftLoans.CloseKeepsBooks | programs/nft-loans/src/lib.rs:138 | removing an order whose NFT and collateral were withdrawn keeps the books with the total minus its collateral, so the `-=` cannot underflow (also lines 235, 295) |
| NftLoans.FundKeepsBooks | programs/nft-loans/src/lib.rs:164-166 | rewriting an order's lender and loan fields, without touching a vault, keeps the books |
| NftLoans.StoreKeepsConsistent | programs/nft-loans/src/lib.rs:75-89 | storing a consistent order keeps every stored order consistent |
| NftLoans.RemoveKeepsConsistent | programs/nft-loans/src/lib.rs:422 | closing an order keeps every other order consistent |
| Lifecycles.RepaidLoan | tests/nft-loans.ts:258-307 | after list and fund, a payback within the period succeeds unless the deadline or principal plus interest overflows, or the payer lacks funds; once repaid the order id is gone and liquidating it fails with `AccountNotInitialized` |
| Lifecycles.LiquidatedLoan | tests/nft-loans.ts:405-529 | after list and fund, once the period has passed, payback fails with `RepaymentPeriodExceeded`; liquidation succeeds when the lender holds an account for the NFT (the test creates it first); a second liquidation finds no order |
| Lifecycles.EarlyLiquidation | programs/nft-loans/src/lib.rs:249-251 | liquidating a funded order before its deadline fails with `RepaymentPeriodNotExceeded`, once the lender's accounts load |
| Lifecycles.CancelledByStranger | programs/nft-loans/src/lib.rs:454-457 | any signer who holds token accounts for the two mints can cancel an open order and receives its NFT; afterwards the order can no longer be funded |
| Lifecycles.RelistAfterCancel | programs/nft-loans/src/lib.rs:373-381 | after an order is cancelled, listing the same NFT again, by anyone whose accounts load, fails with `AccountAlreadyInUse`, because its vault still exists |

## Left out

- The token program's internals are not modelled. Only the balance check and
  the movement of a transfer are. Destination overflow is not modelled:
  balances are unbounded.
- `Token.Transfer` and `Token.Balance` are defined for missing accounts too.
  A missing account reads as 0, and a transfer creates it. The handlers
  check first that every user token account they name exists, so this
  never arises within an instruction.
- Transfers and mints that other programs or users make are not modelled as
  operations. `Valid()` allows extra stablecoin in the shared vault. It does
  not allow a second unit minted into a listed NFT's vault: `Valid()` asks
  each such vault to hold exactly 1.
- Account validation is otherwise reduced to the accounts it admits. Left out
  are PDA seeds and bumps, `has_one`, the order's vault and mint constraints,
  and the program's signing of vault withdrawals. Each vault is identified by
  its mint. Each user account is identified by its owner and mint.
- The mint checks `supply == 1` and `decimals == 0` (lines 361-362, 442-443,
  573-574, 640-641) are left out. The NFT's mint authority is not revoked. So
  if more units of the NFT are minted after listing, the program can no longer
  cancel, repay or liquidate that order, and its collateral stays frozen. The
  model does not capture this.
- Rent, lamports and the payer of `init` are not modelled. Nor is the rent
  that `close = signer` returns, so `NftLoans.Market.Liquidate` takes no
  signer.
- `Clock::get()` and the `i64 as u64` cast are left out. `now` is a u64
  parameter of each handler.
- The writes to `paid_back_at` and `withdrew_at` just before the order closes
  cannot be observed, so they are not stored.
- `fee_pt` is only stored.
- The `LEN` sizes and account serialisation are not modelled.
- Concurrency and transaction scheduling are not modelled. Each handler is
  one atomic step.
- Only one market is modelled. The NFT vault's address depends on the NFT
  alone, so in the program it is shared by all markets.
- The `+=` at lines 83 and 85 is modelled as an aborting overflow, like
  `checked_add`. In the program, wrapping or panicking depends on the build
  profile.
- `NftLoans.Market.Initialize` requires that the market's vault account does
  not exist. The runtime's refusal to initialise twice is not modelled as an
  error outcome.
- A missing order account or user token account answers
  `AccountNotInitialized`. An `init` on an existing NFT vault answers
  `AccountAlreadyInUse`. Both come from the
  runtime, not from `ErrorCode`.
