/**
 * The contract calls the loan workflows issue, and the replies they get.
 *
 * Every remote interaction (building the wallet from the private key, a
 * contract read, submitting a transaction and waiting for it) is an input:
 * an `Oracle` fixes, for one run, what each step receives, with `None` or
 * `false` standing for a call that threw. Each step is issued at most once
 * per run, so one reply per step covers every behaviour of the chain.
 * The calls actually issued are recorded, with their arguments, as a
 * `seq<Call>` trace.
 */
module Remote {
  import opened Options

  datatype Call =
    | BalanceOf(token: string, owner: string)
    | Decimals(token: string)
    | EnterMarkets(controller: string, markets: seq<string>)
    | Approve(token: string, spender: string, amount: nat)
    | Mint(market: string, amount: nat)
    | GetAccountLiquidity(controller: string, account: string)
    | Borrow(market: string, amount: nat)
  {
    /** A call that submits a transaction (as opposed to a read). */
    predicate IsTransaction() {
      EnterMarkets? || Approve? || Mint? || Borrow?
    }
  }

  /** The `(errorCode, liquidity, shortfall)` triple of the controller's `getAccountLiquidity`. */
  datatype LiquidityReply = LiquidityReply(errorCode: nat, liquidity: nat, shortfall: nat)

  datatype Oracle = Oracle(
    wallet: Option<string>,            // address of the wallet built from the private key; None: the key is rejected
    sukuBalance: Option<nat>,          // SUKU balanceOf(wallet)
    sukuDecimals: Option<nat>,         // SUKU decimals()
    enterMarketsOk: bool,              // enterMarkets transaction and its confirmation
    approveOk: bool,                   // approve transaction and its confirmation
    mintOk: bool,                      // mint transaction and its confirmation
    liquidity: Option<LiquidityReply>, // getAccountLiquidity(wallet)
    borrowOk: bool,                    // borrow transaction and its confirmation
    usdcBalance: Option<nat>,          // USDC balanceOf(wallet)
    usdcDecimals: Option<nat>)         // USDC decimals()
  {
    /** The two oracles agree on everything except the outcomes of the four transactions. */
    predicate SameReads(other: Oracle) {
      wallet == other.wallet && sukuBalance == other.sukuBalance && sukuDecimals == other.sukuDecimals
      && liquidity == other.liquidity && usdcBalance == other.usdcBalance && usdcDecimals == other.usdcDecimals
    }
  }
}
