/**
 * What the older loan workflow of `LegacyCreateLoan` guarantees, stated
 * as properties of `LegacyCreateLoan.Run` over every environment, amount
 * and oracle.
 */
module LegacyCreateLoanProperties {
  import opened Options
  import opened Remote
  import opened EnvConfig
  import opened LegacyCreateLoan
  import opened LoanMessages

  /** The calls of a run in which every step succeeds: the full balance is approved and minted, the full liquidity borrowed. */
  function FullTrace(c: EnvironmentConfig, w: string, balance: nat, liquidity: nat): seq<Call> {
    [BalanceOf(c.sukuAddr, w),
     EnterMarkets(c.comptrollerAddr, [c.cSukuAddr, c.cUsdcAddr]),
     Approve(c.sukuAddr, c.cSukuAddr, balance),
     Mint(c.cSukuAddr, balance),
     GetAccountLiquidity(c.comptrollerAddr, w),
     Borrow(c.cUsdcAddr, liquidity)]
  }

  /** How many calls are made once the balance is read: up to and including the first step that fails. */
  function CallsMade(o: Oracle): nat {
    if !o.enterMarketsOk then 2
    else if !o.approveOk then 3
    else if !o.mintOk then 4
    else if LiquidityRefused(o.liquidity) then 5
    else 6
  }

  /** Every step after the balance read succeeds. */
  predicate AllSucceed(o: Oracle) {
    o.enterMarketsOk && o.approveOk && o.mintOk && !LiquidityRefused(o.liquidity) && o.borrowOk
  }

  /** A missing or empty environment variable ends the run with the configuration error before any call. */
  lemma ConfigFailure(env: map<string, string>, sukuAmount: real, o: Oracle)
    ensures Config(env).None? <==> exists i :: 0 <= i < |Variables| && EnvValue(env, Variables[i]) == ""
    ensures Config(env).None? ==> Run(env, sukuAmount, o) == Execution([], Threw(ConfigurationError))
  {
    ConfigRejectedIffSomeEmpty(env);
  }

  /** The promise rejects with a library error exactly when the wallet cannot be built or the balance read throws. */
  lemma LibraryErrorIff(env: map<string, string>, sukuAmount: real, o: Oracle)
    ensures Run(env, sukuAmount, o).outcome.LibraryError? <==> Config(env).Some? && (o.wallet.None? || o.sukuBalance.None?)
  {
  }

  /**
   * The calls are always the first calls of the full sequence, cut off just
   * after the first step that fails: no later transaction is submitted.
   * The run completes exactly when every step succeeds.
   */
  lemma AbortsAtFirstFailure(env: map<string, string>, sukuAmount: real, o: Oracle)
    requires Config(env).Some? && o.wallet.Some? && o.sukuBalance.Some?
    ensures var r := Run(env, sukuAmount, o);
      var full := FullTrace(Config(env).value, o.wallet.value, o.sukuBalance.value, BorrowedLiquidity(o));
      && |r.trace| == CallsMade(o)
      && r.trace == full[..|r.trace|]
      && (r.outcome.Completed? <==> AllSucceed(o))
      && (!AllSucceed(o) ==> r.outcome.Threw?)
  {
  }

  /** The liquidity the borrow would use: the reported liquidity, or 0 when there is none. */
  function BorrowedLiquidity(o: Oracle): nat {
    if o.liquidity.Some? then o.liquidity.value.liquidity else 0
  }

  /** Each failing step throws its own message. */
  lemma FailureMessages(env: map<string, string>, sukuAmount: real, o: Oracle)
    requires Config(env).Some? && o.wallet.Some? && o.sukuBalance.Some?
    ensures var c := Config(env).value;
      var w := o.wallet.value;
      var shown := Some(o.sukuBalance.value);
      var outcome := Run(env, sukuAmount, o).outcome;
      && (!o.enterMarketsOk ==> outcome == Threw(EnterMarketsFailure(c.cSukuAddr, c.cUsdcAddr, w)))
      && (o.enterMarketsOk && !o.approveOk ==> outcome == Threw(ApproveFailure(c.cSukuAddr, shown, w)))
      && (o.enterMarketsOk && o.approveOk && !o.mintOk ==> outcome == Threw(MintFailure(w, shown)))
      && (o.enterMarketsOk && o.approveOk && o.mintOk && LiquidityRefused(o.liquidity) ==>
            outcome == Threw(LiquidityFailure(w)))
      && (o.enterMarketsOk && o.approveOk && o.mintOk && !LiquidityRefused(o.liquidity) && !o.borrowOk ==>
            outcome == Threw(BorrowFailure(w, shown)))
  {
  }

  /** A failed liquidity read, a nonzero error code or zero liquidity stops the run before borrow. */
  lemma NoBorrowWithoutLiquidity(env: map<string, string>, sukuAmount: real, o: Oracle)
    requires LiquidityRefused(o.liquidity)
    ensures forall call :: call in Run(env, sukuAmount, o).trace ==> !call.Borrow?
  {
    if Config(env).Some? && o.wallet.Some? && o.sukuBalance.Some? {
      AbortsAtFirstFailure(env, sukuAmount, o);
    }
  }

  /** A borrow is issued only after a clean liquidity reply, and for exactly the liquidity reported. */
  lemma BorrowIsReportedLiquidity(env: map<string, string>, sukuAmount: real, o: Oracle, call: Call)
    requires call in Run(env, sukuAmount, o).trace && call.Borrow?
    ensures o.liquidity.Some? && o.liquidity.value.errorCode == 0
    ensures call.amount == o.liquidity.value.liquidity > 0
  {
    if LiquidityRefused(o.liquidity) {
      NoBorrowWithoutLiquidity(env, sukuAmount, o);
    }
    AbortsAtFirstFailure(env, sukuAmount, o);
  }

  /** Approve and mint carry the same amount, the full SUKU balance, and approve comes first. */
  lemma DepositIsFullBalance(env: map<string, string>, sukuAmount: real, o: Oracle, i: nat, j: nat)
    requires i < |Run(env, sukuAmount, o).trace| && Run(env, sukuAmount, o).trace[i].Approve?
    requires j < |Run(env, sukuAmount, o).trace| && Run(env, sukuAmount, o).trace[j].Mint?
    ensures o.sukuBalance.Some?
    ensures Run(env, sukuAmount, o).trace[i].amount == Run(env, sukuAmount, o).trace[j].amount == o.sukuBalance.value
    ensures i < j
  {
    AbortsAtFirstFailure(env, sukuAmount, o);
  }

  /** The amount argument is never read. */
  lemma IgnoresSukuAmount(env: map<string, string>, a: real, b: real, o: Oracle)
    ensures Run(env, a, o) == Run(env, b, o)
  {
  }
}
