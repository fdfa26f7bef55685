/**
 * The older loan workflow `createLoan(privateKey, sukuAmount)`: addresses
 * come from the environment through getConfig, the whole SUKU balance is
 * deposited, and `error` throws, so the first failing step ends the run.
 * The `sukuAmount` argument is accepted and never read.
 */
module LegacyCreateLoan {
  import opened Options
  import opened Decimal
  import opened Remote
  import opened EnvConfig
  import opened LoanMessages

  /**
   * How the returned promise settles: resolved with nothing, rejected by
   * an `Error` the workflow throws, or rejected by an error from the
   * library (an unusable private key or a failed balance read, neither of
   * which is caught).
   */
  datatype Outcome = Completed | Threw(message: Message) | LibraryError

  datatype Execution = Execution(trace: seq<Call>, outcome: Outcome)

  /** The liquidity reply makes the workflow throw: the read threw, or the code is nonzero, or the liquidity is zero. */
  predicate LiquidityRefused(reply: Option<LiquidityReply>) {
    reply.None? || reply.value.errorCode != 0 || reply.value.liquidity == 0
  }

  /** The calls after the balance read (the transactions and the liquidity read), and how the run ends. */
  function Transactions(c: EnvironmentConfig, w: string, balance: nat, o: Oracle): Execution {
    var enter := [EnterMarkets(c.comptrollerAddr, [c.cSukuAddr, c.cUsdcAddr])];
    if !o.enterMarketsOk then Execution(enter, Threw(EnterMarketsFailure(c.cSukuAddr, c.cUsdcAddr, w)))
    else
      var approve := enter + [Approve(c.sukuAddr, c.cSukuAddr, balance)];
      if !o.approveOk then Execution(approve, Threw(ApproveFailure(c.cSukuAddr, Some(balance), w)))
      else
        var mint := approve + [Mint(c.cSukuAddr, balance)];
        if !o.mintOk then Execution(mint, Threw(MintFailure(w, Some(balance))))
        else
          var liquidity := mint + [GetAccountLiquidity(c.comptrollerAddr, w)];
          if LiquidityRefused(o.liquidity) then Execution(liquidity, Threw(LiquidityFailure(w)))
          else
            var borrow := liquidity + [Borrow(c.cUsdcAddr, o.liquidity.value.liquidity)];
            if !o.borrowOk then Execution(borrow, Threw(BorrowFailure(w, Some(balance))))
            else Execution(borrow, Completed)
  }

  /** The whole workflow. */
  function Run(env: map<string, string>, sukuAmount: real, o: Oracle): Execution {
    match Config(env)
    case None => Execution([], Threw(ConfigurationError))
    case Some(c) =>
      match o.wallet
      case None => Execution([], LibraryError)
      case Some(w) =>
        match o.sukuBalance
        case None => Execution([BalanceOf(c.sukuAddr, w)], LibraryError)
        case Some(balance) =>
          var rest := Transactions(c, w, balance, o);
          Execution([BalanceOf(c.sukuAddr, w)] + rest.trace, rest.outcome)
  }

  /** createLoan: the steps in order; each failure throws and ends the run. */
  method LegacyCreateLoan(env: map<string, string>, sukuAmount: real, o: Oracle) returns (trace: seq<Call>, outcome: Outcome)
    ensures Execution(trace, outcome) == Run(env, sukuAmount, o)
  {
    trace := [];
    var configErrors, config := GetConfig(env);
    if config.None? {
      outcome := Threw(ConfigurationError);
      return;
    }
    var c := config.value;
    // new ethers.Wallet(privateKey, provider)
    if o.wallet.None? {
      outcome := LibraryError;
      return;
    }
    var walletAddress := o.wallet.value;

    // the balance read is not inside a try
    trace := trace + [BalanceOf(c.sukuAddr, walletAddress)];
    if o.sukuBalance.None? {
      outcome := LibraryError;
      return;
    }
    var sukuBalance := o.sukuBalance.value;
    var rest;
    rest, outcome := RunTransactions(c, walletAddress, sukuBalance, o);
    trace := trace + rest;
  }

  /** enterMarkets, approve, mint, the liquidity read and borrow, each throwing on failure. */
  method RunTransactions(c: EnvironmentConfig, walletAddress: string, sukuBalance: nat, o: Oracle)
    returns (trace: seq<Call>, outcome: Outcome)
    ensures Execution(trace, outcome) == Transactions(c, walletAddress, sukuBalance, o)
  {
    trace := [EnterMarkets(c.comptrollerAddr, [c.cSukuAddr, c.cUsdcAddr])];
    if !o.enterMarketsOk {
      outcome := Threw(EnterMarketsFailure(c.cSukuAddr, c.cUsdcAddr, walletAddress));
      return;
    }
    trace := trace + [Approve(c.sukuAddr, c.cSukuAddr, sukuBalance)];
    if !o.approveOk {
      outcome := Threw(ApproveFailure(c.cSukuAddr, Some(sukuBalance), walletAddress));
      return;
    }
    trace := trace + [Mint(c.cSukuAddr, sukuBalance)];
    if !o.mintOk {
      outcome := Threw(MintFailure(walletAddress, Some(sukuBalance)));
      return;
    }
    trace := trace + [GetAccountLiquidity(c.comptrollerAddr, walletAddress)];
    // an error thrown inside this try is caught and thrown again with the catch's message
    var accountLiquidity: Option<nat> := None;
    if o.liquidity.None? || o.liquidity.value.errorCode != 0 || o.liquidity.value.liquidity == 0 {
      outcome := Threw(LiquidityFailure(walletAddress));
      return;
    }
    accountLiquidity := Some(o.liquidity.value.liquidity);
    if accountLiquidity.None? {
      outcome := Threw(LiquidityFailure(walletAddress));
      return;
    }
    trace := trace + [Borrow(c.cUsdcAddr, accountLiquidity.GetOr(0))];
    if !o.borrowOk {
      outcome := Threw(BorrowFailure(walletAddress, Some(sukuBalance)));
      return;
    }
    outcome := Completed;
  }
}
