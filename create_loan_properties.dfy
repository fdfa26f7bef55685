/**
 * What the loan workflow of `CreateLoan` guarantees, stated as
 * properties of `CreateLoan.Run` over every request and every oracle.
 */
module CreateLoanProperties {
  import opened Options
  import opened Units
  import opened NetworkTypes
  import opened Remote
  import opened CreateLoan
  import opened LoanMessages
  import Networks
  import Kovan

  // ---------------------------------------------------------------- reference rules

  /** The reads of a token's `balanceOf` and, only when that succeeded, its `decimals`. */
  function Reads(token: string, w: string, balance: Option<nat>): (r: seq<Call>)
    ensures forall c :: c in r ==> c.BalanceOf? || c.Decimals?
  {
    [BalanceOf(token, w)] + (if balance.Some? then [Decimals(token)] else [])
  }

  /** A requested deposit above the balance: the only early return once the wallet exists. */
  predicate InsufficientAt(amount: Option<string>, o: Oracle) {
    o.sukuBalance.Some? && o.sukuDecimals.Some? && AmountRequested(amount)
    && var parsed := ParseUnits(amount.value, o.sukuDecimals.value);
    parsed.Some? && parsed.value > o.sukuBalance.value
  }

  /**
   * The value `sukuBalance` ends up with: the requested amount when one is
   * given and parses, the full balance when none is given, unset when a
   * read or the parse threw.
   */
  function SukuBalanceSet(amount: Option<string>, o: Oracle): Option<nat> {
    if o.sukuBalance.None? || o.sukuDecimals.None? then None
    else if !AmountRequested(amount) then o.sukuBalance
    else ParseUnits(amount.value, o.sukuDecimals.value)
  }

  /** The amount approved and minted: `sukuBalance || 0`. */
  function Deposit(amount: Option<string>, o: Oracle): nat {
    SukuBalanceSet(amount, o).GetOr(0)
  }

  /** The amount borrowed: `accountLiquidity || 0`, the full liquidity whenever the read returned. */
  function BorrowAmount(o: Oracle): nat {
    if o.liquidity.Some? then o.liquidity.value.liquidity else 0
  }

  /** The run gets past the network lookup, the wallet and the balance check. */
  predicate Proceeds(req: Request, o: Oracle) {
    req.chainId == Networks.KovanChain && o.wallet.Some? && !InsufficientAt(req.sukuDecimalAmount, o)
  }

  // ---------------------------------------------------------------- the stages

  lemma SukuStageSpec(suku: string, w: string, amount: Option<string>, o: Oracle)
    ensures SukuStage(suku, w, amount, o).calls == Reads(suku, w, o.sukuBalance)
    ensures SukuStage(suku, w, amount, o).early.Some? <==> InsufficientAt(amount, o)
    ensures InsufficientAt(amount, o) ==>
      var r := SukuStage(suku, w, amount, o).early.value;
      r.error == INSUFFICIENT_BALANCE
      && r.message == Insufficient(o.sukuBalance.value, ParseUnits(amount.value, o.sukuDecimals.value).value, o.sukuDecimals.value)
      && SukuStage(suku, w, amount, o).reports == [r]
    ensures !InsufficientAt(amount, o) ==>
      SukuStage(suku, w, amount, o).sukuBalance == SukuBalanceSet(amount, o)
      && SukuStage(suku, w, amount, o).reports ==
         (if SukuBalanceSet(amount, o).None? then [LoanResult(TRANSACTION_ERROR, SukuReadFailure(suku, w))] else [])
  {
  }

  /** The collateral steps: their calls, and a TRANSACTION_ERROR logged for each that fails. */
  lemma CollateralSpec(cfg: NetworkConfig, w: string, sukuBalance: Option<nat>, o: Oracle)
    ensures var c := Collateral(cfg, w, sukuBalance, o);
      var x := sukuBalance.GetOr(0);
      && c.calls == [
           EnterMarkets(cfg.unitroller.address, [cfg.cSUKU.address, cfg.cUSDC.address]),
           Approve(cfg.SUKU.address, cfg.cSUKU.address, x),
           Mint(cfg.cSUKU.address, x)]
      && (!o.enterMarketsOk ==> LoanResult(TRANSACTION_ERROR, EnterMarketsFailure(cfg.cSUKU.address, cfg.cUSDC.address, w)) in c.reports)
      && (!o.approveOk ==> LoanResult(TRANSACTION_ERROR, ApproveFailure(cfg.cSUKU.address, sukuBalance, w)) in c.reports)
      && (!o.mintOk ==> LoanResult(TRANSACTION_ERROR, MintFailure(w, sukuBalance)) in c.reports)
  {
  }

  /** The loan steps: their calls, and what the liquidity checks and a failed borrow log. */
  lemma LoanSpec(cfg: NetworkConfig, w: string, sukuBalance: Option<nat>, o: Oracle)
    ensures var l := Loan(cfg, w, sukuBalance, o);
      && l.calls == [GetAccountLiquidity(cfg.unitroller.address, w), Borrow(cfg.cUSDC.address, BorrowAmount(o))]
      && (o.liquidity.None? ==>
            LoanResult(TRANSACTION_ERROR, LiquidityFailure(w)) in l.reports
            && LoanResult(ACCOUNT_LIQUIDITY, LiquidityFailure(w)) in l.reports)
      && (o.liquidity.Some? && o.liquidity.value.errorCode != 0 ==>
            LoanResult(CONTRACT_RETURN_ERROR, LiquidityCode(o.liquidity.value.errorCode)) in l.reports)
      && (o.liquidity.Some? && o.liquidity.value.liquidity == 0 ==>
            LoanResult(ACCOUNT_LIQUIDITY, ZeroLiquidity(o.liquidity.value.shortfall)) in l.reports)
      && (!o.borrowOk ==> LoanResult(TRANSACTION_ERROR, BorrowFailure(w, sukuBalance)) in l.reports)
  {
  }

  lemma FinalSpec(usdc: string, w: string, o: Oracle)
    ensures FinalStage(usdc, w, o).calls == Reads(usdc, w, o.usdcBalance)
    ensures FinalStage(usdc, w, o).result.error == NO_ERROR <==> o.usdcBalance.Some? && o.usdcDecimals.Some?
    ensures o.usdcBalance.Some? && o.usdcDecimals.Some? ==>
      FinalStage(usdc, w, o).result.message == Success(WholeUnits(o.usdcBalance.value, o.usdcDecimals.value))
      && FinalStage(usdc, w, o).reports == []
    ensures !(o.usdcBalance.Some? && o.usdcDecimals.Some?) ==>
      FinalStage(usdc, w, o).result == LoanResult(TRANSACTION_ERROR, UsdcReadFailure(usdc, w))
      && FinalStage(usdc, w, o).reports == [FinalStage(usdc, w, o).result]
  {
  }

  /** Past the balance check, the steps are the SUKU reads, the collateral steps, the loan steps and the USDC reads, in that order. */
  lemma StepsShape(cfg: NetworkConfig, w: string, amount: Option<string>, o: Oracle)
    requires !InsufficientAt(amount, o)
    ensures var e := Steps(cfg, w, amount, o);
      var b := SukuBalanceSet(amount, o);
      var c := Collateral(cfg, w, b, o);
      var l := Loan(cfg, w, b, o);
      var fin := FinalStage(cfg.USDC.address, w, o);
      && e.trace == Reads(cfg.SUKU.address, w, o.sukuBalance) + c.calls + l.calls + fin.calls
      && e.reported == SukuStage(cfg.SUKU.address, w, amount, o).reports + c.reports + l.reports + fin.reports
      && e.outcome == Resolved(fin.result)
  {
    SukuStageSpec(cfg.SUKU.address, w, amount, o);
  }

  // ---------------------------------------------------------------- the workflow

  /** An unregistered chain id is answered at once, before any wallet or contract call. */
  lemma UnsupportedChainAnswered(req: Request, o: Oracle)
    requires req.chainId != Networks.KovanChain
    ensures var r := LoanResult(UNSUPPORTED_CHAIN_ID, UnsupportedChain(req.chainId));
      Run(req, o) == Execution([], [r], Resolved(r))
  {
  }

  /** The promise rejects exactly when the chain is supported and the wallet cannot be built; nothing is called then. */
  lemma RejectedIff(req: Request, o: Oracle)
    ensures Run(req, o).outcome.Rejected? <==> req.chainId == Networks.KovanChain && o.wallet.None?
    ensures Run(req, o).outcome.Rejected? ==> Run(req, o).trace == []
  {
  }

  /** On the supported chain with a wallet, the run is the steps over the Kovan table. */
  lemma RunOnKovan(req: Request, o: Oracle)
    requires req.chainId == Networks.KovanChain && o.wallet.Some?
    ensures Run(req, o) == Steps(Kovan.KovanNetworkConfig, o.wallet.value, req.sukuDecimalAmount, o)
  {
  }

  /** On the supported chain with a wallet, a requested amount above the balance is answered after the two SUKU reads, before any transaction. */
  lemma InsufficientBalance(req: Request, o: Oracle)
    requires req.chainId == Networks.KovanChain && o.wallet.Some? && InsufficientAt(req.sukuDecimalAmount, o)
    ensures var suku := Kovan.KovanNetworkConfig.SUKU.address;
      && Run(req, o).trace == [BalanceOf(suku, o.wallet.value), Decimals(suku)]
      && Run(req, o).outcome.Resolved?
      && Run(req, o).outcome.result.error == INSUFFICIENT_BALANCE
      && Run(req, o).outcome.result.message == Insufficient(
           o.sukuBalance.value, ParseUnits(req.sukuDecimalAmount.value, o.sukuDecimals.value).value, o.sukuDecimals.value)
      && forall i :: 0 <= i < |Run(req, o).trace| ==> !Run(req, o).trace[i].IsTransaction()
  {
    RunOnKovan(req, o);
    SukuStageSpec(Kovan.KovanNetworkConfig.SUKU.address, o.wallet.value, req.sukuDecimalAmount, o);
  }

  /** INSUFFICIENT_BALANCE is returned exactly in that case. */
  lemma InsufficientIff(req: Request, o: Oracle)
    ensures (Run(req, o).outcome.Resolved? && Run(req, o).outcome.result.error == INSUFFICIENT_BALANCE)
        <==> req.chainId == Networks.KovanChain && o.wallet.Some? && InsufficientAt(req.sukuDecimalAmount, o)
  {
    if req.chainId == Networks.KovanChain && o.wallet.Some? {
      if InsufficientAt(req.sukuDecimalAmount, o) {
        InsufficientBalance(req, o);
      } else {
        FinalResult(req, o);
      }
    }
  }

  /** The calls of the steps over any table once past the balance check. */
  lemma StepsCalls(cfg: NetworkConfig, w: string, amount: Option<string>, o: Oracle)
    requires !InsufficientAt(amount, o)
    ensures var x := Deposit(amount, o);
      Steps(cfg, w, amount, o).trace ==
        Reads(cfg.SUKU.address, w, o.sukuBalance)
        + [EnterMarkets(cfg.unitroller.address, [cfg.cSUKU.address, cfg.cUSDC.address]),
           Approve(cfg.SUKU.address, cfg.cSUKU.address, x),
           Mint(cfg.cSUKU.address, x),
           GetAccountLiquidity(cfg.unitroller.address, w),
           Borrow(cfg.cUSDC.address, BorrowAmount(o))]
        + Reads(cfg.USDC.address, w, o.usdcBalance)
  {
    var b := SukuBalanceSet(amount, o);
    StepsShape(cfg, w, amount, o);
    CollateralSpec(cfg, w, b, o);
    LoanSpec(cfg, w, b, o);
    FinalSpec(cfg.USDC.address, w, o);
    var r := Reads(cfg.SUKU.address, w, o.sukuBalance);
    var c, l := Collateral(cfg, w, b, o).calls, Loan(cfg, w, b, o).calls;
    assert r + c + l == r + (c + l);
    assert c + l == [c[0], c[1], c[2], l[0], l[1]];
  }

  /**
   * The calls once past the balance check, in their fixed order: the SUKU
   * reads, enterMarkets on the unitroller, approve and mint of the same
   * deposit, the liquidity read on the unitroller, borrow of the full
   * liquidity, and the USDC reads.
   */
  lemma CallOrder(req: Request, o: Oracle)
    requires Proceeds(req, o)
    ensures var k := Kovan.KovanNetworkConfig;
      var w := o.wallet.value;
      var x := Deposit(req.sukuDecimalAmount, o);
      Run(req, o).trace ==
        Reads(k.SUKU.address, w, o.sukuBalance)
        + [EnterMarkets(k.unitroller.address, [k.cSUKU.address, k.cUSDC.address]),
           Approve(k.SUKU.address, k.cSUKU.address, x),
           Mint(k.cSUKU.address, x),
           GetAccountLiquidity(k.unitroller.address, w),
           Borrow(k.cUSDC.address, BorrowAmount(o))]
        + Reads(k.USDC.address, w, o.usdcBalance)
  {
    RunOnKovan(req, o);
    StepsCalls(Kovan.KovanNetworkConfig, o.wallet.value, req.sukuDecimalAmount, o);
  }

  /** The deposit is the requested amount, never above the balance, or the full balance when none is requested, or 0 when a read or the parse threw. */
  lemma DepositRule(req: Request, o: Oracle)
    requires Proceeds(req, o)
    ensures o.sukuBalance.Some? && o.sukuDecimals.Some? && !AmountRequested(req.sukuDecimalAmount) ==>
      Deposit(req.sukuDecimalAmount, o) == o.sukuBalance.value
    ensures (o.sukuBalance.Some? && o.sukuDecimals.Some? && AmountRequested(req.sukuDecimalAmount)
      && ParseUnits(req.sukuDecimalAmount.value, o.sukuDecimals.value).Some?) ==>
      Deposit(req.sukuDecimalAmount, o) == ParseUnits(req.sukuDecimalAmount.value, o.sukuDecimals.value).value
      && Deposit(req.sukuDecimalAmount, o) <= o.sukuBalance.value
    ensures SukuBalanceSet(req.sukuDecimalAmount, o).None? ==> Deposit(req.sukuDecimalAmount, o) == 0
    ensures o.sukuBalance.Some? ==> Deposit(req.sukuDecimalAmount, o) <= o.sukuBalance.value
  {
  }

  /**
   * Whether enterMarkets, approve, mint or borrow succeed changes neither
   * the calls made nor the outcome: their failures are only logged.
   */
  lemma TransactionFailuresOnlyLogged(req: Request, o: Oracle, o': Oracle)
    requires o.SameReads(o')
    ensures Run(req, o).trace == Run(req, o').trace
    ensures Run(req, o).outcome == Run(req, o').outcome
  {
    if req.chainId == Networks.KovanChain && o.wallet.Some? {
      var k := Kovan.KovanNetworkConfig;
      var w := o.wallet.value;
      RunOnKovan(req, o);
      RunOnKovan(req, o');
      SukuStageSpec(k.SUKU.address, w, req.sukuDecimalAmount, o);
      SukuStageSpec(k.SUKU.address, w, req.sukuDecimalAmount, o');
      assert InsufficientAt(req.sukuDecimalAmount, o) == InsufficientAt(req.sukuDecimalAmount, o');
      if !InsufficientAt(req.sukuDecimalAmount, o) {
        var b := SukuBalanceSet(req.sukuDecimalAmount, o);
        assert b == SukuBalanceSet(req.sukuDecimalAmount, o');
        StepsShape(k, w, req.sukuDecimalAmount, o);
        StepsShape(k, w, req.sukuDecimalAmount, o');
        CollateralSpec(k, w, b, o);
        CollateralSpec(k, w, b, o');
        LoanSpec(k, w, b, o);
        LoanSpec(k, w, b, o');
        FinalSpec(k.USDC.address, w, o);
        FinalSpec(k.USDC.address, w, o');
      }
    }
  }

  /** Each failed transaction is logged as a TRANSACTION_ERROR with its own message. */
  lemma TransactionFailuresLogged(req: Request, o: Oracle)
    requires Proceeds(req, o)
    ensures var k := Kovan.KovanNetworkConfig;
      var w := o.wallet.value;
      var shown := SukuBalanceSet(req.sukuDecimalAmount, o);
      && (!o.enterMarketsOk ==> LoanResult(TRANSACTION_ERROR, EnterMarketsFailure(k.cSUKU.address, k.cUSDC.address, w)) in Run(req, o).reported)
      && (!o.approveOk ==> LoanResult(TRANSACTION_ERROR, ApproveFailure(k.cSUKU.address, shown, w)) in Run(req, o).reported)
      && (!o.mintOk ==> LoanResult(TRANSACTION_ERROR, MintFailure(w, shown)) in Run(req, o).reported)
      && (!o.borrowOk ==> LoanResult(TRANSACTION_ERROR, BorrowFailure(w, shown)) in Run(req, o).reported)
  {
    var k := Kovan.KovanNetworkConfig;
    var w := o.wallet.value;
    var b := SukuBalanceSet(req.sukuDecimalAmount, o);
    RunOnKovan(req, o);
    StepsShape(k, w, req.sukuDecimalAmount, o);
    CollateralSpec(k, w, b, o);
    LoanSpec(k, w, b, o);
  }

  /**
   * The liquidity checks: a failed read logs TRANSACTION_ERROR and
   * ACCOUNT_LIQUIDITY, a nonzero error code logs CONTRACT_RETURN_ERROR,
   * zero liquidity logs ACCOUNT_LIQUIDITY; none of them stops the run:
   * borrow and the USDC reads still follow, and the outcome is the one the
   * USDC reads give.
   */
  lemma LiquidityChecksLogged(req: Request, o: Oracle)
    requires Proceeds(req, o)
    ensures var w := o.wallet.value;
      && (o.liquidity.None? ==>
            LoanResult(TRANSACTION_ERROR, LiquidityFailure(w)) in Run(req, o).reported
            && LoanResult(ACCOUNT_LIQUIDITY, LiquidityFailure(w)) in Run(req, o).reported)
      && (o.liquidity.Some? && o.liquidity.value.errorCode != 0 ==>
            LoanResult(CONTRACT_RETURN_ERROR, LiquidityCode(o.liquidity.value.errorCode)) in Run(req, o).reported)
      && (o.liquidity.Some? && o.liquidity.value.liquidity == 0 ==>
            LoanResult(ACCOUNT_LIQUIDITY, ZeroLiquidity(o.liquidity.value.shortfall)) in Run(req, o).reported)
    ensures var k := Kovan.KovanNetworkConfig;
      var t := Run(req, o).trace;
      var usdcReads := Reads(k.USDC.address, o.wallet.value, o.usdcBalance);
      && |t| > |usdcReads|
      && t[|t| - |usdcReads| - 1] == Borrow(k.cUSDC.address, BorrowAmount(o))
      && t[|t| - |usdcReads|..] == usdcReads
      && Run(req, o).outcome == Resolved(FinalStage(k.USDC.address, o.wallet.value, o).result)
  {
    var k := Kovan.KovanNetworkConfig;
    var w := o.wallet.value;
    var b := SukuBalanceSet(req.sukuDecimalAmount, o);
    RunOnKovan(req, o);
    StepsShape(k, w, req.sukuDecimalAmount, o);
    LoanSpec(k, w, b, o);
    FinalSpec(k.USDC.address, w, o);
    var before := Reads(k.SUKU.address, w, o.sukuBalance) + Collateral(k, w, b, o).calls;
    var l, f := Loan(k, w, b, o).calls, FinalStage(k.USDC.address, w, o).calls;
    var t := Run(req, o).trace;
    assert t == (before + l) + f;
    assert t[|t| - |f| - 1] == (before + l)[|before + l| - 1] == l[1];
  }

  /**
   * Once past the balance check, the run resolves with NO_ERROR exactly
   * when both USDC reads succeed, reporting the balance in whole tokens;
   * otherwise with a TRANSACTION_ERROR.
   */
  lemma FinalResult(req: Request, o: Oracle)
    requires Proceeds(req, o)
    ensures Run(req, o).outcome.Resolved?
    ensures Run(req, o).outcome.result.error == NO_ERROR <==> o.usdcBalance.Some? && o.usdcDecimals.Some?
    ensures o.usdcBalance.Some? && o.usdcDecimals.Some? ==>
      Run(req, o).outcome.result.message == Success(WholeUnits(o.usdcBalance.value, o.usdcDecimals.value))
    ensures !(o.usdcBalance.Some? && o.usdcDecimals.Some?) ==>
      Run(req, o).outcome.result == LoanResult(TRANSACTION_ERROR, UsdcReadFailure(Kovan.KovanNetworkConfig.USDC.address, o.wallet.value))
  {
    RunOnKovan(req, o);
    StepsShape(Kovan.KovanNetworkConfig, o.wallet.value, req.sukuDecimalAmount, o);
    FinalSpec(Kovan.KovanNetworkConfig.USDC.address, o.wallet.value, o);
  }

  /**
   * The records returned: never CONTRACT_RETURN_ERROR or ACCOUNT_LIQUIDITY
   * (those are only logged), and every returned error is also the last
   * record logged.
   */
  lemma ReturnedCodes(req: Request, o: Oracle)
    ensures Run(req, o).outcome.Resolved? ==>
      var r := Run(req, o).outcome.result;
      && r.error != CONTRACT_RETURN_ERROR && r.error != ACCOUNT_LIQUIDITY
      && (r.error != NO_ERROR ==> Run(req, o).reported != [] && Run(req, o).reported[|Run(req, o).reported| - 1] == r)
  {
    if req.chainId == Networks.KovanChain && o.wallet.Some? {
      if InsufficientAt(req.sukuDecimalAmount, o) {
        RunOnKovan(req, o);
        SukuStageSpec(Kovan.KovanNetworkConfig.SUKU.address, o.wallet.value, req.sukuDecimalAmount, o);
      } else {
        RunOnKovan(req, o);
        StepsShape(Kovan.KovanNetworkConfig, o.wallet.value, req.sukuDecimalAmount, o);
        FinalSpec(Kovan.KovanNetworkConfig.USDC.address, o.wallet.value, o);
      }
    }
  }

  /** UNSUPPORTED_CHAIN_ID is returned exactly for the chain ids that are not registered. */
  lemma UnsupportedIff(req: Request, o: Oracle)
    ensures (Run(req, o).outcome.Resolved? && Run(req, o).outcome.result.error == UNSUPPORTED_CHAIN_ID)
        <==> req.chainId != Networks.KovanChain
  {
    if req.chainId == Networks.KovanChain && o.wallet.Some? {
      if InsufficientAt(req.sukuDecimalAmount, o) {
        InsufficientBalance(req, o);
      } else {
        FinalResult(req, o);
      }
    }
  }

  /** In the steps over any table, every call addressed to a controller goes to the table's unitroller. */
  lemma StepsController(cfg: NetworkConfig, w: string, amount: Option<string>, o: Oracle)
    ensures forall c :: c in Steps(cfg, w, amount, o).trace && (c.EnterMarkets? || c.GetAccountLiquidity?) ==>
      c.controller == cfg.unitroller.address
  {
    SukuStageSpec(cfg.SUKU.address, w, amount, o);
    if !InsufficientAt(amount, o) {
      StepsCalls(cfg, w, amount, o);
      var x := Deposit(amount, o);
      var middle: seq<Call> := [EnterMarkets(cfg.unitroller.address, [cfg.cSUKU.address, cfg.cUSDC.address]),
           Approve(cfg.SUKU.address, cfg.cSUKU.address, x),
           Mint(cfg.cSUKU.address, x),
           GetAccountLiquidity(cfg.unitroller.address, w),
           Borrow(cfg.cUSDC.address, BorrowAmount(o))];
      var before, after := Reads(cfg.SUKU.address, w, o.sukuBalance), Reads(cfg.USDC.address, w, o.usdcBalance);
      forall c: Call | c in before + middle + after && (c.EnterMarkets? || c.GetAccountLiquidity?)
        ensures c.controller == cfg.unitroller.address
      {
        assert c in middle;
      }
    }
  }

  /** Every call addressed to a controller goes to the unitroller, which is not the comptroller entry of the table. */
  lemma ControllerIsUnitroller(req: Request, o: Oracle)
    ensures forall c :: c in Run(req, o).trace && (c.EnterMarkets? || c.GetAccountLiquidity?) ==>
      c.controller == Kovan.KovanNetworkConfig.unitroller.address
    ensures Kovan.KovanNetworkConfig.unitroller.address != Kovan.KovanNetworkConfig.comptroller.value.address
  {
    if req.chainId == Networks.KovanChain && o.wallet.Some? {
      RunOnKovan(req, o);
      StepsController(Kovan.KovanNetworkConfig, o.wallet.value, req.sukuDecimalAmount, o);
    }
    Kovan.KovanControllerEntries();
  }

  /** The balance in the success message is the USDC balance in whole tokens, rounded down. */
  lemma WholeUnitsFloor(balance: nat, decimals: nat)
    ensures WholeUnits(balance, decimals) == balance / Decimal.Pow10(decimals)
  {
    var p := Decimal.Pow10(decimals);
    var q := WholeUnits(balance, decimals);
    assert q * p <= balance < (q + 1) * p;
  }
}
