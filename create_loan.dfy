/**
 * The loan workflow `createLoan(privateKey, providerUrl, chainId,
 * sukuDecimalAmount?)`: deposit SUKU as collateral into its cSUKU market
 * and borrow USDC against the account's liquidity.
 *
 * Each step runs in its own try/catch. A failing step only logs an error
 * record through `error`, which returns the record without throwing, so
 * the later steps still run; the workflow returns early only for an
 * unsupported chain id and for a requested deposit above the balance, and
 * its promise rejects only when building the wallet throws.
 *
 * `Run` is the specification (what the calls, the logged errors and the
 * outcome are for a request and an oracle); the method `CreateLoan`
 * performs the steps one by one and is proved to agree with it.
 */
module CreateLoan {
  import opened Options
  import opened Decimal
  import opened Units
  import opened NetworkTypes
  import opened Remote
  import opened LoanMessages
  import Networks
  import Kovan

  /** The result codes; `Code` is the number the enum member stands for. */
  datatype Errors =
    | NO_ERROR
    | TRANSACTION_ERROR
    | CONTRACT_RETURN_ERROR
    | UNSUPPORTED_CHAIN_ID
    | INSUFFICIENT_BALANCE
    | ACCOUNT_LIQUIDITY
  {
    function Code(): nat {
      match this
      case NO_ERROR => 0
      case TRANSACTION_ERROR => 1
      case CONTRACT_RETURN_ERROR => 2
      case UNSUPPORTED_CHAIN_ID => 3
      case INSUFFICIENT_BALANCE => 4
      case ACCOUNT_LIQUIDITY => 5
    }
  }

  /** The enum member a number stands for, if any. */
  function FromCode(n: nat): (e: Option<Errors>)
    ensures e.Some? <==> n < 6
  {
    if n == 0 then Some(NO_ERROR)
    else if n == 1 then Some(TRANSACTION_ERROR)
    else if n == 2 then Some(CONTRACT_RETURN_ERROR)
    else if n == 3 then Some(UNSUPPORTED_CHAIN_ID)
    else if n == 4 then Some(INSUFFICIENT_BALANCE)
    else if n == 5 then Some(ACCOUNT_LIQUIDITY)
    else None
  }

  /** The codes are consecutive from 0 and each stands for exactly one member. */
  lemma CodesRoundTrip(e: Errors, n: nat)
    ensures e.Code() < 6 && FromCode(e.Code()) == Some(e)
    ensures FromCode(n).Some? ==> FromCode(n).value.Code() == n
  {
  }

  lemma CodesDistinct(e1: Errors, e2: Errors)
    ensures e1.Code() == e2.Code() ==> e1 == e2
  {
    CodesRoundTrip(e1, 0);
    CodesRoundTrip(e2, 0);
  }

  /** The `{ error, message }` record the workflow returns, and that `error` builds and logs. */
  datatype LoanResult = LoanResult(error: Errors, message: Message)

  datatype Request = Request(
    privateKey: string,
    providerUrl: string,
    chainId: int,
    sukuDecimalAmount: Option<string>)

  /** How the returned promise settles: with a record, or rejected because the wallet could not be built. */
  datatype Outcome = Resolved(result: LoanResult) | Rejected

  /** The calls issued, the records passed to `error` (which logs each), and the outcome. */
  datatype Execution = Execution(trace: seq<Call>, reported: seq<LoanResult>, outcome: Outcome)

  // ---------------------------------------------------------------- the steps

  /** A SUKU amount was passed: neither missing nor the (falsy) empty string. */
  predicate AmountRequested(amount: Option<string>) {
    amount.Some? && amount.value != ""
  }

  /** The SUKU balance step: the calls, the errors logged, the `sukuBalance` it sets, and the record it returns early with, if any. */
  datatype SukuRead = SukuRead(calls: seq<Call>, reports: seq<LoanResult>, sukuBalance: Option<nat>, early: Option<LoanResult>)

  function SukuStage(suku: string, w: string, amount: Option<string>, o: Oracle): SukuRead {
    var failure := LoanResult(TRANSACTION_ERROR, SukuReadFailure(suku, w));
    match o.sukuBalance
    case None => SukuRead([BalanceOf(suku, w)], [failure], None, None)
    case Some(balance) =>
      var calls := [BalanceOf(suku, w), Decimals(suku)];
      match o.sukuDecimals
      case None => SukuRead(calls, [failure], None, None)
      case Some(decimals) =>
        if !AmountRequested(amount) then SukuRead(calls, [], Some(balance), None)
        else
          match ParseUnits(amount.value, decimals)
          case None => SukuRead(calls, [failure], None, None)
          case Some(requested) =>
            if requested > balance then
              var r := LoanResult(INSUFFICIENT_BALANCE, Insufficient(balance, requested, decimals));
              SukuRead(calls, [r], None, Some(r))
            else SukuRead(calls, [], Some(requested), None)
  }

  /** One transaction step: the call is issued; when it (or waiting for it) throws, a TRANSACTION_ERROR is logged. */
  datatype Step = Step(calls: seq<Call>, reports: seq<LoanResult>)

  function Submit(call: Call, ok: bool, failure: Message): Step {
    Step([call], if ok then [] else [LoanResult(TRANSACTION_ERROR, failure)])
  }

  /** The liquidity step: the calls, the errors logged, and the `accountLiquidity` it sets. */
  datatype LiquidityRead = LiquidityRead(calls: seq<Call>, reports: seq<LoanResult>, accountLiquidity: Option<nat>)

  function LiquidityStage(controller: string, w: string, reply: Option<LiquidityReply>): LiquidityRead {
    var calls := [GetAccountLiquidity(controller, w)];
    match reply
    case None => LiquidityRead(calls, [LoanResult(TRANSACTION_ERROR, LiquidityFailure(w))], None)
    case Some(r) =>
      var codeReport := if r.errorCode != 0 then [LoanResult(CONTRACT_RETURN_ERROR, LiquidityCode(r.errorCode))] else [];
      var zeroReport := if r.liquidity == 0 then [LoanResult(ACCOUNT_LIQUIDITY, ZeroLiquidity(r.shortfall))] else [];
      LiquidityRead(calls, codeReport + zeroReport, Some(r.liquidity))
  }

  /** The check after the liquidity step: logs ACCOUNT_LIQUIDITY when no liquidity was obtained. */
  function LiquidityCheck(accountLiquidity: Option<nat>, w: string): seq<LoanResult> {
    if accountLiquidity.None? then [LoanResult(ACCOUNT_LIQUIDITY, LiquidityFailure(w))] else []
  }

  /** `balance.div(10 ** decimals)`: the whole tokens in a balance of smallest units, rounded down. */
  function WholeUnits(balance: nat, decimals: nat): (whole: nat)
    ensures whole * Pow10(decimals) <= balance < (whole + 1) * Pow10(decimals)
  {
    var qr := DivMod(balance, Pow10(decimals));
    qr.0
  }

  /** The final step: the calls, the errors logged, and the record returned. */
  datatype FinalRead = FinalRead(calls: seq<Call>, reports: seq<LoanResult>, result: LoanResult)

  function FinalStage(usdc: string, w: string, o: Oracle): FinalRead {
    var failure := LoanResult(TRANSACTION_ERROR, UsdcReadFailure(usdc, w));
    match o.usdcBalance
    case None => FinalRead([BalanceOf(usdc, w)], [failure], failure)
    case Some(balance) =>
      var calls := [BalanceOf(usdc, w), Decimals(usdc)];
      match o.usdcDecimals
      case None => FinalRead(calls, [failure], failure)
      case Some(decimals) => FinalRead(calls, [], LoanResult(NO_ERROR, Success(WholeUnits(balance, decimals))))
  }

  /** Entering the markets, then approve and mint of the deposit: `sukuBalance || 0`. */
  function Collateral(cfg: NetworkConfig, w: string, sukuBalance: Option<nat>, o: Oracle): Step {
    var deposit := sukuBalance.GetOr(0);
    var cSuku := cfg.cSUKU.address;
    var enter := Submit(EnterMarkets(cfg.unitroller.address, [cSuku, cfg.cUSDC.address]), o.enterMarketsOk,
                        EnterMarketsFailure(cSuku, cfg.cUSDC.address, w));
    var approve := Submit(Approve(cfg.SUKU.address, cSuku, deposit), o.approveOk, ApproveFailure(cSuku, sukuBalance, w));
    var mint := Submit(Mint(cSuku, deposit), o.mintOk, MintFailure(w, sukuBalance));
    Step(enter.calls + approve.calls + mint.calls, enter.reports + approve.reports + mint.reports)
  }

  /** The liquidity read and its check, then borrow of `accountLiquidity || 0`. */
  function Loan(cfg: NetworkConfig, w: string, sukuBalance: Option<nat>, o: Oracle): Step {
    var liq := LiquidityStage(cfg.unitroller.address, w, o.liquidity);
    var check := LiquidityCheck(liq.accountLiquidity, w);
    var borrow := Submit(Borrow(cfg.cUSDC.address, liq.accountLiquidity.GetOr(0)), o.borrowOk,
                         BorrowFailure(w, sukuBalance));
    Step(liq.calls + borrow.calls, liq.reports + check + borrow.reports)
  }

  /** The workflow once the network is known and the wallet is built. */
  function Steps(cfg: NetworkConfig, w: string, amount: Option<string>, o: Oracle): Execution {
    var s := SukuStage(cfg.SUKU.address, w, amount, o);
    if s.early.Some? then Execution(s.calls, s.reports, Resolved(s.early.value))
    else
      var c := Collateral(cfg, w, s.sukuBalance, o);
      var l := Loan(cfg, w, s.sukuBalance, o);
      var fin := FinalStage(cfg.USDC.address, w, o);
      Execution(s.calls + c.calls + l.calls + fin.calls, s.reports + c.reports + l.reports + fin.reports, Resolved(fin.result))
  }

  /** The whole workflow. */
  function Run(req: Request, o: Oracle): Execution {
    match Networks.GetConfigByNetwork(req.chainId)
    case None =>
      var r := LoanResult(UNSUPPORTED_CHAIN_ID, UnsupportedChain(req.chainId));
      Execution([], [r], Resolved(r))
    case Some(cfg) =>
      match o.wallet
      case None => Execution([], [], Rejected)
      case Some(w) => Steps(cfg, w, req.sukuDecimalAmount, o)
  }

  // ---------------------------------------------------------------- the workflow, imperatively

  /** `error`: builds the record and logs it. */
  method Error(reported: seq<LoanResult>, code: Errors, message: Message) returns (reported': seq<LoanResult>, r: LoanResult)
    ensures r.error == code && r.message == message
    ensures reported' == reported + [r]
  {
    r := LoanResult(code, message);
    reported' := reported + [r];
  }

  /** The try/catch around the SUKU balance, decimals and requested amount. */
  method ReadSukuBalance(suku: string, w: string, amount: Option<string>, o: Oracle)
    returns (calls: seq<Call>, reports: seq<LoanResult>, sukuBalance: Option<nat>, early: Option<LoanResult>)
    ensures SukuRead(calls, reports, sukuBalance, early) == SukuStage(suku, w, amount, o)
  {
    calls, reports, sukuBalance, early := [BalanceOf(suku, w)], [], None, None;
    if o.sukuBalance.None? {
      reports := [LoanResult(TRANSACTION_ERROR, SukuReadFailure(suku, w))];
      return;
    }
    var balance := o.sukuBalance.value;
    calls := calls + [Decimals(suku)];
    if o.sukuDecimals.None? {
      reports := [LoanResult(TRANSACTION_ERROR, SukuReadFailure(suku, w))];
      return;
    }
    var decimals := o.sukuDecimals.value;
    if AmountRequested(amount) {
      var parsed := ParseUnits(amount.value, decimals);
      if parsed.None? {
        // parseUnits throws; the catch logs the failure
        reports := [LoanResult(TRANSACTION_ERROR, SukuReadFailure(suku, w))];
        return;
      }
      var requested := parsed.value;
      if requested > balance {
        var r;
        reports, r := Error(reports, INSUFFICIENT_BALANCE, Insufficient(balance, requested, decimals));
        early := Some(r);
        return;
      }
      sukuBalance := Some(requested);
    } else {
      // no amount passed: the full balance is used
      sukuBalance := Some(balance);
    }
  }

  /** The try/catch around one transaction. */
  method SubmitTransaction(call: Call, ok: bool, failure: Message) returns (calls: seq<Call>, reports: seq<LoanResult>)
    ensures Step(calls, reports) == Submit(call, ok, failure)
  {
    calls, reports := [call], [];
    if !ok {
      var logged;
      reports, logged := Error(reports, TRANSACTION_ERROR, failure);
    }
  }

  /** The try/catch around getAccountLiquidity. */
  method ReadLiquidity(controller: string, w: string, reply: Option<LiquidityReply>)
    returns (calls: seq<Call>, reports: seq<LoanResult>, accountLiquidity: Option<nat>)
    ensures LiquidityRead(calls, reports, accountLiquidity) == LiquidityStage(controller, w, reply)
  {
    calls, reports, accountLiquidity := [GetAccountLiquidity(controller, w)], [], None;
    var logged;
    if reply.None? {
      reports, logged := Error(reports, TRANSACTION_ERROR, LiquidityFailure(w));
      return;
    }
    var r := reply.value;
    if r.errorCode != 0 {
      reports, logged := Error(reports, CONTRACT_RETURN_ERROR, LiquidityCode(r.errorCode));
    }
    if r.liquidity == 0 {
      reports, logged := Error(reports, ACCOUNT_LIQUIDITY, ZeroLiquidity(r.shortfall));
    }
    accountLiquidity := Some(r.liquidity);
  }

  /** The try/catch around the final USDC balance and decimals reads. */
  method ReadUsdcBalance(usdc: string, w: string, o: Oracle) returns (calls: seq<Call>, reports: seq<LoanResult>, result: LoanResult)
    ensures FinalRead(calls, reports, result) == FinalStage(usdc, w, o)
  {
    calls, reports := [BalanceOf(usdc, w)], [];
    if o.usdcBalance.None? {
      reports, result := Error(reports, TRANSACTION_ERROR, UsdcReadFailure(usdc, w));
      return;
    }
    var usdcBalance := o.usdcBalance.value;
    calls := calls + [Decimals(usdc)];
    if o.usdcDecimals.None? {
      reports, result := Error(reports, TRANSACTION_ERROR, UsdcReadFailure(usdc, w));
      return;
    }
    var decimalBalance := WholeUnits(usdcBalance, o.usdcDecimals.value);
    result := LoanResult(NO_ERROR, Success(decimalBalance));
  }

  /** createLoan: the network lookup and the wallet, then the steps. */
  method CreateLoan(req: Request, o: Oracle) returns (trace: seq<Call>, reported: seq<LoanResult>, outcome: Outcome)
    ensures Execution(trace, reported, outcome) == Run(req, o)
  {
    var networkConfig := Networks.GetConfigByNetwork(req.chainId);
    if networkConfig.None? {
      var r;
      trace := [];
      reported, r := Error([], UNSUPPORTED_CHAIN_ID, UnsupportedChain(req.chainId));
      outcome := Resolved(r);
      return;
    }
    // new ethers.Wallet(privateKey, provider) throws outside any try
    if o.wallet.None? {
      trace, reported, outcome := [], [], Rejected;
      return;
    }
    trace, reported, outcome := RunSteps(networkConfig.value, o.wallet.value, req.sukuDecimalAmount, o);
  }

  /** The steps in order, each appending its calls and logged errors. */
  method RunSteps(cfg: NetworkConfig, walletAddress: string, sukuDecimalAmount: Option<string>, o: Oracle)
    returns (trace: seq<Call>, reported: seq<LoanResult>, outcome: Outcome)
    ensures Execution(trace, reported, outcome) == Steps(cfg, walletAddress, sukuDecimalAmount, o)
  {
    var sukuAddr := cfg.SUKU.address;
    var usdcAddr := cfg.USDC.address;

    var sukuBalance, early;
    trace, reported, sukuBalance, early := ReadSukuBalance(sukuAddr, walletAddress, sukuDecimalAmount, o);
    if early.Some? {
      outcome := Resolved(early.value);
      return;
    }
    var calls, reports := RunCollateral(cfg, walletAddress, sukuBalance, o);
    trace, reported := trace + calls, reported + reports;
    calls, reports := RunLoan(cfg, walletAddress, sukuBalance, o);
    trace, reported := trace + calls, reported + reports;

    var result;
    calls, reports, result := ReadUsdcBalance(usdcAddr, walletAddress, o);
    trace, reported := trace + calls, reported + reports;
    outcome := Resolved(result);
  }

  /** The try/catch blocks around enterMarkets, approve and mint. */
  method RunCollateral(cfg: NetworkConfig, walletAddress: string, sukuBalance: Option<nat>, o: Oracle)
    returns (calls: seq<Call>, reports: seq<LoanResult>)
    ensures Step(calls, reports) == Collateral(cfg, walletAddress, sukuBalance, o)
  {
    var unitrollerAddr := cfg.unitroller.address;
    var sukuAddr := cfg.SUKU.address;
    var cSukuAddr := cfg.cSUKU.address;
    var cUsdcAddr := cfg.cUSDC.address;

    calls, reports := SubmitTransaction(EnterMarkets(unitrollerAddr, [cSukuAddr, cUsdcAddr]), o.enterMarketsOk,
                                        EnterMarketsFailure(cSukuAddr, cUsdcAddr, walletAddress));
    var stepCalls, stepReports := SubmitTransaction(Approve(sukuAddr, cSukuAddr, sukuBalance.GetOr(0)), o.approveOk,
                                                    ApproveFailure(cSukuAddr, sukuBalance, walletAddress));
    calls, reports := calls + stepCalls, reports + stepReports;
    stepCalls, stepReports := SubmitTransaction(Mint(cSukuAddr, sukuBalance.GetOr(0)), o.mintOk, MintFailure(walletAddress, sukuBalance));
    calls, reports := calls + stepCalls, reports + stepReports;
  }

  /** The try/catch around getAccountLiquidity, the check after it, and the try/catch around borrow. */
  method RunLoan(cfg: NetworkConfig, walletAddress: string, sukuBalance: Option<nat>, o: Oracle)
    returns (calls: seq<Call>, reports: seq<LoanResult>)
    ensures Step(calls, reports) == Loan(cfg, walletAddress, sukuBalance, o)
  {
    var accountLiquidity;
    calls, reports, accountLiquidity := ReadLiquidity(cfg.unitroller.address, walletAddress, o.liquidity);
    if accountLiquidity.None? {
      var logged;
      reports, logged := Error(reports, ACCOUNT_LIQUIDITY, LiquidityFailure(walletAddress));
    } else {
      assert reports + LiquidityCheck(accountLiquidity, walletAddress) == reports;
    }
    var stepCalls, stepReports := SubmitTransaction(Borrow(cfg.cUSDC.address, accountLiquidity.GetOr(0)), o.borrowOk,
                                                    BorrowFailure(walletAddress, sukuBalance));
    calls, reports := calls + stepCalls, reports + stepReports;
  }
}
