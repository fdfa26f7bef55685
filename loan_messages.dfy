/**
 * The messages of the two loan workflows. Each is kept as a value naming
 * its template and the values filled into it; `Text` renders it with
 * the workflow's template string, numbers in plain decimal digits.
 */
module LoanMessages {
  import opened Options
  import opened Decimal
  import opened Units

  datatype Message =
    | UnsupportedChain(chainId: int)
    | SukuReadFailure(suku: string, wallet: string)
    | Insufficient(balance: nat, requested: nat, decimals: nat)
    | EnterMarketsFailure(cSuku: string, cUsdc: string, wallet: string)
    | ApproveFailure(cSuku: string, amount: Option<nat>, wallet: string)
    | MintFailure(wallet: string, amount: Option<nat>)
    | LiquidityCode(code: nat)
    | ZeroLiquidity(shortfall: nat)
    | LiquidityFailure(wallet: string)
    | BorrowFailure(wallet: string, amount: Option<nat>)
    | UsdcReadFailure(usdc: string, wallet: string)
    | Success(whole: nat)
    | ConfigurationError
  {
    function Text(): string {
      match this
      case UnsupportedChain(c) => "Chain id " + IntToString(c) + " is not currently supported."
      case SukuReadFailure(suku, w) => "Error obtaining SUKU: " + suku + " balance for account: " + w + "."
      case Insufficient(b, a, d) =>
        "SUKU balance of: " + FormatUnits(b, d) + " is less than desired SUKU deposit of: " + FormatUnits(a, d)
      case EnterMarketsFailure(cSuku, cUsdc, w) =>
        "Error entering cSUKU: " + cSuku + " and cUSDC: " + cUsdc + " markets for address: " + w + "."
      case ApproveFailure(cSuku, x, w) =>
        "Error approving CSUKU token address " + cSuku + " to take control of " + AmountText(x) + " SUKU by address " + w + "."
      case MintFailure(w, x) => "Error minting CSUKU tokens for address: " + w + " with SUKU balance of: " + AmountText(x) + "."
      case LiquidityCode(code) => "Returned a non-zero error value when obtaining account liquidity: " + NatToString(code)
      case ZeroLiquidity(s) =>
        "Cannot borrow funds as returned account liquidity is zero. Current shortfall is: " + NatToString(s)
      case LiquidityFailure(w) => "Error obtaining account liquidity for: " + w + "."
      case BorrowFailure(w, x) => "Error borrowing: " + w + " with SUKU balance of: " + AmountText(x) + "."
      case UsdcReadFailure(usdc, w) => "Obtaining balance USDC balance at: " + usdc + " for account: " + w + "."
      case Success(whole) => SuccessLead + NatToString(whole) + " USDC"
      case ConfigurationError => "Error setting up configuration."
    }
  }

  const SuccessLead: string := "Successfully borrowed USDC. Your current balance is: "

  /** The success message determines the balance it reports. */
  lemma SuccessTextDeterminesBalance(a: nat, b: nat)
    requires Success(a).Text() == Success(b).Text()
    ensures a == b
  {
    var ta, tb := NatToString(a), NatToString(b);
    assert Success(a).Text() == SuccessLead + (ta + " USDC");
    assert Success(b).Text() == SuccessLead + (tb + " USDC");
    assert ta + " USDC" == (SuccessLead + (ta + " USDC"))[|SuccessLead|..];
    assert tb + " USDC" == (SuccessLead + (tb + " USDC"))[|SuccessLead|..];
    assert ta == (ta + " USDC")[..|ta|];
    assert tb == (tb + " USDC")[..|tb|];
    NatToStringInjective(a, b);
  }

  /** The liquidity failure message determines the wallet it names. */
  lemma LiquidityFailureTextDeterminesWallet(v: string, w: string)
    requires LiquidityFailure(v).Text() == LiquidityFailure(w).Text()
    ensures v == w
  {
    var lead := "Error obtaining account liquidity for: ";
    assert LiquidityFailure(v).Text() == lead + (v + ".");
    assert LiquidityFailure(w).Text() == lead + (w + ".");
    assert v + "." == (lead + (v + "."))[|lead|..];
    assert w + "." == (lead + (w + "."))[|lead|..];
    assert v == (v + ".")[..|v|];
    assert w == (w + ".")[..|w|];
  }

  /** How `${sukuBalance}` renders: the amount in decimal, or "undefined" when it was never set. */
  function AmountText(amount: Option<nat>): (text: string)
    ensures amount.Some? <==> IsDigits(text)
    ensures amount.None? ==> text == "undefined"
  {
    match amount
    case Some(x) => NatToString(x)
    case None =>
      assert !IsDigit("undefined"[0]);
      "undefined"
  }

  /** The rendered amount determines the amount, and tells an unset one apart. */
  lemma AmountTextInjective(a: Option<nat>, b: Option<nat>)
    requires AmountText(a) == AmountText(b)
    ensures a == b
  {
    if a.Some? && b.Some? {
      NatToStringInjective(a.value, b.value);
    }
  }
}
