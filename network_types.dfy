/**
 * The shape of a network's contract table: `NetworkConfig<ContractAddress>`
 * with its five mandatory contracts and six optional ones.
 */
module NetworkTypes {
  import opened Options

  datatype ContractAddress = ContractAddress(address: string)

  datatype NetworkConfig = NetworkConfig(
    unitroller: ContractAddress,
    USDC: ContractAddress,
    cUSDC: ContractAddress,
    SUKU: ContractAddress,
    cSUKU: ContractAddress,
    priceOracle: Option<ContractAddress>,
    comptroller: Option<ContractAddress>,
    governorAlpha: Option<ContractAddress>,
    maximillion: Option<ContractAddress>,
    timelock: Option<ContractAddress>,
    /** The interest rate model: 500bps per year base, 1200bps multiplier per year. */
    Base500bps_Slope1200bps: Option<ContractAddress>)
  {
    /** The five addresses every table must give, in the order unitroller, SUKU, cSUKU, USDC, cUSDC. */
    function Mandatory(): seq<string> {
      [unitroller.address, SUKU.address, cSUKU.address, USDC.address, cUSDC.address]
    }

    /** The six optional entries, in the order comptroller, governorAlpha, maximillion, priceOracle, timelock, interest rate model. */
    function Optional(): seq<Option<ContractAddress>> {
      [comptroller, governorAlpha, maximillion, priceOracle, timelock, Base500bps_Slope1200bps]
    }

    /** Every mandatory address is non-empty. */
    predicate MandatoryComplete() {
      forall i :: 0 <= i < |Mandatory()| ==> Mandatory()[i] != ""
    }

    /** No two mandatory entries share an address. */
    predicate MandatoryDistinct() {
      forall i, j :: 0 <= i < j < |Mandatory()| ==> Mandatory()[i] != Mandatory()[j]
    }

    /** Every optional entry is present; `filled` says whether its address is non-empty. */
    predicate OptionalPresent(filled: bool) {
      forall i :: 0 <= i < |Optional()| ==> Optional()[i].Some? && (Optional()[i].value.address != "") == filled
    }

    /** Every address in the table that is not empty is a well-formed one. */
    predicate AddressesWellFormed() {
      (forall i :: 0 <= i < |Mandatory()| ==> Mandatory()[i] == "" || IsHexAddress(Mandatory()[i]))
      && (forall i :: 0 <= i < |Optional()| && Optional()[i].Some? ==>
            Optional()[i].value.address == "" || IsHexAddress(Optional()[i].value.address))
    }
  }

  predicate IsHexChar(c: char) {
    '0' <= c <= '9' || 'a' <= c <= 'f' || 'A' <= c <= 'F'
  }

  /** "0x" followed by 40 hexadecimal digits. */
  predicate IsHexAddress(s: string) {
    |s| == 42 && s[0] == '0' && s[1] == 'x' && forall i :: 2 <= i < |s| ==> IsHexChar(s[i])
  }
}
