/** The contract table of the Binance Smart Chain test network (defined, never registered). */
module BinanceTestnet {
  import opened Options
  import opened NetworkTypes

  const BinanceTestnetConfig: NetworkConfig := NetworkConfig(
    unitroller := ContractAddress("0x96498309220d9E477d1ce5972Ff723aC4DF19C2C"),
    comptroller := Some(ContractAddress("")),
    governorAlpha := Some(ContractAddress("")),
    maximillion := Some(ContractAddress("")),
    priceOracle := Some(ContractAddress("")),
    timelock := Some(ContractAddress("")),
    Base500bps_Slope1200bps := Some(ContractAddress("")),
    SUKU := ContractAddress("0xbb92794048D4477AD7042B5D365d785C3d71CA20"),
    cSUKU := ContractAddress("0x4bDe92De1e1D12d7baC4B4a1fef02f9f24052EE7"),
    // USDC and cUSDC hold the BUSD token and its market on this network.
    USDC := ContractAddress("0xeD24FC36d5Ee211Ea25A80239Fb8C4Cfd80f12Ee"),
    cUSDC := ContractAddress("0x34538C7E2f7f283a69beddd0897aB7f8Bae0B92D"))

  /** The five mandatory addresses are given and no two coincide. */
  lemma BinanceTestnetMandatory()
    ensures BinanceTestnetConfig.MandatoryComplete()
    ensures BinanceTestnetConfig.MandatoryDistinct()
  {
  }

  /** All six optional entries are present, each with the empty address "not deployed". */
  lemma BinanceTestnetOptionalEmpty()
    ensures BinanceTestnetConfig.OptionalPresent(false)
  {
  }

  /** Every non-empty address of the table is "0x" followed by 40 hexadecimal digits. */
  lemma BinanceTestnetAddressesWellFormed()
    ensures BinanceTestnetConfig.AddressesWellFormed()
    ensures forall i :: 0 <= i < 5 ==> IsHexAddress(BinanceTestnetConfig.Mandatory()[i])
  {
    UnitrollerIsHex();
    SUKUIsHex();
    CSUKUIsHex();
    USDCIsHex();
    CUSDCIsHex();
  }

  // One lemma per entry keeps each proof obligation small.
  lemma UnitrollerIsHex() ensures IsHexAddress(BinanceTestnetConfig.unitroller.address) {}
  lemma SUKUIsHex() ensures IsHexAddress(BinanceTestnetConfig.SUKU.address) {}
  lemma CSUKUIsHex() ensures IsHexAddress(BinanceTestnetConfig.cSUKU.address) {}
  lemma USDCIsHex() ensures IsHexAddress(BinanceTestnetConfig.USDC.address) {}
  lemma CUSDCIsHex() ensures IsHexAddress(BinanceTestnetConfig.cUSDC.address) {}
}
