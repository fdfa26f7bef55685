/** The contract table of the Kovan test network. */
module Kovan {
  import opened Options
  import opened NetworkTypes

  const KovanNetworkConfig: NetworkConfig := NetworkConfig(
    unitroller := ContractAddress("0x899659b74B6B07A8C401657cD76d289b5E0248a4"),
    comptroller := Some(ContractAddress("0xEcB9686cB8Bec28B81e5369782c0534269413842")),
    governorAlpha := Some(ContractAddress("0x5960B28C24425f5db4abb3e43Dd15A34f3cc41a9")),
    maximillion := Some(ContractAddress("0x5960B28C24425f5db4abb3e43Dd15A34f3cc41a9")),
    priceOracle := Some(ContractAddress("0x7B0568A2BE71b28E9631FBa1182806Acf10ec123")),
    timelock := Some(ContractAddress("0xD12Ba62471a5E66c27936477a532A601B3Fb68A0")),
    Base500bps_Slope1200bps := Some(ContractAddress("0x7CbE5Bc02fDdA09F540f6233fC25AD89695fcD25")),
    SUKU := ContractAddress("0xd35f5965B4B84382ca27072fF3B6b42e7053e672"),
    cSUKU := ContractAddress("0x73f227a0EE9c3964061e28f1D23B2217Cd1621E1"),
    USDC := ContractAddress("0x5ADf17577CF2be1288C5228735ea58EeB4C15Ee3"),
    cUSDC := ContractAddress("0xf18feCe22570f7bA7c7D50dd4A9d11b4aE74bC89"))

  /** The five mandatory addresses are given and no two coincide. */
  lemma KovanMandatory()
    ensures KovanNetworkConfig.MandatoryComplete()
    ensures KovanNetworkConfig.MandatoryDistinct()
  {
  }

  /** All six optional contracts are deployed: each entry is present with a non-empty address. */
  lemma KovanOptionalPresent()
    ensures KovanNetworkConfig.OptionalPresent(true)
  {
  }

  /** Every address of the table is "0x" followed by 40 hexadecimal digits. */
  lemma KovanAddressesWellFormed()
    ensures KovanNetworkConfig.AddressesWellFormed()
    ensures forall i :: 0 <= i < 5 ==> IsHexAddress(KovanNetworkConfig.Mandatory()[i])
    ensures forall i :: 0 <= i < 6 ==> IsHexAddress(KovanNetworkConfig.Optional()[i].value.address)
  {
    KovanOptionalPresent();
    UnitrollerIsHex();
    SUKUIsHex();
    CSUKUIsHex();
    USDCIsHex();
    CUSDCIsHex();
    ComptrollerIsHex();
    GovernorAlphaIsHex();
    MaximillionIsHex();
    PriceOracleIsHex();
    TimelockIsHex();
    Base500bps_Slope1200bpsIsHex();
  }

  // One lemma per entry keeps each proof obligation small.
  lemma UnitrollerIsHex() ensures IsHexAddress(KovanNetworkConfig.unitroller.address) {}
  lemma SUKUIsHex() ensures IsHexAddress(KovanNetworkConfig.SUKU.address) {}
  lemma CSUKUIsHex() ensures IsHexAddress(KovanNetworkConfig.cSUKU.address) {}
  lemma USDCIsHex() ensures IsHexAddress(KovanNetworkConfig.USDC.address) {}
  lemma CUSDCIsHex() ensures IsHexAddress(KovanNetworkConfig.cUSDC.address) {}
  lemma ComptrollerIsHex() ensures IsHexAddress(KovanNetworkConfig.comptroller.value.address) {}
  lemma GovernorAlphaIsHex() ensures IsHexAddress(KovanNetworkConfig.governorAlpha.value.address) {}
  lemma MaximillionIsHex() ensures IsHexAddress(KovanNetworkConfig.maximillion.value.address) {}
  lemma PriceOracleIsHex() ensures IsHexAddress(KovanNetworkConfig.priceOracle.value.address) {}
  lemma TimelockIsHex() ensures IsHexAddress(KovanNetworkConfig.timelock.value.address) {}
  lemma Base500bps_Slope1200bpsIsHex() ensures IsHexAddress(KovanNetworkConfig.Base500bps_Slope1200bps.value.address) {}

  /**
   * The unitroller (the address the workflow uses as controller) is not the
   * comptroller implementation; the governorAlpha and maximillion entries
   * share one address.
   */
  lemma KovanControllerEntries()
    ensures KovanNetworkConfig.comptroller.Some?
    ensures KovanNetworkConfig.unitroller != KovanNetworkConfig.comptroller.value
    ensures KovanNetworkConfig.governorAlpha == KovanNetworkConfig.maximillion
  {
  }
}
