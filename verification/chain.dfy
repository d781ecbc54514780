/** Chain identification and the native-versus-token split of asset addresses. */
module Chain {
  import opened Numbers

  /** The chain id of Ethereum Classic. */
  const EtcChainId: int := 61

  /** `isEtcChainId`: the BigNumber chain id equals 61 (never true of NaN). */
  predicate IsEtcChainId(chainId: Num)
  {
    Eq(chainId, Int(EtcChainId))
  }

  lemma EtcChainIdByValue(chainId: Num)
    ensures IsEtcChainId(chainId) <==> chainId.Dec? && Value(chainId) == 61.0
  {
    CompareValues(chainId, Int(EtcChainId));
  }

  /** `chainIdToString`: the ticker of the chain's native asset. */
  function ChainIdToString(chainId: Num): (r: string)
    ensures r == "ETC" <==> chainId.Dec? && Value(chainId) == 61.0
    ensures r != "ETC" ==> r == "ETH"
  {
    EtcChainIdByValue(chainId);
    if IsEtcChainId(chainId) then "ETC" else "ETH"
  }

  /** `isNotErc20TokenAddress`: the two native-asset sentinels. */
  predicate IsNotErc20TokenAddress(tokenAddress: string)
  {
    tokenAddress == "ETH" || tokenAddress == "ETC"
  }

  /** `isErc20TokenAddress`: every other address names an ERC-20 contract. */
  function IsErc20TokenAddress(tokenAddress: string): (r: bool)
    ensures r <==> tokenAddress != "ETH" && tokenAddress != "ETC"
  {
    !IsNotErc20TokenAddress(tokenAddress)
  }

  /** Whatever the chain id, the native asset it names is never an ERC-20 address. */
  lemma NativeAssetIsNotErc20(chainId: Num)
    ensures IsNotErc20TokenAddress(ChainIdToString(chainId))
    ensures !IsErc20TokenAddress(ChainIdToString(chainId))
  {
  }
}
