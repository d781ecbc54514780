/**
 * The values the send form holds and hands to the gas estimator, and the
 * asset being sent. Every field of the form may be absent (`None`): an empty
 * input, `null` or `undefined` in the source.
 */
module FormValues {
  import opened Wrappers
  import opened Numbers

  /** An asset: `address` is the sentinel "ETH" for ether, a contract address otherwise. */
  datatype Token = Token(address: string, decimals: nat, name: string, symbol: string)

  /** TxForm and estimateGas test for ether by comparing the address with "ETH" only. */
  predicate IsEther(token: Token)
  {
    token.address == "ETH"
  }

  /**
   * The form's values. `amount` and `gasPrice` are in ether and gwei as
   * typed (already read as BigNumbers, possibly NaN); `gas` is the current
   * estimate, or -1 after a failed estimate; `chainId`, `ethBalance` and
   * `transactionCount` are filled in from chain subscriptions.
   */
  datatype TxValues = TxValues(
    from: Option<string>,
    to: Option<string>,
    amount: Option<Num>,
    gasPrice: Option<Num>,
    gas: Option<Num>,
    chainId: Option<Num>,
    ethBalance: Option<Num>,
    transactionCount: Option<Num>)

  /** A transaction object with no keys. */
  predicate IsEmpty(tx: TxValues)
  {
    tx == TxValues(None, None, None, None, None, None, None, None)
  }

  /** `new BigNumber(x)`: an absent value reads as NaN. */
  function AsNum(x: Option<Num>): (r: Num)
    ensures x.Some? ==> r == x.value
    ensures x.None? ==> r.NaN?
  {
    if x.Some? then x.value else NaN
  }

  const ZeroAddress: string := "0x0000000000000000000000000000000000000000"

  /** Wei in one gwei ("shannon") and in one ether. */
  const WeiPerGwei: real := 1000000000.0
  const WeiPerEther: real := 1000000000000000000.0

  lemma Pow10OfUnits()
    ensures Pow10(9) as real == WeiPerGwei && Pow10(18) as real == WeiPerEther
  {
    assert Pow10(3) == 1000;
    assert Pow10(6) == 1000000 by { Pow10Add(3, 3); }
    assert Pow10(9) == 1000000000 by { Pow10Add(6, 3); }
    assert Pow10(18) == 1000000000000000000 by { Pow10Add(9, 9); }
  }

  /** `toWei(x)`: ether to wei. */
  function EtherToWei(x: Num): (r: Num)
    ensures r.Dec? <==> x.Dec?
    ensures x.Dec? ==> Value(r) == Value(x) * WeiPerEther
  {
    Pow10OfUnits();
    Shift(x, 18)
  }

  /** `toWei(x, 'shannon')`: gwei to wei. */
  function GweiToWei(x: Num): (r: Num)
    ensures r.Dec? <==> x.Dec?
    ensures x.Dec? ==> Value(r) == Value(x) * WeiPerGwei
  {
    Pow10OfUnits();
    Shift(x, 9)
  }

  /** `fromWei(x)`: wei to ether, exactly (bignumber.js rounds the quotient to 20 decimal places). */
  function WeiToEther(x: Num): (r: Num)
    ensures r.Dec? <==> x.Dec?
    ensures x.Dec? ==> Value(r) * WeiPerEther == Value(x)
  {
    Pow10OfUnits();
    Unshift(x, 18)
  }
}
