/**
 * The send form (Send/TxForm/TxForm.js): the synchronous pre-validation,
 * the cross-field validation that runs after the debounce, the fee and "Max"
 * arithmetic, the gas decorator, and the form component's own state.
 */
module Send {
  import opened Wrappers
  import opened Numbers
  import opened Text
  import opened FormValues
  import opened EstimateGas

  const DefaultAmountMaxChars: nat := 9
  const MediumAmountMaxChars: nat := 14

  /** The gas-price slider's range, in gwei, moved in steps of 0.5. */
  const MinGasPrice: nat := 3
  const MaxGasPrice: nat := 40

  datatype Field = AmountField | ToField | ChainIdField | EthBalanceField | TransactionCountField

  datatype Reason =
    | InvalidAmount
    | GasUnaffordableAtMax
    | ZeroAmount
    | NegativeAmount
    | BelowOneWei
    | TooManyDecimals(tokenName: string, decimals: nat)
    | InsufficientTokenBalance(symbol: string)
    | InvalidAddress
    | ZeroAddressRecipient(tokenName: string)
    | FetchingChainId
    | FetchingEthBalance
    | FetchingTransactionCount
    | EstimatingGas
    | NotEnoughEther
    | GasTooExpensiveForToken

  /** The text shown under the field. */
  function Message(r: Reason): string
  {
    match r
    case InvalidAmount => "Please enter a valid amount"
    case GasUnaffordableAtMax => "ETH balance too low to pay for gas."
    case ZeroAmount => "Please enter a non-zero amount"
    case NegativeAmount => "Please enter a positive amount"
    case BelowOneWei => "Please enter at least 1 Wei"
    case TooManyDecimals(name, d) =>
      "Please enter a " + name + " value of less than " + NatToString(d) + " decimal places"
    case InsufficientTokenBalance(symbol) => "You don't have enough " + symbol + " balance"
    case InvalidAddress => "Please enter a valid Ethereum address"
    case ZeroAddressRecipient(name) => "You are not permitted to send " + name + " to the zero account (0x0)"
    case FetchingChainId => "Fetching chainId"
    case FetchingEthBalance => "Fetching ethBalance"
    case FetchingTransactionCount => "Fetching transactionCount"
    case EstimatingGas => "Estimating gas..."
    case NotEnoughEther => "You don't have enough ETH balance"
    case GasTooExpensiveForToken => "ETH balance too low to pay for gas"
  }

  /**
   * The decimal-places message names the token and prints the limit so that
   * the number between its fixed parts reads back as the limit.
   */
  lemma TooManyDecimalsMessageReadsBack(name: string, d: nat)
    ensures var m := Message(TooManyDecimals(name, d));
            var head := "Please enter a " + name + " value of less than ";
            var tail := " decimal places";
            && |m| > |head| + |tail|
            && m[..|head|] == head && m[|m| - |tail|..] == tail
            && (forall i :: |head| <= i < |m| - |tail| ==> IsDigit(m[i]))
            && ParseDigits(m[|head|..|m| - |tail|]) == d
  {
    var m := Message(TooManyDecimals(name, d));
    var head := "Please enter a " + name + " value of less than ";
    var tail := " decimal places";
    var digits := NatToString(d);
    assert m == head + digits + tail;
    assert m[|head|..|m| - |tail|] == digits;
    ParsePrinted(d);
  }

  /** An error object with exactly one key. */
  datatype FieldError = FieldError(field: Field, reason: Reason)

  /** `preValidate`'s answer: `true`, or an error object. */
  datatype PreCheck = Passed | Rejected(error: FieldError)

  /** `validateForm`'s answer: no error (`{}` or `undefined`), or an error object. */
  datatype Verdict = NoErrors | Errors(error: FieldError)

  /**
   * `preValidate`: the first failing rule wins. `balance` is the balance of
   * the token being sent, in its own units; `isAddress` is the address-format
   * check of the RPC library.
   */
  function PreValidate(
    values: TxValues, maxSelected: bool, token: Token, balance: Option<Num>, isAddress: string -> bool)
    : (r: PreCheck)
    ensures r.Rejected? ==> r.error.field == AmountField || r.error.field == ToField
    ensures r == Passed ==> values.amount.Some? && values.amount.value.Dec?
    ensures r == Passed ==>
              values.to.Some? && values.to.value != "" && isAddress(values.to.value) && values.to.value != ZeroAddress
  {
    if values.amount.None? || values.amount.value.NaN? then Rejected(FieldError(AmountField, InvalidAmount))
    else
      var a := values.amount.value;
      if IsZero(a) then
        Rejected(FieldError(AmountField, if maxSelected then GasUnaffordableAtMax else ZeroAmount))
      else if IsNegative(a) then Rejected(FieldError(AmountField, NegativeAmount))
      else if IsEther(token) && Lt(EtherToWei(a), Int(1)) then Rejected(FieldError(AmountField, BelowOneWei))
      else if DecimalPlaces(a) > token.decimals then
        Rejected(FieldError(AmountField, TooManyDecimals(token.name, token.decimals)))
      else if balance.Some? && Lt(balance.value, a) then
        Rejected(FieldError(AmountField, InsufficientTokenBalance(token.symbol)))
      else if values.to.None? || values.to.value == "" || !isAddress(values.to.value) then
        Rejected(FieldError(ToField, InvalidAddress))
      else if values.to.value == ZeroAddress then Rejected(FieldError(ToField, ZeroAddressRecipient(token.name)))
      else Passed
  }

  /** The amount rules, stated on the value of the amount. */
  predicate AmountAcceptable(amount: Num, token: Token, balance: Option<Num>)
  {
    && amount.Dec?
    && Value(amount) > 0.0
    && (IsEther(token) ==> Value(amount) * WeiPerEther >= 1.0)
    && WholeAfterShift(amount, token.decimals)
    && (balance.Some? && balance.value.Dec? ==> Value(amount) <= Value(balance.value))
  }

  /** The rules of `preValidate` in value terms: the amount is acceptable and the recipient a non-empty, non-zero address. */
  lemma PreValidatePassesIff(
    values: TxValues, maxSelected: bool, token: Token, balance: Option<Num>, isAddress: string -> bool)
    ensures PreValidate(values, maxSelected, token, balance, isAddress) == Passed <==>
              && values.amount.Some? && AmountAcceptable(values.amount.value, token, balance)
              && values.to.Some? && values.to.value != "" && isAddress(values.to.value) && values.to.value != ZeroAddress
  {
    var v := values.amount;
    assert PreValidate(values, maxSelected, token, balance, isAddress) == Passed <==>
             && v.Some? && v.value.Dec? && AmountChecksPass(v.value, token, balance)
             && values.to.Some? && values.to.value != "" && isAddress(values.to.value) && values.to.value != ZeroAddress;
    if v.Some? && v.value.Dec? {
      AmountChecksPassIff(v.value, token, balance);
    }
  }

  /** The amount rules of `preValidate` as written, on the decimal itself. */
  ghost predicate AmountChecksPass(a: Num, token: Token, balance: Option<Num>)
    requires a.Dec?
  {
    && !IsZero(a) && !IsNegative(a)
    && !(IsEther(token) && Lt(EtherToWei(a), Int(1)))
    && DecimalPlaces(a) <= token.decimals
    && !(balance.Some? && Lt(balance.value, a))
  }

  lemma AmountChecksPassIff(a: Num, token: Token, balance: Option<Num>)
    requires a.Dec?
    ensures AmountChecksPass(a, token, balance) <==> AmountAcceptable(a, token, balance)
  {
    assert (!IsZero(a) && !IsNegative(a)) <==> Value(a) > 0.0 by { SignOfValue(a); }
    assert Lt(EtherToWei(a), Int(1)) <==> Value(a) * WeiPerEther < 1.0 by { CompareValues(EtherToWei(a), Int(1)); }
    assert DecimalPlaces(a) <= token.decimals <==> WholeAfterShift(a, token.decimals) by {
      DecimalPlacesExceed(a, token.decimals);
    }
    if balance.Some? {
      assert Lt(balance.value, a) <==> balance.value.Dec? && Value(balance.value) < Value(a) by {
        CompareValues(balance.value, a);
      }
    }
  }

  /** A zero amount: "balance too low for gas" in Max mode, "non-zero amount" otherwise. */
  lemma ZeroAmountMessage(
    values: TxValues, maxSelected: bool, token: Token, balance: Option<Num>, isAddress: string -> bool)
    requires values.amount.Some? && values.amount.value.Dec? && Value(values.amount.value) == 0.0
    ensures PreValidate(values, maxSelected, token, balance, isAddress) ==
              Rejected(FieldError(AmountField, if maxSelected then GasUnaffordableAtMax else ZeroAmount))
  {
    SignOfValue(values.amount.value);
  }

  /** More fractional digits than the token has is rejected once the earlier amount rules pass. */
  lemma TooManyDecimalsRejected(
    values: TxValues, maxSelected: bool, token: Token, balance: Option<Num>, isAddress: string -> bool)
    requires values.amount.Some? && values.amount.value.Dec? && Value(values.amount.value) > 0.0
    requires IsEther(token) ==> Value(values.amount.value) * WeiPerEther >= 1.0
    requires !WholeAfterShift(values.amount.value, token.decimals)
    ensures PreValidate(values, maxSelected, token, balance, isAddress) ==
              Rejected(FieldError(AmountField, TooManyDecimals(token.name, token.decimals)))
  {
    var a := values.amount.value;
    SignOfValue(a);
    CompareValues(EtherToWei(a), Int(1));
    DecimalPlacesExceed(a, token.decimals);
  }

  /** Sending to the zero address never passes, whatever the amount, balance or address check. */
  lemma ZeroAddressNeverPasses(
    values: TxValues, maxSelected: bool, token: Token, balance: Option<Num>, isAddress: string -> bool)
    requires values.to == Some(ZeroAddress)
    ensures PreValidate(values, maxSelected, token, balance, isAddress) != Passed
  {
  }

  /**
   * Once the amount rules pass, a valid zero address is refused with its own
   * message when the balance covers the amount (or is absent or NaN), and
   * with the balance message exactly when a numeric balance falls short.
   */
  lemma ZeroAddressMessage(
    values: TxValues, maxSelected: bool, token: Token, balance: Option<Num>, isAddress: string -> bool)
    requires values.to == Some(ZeroAddress) && isAddress(ZeroAddress)
    requires values.amount.Some? && AmountAcceptable(values.amount.value, token, None)
    ensures var r := PreValidate(values, maxSelected, token, balance, isAddress);
            r.Rejected? && (r.error.reason == ZeroAddressRecipient(token.name)
                            || r.error.reason == InsufficientTokenBalance(token.symbol))
    ensures PreValidate(values, maxSelected, token, None, isAddress) ==
              Rejected(FieldError(ToField, ZeroAddressRecipient(token.name)))
    ensures var short := balance.Some? && balance.value.Dec? && Value(balance.value) < Value(values.amount.value);
            PreValidate(values, maxSelected, token, balance, isAddress) ==
              if short then Rejected(FieldError(AmountField, InsufficientTokenBalance(token.symbol)))
              else Rejected(FieldError(ToField, ZeroAddressRecipient(token.name)))
  {
    var a := values.amount.value;
    assert AmountChecksPass(a, token, None) by { AmountChecksPassIff(a, token, None); }
    var short := balance.Some? && Lt(balance.value, a);
    assert short <==> balance.Some? && balance.value.Dec? && Value(balance.value) < Value(a) by {
      if balance.Some? {
        CompareValues(balance.value, a);
      }
    }
    assert PreValidate(values, maxSelected, token, balance, isAddress) ==
             if short then Rejected(FieldError(AmountField, InsufficientTokenBalance(token.symbol)))
             else Rejected(FieldError(ToField, ZeroAddressRecipient(token.name)));
  }

  /** `isEstimatedTxFee`: amount, gas and gas price are all present and numeric. */
  predicate IsEstimatedTxFee(values: TxValues)
  {
    && values.amount.Some? && values.gas.Some? && values.gasPrice.Some?
    && values.amount.value.Dec? && values.gas.value.Dec? && values.gasPrice.value.Dec?
  }

  /** Gas × gas price: the fee in wei for a gas price in gwei. */
  function TxFeeWei(gas: Num, gasPrice: Num): (r: Num)
    ensures r.Dec? <==> gas.Dec? && gasPrice.Dec?
    ensures r.Dec? ==> Value(r) == Value(gas) * (Value(gasPrice) * WeiPerGwei)
  {
    Mul(gas, GweiToWei(gasPrice))
  }

  /** `estimatedTxFee`: gas × gas price, in wei. */
  function EstimatedTxFee(values: TxValues): (r: Option<Num>)
    ensures r.Some? <==> IsEstimatedTxFee(values)
    ensures r.Some? ==>
              r.value.Dec? && Value(r.value) == Value(values.gas.value) * (Value(values.gasPrice.value) * WeiPerGwei)
  {
    if !IsEstimatedTxFee(values) then None
    else Some(TxFeeWei(values.gas.value, values.gasPrice.value))
  }

  /** The worked example: 21000 gas at 4 gwei costs 84 000 gwei, i.e. 84·10^12 wei, exactly. */
  lemma SimpleTransferFeeAtFourGwei(values: TxValues)
    requires values.amount.Some? && values.amount.value.Dec?
    requires values.gas == Some(Int(21000)) && values.gasPrice == Some(Int(4))
    ensures EstimatedTxFee(values).Some?
    ensures Value(EstimatedTxFee(values).value) == 84000000000000.0
  {
  }

  /** The failed-estimate sentinel. */
  predicate GasFailed(values: TxValues)
  {
    values.gas.Some? && Eq(values.gas.value, Int(-1))
  }

  /** Fee plus (for ether) the amount, against the ether balance, all in wei. */
  predicate FeeExceedsBalance(values: TxValues, token: Token)
    requires IsEstimatedTxFee(values) && values.ethBalance.Some?
  {
    var amountWei := if IsEther(token) then EtherToWei(values.amount.value) else Int(0);
    Gt(Add(EstimatedTxFee(values).value, amountWei), EtherToWei(values.ethBalance.value))
  }

  /**
   * The body of the debounced `validateForm`: pre-validation first, then the
   * chain data, then the sentinel, then the fee.
   */
  function ValidateForm(
    values: TxValues, maxSelected: bool, token: Token, balance: Option<Num>, isAddress: string -> bool)
    : (r: Verdict)
    ensures r.NoErrors? ==> PreValidate(values, maxSelected, token, balance, isAddress) == Passed
    ensures r.NoErrors? ==> values.chainId.Some? && values.ethBalance.Some? && values.transactionCount.Some?
  {
    var pre := PreValidate(values, maxSelected, token, balance, isAddress);
    if pre.Rejected? then Errors(pre.error)
    else if values.chainId.None? then Errors(FieldError(ChainIdField, FetchingChainId))
    else if values.ethBalance.None? then Errors(FieldError(EthBalanceField, FetchingEthBalance))
    else if values.transactionCount.None? then Errors(FieldError(TransactionCountField, FetchingTransactionCount))
    else if GasFailed(values) then NoErrors
    else if !IsEstimatedTxFee(values) then Errors(FieldError(AmountField, EstimatingGas))
    else if FeeExceedsBalance(values, token) then
      Errors(FieldError(AmountField, if !IsEther(token) then GasTooExpensiveForToken else NotEnoughEther))
    else NoErrors
  }

  /** A pre-validation error is passed through unchanged. */
  lemma ValidateFormKeepsPreValidationError(
    values: TxValues, maxSelected: bool, token: Token, balance: Option<Num>, isAddress: string -> bool)
    requires PreValidate(values, maxSelected, token, balance, isAddress).Rejected?
    ensures ValidateForm(values, maxSelected, token, balance, isAddress) ==
              Errors(PreValidate(values, maxSelected, token, balance, isAddress).error)
  {
  }

  /** The fee test in value terms: fee (plus the amount when sending ether) above the balance, in wei. */
  lemma FeeExceedsBalanceByValue(values: TxValues, token: Token)
    requires IsEstimatedTxFee(values) && values.ethBalance.Some? && values.ethBalance.value.Dec?
    ensures FeeExceedsBalance(values, token) <==>
              Value(TxFeeWei(values.gas.value, values.gasPrice.value))
              + (if IsEther(token) then Value(values.amount.value) * WeiPerEther else 0.0)
              > Value(values.ethBalance.value) * WeiPerEther
  {
    var amountWei := if IsEther(token) then EtherToWei(values.amount.value) else Int(0);
    SumExceeds(EstimatedTxFee(values).value, amountWei, EtherToWei(values.ethBalance.value));
  }

  lemma SumExceeds(a: Num, b: Num, c: Num)
    requires a.Dec? && b.Dec? && c.Dec?
    ensures Gt(Add(a, b), c) <==> Value(a) + Value(b) > Value(c)
  {
    CompareValues(c, Add(a, b));
  }

  /**
   * When the estimate is not the failed sentinel, the form is free of
   * errors exactly when pre-validation passes, the chain data has arrived,
   * the fee is computable and fee (plus the ether amount) fits the balance.
   */
  lemma ValidateFormAcceptsIff(
    values: TxValues, maxSelected: bool, token: Token, balance: Option<Num>, isAddress: string -> bool)
    requires !GasFailed(values)
    requires values.ethBalance.Some? ==> values.ethBalance.value.Dec?
    ensures ValidateForm(values, maxSelected, token, balance, isAddress) == NoErrors <==>
              && PreValidate(values, maxSelected, token, balance, isAddress) == Passed
              && values.chainId.Some? && values.ethBalance.Some? && values.transactionCount.Some?
              && IsEstimatedTxFee(values)
              && Value(TxFeeWei(values.gas.value, values.gasPrice.value))
                 + (if IsEther(token) then Value(values.amount.value) * WeiPerEther else 0.0)
                 <= Value(values.ethBalance.value) * WeiPerEther
  {
    if IsEstimatedTxFee(values) && values.ethBalance.Some? {
      FeeExceedsBalanceByValue(values, token);
    }
  }

  /** Which message an unaffordable send gets. */
  lemma UnaffordableMessage(
    values: TxValues, maxSelected: bool, token: Token, balance: Option<Num>, isAddress: string -> bool)
    requires PreValidate(values, maxSelected, token, balance, isAddress) == Passed
    requires values.chainId.Some? && values.ethBalance.Some? && values.transactionCount.Some?
    requires !GasFailed(values) && IsEstimatedTxFee(values) && FeeExceedsBalance(values, token)
    ensures ValidateForm(values, maxSelected, token, balance, isAddress) ==
              Errors(FieldError(AmountField, if IsEther(token) then NotEnoughEther else GasTooExpensiveForToken))
  {
  }

  /** With the failed-estimate sentinel and everything loaded, the form reports no error at all. */
  lemma FailedEstimateLeavesFormValid(
    values: TxValues, maxSelected: bool, token: Token, balance: Option<Num>, isAddress: string -> bool)
    requires PreValidate(values, maxSelected, token, balance, isAddress) == Passed
    requires values.chainId.Some? && values.ethBalance.Some? && values.transactionCount.Some?
    requires values.gas == Some(Int(-1))
    ensures ValidateForm(values, maxSelected, token, balance, isAddress) == NoErrors
  {
    CompareValues(Int(-1), Int(-1));
  }

  /** Pending chain data is reported field by field, in the order chainId, ethBalance, transactionCount. */
  lemma PendingChainData(
    values: TxValues, maxSelected: bool, token: Token, balance: Option<Num>, isAddress: string -> bool)
    requires PreValidate(values, maxSelected, token, balance, isAddress) == Passed
    requires values.chainId.None? || values.ethBalance.None? || values.transactionCount.None?
    ensures ValidateForm(values, maxSelected, token, balance, isAddress) ==
              Errors(
                if values.chainId.None? then FieldError(ChainIdField, FetchingChainId)
                else if values.ethBalance.None? then FieldError(EthBalanceField, FetchingEthBalance)
                else FieldError(TransactionCountField, FetchingTransactionCount))
  {
  }

  /** Sending to the zero address always leaves an error on the form. */
  lemma ZeroAddressNeverValid(
    values: TxValues, maxSelected: bool, token: Token, balance: Option<Num>, isAddress: string -> bool)
    requires values.to == Some(ZeroAddress)
    ensures ValidateForm(values, maxSelected, token, balance, isAddress).Errors?
  {
  }

  /** The gas `calculateMax` charges for: the estimate, or 21000 without one. */
  function GasOrDefault(gas: Option<Num>): (r: Num)
    ensures gas.Some? ==> r == gas.value
    ensures gas.None? ==> r.Dec? && Value(r) == SimpleTransferGas as real
  {
    if gas.Some? then gas.value else Int(SimpleTransferGas)
  }

  /** The ether balance less the fee, in wei. */
  function SpareBalanceWei(gas: Num, gasPrice: Num, balance: Num): (r: Num)
    ensures r.Dec? <==> gas.Dec? && gasPrice.Dec? && balance.Dec?
    ensures r.Dec? ==> Value(r) == Value(balance) * WeiPerEther - Value(TxFeeWei(gas, gasPrice))
  {
    Sub(EtherToWei(balance), TxFeeWei(gas, gasPrice))
  }

  /**
   * `calculateMax`: for ether, the balance less gas × gas price (gas 21000
   * when there is no estimate), never below zero; for a token, its balance.
   */
  function CalculateMax(gas: Option<Num>, gasPrice: Option<Num>, token: Token, balance: Option<Num>)
    : (r: Option<Num>)
    ensures !IsEther(token) ==> r == balance
    ensures IsEther(token) ==> r.Some?
  {
    if IsEther(token) then
      var output := WeiToEther(SpareBalanceWei(GasOrDefault(gas), AsNum(gasPrice), AsNum(balance)));
      Some(if IsNegative(output) then Int(0) else output)
    else balance
  }

  /** What is left of the ether balance, in wei, once `gas` units at `gasPrice` gwei are paid. */
  function SpareWei(gas: Num, gasPrice: Num, balance: Num): real
    requires gas.Dec? && gasPrice.Dec? && balance.Dec?
  {
    Value(balance) * WeiPerEther - Value(TxFeeWei(gas, gasPrice))
  }

  /** For ether, Max is the spare balance after the fee, in ether, and zero when the fee exceeds the balance. */
  lemma MaxIsSpareBalance(gas: Option<Num>, gasPrice: Num, token: Token, balance: Num)
    requires IsEther(token) && gasPrice.Dec? && balance.Dec? && (gas.Some? ==> gas.value.Dec?)
    ensures var r := CalculateMax(gas, Some(gasPrice), token, Some(balance));
            var spare := SpareWei(GasOrDefault(gas), gasPrice, balance);
            r.Some? && r.value.Dec? && Value(r.value) * WeiPerEther == if spare < 0.0 then 0.0 else spare
  {
    var spareWei := SpareBalanceWei(GasOrDefault(gas), gasPrice, balance);
    ClampAtZero(WeiToEther(spareWei), Value(spareWei));
  }

  /** `output.isNegative() ? 0 : output`, in wei. */
  lemma ClampAtZero(output: Num, spare: real)
    requires output.Dec? && Value(output) * WeiPerEther == spare
    ensures var r := if IsNegative(output) then Int(0) else output;
            r.Dec? && Value(r) * WeiPerEther == if spare < 0.0 then 0.0 else spare
  {
    SignOfValue(output);
  }

  /**
   * The Max amount for ether, with the same gas and gas price, passes the
   * fee check whenever the balance covers the fee: fee plus amount is then
   * exactly the balance.
   */
  lemma MaxAmountIsAffordable(values: TxValues, token: Token)
    requires IsEther(token) && IsEstimatedTxFee(values)
    requires values.ethBalance.Some? && values.ethBalance.value.Dec?
    requires SpareWei(values.gas.value, values.gasPrice.value, values.ethBalance.value) >= 0.0
    requires values.amount == CalculateMax(values.gas, values.gasPrice, token, values.ethBalance)
    ensures !FeeExceedsBalance(values, token)
  {
    var gas, gasPrice, balance := values.gas.value, values.gasPrice.value, values.ethBalance.value;
    assert values.gasPrice == Some(gasPrice) && values.ethBalance == Some(balance);
    assert GasOrDefault(values.gas) == gas;
    MaxIsSpareBalance(values.gas, gasPrice, token, balance);
    var spare := SpareWei(gas, gasPrice, balance);
    assert Value(values.amount.value) * WeiPerEther == spare;
    FeeExceedsBalanceByValue(values, token);
    PaysExactly(
      Value(TxFeeWei(gas, gasPrice)),
      Value(values.amount.value) * WeiPerEther,
      Value(balance) * WeiPerEther);
  }

  lemma PaysExactly(fee: real, amount: real, balance: real)
    requires amount == balance - fee
    ensures !(fee + amount > balance)
  {
  }

  /**
   * When the fee alone exceeds the ether balance, Max is zero and the Max
   * amount is refused with the "balance too low to pay for gas" message.
   */
  lemma MaxUnaffordableReportsGas(values: TxValues, token: Token, isAddress: string -> bool)
    requires IsEther(token) && values.gasPrice.Some? && values.gasPrice.value.Dec?
    requires values.ethBalance.Some? && values.ethBalance.value.Dec?
    requires values.gas.Some? ==> values.gas.value.Dec?
    requires SpareWei(GasOrDefault(values.gas), values.gasPrice.value, values.ethBalance.value) < 0.0
    requires values.amount == CalculateMax(values.gas, values.gasPrice, token, values.ethBalance)
    ensures PreValidate(values, true, token, values.ethBalance, isAddress) ==
              Rejected(FieldError(AmountField, GasUnaffordableAtMax))
  {
    MaxIsSpareBalance(values.gas, values.gasPrice.value, token, values.ethBalance.value);
    SignOfValue(values.amount.value);
  }

  /** After a failed estimate (gas -1), Max adds the fee to the balance instead of taking it away. */
  lemma MaxAfterFailedEstimateExceedsBalance(gasPrice: Num, token: Token, balance: Num)
    requires IsEther(token) && balance.Dec? && gasPrice.Dec? && Value(gasPrice) > 0.0
    ensures var r := CalculateMax(Some(Int(-1)), Some(gasPrice), token, Some(balance));
            r.Some? && r.value.Dec? && Value(r.value) > Value(balance)
  {
    MaxIsSpareBalance(Some(Int(-1)), gasPrice, token, balance);
  }

  /** `changeAmountFontSize`: the font class for an amount of the given printed length. */
  function AmountFontClass(amountLength: nat): (r: string)
    ensures r == "-resize-font-small" <==> amountLength > MediumAmountMaxChars
    ensures r == "-resize-font-medium" <==> DefaultAmountMaxChars < amountLength <= MediumAmountMaxChars
    ensures r == "-resize-font-default" <==> amountLength <= DefaultAmountMaxChars
  {
    if amountLength > MediumAmountMaxChars then "-resize-font-small"
    else if MediumAmountMaxChars >= amountLength && amountLength > DefaultAmountMaxChars then "-resize-font-medium"
    else "-resize-font-default"
  }

  /** How large a font class draws the amount: default 2, medium 1, small 0. */
  function FontRank(fontClass: string): nat
  {
    if fontClass == "-resize-font-default" then 2 else if fontClass == "-resize-font-medium" then 1 else 0
  }

  /**
   * A longer amount never gets a larger font, and the three classes are
   * all reached: default up to 9 characters, small beyond 14.
   */
  lemma FontNeverGrowsWithLength(m: nat, n: nat)
    requires m <= n
    ensures FontRank(AmountFontClass(n)) <= FontRank(AmountFontClass(m))
    ensures AmountFontClass(DefaultAmountMaxChars) == "-resize-font-default"
    ensures AmountFontClass(MediumAmountMaxChars) == "-resize-font-medium"
    ensures AmountFontClass(MediumAmountMaxChars + 1) == "-resize-font-small"
  {
  }

  /**
   * The gas decorator: estimate only when pre-validation passes, -1 when
   * the estimate fails, `null` (None) when pre-validation fails.
   */
  function GasField(
    values: TxValues, maxSelected: bool, token: Token, balance: Option<Num>, isAddress: string -> bool,
    ethCall: EthArg -> RawEstimate, tokenCall: Erc20Arg -> RawEstimate)
    : (r: Option<Num>)
    ensures r.Some? <==> PreValidate(values, maxSelected, token, balance, isAddress) == Passed
    ensures r.Some? ==> r.value.Dec? && r.value.scale == 0
  {
    if PreValidate(values, maxSelected, token, balance, isAddress) != Passed then None
    else
      match GasEstimate(Some(values), token, ethCall, tokenCall)
      case Success(g) => Some(Int(g))
      case Failure(_) => Some(Int(-1))
  }

  /** When pre-validation fails the node is irrelevant: the gas field is cleared whatever it would say. */
  lemma GasNotEstimatedWhenInvalid(
    values: TxValues, maxSelected: bool, token: Token, balance: Option<Num>, isAddress: string -> bool,
    ethCall: EthArg -> RawEstimate, tokenCall: Erc20Arg -> RawEstimate)
    requires PreValidate(values, maxSelected, token, balance, isAddress) != Passed
    ensures GasField(values, maxSelected, token, balance, isAddress, ethCall, tokenCall) == None
  {
  }

  /** A passing form gets the estimator's gas as its gas field. */
  lemma GasFieldCarriesEstimate(
    values: TxValues, maxSelected: bool, token: Token, balance: Option<Num>, isAddress: string -> bool,
    ethCall: EthArg -> RawEstimate, tokenCall: Erc20Arg -> RawEstimate, g: int)
    requires PreValidate(values, maxSelected, token, balance, isAddress) == Passed
    requires GasEstimate(Some(values), token, ethCall, tokenCall) == Success(g)
    ensures GasField(values, maxSelected, token, balance, isAddress, ethCall, tokenCall) == Some(Int(g))
  {
  }

  /**
   * The gas field depends on the estimators' answers only: estimators that
   * answer alike, such as a memo whose key determines its answer and the
   * estimator it wraps, give the same field.
   */
  lemma GasFieldDependsOnAnswersOnly(
    values: TxValues, maxSelected: bool, token: Token, balance: Option<Num>, isAddress: string -> bool,
    ethCall: EthArg -> RawEstimate, tokenCall: Erc20Arg -> RawEstimate,
    ethCall': EthArg -> RawEstimate, tokenCall': Erc20Arg -> RawEstimate)
    requires forall a :: ethCall(a) == ethCall'(a)
    requires forall a :: tokenCall(a) == tokenCall'(a)
    ensures GasField(values, maxSelected, token, balance, isAddress, ethCall, tokenCall)
            == GasField(values, maxSelected, token, balance, isAddress, ethCall', tokenCall')
  {
  }

  /** Every failure of the estimator becomes the -1 sentinel, which validation then lets through. */
  lemma FailedEstimateBecomesSentinel(
    values: TxValues, maxSelected: bool, token: Token, balance: Option<Num>, isAddress: string -> bool,
    ethCall: EthArg -> RawEstimate, tokenCall: Erc20Arg -> RawEstimate)
    requires PreValidate(values, maxSelected, token, balance, isAddress) == Passed
    requires GasEstimate(Some(values), token, ethCall, tokenCall).Failure?
    ensures GasField(values, maxSelected, token, balance, isAddress, ethCall, tokenCall) == Some(Int(-1))
    ensures var v := values.(gas := Some(Int(-1)));
            v.chainId.Some? && v.ethBalance.Some? && v.transactionCount.Some? ==>
              ValidateForm(v, maxSelected, token, balance, isAddress) == NoErrors
  {
    var v := values.(gas := Some(Int(-1)));
    assert PreValidate(v, maxSelected, token, balance, isAddress) == Passed;
    CompareValues(Int(-1), Int(-1));
  }

  /**
   * The form component. Its props (token, balance, account) are fixed for
   * the life of the object; `values` is the form state; `submittedTx` and
   * `history` record what the submit handler hands on.
   */
  class TxForm {
    const token: Token
    const balance: Option<Num>
    const isAddress: string -> bool
    const accountAddress: string
    const accountIsSigner: bool

    var maxSelected: bool
    var showDetails: bool
    var values: TxValues
    var submittedTx: Option<(TxValues, Token)>
    var history: seq<string>

    constructor (token: Token, balance: Option<Num>, isAddress: string -> bool,
                 accountAddress: string, accountIsSigner: bool, initial: TxValues)
      ensures this.token == token && this.balance == balance && this.isAddress == isAddress
      ensures this.accountAddress == accountAddress && this.accountIsSigner == accountIsSigner
      ensures !maxSelected && !showDetails && values == initial
      ensures submittedTx.None? && history == []
    {
      this.token := token;
      this.balance := balance;
      this.isAddress := isAddress;
      this.accountAddress := accountAddress;
      this.accountIsSigner := accountIsSigner;
      maxSelected := false;
      showDetails := false;
      values := initial;
      submittedTx := None;
      history := [];
    }

    method ToggleMax()
      modifies this`maxSelected
      ensures maxSelected == !old(maxSelected)
    {
      maxSelected := !maxSelected;
    }

    method ToggleDetails()
      modifies this`showDetails
      ensures showDetails == !old(showDetails)
    {
      showDetails := !showDetails;
    }

    /** The `recalculateMax` mutator: the amount becomes the Max amount for the current gas and gas price. */
    method RecalculateMax()
      modifies this`values
      ensures values == old(values).(amount := CalculateMax(old(values).gas, old(values).gasPrice, token, balance))
    {
      values := values.(amount := CalculateMax(values.gas, values.gasPrice, token, balance));
    }

    /** The Max button: toggle the mode, then recompute the amount (in both directions). */
    method ClickMax()
      modifies this`maxSelected, this`values
      ensures maxSelected == !old(maxSelected)
      ensures values == old(values).(amount := CalculateMax(old(values).gas, old(values).gasPrice, token, balance))
    {
      ToggleMax();
      RecalculateMax();
    }

    /** A new gas price; in Max mode the amount follows it. */
    method ChangeGasPrice(gasPrice: Option<Num>)
      modifies this`values
      ensures var v := old(values).(gasPrice := gasPrice);
              values == if maxSelected then v.(amount := CalculateMax(v.gas, gasPrice, token, balance)) else v
    {
      values := values.(gasPrice := gasPrice);
      if maxSelected {
        RecalculateMax();
      }
    }

    /**
     * The gas decorator run after `to` or `amount` changed: the estimate is
     * what the memoised estimators answer, and the memos are consulted only
     * when pre-validation passes.
     */
    method UpdateGas<EK(==), TK(==)>(ethMemo: Memo<EthArg, EK, RawEstimate>, tokenMemo: Memo<Erc20Arg, TK, RawEstimate>)
      requires ethMemo.Valid() && tokenMemo.Valid()
      modifies this`values, ethMemo, tokenMemo
      ensures ethMemo.Valid() && tokenMemo.Valid()
      ensures values == old(values).(gas := GasField(old(values), maxSelected, token, balance, isAddress,
                                                     old(ethMemo.Answers()), old(tokenMemo.Answers())))
      ensures KeyDetermines(ethMemo.key, ethMemo.call) && KeyDetermines(tokenMemo.key, tokenMemo.call) ==>
                values == old(values).(gas := GasField(old(values), maxSelected, token, balance, isAddress,
                                                       ethMemo.call, tokenMemo.call))
      ensures PreValidate(old(values), maxSelected, token, balance, isAddress) == Passed ==>
                MemosAnswered(Some(old(values)), token, ethMemo, tokenMemo)
      ensures PreValidate(old(values), maxSelected, token, balance, isAddress) != Passed ==>
                unchanged(ethMemo) && unchanged(tokenMemo)
    {
      if KeyDetermines(ethMemo.key, ethMemo.call) && KeyDetermines(tokenMemo.key, tokenMemo.call) {
        GasFieldDependsOnAnswersOnly(values, maxSelected, token, balance, isAddress,
          ethMemo.Answers(), tokenMemo.Answers(), ethMemo.call, tokenMemo.call);
      }
      var gas: Option<Num> := None;
      if PreValidate(values, maxSelected, token, balance, isAddress) == Passed {
        var estimate := EstimateGas.EstimateGas(Some(values), token, ethMemo, tokenMemo);
        gas := if estimate.Success? then Some(Int(estimate.value)) else Some(Int(-1));
      }
      values := values.(gas := gas);
    }

    /** A new recipient: the decorator re-estimates the gas. */
    method ChangeTo<EK(==), TK(==)>(
      to: Option<string>, ethMemo: Memo<EthArg, EK, RawEstimate>, tokenMemo: Memo<Erc20Arg, TK, RawEstimate>)
      requires ethMemo.Valid() && tokenMemo.Valid()
      modifies this`values, ethMemo, tokenMemo
      ensures ethMemo.Valid() && tokenMemo.Valid()
      ensures var v := old(values).(to := to);
              && values == v.(gas := GasField(v, maxSelected, token, balance, isAddress,
                                              old(ethMemo.Answers()), old(tokenMemo.Answers())))
              && (PreValidate(v, maxSelected, token, balance, isAddress) == Passed ==>
                    MemosAnswered(Some(v), token, ethMemo, tokenMemo))
              && (PreValidate(v, maxSelected, token, balance, isAddress) != Passed ==>
                    unchanged(ethMemo) && unchanged(tokenMemo))
    {
      values := values.(to := to);
      UpdateGas(ethMemo, tokenMemo);
    }

    /** A new amount: the decorator re-estimates the gas. */
    method ChangeAmount<EK(==), TK(==)>(
      amount: Option<Num>, ethMemo: Memo<EthArg, EK, RawEstimate>, tokenMemo: Memo<Erc20Arg, TK, RawEstimate>)
      requires ethMemo.Valid() && tokenMemo.Valid()
      modifies this`values, ethMemo, tokenMemo
      ensures ethMemo.Valid() && tokenMemo.Valid()
      ensures var v := old(values).(amount := amount);
              && values == v.(gas := GasField(v, maxSelected, token, balance, isAddress,
                                              old(ethMemo.Answers()), old(tokenMemo.Answers())))
              && (PreValidate(v, maxSelected, token, balance, isAddress) == Passed ==>
                    MemosAnswered(Some(v), token, ethMemo, tokenMemo))
              && (PreValidate(v, maxSelected, token, balance, isAddress) != Passed ==>
                    unchanged(ethMemo) && unchanged(tokenMemo))
    {
      values := values.(amount := amount);
      UpdateGas(ethMemo, tokenMemo);
    }

    /** `handleSubmit`: hand the values to the send store and go to the QR or unlock step. */
    method HandleSubmit()
      modifies this`submittedTx, this`history
      ensures submittedTx == Some((values, token))
      ensures history == old(history) + [SubmitRoute(token, accountAddress, accountIsSigner)]
    {
      submittedTx := Some((values, token));
      history := history + [SubmitRoute(token, accountAddress, accountIsSigner)];
    }
  }

  function SubmitRoute(token: Token, address: string, signer: bool): string
  {
    "/send/" + token.address + "/from/" + address + (if signer then "/txqrcode" else "/unlock")
  }
}
