/**
 * Gas estimation for a pending transfer (utils/estimateGas.js): the request
 * shaping for ether and ERC-20 transfers, the 25% safety buffer, and the
 * memoised calls to the node. The node's estimators are oracles: functions
 * of the serialised request, since the node only ever receives JSON.
 */
module EstimateGas {
  import opened Wrappers
  import opened Numbers
  import opened FormValues

  /** The fixed cost of a plain ether transfer. */
  const SimpleTransferGas: int := 21000

  /** What the node answers to an estimation request. */
  datatype RawEstimate = Estimated(gas: int) | EstimateFailed

  datatype GasError =
    | TxNotSet         // "Tx not set."
    | AmountMissing    // `tx.amount.toString()` on an absent amount throws
    | NodeRejected     // the node's estimator failed

  /**
   * `addBuffer`: `g × 1.25` rounded to a whole number, ties away from zero
   * (BigNumber's default ROUND_HALF_UP).
   */
  function AddBuffer(g: int): (r: int)
    ensures g >= 0 ==> -2 < 4 * r - 5 * g <= 2
    ensures g < 0 ==> -2 <= 4 * r - 5 * g < 2
    ensures g >= 0 ==> g <= r
    ensures g >= 2 ==> g < r
  {
    if g >= 0 then (5 * g + 2) / 4 else - ((5 * (-g) + 2) / 4)
  }

  /** The request `txForEth` builds for `api.eth.estimateGas`. */
  datatype EthRequest = EthRequest(
    from: Option<string>, gasPrice: Num, to: Option<string>, value: Num, gas: Option<Num>)

  /** The `{ args: [to, amount], options: { from, gasPrice, gas? } }` that `txForErc20` builds. */
  datatype Erc20Request = Erc20Request(
    recipient: Option<string>, amount: Num, from: Option<string>, gasPrice: Num, gas: Option<Num>)

  /**
   * `txForEth`: amount in ether to wei, gas price in gwei to wei; `gas` is
   * copied only when the transaction has one. An absent amount makes
   * `tx.amount.toString()` throw.
   */
  function TxForEth(tx: TxValues): (r: Result<EthRequest, GasError>)
    ensures r.Failure? <==> tx.amount.None?
    ensures r.Failure? ==> r.error == AmountMissing
    ensures r.Success? ==> r.value.from == tx.from && r.value.to == tx.to && r.value.gas == tx.gas
    ensures r.Success? ==> r.value.value == EtherToWei(tx.amount.value)
    ensures r.Success? ==> r.value.gasPrice == GweiToWei(AsNum(tx.gasPrice))
  {
    if tx.amount.None? then Failure(AmountMissing)
    else
      Success(EthRequest(tx.from, GweiToWei(AsNum(tx.gasPrice)), tx.to, EtherToWei(tx.amount.value), tx.gas))
  }

  /**
   * `txForErc20`: the recipient and the amount in the token's base units
   * (`amount × 10^decimals`), and the sender and gas price in wei as options.
   */
  function TxForErc20(tx: TxValues, token: Token): (r: Erc20Request)
    ensures r.recipient == tx.to && r.from == tx.from && r.gas == tx.gas
    ensures r.amount.Dec? <==> tx.amount.Some? && tx.amount.value.Dec?
    ensures r.amount.Dec? ==> Value(r.amount) == Value(tx.amount.value) * Pow10(token.decimals) as real
    ensures r.gasPrice == GweiToWei(AsNum(tx.gasPrice))
  {
    Erc20Request(tx.to, Shift(AsNum(tx.amount), token.decimals), tx.from, GweiToWei(AsNum(tx.gasPrice)), tx.gas)
  }

  /** Two BigNumbers that print alike. */
  predicate SameNum(a: Num, b: Num)
  {
    (a.NaN? && b.NaN?) || (a.Dec? && b.Dec? && Value(a) == Value(b))
  }

  predicate SameOptNum(a: Option<Num>, b: Option<Num>)
  {
    (a.None? && b.None?) || (a.Some? && b.Some? && SameNum(a.value, b.value))
  }

  function CanonicalOpt(x: Option<Num>): Option<Num>
  {
    if x.Some? then Some(Canonical(x.value)) else None
  }

  lemma CanonicalSame(a: Num, b: Num)
    ensures Canonical(a) == Canonical(b) <==> SameNum(a, b)
  {
    if a.Dec? && b.Dec? {
      CanonicalIffSameValue(a, b);
    }
  }

  lemma CanonicalOptSame(a: Option<Num>, b: Option<Num>)
    ensures CanonicalOpt(a) == CanonicalOpt(b) <==> SameOptNum(a, b)
  {
    if a.Some? && b.Some? {
      CanonicalSame(a.value, b.value);
    }
  }

  /** `JSON.stringify` of an ether request: every number in its printed, canonical form. */
  function SerialiseEth(req: EthRequest): EthRequest
  {
    EthRequest(req.from, Canonical(req.gasPrice), req.to, Canonical(req.value), CanonicalOpt(req.gas))
  }

  /** `JSON.stringify` of an ERC-20 request. */
  function SerialiseErc20(req: Erc20Request): Erc20Request
  {
    Erc20Request(req.recipient, Canonical(req.amount), req.from, Canonical(req.gasPrice), CanonicalOpt(req.gas))
  }

  /** Two ether requests share a memo entry exactly when they agree field by field in value. */
  lemma SerialiseEthIffSameValues(a: EthRequest, b: EthRequest)
    ensures SerialiseEth(a) == SerialiseEth(b) <==>
              a.from == b.from && a.to == b.to && SameNum(a.gasPrice, b.gasPrice)
              && SameNum(a.value, b.value) && SameOptNum(a.gas, b.gas)
  {
    CanonicalSame(a.gasPrice, b.gasPrice);
    CanonicalSame(a.value, b.value);
    CanonicalOptSame(a.gas, b.gas);
  }

  /** Two ERC-20 requests share a serialised form exactly when they agree field by field in value. */
  lemma SerialiseErc20IffSameValues(a: Erc20Request, b: Erc20Request)
    ensures SerialiseErc20(a) == SerialiseErc20(b) <==>
              a.recipient == b.recipient && a.from == b.from && SameNum(a.amount, b.amount)
              && SameNum(a.gasPrice, b.gasPrice) && SameOptNum(a.gas, b.gas)
  {
    CanonicalSame(a.amount, b.amount);
    CanonicalSame(a.gasPrice, b.gasPrice);
    CanonicalOptSame(a.gas, b.gas);
  }

  // ---------------------------------------------------------------------
  // The estimate, with the node's answers as parameters
  // ---------------------------------------------------------------------

  /** What the ether estimator is called with: the shaped request (the api argument plays no part). */
  type EthArg = EthRequest

  /** What the ERC-20 estimator is called with: the shaped request and the token. */
  type Erc20Arg = (Erc20Request, Token)

  /** The ether node sees the request as JSON only. */
  function EthCall(ethNode: EthRequest -> RawEstimate): EthArg -> RawEstimate
  {
    (req: EthArg) => ethNode(SerialiseEth(req))
  }

  /** The ERC-20 estimate is the token contract's answer to the JSON of the request. */
  function TokenCall(tokenNode: ((string, Erc20Request)) -> RawEstimate): Erc20Arg -> RawEstimate
  {
    (arg: Erc20Arg) => tokenNode((arg.1.address, SerialiseErc20(arg.0)))
  }

  /** The step after the node answers: failures propagate, ether's exact 21000 stays, the rest is buffered. */
  function Buffered(token: Token, raw: RawEstimate): Result<int, GasError>
  {
    match raw
    case EstimateFailed => Failure(NodeRejected)
    case Estimated(g) => Success(if IsEther(token) && g == SimpleTransferGas then g else AddBuffer(g))
  }

  /**
   * `estimateGas` given what each estimator answers: "Tx not set." for a
   * missing or key-less transaction; for ether, the raw estimate, left
   * unbuffered when it is exactly 21000; for tokens, the buffered estimate
   * of the contract's `transfer`.
   */
  function GasEstimate(
    tx: Option<TxValues>, token: Token, ethCall: EthArg -> RawEstimate, tokenCall: Erc20Arg -> RawEstimate)
    : (r: Result<int, GasError>)
    ensures r == Failure(TxNotSet) <==> tx.None? || IsEmpty(tx.value)
    ensures r == Failure(AmountMissing) <==>
              tx.Some? && !IsEmpty(tx.value) && IsEther(token) && tx.value.amount.None?
  {
    if tx.None? || IsEmpty(tx.value) then Failure(TxNotSet)
    else if IsEther(token) then
      match TxForEth(tx.value)
      case Failure(e) => Failure(e)
      case Success(req) => Buffered(token, ethCall(req))
    else Buffered(token, tokenCall((TxForErc20(tx.value, token), token)))
  }

  /** A missing or empty transaction is rejected whatever the node would say. */
  lemma EmptyTxRejected(
    tx: Option<TxValues>, token: Token, ethCall: EthArg -> RawEstimate, tokenCall: Erc20Arg -> RawEstimate)
    requires tx.None? || IsEmpty(tx.value)
    ensures GasEstimate(tx, token, ethCall, tokenCall) == Failure(TxNotSet)
  {
  }

  /** Ether: exactly 21000 is returned as is, any other estimate with the buffer. */
  lemma EtherEstimateBuffering(
    tx: TxValues, token: Token, ethCall: EthArg -> RawEstimate, tokenCall: Erc20Arg -> RawEstimate, g: int)
    requires !IsEmpty(tx) && IsEther(token) && tx.amount.Some?
    requires ethCall(TxForEth(tx).value) == Estimated(g)
    ensures g == SimpleTransferGas ==> GasEstimate(Some(tx), token, ethCall, tokenCall) == Success(g)
    ensures g != SimpleTransferGas ==> GasEstimate(Some(tx), token, ethCall, tokenCall) == Success(AddBuffer(g))
  {
  }

  /** Tokens: the contract estimate always carries the buffer. */
  lemma TokenEstimateAlwaysBuffered(
    tx: TxValues, token: Token, ethCall: EthArg -> RawEstimate, tokenCall: Erc20Arg -> RawEstimate, g: int)
    requires !IsEmpty(tx) && !IsEther(token)
    requires tokenCall((TxForErc20(tx, token), token)) == Estimated(g)
    ensures GasEstimate(Some(tx), token, ethCall, tokenCall) == Success(AddBuffer(g))
  {
  }

  /** A successful estimate never undercuts a non-negative raw estimate. */
  lemma EstimateCoversRawGas(
    tx: TxValues, token: Token, ethCall: EthArg -> RawEstimate, tokenCall: Erc20Arg -> RawEstimate, g: int)
    requires !IsEmpty(tx) && g >= 0
    requires IsEther(token) ==> tx.amount.Some? && ethCall(TxForEth(tx).value) == Estimated(g)
    requires !IsEther(token) ==> tokenCall((TxForErc20(tx, token), token)) == Estimated(g)
    ensures GasEstimate(Some(tx), token, ethCall, tokenCall).Success?
    ensures GasEstimate(Some(tx), token, ethCall, tokenCall).value >= g
  {
  }

  /** The buffer loses nothing: different raw estimates stay different. */
  lemma AddBufferInjective(g: int, h: int)
    requires AddBuffer(g) == AddBuffer(h)
    ensures g == h
  {
    var r := AddBuffer(g);
    assert -2 <= 4 * r - 5 * g <= 2 && -2 <= 4 * r - 5 * h <= 2;
    assert (g >= 0) == (h >= 0);
  }

  /** For a token, two different node answers give two different results. */
  lemma BufferedSeparatesTokenAnswers(token: Token, x: RawEstimate, y: RawEstimate)
    requires !IsEther(token) && x != y
    ensures Buffered(token, x) != Buffered(token, y)
  {
    if x.Estimated? && y.Estimated? && AddBuffer(x.gas) == AddBuffer(y.gas) {
      AddBufferInjective(x.gas, y.gas);
    }
  }

  // ---------------------------------------------------------------------
  // Memoisation
  // ---------------------------------------------------------------------

  /**
   * A memo answers as the function it wraps exactly when equal keys mean
   * equal answers; otherwise an earlier call can answer a later one with
   * another argument's result.
   */
  ghost predicate KeyDetermines<A(!new), K, V>(key: A -> K, call: A -> V)
  {
    forall a, b :: key(a) == key(b) ==> call(a) == call(b)
  }

  /** The memo key of the ERC-20 estimator as written: `JSON.stringify(txForErc20, token)` ignores the token. */
  function Erc20KeyAsWritten(arg: Erc20Arg): Erc20Request
  {
    SerialiseErc20(arg.0)
  }

  /** The memo key the ERC-20 estimator needs: the contract address and the serialised request. */
  function Erc20Key(arg: Erc20Arg): (string, Erc20Request)
  {
    (arg.1.address, SerialiseErc20(arg.0))
  }

  /** With the contract address in the key, different tokens never share an entry. */
  lemma CacheKeySeparatesTokens(a: Erc20Arg, b: Erc20Arg)
    ensures Erc20Key(a) == Erc20Key(b) <==>
              a.1.address == b.1.address && SerialiseErc20(a.0) == SerialiseErc20(b.0)
  {
  }

  /** The ether memo's key, the JSON of the request, determines what the node answers. */
  lemma EthKeyDetermines(ethNode: EthRequest -> RawEstimate)
    ensures KeyDetermines(SerialiseEth, EthCall(ethNode))
  {
  }

  /** With the contract address in it, the ERC-20 key determines what the contract answers. */
  lemma Erc20KeyDetermines(tokenNode: ((string, Erc20Request)) -> RawEstimate)
    ensures KeyDetermines(Erc20Key, TokenCall(tokenNode))
  {
  }

  /**
   * As written, the ERC-20 key does not determine the answer as soon as two
   * contracts estimate the same request differently.
   */
  lemma AsWrittenKeyMixesTokens(
    tokenNode: ((string, Erc20Request)) -> RawEstimate, a: Token, b: Token, req: Erc20Request)
    requires tokenNode((a.address, SerialiseErc20(req))) != tokenNode((b.address, SerialiseErc20(req)))
    ensures !KeyDetermines(Erc20KeyAsWritten, TokenCall(tokenNode))
  {
    assert Erc20KeyAsWritten((req, a)) == Erc20KeyAsWritten((req, b));
    assert TokenCall(tokenNode)((req, a)) != TokenCall(tokenNode)((req, b));
  }

  /**
   * `lodash/memoize(call, resolver)`: the first call for a key runs `call`
   * and keeps its result, failures included, for the life of the process;
   * every later call with the same key gets that result back. `filledBy`
   * records which argument filled each entry and `misses` counts the calls
   * that ran `call`.
   */
  class Memo<A(!new), K(==), V> {
    const key: A -> K
    const call: A -> V
    var cache: map<K, V>
    ghost var filledBy: map<K, A>
    ghost var misses: nat

    /** Every entry is the result of the call that filled it, under that call's key. */
    ghost predicate Valid()
      reads this
    {
      && filledBy.Keys == cache.Keys
      && forall k :: k in cache ==> key(filledBy[k]) == k && cache[k] == call(filledBy[k])
    }

    /**
     * What the memo answers each argument with in the current state. When
     * the key determines the call's result, that is the call's result.
     */
    function Answers(): (f: A -> V)
      reads this
      ensures Valid() && KeyDetermines(key, call) ==> forall a :: f(a) == call(a)
    {
      var c, k, g := cache, key, call;
      (a: A) => if k(a) in c then c[k(a)] else g(a)
    }

    /** The state after a call with `a`: its answer sits under its key, and only a miss ran `call`. */
    twostate predicate Answered(a: A)
      reads this
    {
      && cache == old(cache)[key(a) := old(Answers())(a)]
      && filledBy == (if key(a) in old(cache) then old(filledBy) else old(filledBy)[key(a) := a])
      && misses == old(misses) + (if key(a) in old(cache) then 0 else 1)
    }

    constructor (key: A -> K, call: A -> V)
      ensures Valid() && this.key == key && this.call == call
      ensures cache == map[] && filledBy == map[] && misses == 0
    {
      this.key := key;
      this.call := call;
      cache := map[];
      filledBy := map[];
      misses := 0;
    }

    method Get(a: A) returns (v: V)
      requires Valid()
      modifies this
      ensures Valid() && Answered(a)
      ensures v == old(Answers())(a)
    {
      var k := key(a);
      if k in cache {
        v := cache[k];
      } else {
        v := call(a);
        cache := cache[k := v];
        filledBy := filledBy[k := a];
        misses := misses + 1;
      }
    }
  }

  /** The ether estimator is consulted: a non-empty transaction with an amount, for ether. */
  predicate AsksEth(tx: Option<TxValues>, token: Token)
  {
    tx.Some? && !IsEmpty(tx.value) && IsEther(token) && tx.value.amount.Some?
  }

  /** The ERC-20 estimator is consulted: a non-empty transaction, for a token. */
  predicate AsksToken(tx: Option<TxValues>, token: Token)
  {
    tx.Some? && !IsEmpty(tx.value) && !IsEther(token)
  }

  /** The memos after `estimateGas`: the consulted one has answered, the other is untouched. */
  twostate predicate MemosAnswered<EK, TK>(
    tx: Option<TxValues>, token: Token,
    ethMemo: Memo<EthArg, EK, RawEstimate>, tokenMemo: Memo<Erc20Arg, TK, RawEstimate>)
    reads ethMemo, tokenMemo
  {
    && (AsksEth(tx, token) ==> ethMemo.Answered(TxForEth(tx.value).value))
    && (!AsksEth(tx, token) ==> unchanged(ethMemo))
    && (AsksToken(tx, token) ==> tokenMemo.Answered((TxForErc20(tx.value, token), token)))
    && (!AsksToken(tx, token) ==> unchanged(tokenMemo))
  }

  /**
   * `estimateGas` over the two memoised estimators: the estimate is the one
   * the memos' answers give, and it is the estimators' own when each memo's
   * key determines its answer.
   */
  method EstimateGas<EK(==), TK(==)>(
    tx: Option<TxValues>, token: Token,
    ethMemo: Memo<EthArg, EK, RawEstimate>, tokenMemo: Memo<Erc20Arg, TK, RawEstimate>)
    returns (r: Result<int, GasError>)
    requires ethMemo.Valid() && tokenMemo.Valid()
    modifies ethMemo, tokenMemo
    ensures ethMemo.Valid() && tokenMemo.Valid()
    ensures MemosAnswered(tx, token, ethMemo, tokenMemo)
    ensures r == GasEstimate(tx, token, old(ethMemo.Answers()), old(tokenMemo.Answers()))
    ensures KeyDetermines(ethMemo.key, ethMemo.call) && KeyDetermines(tokenMemo.key, tokenMemo.call) ==>
              r == GasEstimate(tx, token, ethMemo.call, tokenMemo.call)
  {
    if tx.None? || IsEmpty(tx.value) {
      return Failure(TxNotSet);
    }
    if IsEther(token) {
      var req := TxForEth(tx.value);
      if req.Failure? {
        return Failure(req.error);
      }
      var raw := ethMemo.Get(req.value);
      r := Buffered(token, raw);
    } else {
      var raw := tokenMemo.Get((TxForErc20(tx.value, token), token));
      r := Buffered(token, raw);
    }
  }

  /** The same ether transfer estimated twice: the node is asked once, and both answers are the node's. */
  method RepeatedEtherEstimateAsksNodeOnce(
    ethNode: EthRequest -> RawEstimate, tokenNode: ((string, Erc20Request)) -> RawEstimate,
    tx: TxValues, token: Token)
    returns (first: Result<int, GasError>, second: Result<int, GasError>, ghost nodeCalls: nat)
    requires !IsEmpty(tx) && IsEther(token) && tx.amount.Some?
    ensures first == GasEstimate(Some(tx), token, EthCall(ethNode), TokenCall(tokenNode))
    ensures second == first
    ensures nodeCalls == 1
  {
    var ethMemo := new Memo<EthArg, EthRequest, RawEstimate>(SerialiseEth, EthCall(ethNode));
    var tokenMemo := new Memo<Erc20Arg, (string, Erc20Request), RawEstimate>(Erc20Key, TokenCall(tokenNode));
    EthKeyDetermines(ethNode);
    Erc20KeyDetermines(tokenNode);
    first := EstimateGas(Some(tx), token, ethMemo, tokenMemo);
    second := EstimateGas(Some(tx), token, ethMemo, tokenMemo);
    nodeCalls := ethMemo.misses;
  }

  /**
   * The token-blind memo as written: the same transfer of a second token
   * with the same decimals is answered with the first token's estimate,
   * which is not the second token's own estimate whenever the two contracts
   * answer differently.
   */
  method AsWrittenMemoServesFirstToken(
    ethNode: EthRequest -> RawEstimate, tokenNode: ((string, Erc20Request)) -> RawEstimate,
    tx: TxValues, a: Token, b: Token)
    returns (ra: Result<int, GasError>, rb: Result<int, GasError>)
    requires !IsEmpty(tx) && !IsEther(a) && !IsEther(b) && a.decimals == b.decimals
    ensures ra == GasEstimate(Some(tx), a, EthCall(ethNode), TokenCall(tokenNode))
    ensures rb == ra
    ensures tokenNode(Erc20Key((TxForErc20(tx, a), a))) != tokenNode(Erc20Key((TxForErc20(tx, b), b))) ==>
              rb != GasEstimate(Some(tx), b, EthCall(ethNode), TokenCall(tokenNode))
  {
    var ethMemo := new Memo<EthArg, EthRequest, RawEstimate>(SerialiseEth, EthCall(ethNode));
    var tokenMemo := new Memo<Erc20Arg, Erc20Request, RawEstimate>(Erc20KeyAsWritten, TokenCall(tokenNode));
    var argA, argB := (TxForErc20(tx, a), a), (TxForErc20(tx, b), b);
    var x, y := TokenCall(tokenNode)(argA), TokenCall(tokenNode)(argB);
    assert Erc20KeyAsWritten(argA) == Erc20KeyAsWritten(argB);
    ra := EstimateGas(Some(tx), a, ethMemo, tokenMemo);
    assert ra == Buffered(a, x);
    assert tokenMemo.cache == map[Erc20KeyAsWritten(argA) := x];
    rb := EstimateGas(Some(tx), b, ethMemo, tokenMemo);
    assert rb == Buffered(b, x);
    if x != y {
      BufferedSeparatesTokenAnswers(b, x, y);
    }
  }

  /** With the corrected key, the same sequence of calls gives each token its own estimate. */
  method CorrectedMemoServesEachToken(
    ethNode: EthRequest -> RawEstimate, tokenNode: ((string, Erc20Request)) -> RawEstimate,
    tx: TxValues, a: Token, b: Token)
    returns (ra: Result<int, GasError>, rb: Result<int, GasError>)
    ensures ra == GasEstimate(Some(tx), a, EthCall(ethNode), TokenCall(tokenNode))
    ensures rb == GasEstimate(Some(tx), b, EthCall(ethNode), TokenCall(tokenNode))
  {
    var ethMemo := new Memo<EthArg, EthRequest, RawEstimate>(SerialiseEth, EthCall(ethNode));
    var tokenMemo := new Memo<Erc20Arg, (string, Erc20Request), RawEstimate>(Erc20Key, TokenCall(tokenNode));
    EthKeyDetermines(ethNode);
    Erc20KeyDetermines(tokenNode);
    ra := EstimateGas(Some(tx), a, ethMemo, tokenMemo);
    rb := EstimateGas(Some(tx), b, ethMemo, tokenMemo);
  }
}
