# Fether wallet core, modelled in Dafny

Fether is a light Ethereum wallet: a React renderer talking to a Parity
Ethereum node over a WebSocket, inside an Electron shell. This project
models the logic that decides what a transaction may be sent, how much
gas it is given, how the renderer connects to the node, what a click on
the tray icon does, and how a JSON keyfile is accepted for import. It
proves properties of that logic.

Modules, one per source file plus three shared ones:

| module | file | models |
|---|---|---|
| `Wrappers` | wrappers.dfy | `Option` and `Result` |
| `Numbers` | numbers.dfy | BigNumber values: NaN or an exact decimal `units / 10^scale`, with each operation the core uses (`plus`, `minus`, `multipliedBy`, `lt`, `gt`, `eq`, `isZero`, `isNegative`, `dp`, ×10^k and ÷10^k) proved against the rational number it denotes, and the canonical printed form |
| `Text` | text.dfy | decimal printing of naturals and its inverse |
| `Chain` | chain.dfy | `utils/chain.js` |
| `FormValues` | form_values.dfy | the form values, the token record, and the ether/gwei/wei conversions of `@parity/api` |
| `EstimateGas` | estimate_gas.dfy | `utils/estimateGas.js`: request shaping, the buffer, the memoised estimators |
| `Send` | tx_form.dfy | `Send/TxForm/TxForm.js`: pre-validation, form validation, fee and Max arithmetic, the gas decorator and the component's state |
| `ParityStore` | parity_store.dfy | `stores/parityStore.js` |
| `Tray` | tray.dfy | `main/app/methods/onTrayClick.js` |
| `AccountImport` | account_import.dfy | `AccountImportOptions.js` |

Pure code is modelled as functions and lemmas. Code that updates state
is modelled as classes whose methods state the whole new state:
`Send.TxForm`, `ParityStore.ParityStore`, `Tray.FetherApp`,
`AccountImport.AccountImportOptions` and the memo cache `EstimateGas.Memo`.

Inputs the core receives from code outside it are parameters of the model:
- the node's gas estimators, as functions of the request the node receives
  (for a token, of the contract address and the request);
- whether the account-creation store accepts or rejects an awaited call;
- `isAddress`;
- `JSON.parse`, as a function from text to a parsed keyfile;
- the Electron globals.

Where the model departs from the code, or states its result in other terms:
- The estimator `TxForm.js` imports lives in `utils/transaction.js`, which
  is not part of this model. It is modelled by the `estimateGas` of
  `utils/estimateGas.js`.
- `validateForm` returns `{}` (no error at all) when the gas field holds the
  failed-estimate sentinel -1 (`TxForm.js:454-457`). The model follows the code.
- The form and the estimator are stated for any memo state: the gas field is
  what the two memos answer. Where each memo's key determines the node's
  answer (`EstimateGas.KeyDetermines`), this equals the node's own estimate.
  The ether key does. The ERC-20 key as written does not, so the reference
  estimate uses a key holding the contract address as well; the key as
  written is modelled separately (see Findings).
- The native-asset test in the form and the estimator is `token.address ===
  'ETH'`. The model uses it, not `isNotErc20TokenAddress`.

## Model

| member | source | states |
|---|---|---|
| Numbers.Shift | packages/fether-react/src/utils/estimateGas.js:85-86 | ×10^k keeps NaN as NaN and multiplies the value by 10^k (`toWei`, `× 10^decimals`) |
| Numbers.Unshift | packages/fether-react/src/Send/TxForm/TxForm.js:108 | ÷10^k (`fromWei`) keeps NaN and divides the value by 10^k, without the rounding to 20 decimal places of bignumber.js |
| Numbers.Add | packages/fether-react/src/Send/TxForm/TxForm.js:466-469 | `plus` is NaN iff an operand is, else the exact sum of the values |
| Numbers.Sub | packages/fether-react/src/Send/TxForm/TxForm.js:109 | `minus` is NaN iff an operand is, else the exact difference |
| Numbers.Mul | packages/fether-react/src/Send/TxForm/TxForm.js:138 | `multipliedBy` is NaN iff an operand is, else the exact product |
| Numbers.Neg | packages/fether-react/src/Send/TxForm/TxForm.js:109 | negation keeps NaN and negates the value |
| Numbers.SignOfValue | packages/fether-react/src/Send/TxForm/TxForm.js:380-388 | `isZero` and `isNegative` agree with the value being 0 and below 0 |
| Numbers.CompareValues | packages/fether-react/src/Send/TxForm/TxForm.js:389-397 | `lt` and `eq` hold iff both sides are numbers and their values compare so; NaN compares false |
| Numbers.DecimalPlaces | packages/fether-react/src/Send/TxForm/TxForm.js:391 | `dp()` is the least k for which the number times 10^k is whole |
| Numbers.DecimalPlacesExceed | packages/fether-react/src/Send/TxForm/TxForm.js:391-396 | more than d decimal places iff the number times 10^d is not whole |
| Numbers.Canonical | packages/fether-react/src/utils/estimateGas.js:53 | the canonical decimal standing for a number's printed form has exactly `dp()` digits after the point and the same value |
| Numbers.CanonicalIsReduced | packages/fether-react/src/utils/estimateGas.js:53 | the printed form has no trailing zero |
| Numbers.ReducedUnique | packages/fether-react/src/utils/estimateGas.js:53 | two reduced decimals of equal value are identical |
| Numbers.CanonicalIffSameValue | packages/fether-react/src/utils/estimateGas.js:53-62 | two numbers print alike iff they have the same value |
| Text.NatToString | packages/fether-react/src/Send/TxForm/TxForm.js:393-395 | a natural prints as a non-empty digit string without leading zero |
| Text.ParsePrinted | packages/fether-react/src/Accounts/CreateAccount/AccountImportOptions/AccountImportOptions.js:35 | reading a printed natural back gives the natural |
| Chain.EtcChainIdByValue | packages/fether-react/src/utils/chain.js:6-8 | `isEtcChainId` (`Chain.IsEtcChainId`) holds iff the chain id is a number of value 61 |
| Chain.ChainIdToString | packages/fether-react/src/utils/chain.js:10-12 | "ETC" exactly for chain id 61, "ETH" otherwise, NaN included |
| Chain.NativeAssetIsNotErc20 | packages/fether-react/src/utils/chain.js:10-20 | the ticker `chainIdToString` gives is a native-asset address for `isNotErc20TokenAddress` (`Chain.IsNotErc20TokenAddress`) and never an ERC-20 address for `isErc20TokenAddress` |
| FormValues.EtherToWei | packages/fether-react/src/utils/estimateGas.js:111 | `toWei` multiplies by 10^18, NaN stays NaN |
| FormValues.GweiToWei | packages/fether-react/src/utils/estimateGas.js:91 | `toWei(x, 'shannon')` multiplies by 10^9, NaN stays NaN |
| FormValues.WeiToEther | packages/fether-react/src/Send/TxForm/TxForm.js:108 | `fromWei` divides by 10^18, NaN stays NaN, without the rounding to 20 decimal places |
| EstimateGas.AddBuffer | packages/fether-react/src/utils/estimateGas.js:70-75 | the buffered gas is 1.25 × the estimate rounded half away from zero, never below a non-negative estimate and strictly above it from 2 up |
| EstimateGas.TxForEth | packages/fether-react/src/utils/estimateGas.js:106-118 | the node request copies from, to and (when set) gas, and carries the amount and gas price in wei; it fails exactly when there is no amount |
| EstimateGas.TxForErc20 | packages/fether-react/src/utils/estimateGas.js:81-100 | the transfer request carries the recipient, the amount × 10^decimals, the sender, the gas price in wei, and the gas when set |
| EstimateGas.SerialiseEthIffSameValues | packages/fether-react/src/utils/estimateGas.js:59-62 | two ether requests share a memo key iff they agree field by field in value |
| EstimateGas.SerialiseErc20IffSameValues | packages/fether-react/src/utils/estimateGas.js:45-53 | two ERC-20 requests serialise alike iff they agree field by field in value |
| EstimateGas.CacheKeySeparatesTokens | packages/fether-react/src/utils/estimateGas.js:45-53 | a fact about the encoding, used by the corrected memo: a key holding the contract address is equal for two arguments iff their addresses and serialised requests are |
| EstimateGas.EthKeyDetermines | packages/fether-react/src/utils/estimateGas.js:59-62 | a fact about the encoding, used with `Memo.Answers`: since the modelled node answers as a function of the JSON it receives, the ether key determines the modelled answer |
| EstimateGas.Erc20KeyDetermines | packages/fether-react/src/utils/estimateGas.js:45-53 | a fact about the encoding, used with `Memo.Answers`: a key holding the contract address and the request determines the modelled contract's answer |
| EstimateGas.AsWrittenKeyMixesTokens | packages/fether-react/src/utils/estimateGas.js:45-53 | with the key as written, the key does not determine the answer once two contracts estimate one request differently |
| EstimateGas.GasEstimate | packages/fether-react/src/utils/estimateGas.js:24-38 | the estimate fails with "Tx not set." exactly for a missing or empty transaction, and with a missing amount exactly for an ether transfer without one |
| EstimateGas.EmptyTxRejected | packages/fether-react/src/utils/estimateGas.js:24-27 | `estimateGas` (`EstimateGas.GasEstimate`) rejects a missing or empty transaction as "Tx not set." whatever the node says |
| EstimateGas.EtherEstimateBuffering | packages/fether-react/src/utils/estimateGas.js:29-35 | for ether, exactly 21000 is returned unchanged and any other estimate buffered |
| EstimateGas.TokenEstimateAlwaysBuffered | packages/fether-react/src/utils/estimateGas.js:36-38 | for a token, the contract's estimate is always buffered |
| EstimateGas.EstimateCoversRawGas | packages/fether-react/src/utils/estimateGas.js:24-38 | a successful estimate is never below a non-negative raw estimate |
| EstimateGas.AddBufferInjective | packages/fether-react/src/utils/estimateGas.js:70-75 | different raw estimates stay different once buffered |
| EstimateGas.Memo.Get | packages/fether-react/src/utils/estimateGas.js:45-62 | `memoize`: a call returns the entry under its key when there is one and the wrapped call's result otherwise; a hit leaves cache, fillers and miss count alone, a miss adds exactly that entry and one miss |
| EstimateGas.Memo.Answers | packages/fether-react/src/utils/estimateGas.js:45-62 | when every entry came from the call under its own key and the key determines the answer, the memo answers every argument as the wrapped call does |
| EstimateGas.EstimateGas | packages/fether-react/src/utils/estimateGas.js:24-62 | the memoised `estimateGas` returns the estimate the memos' answers give, and the unmemoised estimate when each key determines its answer; only the memo of the asset being sent answers (neither for an empty transaction or, for ether, a missing amount), and the other is untouched |
| EstimateGas.RepeatedEtherEstimateAsksNodeOnce | packages/fether-react/src/utils/estimateGas.js:29-35 | the same ether transfer estimated twice asks the node once and gets the node's estimate both times |
| EstimateGas.AsWrittenMemoServesFirstToken | packages/fether-react/src/utils/estimateGas.js:36-53 | with the key as written, a second token with the same decimals gets the first token's estimate, which is not its own whenever the contracts answer differently |
| EstimateGas.CorrectedMemoServesEachToken | packages/fether-react/src/utils/estimateGas.js:36-53 | with the contract address in the key, the same calls give each token its own estimate |
| Send.PreValidate | packages/fether-react/src/Send/TxForm/TxForm.js:367-409 | pre-validation only ever blames the amount or the recipient; passing means a numeric amount and a non-empty, valid, non-zero recipient |
| Send.PreValidatePassesIff | packages/fether-react/src/Send/TxForm/TxForm.js:367-409 | `preValidate` (`Send.PreValidate`) passes iff the amount is a positive number, at least 1 wei for ether, within the token's decimals and the balance, and the recipient is a non-empty, valid, non-zero address |
| Send.AmountChecksPassIff | packages/fether-react/src/Send/TxForm/TxForm.js:382-399 | the amount checks as written (not zero, not negative, not below 1 wei for ether, no more decimals than the token, not above the balance) hold exactly when the amount is positive, at least 1 wei for ether, whole in the token's smallest unit and within a numeric balance |
| Send.ZeroAmountMessage | packages/fether-react/src/Send/TxForm/TxForm.js:382-386 | a zero amount reads "ETH balance too low to pay for gas." in Max mode and "Please enter a non-zero amount" otherwise |
| Send.TooManyDecimalsRejected | packages/fether-react/src/Send/TxForm/TxForm.js:391-396 | once the earlier amount rules pass, too many decimal places is the reported error |
| Send.TooManyDecimalsMessageReadsBack | packages/fether-react/src/Send/TxForm/TxForm.js:391-395 | the decimal-places message (`Send.Message`) names the token and prints the limit so that it reads back as the limit |
| Send.ZeroAddressNeverPasses | packages/fether-react/src/Send/TxForm/TxForm.js:399-407 | the zero address never passes pre-validation |
| Send.ZeroAddressMessage | packages/fether-react/src/Send/TxForm/TxForm.js:397-407 | with an acceptable amount, the zero address gets its own message when the balance covers the amount (or is absent or NaN), and the balance message exactly when a numeric balance is below the amount |
| Send.TxFeeWei | packages/fether-react/src/Send/TxForm/TxForm.js:138 | the fee in wei is gas × gas price × 10^9, NaN when either is |
| Send.EstimatedTxFee | packages/fether-react/src/Send/TxForm/TxForm.js:118-139 | a fee exists iff amount, gas and gas price are present and numeric, and then equals gas × gas price in wei |
| Send.SimpleTransferFeeAtFourGwei | packages/fether-react/src/Send/TxForm/TxForm.js:138 | 21000 gas at 4 gwei costs exactly 84·10^12 wei |
| Send.ValidateForm | packages/fether-react/src/Send/TxForm/TxForm.js:415-483 | a form without errors has passed pre-validation and has its chain id, ether balance and transaction count |
| Send.ValidateFormKeepsPreValidationError | packages/fether-react/src/Send/TxForm/TxForm.js:425-431 | a pre-validation error is returned unchanged |
| Send.FeeExceedsBalanceByValue | packages/fether-react/src/Send/TxForm/TxForm.js:465-470 | the fee check fails iff fee plus (for ether) the amount exceeds the ether balance, all in wei |
| Send.ValidateFormAcceptsIff | packages/fether-react/src/Send/TxForm/TxForm.js:415-483 | without the failed-estimate sentinel, `validateForm` (`Send.ValidateForm`) finds no error iff pre-validation passes, the chain data is loaded, the fee is known and fee plus amount fits the balance |
| Send.UnaffordableMessage | packages/fether-react/src/Send/TxForm/TxForm.js:466-474 | an unaffordable send reads "You don't have enough ETH balance" for ether and "ETH balance too low to pay for gas" for tokens |
| Send.FailedEstimateLeavesFormValid | packages/fether-react/src/Send/TxForm/TxForm.js:454-457 | with the -1 sentinel and the chain data loaded, the form reports no error |
| Send.PendingChainData | packages/fether-react/src/Send/TxForm/TxForm.js:437-452 | missing chain id, ether balance or transaction count is reported in that order |
| Send.ZeroAddressNeverValid | packages/fether-react/src/Send/TxForm/TxForm.js:401-407 | a form addressed to the zero address always has an error |
| Send.SpareBalanceWei | packages/fether-react/src/Send/TxForm/TxForm.js:109 | balance in wei less the fee in wei |
| Send.CalculateMax | packages/fether-react/src/Send/TxForm/TxForm.js:101-116 | for a token, Max is the token balance unchanged; for ether it is always a value |
| Send.MaxIsSpareBalance | packages/fether-react/src/Send/TxForm/TxForm.js:101-116 | for ether, Max × 10^18 is max(0, balance in wei − gas × gas price in wei) |
| Send.MaxAmountIsAffordable | packages/fether-react/src/Send/TxForm/TxForm.js:101-116 | when the balance covers the fee, the ether Max amount passes the fee check of validation |
| Send.MaxUnaffordableReportsGas | packages/fether-react/src/Send/TxForm/TxForm.js:382-385 | when the fee alone exceeds the balance, Max is 0 and is refused with the "too low to pay for gas" message |
| Send.MaxAfterFailedEstimateExceedsBalance | packages/fether-react/src/Send/TxForm/TxForm.js:101-111 | after a failed estimate (gas -1), the ether Max exceeds the balance |
| Send.FontNeverGrowsWithLength | packages/fether-react/src/Send/TxForm/TxForm.js:88-99 | `changeAmountFontSize` (`Send.AmountFontClass`) never gives a longer amount a larger font; 9 characters are default, 14 medium, 15 small |
| Send.GasField | packages/fether-react/src/Send/TxForm/TxForm.js:66-84 | the gas field is set exactly when pre-validation passes, and then to a whole number |
| Send.GasNotEstimatedWhenInvalid | packages/fether-react/src/Send/TxForm/TxForm.js:66-84 | the gas decorator (`Send.GasField`) clears the gas field, whatever the node would say, when pre-validation fails |
| Send.GasFieldCarriesEstimate | packages/fether-react/src/Send/TxForm/TxForm.js:70-83 | when pre-validation passes and the estimate succeeds, the gas field is that estimate |
| Send.GasFieldDependsOnAnswersOnly | packages/fether-react/src/Send/TxForm/TxForm.js:70-76 | estimators that answer alike give the same gas field |
| Send.FailedEstimateBecomesSentinel | packages/fether-react/src/Send/TxForm/TxForm.js:70-80 | a failed estimate becomes -1, and validation then lets the form through |
| Send.TxForm.constructor | packages/fether-react/src/Send/TxForm/TxForm.js:57-60 | Max mode and details start off |
| Send.TxForm.ToggleMax | packages/fether-react/src/Send/TxForm/TxForm.js:167-169 | flips Max mode only |
| Send.TxForm.ToggleDetails | packages/fether-react/src/Send/TxForm/TxForm.js:187-191 | flips the details panel only |
| Send.TxForm.RecalculateMax | packages/fether-react/src/Send/TxForm/TxForm.js:158-165 | the amount becomes Max for the current gas and gas price; nothing else changes |
| Send.TxForm.ClickMax | packages/fether-react/src/Send/TxForm/TxForm.js:285-288 | the Max button flips the mode and recomputes the amount |
| Send.TxForm.ChangeGasPrice | packages/fether-react/src/Send/TxForm/TxForm.js:316-322 | a new gas price; in Max mode the amount follows it |
| Send.TxForm.UpdateGas | packages/fether-react/src/Send/TxForm/TxForm.js:62-86 | the gas field becomes the decorator's value for what the memos answer, which is the estimators' own value when each key determines its answer; the memos answer only when pre-validation passes and are untouched otherwise |
| Send.TxForm.ChangeTo | packages/fether-react/src/Send/TxForm/TxForm.js:62-66 | a new recipient, then the decorator's gas for it, with the memos' new state |
| Send.TxForm.ChangeAmount | packages/fether-react/src/Send/TxForm/TxForm.js:62-66 | a new amount, then the decorator's gas for it, with the memos' new state |
| Send.TxForm.HandleSubmit | packages/fether-react/src/Send/TxForm/TxForm.js:141-156 | the values, together with the token, go to the send store and the route is the QR step for a signer account, the unlock step otherwise |
| ParityStore.Sanitize | packages/fether-react/src/stores/parityStore.js:74-77 | the provider's token is no longer than the stored one and holds only ASCII letters and digits |
| ParityStore.SanitizeAppend | packages/fether-react/src/stores/parityStore.js:76 | sanitising distributes over concatenation, so characters keep their order |
| ParityStore.SanitizeChar | packages/fether-react/src/stores/parityStore.js:76 | a character survives iff it is an ASCII letter or digit |
| ParityStore.SanitizeKeepsAlphanumeric | packages/fether-react/src/stores/parityStore.js:76 | an alphanumeric token is passed unchanged |
| ParityStore.SanitizeIdempotent | packages/fether-react/src/stores/parityStore.js:76 | sanitising twice is sanitising once |
| ParityStore.Endpoint | packages/fether-react/src/stores/parityStore.js:62-69 | the interface and port connected to are never empty: an empty flag falls back to the default |
| ParityStore.DefaultProviderUrl | packages/fether-react/src/stores/parityStore.js:63-71 | without Electron or flags, the URL (`ParityStore.ProviderUrl`) is `ws://127.0.0.1:8546` |
| ParityStore.ProviderUrlRoundTrip | packages/fether-react/src/stores/parityStore.js:63-71 | the URL `ws://host:port` reads back as the endpoint (`ParityStore.Endpoint`): each flag when set and non-empty, the default otherwise |
| ParityStore.ParityStore.constructor | packages/fether-react/src/stores/parityStore.js:31-59 | a stored non-empty token is taken up; in Electron the running state is read, and a token requested when the node runs without one |
| ParityStore.ParityStore.SetDownloadProgress | packages/fether-react/src/stores/parityStore.js:111-114 | sets the progress, nothing else |
| ParityStore.ParityStore.SetIsApiConnected | packages/fether-react/src/stores/parityStore.js:116-123 | sets the connected flag, nothing else |
| ParityStore.ParityStore.SetIsParityRunning | packages/fether-react/src/stores/parityStore.js:125-137 | sets the running flag; one token request iff the node just started and no token is present |
| ParityStore.ParityStore.RequestNewToken | packages/fether-react/src/stores/parityStore.js:94-100 | sends one request and registers one reply listener |
| ParityStore.ParityStore.SetToken | packages/fether-react/src/stores/parityStore.js:139-154 | the same token changes nothing; a new one is set, connected with (sanitised) and persisted |
| ParityStore.ParityStore.ConnectToApi | packages/fether-react/src/stores/parityStore.js:61-77 | opens one provider on the configured URL with the sanitised token |
| ParityStore.ParityStore.TokenReply | packages/fether-react/src/stores/parityStore.js:100-108 | the waiting listeners are used up; an empty reply, or the token already held, changes no token state; a new token is set and stored, and exactly one provider carrying it is appended to the earlier ones |
| Tray.Click | packages/fether-electron/src/main/app/methods/onTrayClick.js:6-18 | hide iff the window is visible or a modifier is held, keeping the bounds; otherwise show at the new remembered bounds |
| Tray.DoubleClickReusesBounds | packages/fether-electron/src/main/app/methods/onTrayClick.js:14-17 | a click without bounds after a show shows the window at the first click's bounds |
| Tray.BoundsNeverForgotten | packages/fether-electron/src/main/app/methods/onTrayClick.js:10-16 | once bounds are remembered, every click keeps some, either the old or the click's own |
| Tray.FetherApp.OnTrayClick | packages/fether-electron/src/main/app/methods/onTrayClick.js:6-18 | exactly one hide or show call per click, and the remembered bounds as the click decides |
| AccountImport.PrefixAddress | packages/fether-react/src/Accounts/CreateAccount/AccountImportOptions/AccountImportOptions.js:58-60 | the address gains a `0x` prefix and nothing else changes |
| AccountImport.ValidKeyfileKeptPrefixed | packages/fether-react/src/Accounts/CreateAccount/AccountImportOptions/AccountImportOptions.js:52-62 | a keyfile passing the check (`AccountImport.IsValidKeyfile`) is kept with a 42-character `0x` address, `meta` and AES-128-CTR encryption |
| AccountImport.CurrentStep | packages/fether-react/src/Accounts/CreateAccount/AccountImportOptions/AccountImportOptions.js:22 | a last digit d reads as step d |
| AccountImport.NextRoute | packages/fether-react/src/Accounts/CreateAccount/AccountImportOptions/AccountImportOptions.js:35 | every route pushed starts with `/accounts/new/` |
| AccountImport.NextRouteAdvancesStep | packages/fether-react/src/Accounts/CreateAccount/AccountImportOptions/AccountImportOptions.js:22-35 | on a path ending in digit d, Next goes to the route whose step reads back as d + 1 |
| AccountImport.NextRouteNaN | packages/fether-react/src/Accounts/CreateAccount/AccountImportOptions/AccountImportOptions.js:22-35 | a path ending in neither a digit nor white space leads to `/accounts/new/NaN` |
| AccountImport.NextDisabledWithKeyfile | packages/fether-react/src/Accounts/CreateAccount/AccountImportOptions/AccountImportOptions.js:130-138 | the Next button's `disabled` (`AccountImport.NextDisabled`) holds whenever a keyfile is held, since file validity is never set |
| AccountImport.NextEnabledForPhrase | packages/fether-react/src/Accounts/CreateAccount/AccountImportOptions/AccountImportOptions.js:130-138 | without a keyfile, Next is enabled iff a phrase is typed and nothing is loading |
| AccountImport.AccountImportOptions.constructor | packages/fether-react/src/Accounts/CreateAccount/AccountImportOptions/AccountImportOptions.js:9-14 | not loading, file not valid, no keyfile, empty phrase |
| AccountImport.AccountImportOptions.HandleChange | packages/fether-react/src/Accounts/CreateAccount/AccountImportOptions/AccountImportOptions.js:38-40 | the phrase becomes the typed text |
| AccountImport.AccountImportOptions.HandleNextStep | packages/fether-react/src/Accounts/CreateAccount/AccountImportOptions/AccountImportOptions.js:16-36 | hands the keyfile to the store when JSON, the phrase when importing without JSON, and pushes the next route unless that store call rejects, leaving the form loading |
| AccountImport.AccountImportOptions.HandleChangeFile | packages/fether-react/src/Accounts/CreateAccount/AccountImportOptions/AccountImportOptions.js:42-72 | unparseable text changes nothing; parsed text marks the store as JSON; only a valid keyfile is kept, prefixed, and handed on, and the next route follows when the store accepts it |

## Left out

- Debounce and timing are not modelled. The form's `validateForm` body is modelled as a plain function. This leaves out `debounce-promise`, the chain streams' `delay`/`startWith`, and the once-a-second `setInterval` poll of the API connection. The poll calls `SetIsApiConnected`.
- The node, the contract and the light-client streams are foreign RPC. Their estimates are oracle functions of the serialised request, and chain id, ether balance and transaction count are plain inputs.
- Rendering, routing and the decorator/HOC stack are not modelled. Props (token, balances, account) are fixed per form object.
- React's `setState` is treated as synchronous. This includes the keyfile handler, which reads the stored keyfile right after setting it.
- Promises are sequential calls. The awaited `setJSON`/`setPhrase` are recorded as calls to the account-creation store, and whether each resolves is an input; a rejection ends the handler before the route is pushed and leaves the form loading. The error then reaching the caller is not modelled.
- `utils/transaction.js` (whose `estimateGas` the form imports) is not part of this model. It is modelled by `utils/estimateGas.js`.
- `validateForm`'s `catch` branch ("Failed estimating balance") is not modelled: every modelled operation is total. Its `!values` guard is not modelled either: the form always has values.
- Send.ValidateFormAcceptsIff: stated for an ether balance that is a number. A NaN balance makes the fee check false, so the form passes; that case is covered only by `ValidateForm` itself.
- Send.TxForm.ClickMax / Send.TxForm.ChangeGasPrice: a Max change to the amount (a click on Max, or a new gas price in Max mode through `recalculateMax`) also re-runs the gas decorator in the app. In the model that is a separate `UpdateGas` call.
- Send.MaxAmountIsAffordable: stated when the balance covers the fee. Otherwise Max is 0 and `MaxUnaffordableReportsGas` applies.
- Numbers.Unshift / FormValues.WeiToEther: the quotient is exact. bignumber.js rounds a division to 20 decimal places (ROUND_HALF_UP), so the two agree only when the dividend has at most 20 − k decimal places; the rounding is not modelled.
- Numbers.Canonical: stands for the printed form of a number by its reduced decimal. The exponential notation bignumber.js prints from 10^21 and below 10^-7, are not modelled; nor is negative zero, which prints as "-0" and so apart from zero. Exponential notation is still one string per value.
- EstimateGas.EthKeyDetermines / EstimateGas.Memo.Answers: the node and the contract are modelled as answering each request the same way for ever. In the app the answer depends on chain state and on the connection, while the memo keeps its first promise for the life of the process: the cache never expires, so a later call is served the first answer even when it is stale, and a first rejection (say, while the API is still connecting) is replayed, becoming gas -1 for that input every time. The model's memo replays entries the same way, but its reference estimate is the unchanging node.
- An empty-object transaction is recognised by all fields being absent. `Object.keys(tx).length` also counts a key whose value is null, such as the decorator's `gas: null`, for which the app throws at `tx.amount.toString()` where the model rejects with "Tx not set."; both end as gas -1, and the case does not arise after pre-validation.
- BigNumber objects are truthy even at zero. So chain id, ether balance and transaction count are "pending" only while absent, modelled as `None`; a loaded zero counts as loaded.
- An empty amount or gas-price field is modelled as absent. Any other field value is a BigNumber, which is truthy even at zero, and a non-numeric string is NaN.
- String lengths are counted in characters, not UTF-16 code units. This affects the 40-character keyfile address check only for characters outside the Basic Multilingual Plane.
- A keyfile whose address is not a string is not modelled. A missing address, or a parsed value that is not an object, throws after `setIsJSON(true)`, and that is modelled.
- ParityStore.ParityStore.SetIsParityRunning: the token request needs Electron's IPC. Outside Electron the source would throw; the model records the request.
- The token-request IPC is modelled as counters: requests sent and one-shot listeners waiting. A reply fires every waiting listener, and after the first has set the token the rest see the same token and do nothing.
- The Electron hide/show callbacks are not part of this model. The tray model records which one is called and with what bounds, and leaves the window's visibility to them.
- The light client's `addHocToLight`/`api` members and debug logging are not modelled.

## Findings

| source | as written | input that shows it | evidently intended | confidence | as-written member | corrected member |
|---|---|---|---|---|---|---|
| packages/fether-react/src/utils/estimateGas.js:45-53 | `memoize(fn, JSON.stringify)` calls `JSON.stringify(txForErc20, token)`; an object as second argument is ignored, so the memo key is the request alone | the same transfer (recipient, amount in base units, sender, gas price) estimated for token A and then for token B: B is answered with A's cached estimate | the ERC-20 estimate is keyed by the token contract as well as the request | medium: not executed | EstimateGas.AsWrittenMemoServesFirstToken | EstimateGas.CorrectedMemoServesEachToken |
