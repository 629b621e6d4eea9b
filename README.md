# Boost client model

A Dafny model of the boost plugin's client module, `src/plugins/boost/useBoost.ts`.
The plugin fetches boost campaigns from a subgraph. For a connected account, it asks an
off-chain guard service for a signed claim receipt for each boost. It also submits
`depositTokens` / `claimTokens` transactions through the wallet, and it offers two
display helpers: `getClaim` and `getClaimTxLink`.

Files:

- `Wrappers.dfy`: `Option`. `None` stands for JavaScript's `undefined` or `null`.
- `JsBuiltins.dfy`: the JavaScript built-ins the module uses, written as functions.
  These are `Array.prototype.find`, ASCII `toLowerCase`, and `split` on a
  one-character separator.
- `BoostModel.dfy`: the records the subgraph returns (`Boost`, `Claim`, `Token`), the
  guard's answer (`GuardResponse`), and the pure helpers.
- `UseBoost.dfy`: the state of `useBoost()` as a class `BoostClient`. Its fields are
  `boosts`, `loadingBoosts` and a shared `TxStatus` object holding `pendingCount`. The
  class has the `loadBoosts` receipt loop and the counter discipline of the two
  transactions. `TwoBoostsScenario` states, as verified assertions, what a two-boost load
  yields against a guard that signs only the first boost.

The network is modelled as parameters:

- The subgraph query `Boosts(tag)` is a function `(tag, chainId) -> seq<Boost>`.
- The guard's `get_receipt` answer is a function `(boostId, recipient, amount) -> GuardResponse`.
- Wallet transactions are recorded in a ghost log `sent`.
- Guard requests are recorded, in order, in a ghost log `guardLog`.
- Every `await` is taken to succeed.

The `receipt` field a boost gains has three states:

- `Unset`: never assigned.
- `Set(None)`: the guard answered without a signature, so the field is `null`.
- `Set(Some(r))`: the guard's answer `r`.

## Model

| member | source | states |
|---|---|---|
| `JsBuiltins.Find` | src/plugins/boost/useBoost.ts:142-144 | `find` returns an element of the list that satisfies the predicate. It returns none exactly when no element does. When it returns an element, that element is the first one that satisfies the predicate. |
| `JsBuiltins.FindCongruent` | src/plugins/boost/useBoost.ts:142-144 | two predicates that agree on every element give the same `find` result |
| `JsBuiltins.Lower` | src/plugins/boost/useBoost.ts:143 | ASCII `toLowerCase` keeps the length and turns each letter `'A'..'Z'` into the matching `'a'..'z'`. It leaves every other character as it was, so no upper-case letter is left. |
| `JsBuiltins.LowerIdempotent` | src/plugins/boost/useBoost.ts:143 | lower-casing twice is the same as lower-casing once |
| `JsBuiltins.Split` | src/plugins/boost/useBoost.ts:148 | `split` on a separator yields at least one piece, and no piece contains the separator |
| `JsBuiltins.JoinSplit` | src/plugins/boost/useBoost.ts:148 | joining the pieces of a split gives back the original string |
| `JsBuiltins.SplitJoin` | src/plugins/boost/useBoost.ts:148 | splitting a join of separator-free pieces gives back those pieces |
| `JsBuiltins.FirstPiece` | src/plugins/boost/useBoost.ts:148 | piece `[0]` is a prefix of the string and holds no separator. It is the whole string exactly when the string has no separator. Otherwise a separator follows it. |
| `BoostModel.GetClaim` | src/plugins/boost/useBoost.ts:141-145 | a claim it returns is one of the boost's claims, and its recipient equals the account up to case. It returns none exactly when no claim matches. It returns the first matching claim. |
| `BoostModel.GetClaimCaseInsensitive` | src/plugins/boost/useBoost.ts:141-144 | two accounts with the same lower-case form find the same claim |
| `BoostModel.GetClaimLowered` | src/plugins/boost/useBoost.ts:143 | lower-casing the account before the lookup does not change the result |
| `BoostModel.TxHash` | src/plugins/boost/useBoost.ts:148 | `claim.id.split('-')[0]` is a prefix of the claim id and holds no `'-'` |
| `BoostModel.TxHashBeforeFirstDash` | src/plugins/boost/useBoost.ts:148 | the hash is the part of the claim id before the first `'-'`, or the whole id if there is no `'-'`. It holds no `'-'` and is a prefix of the id. |
| `BoostModel.GetClaimTxLink` | src/plugins/boost/useBoost.ts:147-155 | chain 1 gives the `https://etherscan.io/tx/` link of the hash. Chain 4 gives the `https://rinkeby.etherscan.io/tx/` link. Every other chain id gives none. |
| `BoostModel.TxLinkNamesHash` | src/plugins/boost/useBoost.ts:147-155 | any link returned ends with the hash, and the hash is a dash-free prefix of the claim id |
| `BoostModel.RequestClaimReceipt` | src/plugins/boost/useBoost.ts:57-85 | the guard's `result` is kept exactly when its `sig` is truthy (present and non-empty). Otherwise the result is `null`. |
| `BoostModel.AttachReceipts` | src/plugins/boost/useBoost.ts:102-110 | the receipt loop keeps the list's length and order and changes no field except `receipt`. Boost `i` gets the guard verdict for (its id, the account, one token). |
| `BoostModel.AttachedReceiptsSigned` | src/plugins/boost/useBoost.ts:82-84 | every non-null receipt the loop attaches is the guard's answer for that boost, and its signature is present |
| `BoostModel.GuardRequests` | src/plugins/boost/useBoost.ts:103-109 | the receipt loop makes one guard request per boost, in list order. Request `i` names boost `i`'s id, the account and the fixed amount of one token. |
| `UseBoost.BoostClient.constructor` | src/plugins/boost/useBoost.ts:54-55 | a fresh client has no boosts, and its loading flag is raised |
| `UseBoost.BoostClient.CallGuard` | src/plugins/boost/useBoost.ts:57-85 | one `requestClaimReceipt` call appends its request (boost id, recipient, amount) to the guard log and returns that request's verdict |
| `UseBoost.BoostClient.LoadBoosts` | src/plugins/boost/useBoost.ts:87-113 | the flag is raised during the query and lowered at the end. The query's boosts carry no receipt. With an empty account, `boosts` is exactly the subgraph list, no receipt is set, and no guard call is made. With a non-empty account, `boosts` is the list with receipts attached, and the guard is called once per boost in list order. Each call goes through `CallGuard`, so the log is the calls themselves. |
| `UseBoost.TwoBoostsScenario` | src/plugins/boost/useBoost.ts:87-139 | for account `0xABC` and a guard that signs `b1` but not `b2`, the returned receipt fields are the guard's answer for `b1` and `null` for `b2`. Inside the method, verified assertions state more. After the load, the first boost's receipt is the guard's answer and the second's is `null`. The guard log lists `b1` before `b2`, and the flag is down. A deposit and a claim leave the counter at 0. A claim on the `null` receipt fails. |
| `UseBoost.BoostClient.DepositTokens` | src/plugins/boost/useBoost.ts:115-126 | sends `depositTokens(boostId, amount)`. `pendingCount` is one higher while the transaction is awaited and ends at its initial value. |
| `UseBoost.BoostClient.ClaimTokens` | src/plugins/boost/useBoost.ts:128-139 | sends `claimTokens(message, sig)` from the boost's receipt, with the same counter discipline. A boost without a receipt sends nothing and leaves the counter alone. |

## Left out

- Exception paths are not modelled. In the source, four failures throw: a failed subgraph query, a failed guard request, a wallet rejection, and a `tx.wait` revert. On a failed query, `loadingBoosts` stays `true`. On a failed `tx.wait`, `pendingCount` stays incremented. The model takes every `await` to succeed.
- The one error modelled is `claimTokens` on a boost whose receipt is unset or `null`. The source throws a `TypeError` before it sends anything, and the model returns `ok == false` instead.
- Concurrency is not modelled: overlapping async calls, and the race on the shared GraphQL transport.
- `queryBoostSubgraph` (lines 162-176) is not modelled: its endpoint table, the Apollo client, `setLink` / `createHttpLink`, the `no-cache` policy and the query text (lines 16-49). Its result is the `subgraph` parameter.
- The guard's HTTP request in `requestClaimReceipt` (lines 62-80) is not modelled; only the decision on its answer is. The guard itself is the `guard` parameter.
- `sendTransaction`, `getInstance().web3`, the ABI and `tx.wait()` are not modelled. Only the call handed to the wallet (the ghost log `sent`) and the counter steps around it are.
- `pinStrategy` (lines 157-160) is not modelled: it calls an external pinning service and writes to the console.
- Vue `ref` reactivity is not modelled; the refs are plain fields.
- Object aliasing is not modelled. In the source, the loop mutates the boost objects the query returned. The model rebuilds `boosts` as a sequence of values.
- `useTxStatus` is not part of this model. Its counter is the field of a shared `TxStatus` object, and its initial value is a constructor argument.
- `JsBuiltins.Lower`: only ASCII letters are lower-cased; full Unicode `toLowerCase` is not modelled.
- `ClaimTokens`: the source reads `boost.receipt.data.message`, and that throws a `TypeError` when the guard's result has no `data`. The model always has a message (`GuardResponse.message`), so it sends in that case too.
- `RequestClaimReceipt`: JavaScript truthiness is modelled only for a string `sig` that may be missing.
- Amounts, balances and boost ids are kept as strings. The fixed claim amount `"1000000000000000000"` is never computed on.
