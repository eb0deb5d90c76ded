# Transfer-hook launchpad core, modelled in Dafny

This project models the sequential logic inside a React Native app for
launching and trading Token-2022 tokens with transfer hooks on Solana:

- `rate_limiter.dfy` (module `RateLimiting`): the sliding-window request
  limiter of `src/utils/rate-limiter.ts`, as a class over a
  `map<string, seq<int>>` of per-key timestamps, with the clock reading passed
  in. A ghost record of every call per key ties the stored lists to a pure
  replay (`Replay`), about which the sliding-window guarantee is proved: with a
  non-decreasing clock, the admitted calls in any half-open interval of length
  `timeWindow` never exceed `maxRequests`. The three exported limiters
  (CoinGecko, Jupiter, Solana RPC) follow as one-request-per-window limiters.
- `launchpad.dfy` (module `Launchpad`): the four-step launch screen of
  `app/transfer-hook-launchpad.tsx`: the step list, `updateStepStatus`, the
  step colours, the completion check and the four handlers, as a class whose
  invariant is the step ordering (earlier steps completed, later ones
  untouched, nothing in progress between handlers).
- `trading.dfy` (module `Trading`): the swap screen of
  `app/trading-interface.tsx`: the mock quote, the quote effect, the
  trade record, the ten-entry recent-trade list and `switchTokens`, as a class
  whose invariant keeps the quote in step with the input and the shown list
  equal to the ten newest trades of the full trade history.
- `devnet_config.dfy` (module `DevnetConfig`): `isMainnet` and the three
  explorer link builders of `constants/devnet-config.ts`, with a parser that
  reads a link back and round-trip lemmas in both directions.
- `wrappers.dfy` (module `Wrappers`): `Option` and `CallResult`, the outcome
  of an awaited external call.

External calls (the Solana SDK, the AMM service, keypair generation, timers)
are inputs: each handler takes the outcome of its awaited call as a
`CallResult`, and runs as one atomic transition from the click to its
`finally`. The render gates (a step's panel is shown only while it is the
current step; buttons are disabled while processing) are preconditions; the
handlers' own guards are modelled as runtime paths that change nothing.

Where the code and its surrounding description differ, the model follows the
code:

- A rejected `canMakeRequest` writes nothing back, not even the pruned list.
- The window boundary is strict: with one request per 60000 ms, calls at 0,
  30000 and 60000 are admitted, rejected and admitted (`StrictBoundaryExample`,
  `SolanaRpcBoundary`); a timestamp exactly one window old no longer counts.
- `clear("")` clears every key, like `clear()`, because the key is tested for
  truthiness.
- A step has two flags, `completed` and `inProgress`, not a four-state status;
  a failed step is reset to not started, and there is no restart operation.
- The launch handlers and the swap do not consult a rate limiter.
- The quote ignores the direction, and any number that parses, zero and
  negative numbers included, is quoted and can be swapped; there is no
  invalid-amount error.
- Switching tokens twice does not restore the form: the quote effect re-quotes
  the switched amount, so the typed amount comes back as the quote of its quote
  (`SwitchTwiceShrinks`).
- Step 4 can be run again after it completes, since success leaves
  `currentStep` at 4; a failed rerun clears its completed flag.

## Model

| member | source | states |
|---|---|---|
| RateLimiting.Retained | src/utils/rate-limiter.ts:18 | the pruned list is never longer than the stored one |
| RateLimiting.RetainedSpec | src/utils/rate-limiter.ts:18 | pruning keeps exactly the timestamps with `now - t < timeWindow`, each as many times as it was stored, as a sub-multiset of the stored list |
| RateLimiting.Stored | src/utils/rate-limiter.ts:15 | the list stored for a key, or the empty list when the key has none |
| RateLimiting.UnderQuota | src/utils/rate-limiter.ts:20 | a call is admitted exactly when fewer than `maxRequests` timestamps remain after pruning |
| RateLimiting.Recorded | src/utils/rate-limiter.ts:26-27 | an admitted call stores the pruned list followed by `now` |
| RateLimiting.Replay | src/utils/rate-limiter.ts:13-30 | after any sequence of calls for a key the stored list is empty or holds at most `maxRequests` timestamps, and no more calls are admitted than made |
| RateLimiting.RetainedKeepsRecent | src/utils/rate-limiter.ts:18 | pruning at `now` drops nothing that lies in an interval starting after `now - timeWindow` |
| RateLimiting.ReplayAccountsForRecent | src/utils/rate-limiter.ts:18-29 | with a non-decreasing clock, every admitted call that can still share a window with a later call is still stored |
| RateLimiting.EarlierAdmittedBelowQuota | src/utils/rate-limiter.ts:18-20 | before an admitted call at `now`, fewer than `maxRequests` earlier admissions lie in any window containing `now` |
| RateLimiting.SlidingWindowBound | src/utils/rate-limiter.ts:13-30 | with a non-decreasing clock, the admitted calls in any half-open interval of length `timeWindow` number at most `maxRequests` |
| RateLimiting.AdmittedInOrder | src/utils/rate-limiter.ts:26-29 | admitted calls are calls that were made, in non-decreasing time order |
| RateLimiting.OneAdmissionPerWindow | src/utils/rate-limiter.ts:13-30 | with a quota of one, any two admitted calls are at least `timeWindow` apart |
| RateLimiting.StrictBoundaryExample | src/utils/rate-limiter.ts:18 | one request per 60000 ms: calls at 0, 30000, 60000 admit at 0 and 60000 only |
| RateLimiting.RateLimiter.constructor | src/utils/rate-limiter.ts:8-11 | an omitted quota is 10 requests, an omitted window 60000 ms; the map starts empty |
| RateLimiting.RateLimiter.CanMakeRequest | src/utils/rate-limiter.ts:13-30 | admits exactly when fewer than `maxRequests` timestamps remain after pruning; on admission the key's entry becomes the pruned list plus `now`; on rejection the map is unchanged; no other key changes; the admissions grow by `now` exactly when admitted |
| RateLimiting.RateLimiter.WaitForNextRequest | src/utils/rate-limiter.ts:32-41 | polling resolves only on a poll whose call was admitted, and then exactly that call is added to the admissions; while unresolved no call was admitted; every other key's stored list and call record are unchanged |
| RateLimiting.RateLimiter.Clear | src/utils/rate-limiter.ts:43-49 | a non-empty key removes only that key; no key or the empty key empties the map |
| RateLimiting.RateLimiter.WindowBound | src/utils/rate-limiter.ts:13-30 | the sliding-window bound for one limiter's admissions for one key |
| RateLimiting.NewServiceLimiter | src/utils/rate-limiter.ts:55-57 | the exported instances have quotas 1/120000 (CoinGecko), 1/90000 (Jupiter), 1/60000 (Solana RPC) and start empty |
| RateLimiting.ServiceAdmissionsSpaced | src/utils/rate-limiter.ts:55-57 | any two admissions of an exported instance are at least its window, and at least 60000 ms, apart |
| RateLimiting.SolanaRpcBoundary | src/utils/rate-limiter.ts:18-29 | the Solana RPC instance admits at 0, rejects at 30000 and admits at 60000 |
| RateLimiting.ClearedKeyIsAdmitted | src/utils/rate-limiter.ts:43-49 | after `clear(key)`, `clear()` or `clear("")`, the next call for `key` is admitted when the quota is at least one |
| Launchpad.UpdateStepStatus | app/transfer-hook-launchpad.tsx:89-97 | the update keeps the number of steps |
| Launchpad.UpdateStepStatusSpec | app/transfer-hook-launchpad.tsx:89-97 | the update keeps order, ids, titles, descriptions and every step with another id, and sets exactly the two flags of the matching step |
| Launchpad.UpdateStepStatusLastWins | app/transfer-hook-launchpad.tsx:89-97 | of two updates of the same step the later one wins, so the in-progress mark is gone after a handler |
| Launchpad.GetStepColor | app/transfer-hook-launchpad.tsx:245-250 | completed gives success, else in progress gives warning, else the current step gives accent |
| Launchpad.LaunchComplete | app/transfer-hook-launchpad.tsx:526 | the launch is complete when every step is completed |
| Launchpad.LaunchCompleteIffLastDone | app/transfer-hook-launchpad.tsx:526 | under the step ordering, every step is completed exactly when step 4 is current and completed |
| Launchpad.SuccessKeepsOrder | app/transfer-hook-launchpad.tsx:117-118 | completing the current step keeps the ordering with the next step current (step 4 stays current), and completing step 4 completes the launch |
| Launchpad.FailureKeepsOrder | app/transfer-hook-launchpad.tsx:128 | resetting the current step keeps the ordering, leaves steps 1-3 exactly as they were, and the launch is not complete |
| Launchpad.LaunchpadScreen.constructor | app/transfer-hook-launchpad.tsx:72-87 | the four initial steps, step 1 current, symbol BNTY, no hook, mint or pool, not processing |
| Launchpad.LaunchpadScreen.SelectHook | app/transfer-hook-launchpad.tsx:353 | picking a hook sets only the selected hook |
| Launchpad.LaunchpadScreen.SetTokenSymbol | app/transfer-hook-launchpad.tsx:330 | editing the symbol sets only the symbol |
| Launchpad.LaunchpadScreen.HandleCreateToken | app/transfer-hook-launchpad.tsx:99-132 | without a wallet or hook nothing changes; on success step 1 is completed, the mint is stored, step 2 is current and the status names symbol and mint; on failure step 1 is reset and step 1 stays current; never processing afterwards |
| Launchpad.LaunchpadScreen.HandleCreateAMMPool | app/transfer-hook-launchpad.tsx:134-171 | without a wallet or service nothing changes; on success step 2 is completed, the pool is stored and step 3 is current; on failure step 2 is reset; never processing afterwards |
| Launchpad.LaunchpadScreen.HandleAddLiquidity | app/transfer-hook-launchpad.tsx:173-209 | without a wallet or service nothing changes; on success step 3 is completed and step 4 is current; on failure step 3 is reset; never processing afterwards |
| Launchpad.LaunchpadScreen.HandleEnableTrading | app/transfer-hook-launchpad.tsx:211-234 | step 4 stays current; on success the launch is complete; on failure step 4 is reset and the launch is not complete |
| Launchpad.LaunchWithOneRetry | app/transfer-hook-launchpad.tsx:99-234 | four successful steps, one of them after a failed attempt, complete the launch |
| Trading.Quote | app/trading-interface.tsx:89-96 | the quote is 94.62% of the amount on a hooked pair and 94.715% on a plain one; it keeps the sign of the amount and shrinks it |
| Trading.HookedQuoteIsLower | app/trading-interface.tsx:91-95 | for a positive amount a hooked pair quotes strictly less than a plain one |
| Trading.QuoteMonotone | app/trading-interface.tsx:95 | a larger amount is quoted a larger output |
| Trading.QuoteExample | app/trading-interface.tsx:95 | 100 on a hooked pair is quoted 94.62 |
| Trading.QuoteFor | app/trading-interface.tsx:87-100 | there is a quote exactly when the input text parses as a number, and it is the quote of that number |
| Trading.QuoteIgnoresDirection | app/trading-interface.tsx:87-100 | both directions give the same quote |
| Trading.SwapReady | app/trading-interface.tsx:108-111 | the amount check passes when both fields are non-empty |
| Trading.SwapReadyIffParsed | app/trading-interface.tsx:108-111 | with the quote in step, a swap passes the amount check exactly when the input parses as a number |
| Trading.ZeroAmountIsSwappable | app/trading-interface.tsx:108-111 | a zero amount passes the amount check |
| Trading.AsInput | app/trading-interface.tsx:168 | the output field copied to the input field is empty exactly when the output was, and otherwise reads as the quoted number |
| Trading.SwitchTwiceShrinks | app/trading-interface.tsx:166-170 | switching twice restores the direction but turns a positive amount into the quote of its quote, strictly smaller |
| Trading.SwitchClearsUnparsed | app/trading-interface.tsx:166-170 | switching with text that does not parse empties both fields |
| Trading.NewTrade | app/trading-interface.tsx:137-145 | the record holds the pair's two symbols, A then B when swapping A to B and B then A otherwise, the hook type or "None" on a plain pair, and the given signature, time and amounts |
| Trading.TradeDirectionMirrors | app/trading-interface.tsx:140-141 | the two directions record the same tokens the other way round, A first when A to B |
| Trading.RecordTrade | app/trading-interface.tsx:147 | the new trade is first, the earlier ones follow in order, and the list holds at most ten |
| Trading.RecentIsNewestFirst | app/trading-interface.tsx:147 | after any sequence of trades the list is the last ten trades, newest first |
| Trading.TradingInterface.constructor | app/trading-interface.tsx:78-84 | the first demo pair, empty fields, A to B, no trades |
| Trading.TradingInterface.SetAmountIn | app/trading-interface.tsx:87-100 | typing sets the input and the output becomes its quote |
| Trading.TradingInterface.SelectPair | app/trading-interface.tsx:202 | picking a demo pair re-quotes the input for that pair |
| Trading.TradingInterface.SwitchTokens | app/trading-interface.tsx:166-170 | the direction flips, the old output becomes the input, and the output is its quote |
| Trading.TradingInterface.HandleSwap | app/trading-interface.tsx:102-164 | without wallet, service or both amounts, or when the swap fails, nothing changes; on success the trade is recorded first in the list and in the history, and both fields are emptied |
| Trading.SwapOnFreshScreen | app/trading-interface.tsx:102-164 | a swap of 10 SOL on a fresh screen records a SOL to DEMO trade of 10 for 9.462 under the Fee Collection hook and clears the form |
| DevnetConfig.IsMainnet | constants/devnet-config.ts:105 | the configured cluster is mainnet |
| DevnetConfig.ExplorerUrl | constants/devnet-config.ts:107-114 | a link is the base URL and kind path, the id verbatim, then the cluster query |
| DevnetConfig.ExplorerUrlShape | constants/devnet-config.ts:9-10 | every link starts with `https://explorer.solana.com/` and ends with `?cluster=mainnet` |
| DevnetConfig.ParseExplorerUrl | constants/devnet-config.ts:107-114 | a text reads as a link of a kind exactly when it has that kind's prefix and the cluster query |
| DevnetConfig.PrefixesDisjoint | constants/devnet-config.ts:107-114 | a link of one kind never has another kind's prefix |
| DevnetConfig.ParseExplorerUrlRoundTrip | constants/devnet-config.ts:107-114 | reading a built link gives back its kind and id, for every id |
| DevnetConfig.LinkOfIsBuilt | constants/devnet-config.ts:107-114 | a text with a link's shape is the link built from its id |
| DevnetConfig.ParseExplorerUrlSound | constants/devnet-config.ts:107-114 | every text that reads as a link is the link built from what it reads as |
| DevnetConfig.ExplorerUrlInjective | constants/devnet-config.ts:107-114 | different pages never share a link |
| DevnetConfig.GetExplorerUrl | constants/devnet-config.ts:107-108 | the link reads back as the transaction page of the signature |
| DevnetConfig.GetAccountExplorerUrl | constants/devnet-config.ts:110-111 | the link reads back as the account page of the address |
| DevnetConfig.GetTokenExplorerUrl | constants/devnet-config.ts:113-114 | the link reads back as the token page of the mint |
| DevnetConfig.ExplorerUrlExample | constants/devnet-config.ts:107-108 | the transaction link of `abc` written out |

## Left out

- The clock, timers and polling interval: `Date.now()` and the poll times are parameters; `setTimeout` delays are collapsed into the handlers.
- RateLimiting.RateLimiter.WaitForNextRequest: polls a given finite list of clock readings rather than every second forever; an unresolved result stands for a promise still pending.
- Logging (`safeLog`, `console`), alerts, JSX rendering, styles and `getRiskColor`: no state or logic that the model depends on.
- The Solana SDK, the AMM service and keypair generation: each awaited call is an input outcome; what they do on chain is not part of this model.
- Launchpad.LaunchpadScreen.HandleCreateToken: the mint is stored before the awaited delay in the source; the model stores it only on success, treating a failure as a failed keypair generation, because the delay itself cannot fail.
- Launchpad.LaunchpadScreen.HandleEnableTrading: its awaited call is a timer that cannot reject, so the failure path is modelled but cannot happen in the source.
- Launchpad.LaunchpadScreen.HandleCreateAMMPool: its guard on a missing mint is tested in the body but not stated in the contract, because the step ordering invariant makes the mint present at step 2; likewise the pool for HandleAddLiquidity.
- Status messages of the guards and the `tokenName`, supply and liquidity amount fields, which only feed alerts and the external calls.
- Trading.Quote: amounts are exact reals; floating-point rounding, `toFixed(6)` and partial parsing by `parseFloat` are not modelled.
- Trading.TradingInterface.HandleSwap: the lamport conversion, the slippage field and the minimum output sent to the service are not modelled; the recorded output amount is the exact quote rather than the re-parsed rounded text.
- The token balances and decimals of the demo pairs are carried as data but no operation uses them; no balance is checked before a swap.
- The React effect is run synchronously after every state change; render timing and the closure values captured across an await are not modelled.
- The network tables of constants/devnet-config.ts (program ids, token and pool addresses, rate limit settings) and the other screens are not part of this model.
