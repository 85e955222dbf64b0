# Token request app: the client-side rules, in Dafny

The token request app lets members of an Aragon organization deposit ether or a
token in escrow, asking in return for an amount of the organization's token.
This project models the deterministic client-side part of the app:

- the background script's **store** (`app/src/script.js`): a reducer that folds
  the Aragon event stream (sync status, account changes, `TokenRequestCreated`,
  `TokenRequestRefunded`, `TokenRequestFinalised`) into a state object. It also
  covers the initial state and the token-metadata loaders with their fallbacks;
- the front end's **read-model rules**: `hasExpired`, the `ready` flag
  (`hasLoadedtokenRequestSettings` and `appStateReducer`), the per-account filter
  and the deposit intent / gas rule of `App.js`, and the request table's date
  sort, rows, Submit/Withdraw gating and status colours.

Modules, one per source file:

| module | file | source |
|---|---|---|
| `Types`, `Seqs` | types.dfy | the shared records; `Array.prototype.filter` |
| `Script` | script.dfy | app/src/script.js |
| `TokenRequestUtils` | token_request_utils.dfy | app/src/lib/token-request-utils.js |
| `TokenRequestSettings` | token_request_settings.dfy | app/src/lib/token-request-settings.js |
| `AppState` | app_state_reducer.dfy | app/src/app-state-reducer.js |
| `App` | app.dfy | app/src/App.js |
| `RequestTable` | request_table.dfy | app/src/components/RequestTable.js |

How JavaScript is represented:

- A field that may be `undefined` is an `Option`. An undefined or null string is
  written `""`, since the code only ever tests such strings for truthiness.
- The status constants file is not part of this model. `Status` is the enum
  PENDING, WITHDRAWED, APPROVED, REJECTED, EXPIRED.
- A reducer call yields an `Outcome`. It is `Next(state)`, or `Undefined` when a
  handler's `catch` block ran and returned nothing. It is `Failed` when a
  handler threw outside any `try`, which rejects its promise.
- Every call the reducer makes to the outside is a field of `Script.Env`:
  - `getBlock` and `getTokenRequest`;
  - the on-chain `getTokenDecimals/Name/Symbol` calls;
  - the `tokenDataFallback` table;
  - the ETH sentinel address.

  The token-utils helpers are not part of this model.
- Code that updates in place is imperative Dafny:
  - `updateRequestStatus` copies the list into an array and overwrites one slot.
  - `initializeState` prepends the ether entry to a local list.
  - The table's `requests.sort` reorders the caller's array.

  Each of these methods is proved equal to, or against, a specification.
  The pure fold uses that specification.

Behaviour of the source worth noting:

- A refund or finalise whose id matches no entry logs an error with
  `console.error` but does not fail the reducer. It sets `requests` to
  `undefined` (app/src/script.js:214-227), and the state is still returned
  (`StatusEventMarksFirstMatch`).
- A created entry is not always pending. Its status stays undefined when the
  ledger's record has the zero requester address (app/src/script.js:149-151).
- The expiry time is in minutes and dates are in milliseconds
  (app/src/lib/token-request-utils.js:2). app/src/script.js never writes an
  EXPIRED status, nor a REJECTED one
  (`ReplayPreservesWrittenStatuses`). So on a projected list, Withdraw is
  offered exactly where Submit is (`ProjectedRowsOfferWithdrawWithSubmit`).
- The reducer in app/src/script.js has no governance rejection path.

## Model

| member | source | states |
|---|---|---|
| `Script.SyncStatusSetsOnlyIsSyncing` | app/src/script.js:50-53 | SYNC_STATUS_SYNCING sets `isSyncing` to true and SYNC_STATUS_SYNCED to false; every other field is unchanged |
| `Script.AccountsTriggerSetsOnlyAccount` | app/src/script.js:48-49 | ACCOUNTS_TRIGGER yields a state that differs from the old one only in `account` |
| `Script.UnrecognisedEventKeepsState` | app/src/script.js:60-61 | an unrecognised event returns the state unchanged |
| `Script.Reduce` | app/src/script.js:42-63 | only a created event can end in `undefined`. A refund or finalise rejects exactly when `requests` is undefined, and no other event rejects. No event changes `token`, `acceptedTokens` or `ready`. Events other than the three ledger events always give a state with `requests` unchanged |
| `Script.Replay` | app/src/script.js:40-67 | folding a log ends in `undefined` only if it holds a created event, and rejects only if it holds a refund or finalise. A resulting state keeps `token`, `acceptedTokens` and `ready`. A log of unrecognised events only leaves the state as it was |
| `Script.UpdateConnectedAccount` | app/src/script.js:113-118 | the new state's `account` is the event's; resetting it gives back the old state |
| `Script.CreatedEntry` | app/src/script.js:134-168 | the entry carries the event's id, requester, token and amounts. For the sentinel it has decimals 18, 'Ether' and 'ETH'; otherwise the loaded decimals, name and symbol. Its date is the timestamp times 1000. It is PENDING exactly when the ledger's requester is not the zero address, else undefined, and `actionDate` is undefined |
| `Script.NewTokenRequest` | app/src/script.js:120-174 | no truthy account: state unchanged. Otherwise a state results exactly when the block and ledger lookups succeed and `requests` exists. That state appends exactly one entry at the end and leaves earlier entries and every other field alone. The entry carries the event's id, requester, token and amounts. For the sentinel its decimals, name and symbol are 18, 'Ether' and 'ETH'; for any other token they are the loaded decimals, name and symbol. Its date is the block timestamp times 1000 and `actionDate` is undefined. Status is PENDING exactly when the ledger's requester is not the zero address, else undefined |
| `Script.EtherDepositIgnoresTokenDirectory` | app/src/script.js:134-137 | an ETH-sentinel deposit gets decimals 18, name 'Ether' and symbol 'ETH'. The result is the same whatever the on-chain lookups and fallback table say |
| `Script.MarshallDate` | app/src/script.js:267-271 | the milliseconds are a whole multiple of 1000 and divide back to the given seconds |
| `Script.FindIndex` | app/src/script.js:215 | -1 exactly when no entry has the id; otherwise the first index whose entry has it |
| `Script.WithStatus` | app/src/script.js:214-227 | no entry with the id: undefined. Otherwise a list of the same length. Only the first matching entry differs, and only in its status, which is the new one |
| `Script.UpdateRequestStatus` | app/src/script.js:214-227 | the search loop plus copy-and-overwrite returns exactly `WithStatus` |
| `Script.SetRequestStatus` | app/src/script.js:176-227 | rejects exactly when `requests` is undefined and is never `undefined` itself. Otherwise only `requests` changes: undefined when no entry has the id, else the list with the first match's status replaced |
| `Script.RequestRefunded` | app/src/script.js:176-183 | fails exactly when `requests` is undefined. Otherwise the result is exactly the state with `requests` replaced by `WithStatus` for WITHDRAWED: undefined when no entry matches, else the same length with the first match WITHDRAWED |
| `Script.RequestFinalised` | app/src/script.js:184-192 | as for a refund, with APPROVED |
| `Script.StatusEventMarksFirstMatch` | app/src/script.js:176-227 | for a refund or finalise event on an existing list: a state results and only `requests` changes. No match makes it undefined. Otherwise the same length, the first match gets the event's status with its other fields kept, and all other entries are unchanged |
| `Script.RefundAndFinaliseFailWithoutList` | app/src/script.js:176-192 | with `requests` undefined, refund and finalise events reject |
| `Script.LoadTokenField` | app/src/script.js:229-265 | the on-chain value when the call returns a truthy one. Otherwise the fallback table's truthy value, otherwise the default. A thrown call also gives the fallback |
| `Script.LoadTokenName` | app/src/script.js:229-239 | the name is non-empty exactly when the on-chain name or the fallback name is |
| `Script.LoadTokenSymbol` | app/src/script.js:241-252 | the symbol is non-empty exactly when the on-chain symbol or the fallback symbol is |
| `Script.LoadTokenDecimals` | app/src/script.js:254-265 | decimals are never empty; they are '0' when neither source has a truthy value |
| `Script.GetTokenData` | app/src/script.js:200-212 | the metadata keeps the token's address and always has decimals |
| `Script.ListedTokens` | app/src/script.js:104-105 | the configured tokens without the ETH sentinel: none is the sentinel, every other address keeps its count, and the original order is kept (a subsequence) |
| `Script.GetAcceptedTokens` | app/src/script.js:103-111 | one metadata record per listed token, in the same order, none for the sentinel |
| `Script.InitializeState` | app/src/script.js:76-101 | a state results exactly when the token manager's `token()` call and the identify call succeed. It has `isSyncing` true, `requests` empty and the manager token's metadata. `acceptedTokens` is the ether entry followed by exactly `GetAcceptedTokens`, and no later entry is the sentinel |
| `Script.ReducePreservesWrittenStatuses` | app/src/script.js:42-63 | each reducer step keeps every status undefined, PENDING, WITHDRAWED or APPROVED |
| `Script.ReplayPreservesWrittenStatuses` | app/src/script.js:40-67 | the same holds for any event log folded from such a state |
| `Script.ReplayConcatenation` | app/src/script.js:40-67 | a property of the fold itself, true of any step function: folding the history and then the live events equals folding them together |
| `TokenRequestUtils.ExpirationDate` | app/src/lib/token-request-utils.js:2 | the deadline lies `expireTime` minutes, in milliseconds, after the date |
| `TokenRequestUtils.HasExpired` | app/src/lib/token-request-utils.js:1-4 | expired exactly when at least `expireTime` minutes, in milliseconds, have elapsed since the date |
| `TokenRequestUtils.ExpiredFromDeadlineOn` | app/src/lib/token-request-utils.js:2-3 | expired at the deadline and not one millisecond before it |
| `TokenRequestUtils.HasExpiredMonotone` | app/src/lib/token-request-utils.js:1-4 | once expired, expired at every later instant |
| `TokenRequestUtils.ZeroExpiryTime` | app/src/lib/token-request-utils.js:2-3 | with expiry time 0, expired exactly when `now >= date` |
| `TokenRequestUtils.ExpiryTimeInMinutes` | app/src/lib/token-request-utils.js:2 | one more minute of expiry time moves the deadline by 60000 ms |
| `TokenRequestSettings.HasLoadedTokenRequestSettings` | app/src/lib/token-request-settings.js:1-6 | an undefined state is not loaded. A state is loaded exactly when `acceptedTokens` is present, an empty list included |
| `TokenRequestSettings.AllLoaded` | app/src/lib/token-request-settings.js:5 | the `reduce` seeded with `true` is the conjunction of truthiness over every listed key; an empty list gives true |
| `TokenRequestSettings.FieldTruthy` | app/src/lib/token-request-settings.js:5 | a key outside the state's six fields is falsy; `acceptedTokens` is truthy exactly when present, an empty array included |
| `TokenRequestSettings.AllLoadedReadsOnlyListedKeys` | app/src/lib/token-request-settings.js:5 | states that agree on the listed keys agree on the result |
| `AppState.AppStateReducer` | app/src/app-state-reducer.js:3-8 | `ready` is the settings check of the input. Every other field is copied; an undefined input gives `{ ready: false }` |
| `AppState.ReadyDoesNotAffectLoaded` | app/src/lib/token-request-settings.js:1-5 | setting `ready` leaves the check unchanged whenever `ready` is not a listed key |
| `AppState.AppStateReducerIdempotent` | app/src/app-state-reducer.js:3-8 | applying the reducer twice equals applying it once |
| `AppState.NotReadyWithoutAcceptedTokens` | app/src/app-state-reducer.js:4 | a state without `acceptedTokens` gets `ready` false |
| `Seqs.Filter` | app/src/App.js:15 | every kept element satisfies the test, each satisfying value keeps its count, and the order is kept (a subsequence) |
| `App.MadeBy` | app/src/App.js:15 | an undefined connected account matches no request |
| `App.UserRequests` | app/src/App.js:14-17 | exactly the requests whose requester is the connected account, each as often as in the input, in their original order. The result is no longer than the input; an undefined account matches nothing |
| `App.CeilDiv` | app/src/App.js:47 | `Math.ceil(n / d)`: the least quotient whose multiple of `d` reaches `n` |
| `App.TokenDepositGas` | app/src/App.js:47 | at least 480000, in steps of 20000; the number of steps is the number of 32-character blocks of the requested amount, zero for an empty one |
| `App.TokenDepositGasPerBlock` | app/src/App.js:47 | 32 more characters add exactly 20000 gas |
| `App.TokenDepositGasMonotone` | app/src/App.js:47 | a longer requested amount never gets less gas |
| `App.HandleRequest` | app/src/App.js:31-52 | the request action gets the given token, deposit and requested amount. For the sentinel the intent is exactly `{ value: deposit }` with no gas. Otherwise it carries `token = { address, value }` and gas 480000 + 20000 × ⌈length / 32⌉ |
| `RequestTable.SortByDateDesc` | app/src/components/RequestTable.js:31-35 | after the in-place sort the dates never increase, and the array is a permutation of what it was |
| `RequestTable.Rows` | app/src/components/RequestTable.js:36-49 | one row per request, in order. Each row is requestId, date, depositAmount, depositSymbol, depositToken, depositName, depositDecimals, requestAmount, status, actionDate, then the app token's symbol and decimals |
| `RequestTable.Entries` | app/src/components/RequestTable.js:28-49 | nothing is rendered exactly when the list is absent or empty. Otherwise the caller's array is sorted in place (a permutation) and the entries are its rows |
| `RequestTable.OffersSubmit` | app/src/components/RequestTable.js:70 | Submit is offered exactly for the statuses drawn in the pending colour |
| `RequestTable.OffersWithdraw` | app/src/components/RequestTable.js:78 | Withdraw is never offered for a status drawn in the positive colour |
| `RequestTable.WithdrawExtendsSubmit` | app/src/components/RequestTable.js:70-78 | Submit (PENDING only) implies Withdraw; Withdraw without Submit happens exactly for EXPIRED |
| `RequestTable.ProjectedRowsOfferWithdrawWithSubmit` | app/src/components/RequestTable.js:70-78 | on a list the projector built, Withdraw is offered exactly where Submit is |
| `RequestTable.StatusColour` | app/src/components/RequestTable.js:105-118 | PENDING is `infoPermissionsIcon`; REJECTED and EXPIRED are `negative`; APPROVED, undefined and anything else are `positive` |

## Left out

- The escrow contract (TokenRequest) is not part of this model: its accounting, allow-list and roles are not modelled.
- Asynchrony: `app.call`, `app.web3Eth`, `app.external`, `app.network`, the rxjs subscriptions and `Promise.all`. Their results are parameters (`Script.Env`, and the arguments of `Script.InitializeState`).
- `Script.InitializeState`: the call is written `app.indentify` in the source. Whether that call returns normally depends on the Aragon API, which is not part of this model, so it is the parameter `identifyReturns`.
- What the Aragon store does with an `undefined` or rejected reducer result: `Script.Replay` stops at the first such outcome.
- `Script.MarshallDate`: the block timestamp is taken as an already-parsed integer; `parseInt` on strings is not modelled.
- `Script.LoadTokenField`: non-string lookup results (`undefined`, `null`, `0`) are all written `""`, since the loaders only test truthiness.
- `TokenRequestSettings.FieldTruthy`: the state has only the six fields modelled. Any other key reads `undefined`, and inherited object properties are not modelled.
- `RequestTable.SortByDateDesc`: does not state that entries with equal dates keep their order, although JavaScript's sort is stable.
- `RequestTable.Entries`: the app's `token` is taken to be defined; `token.symbol` on an undefined token would throw.
- Rendering, date formatting (`format`), amount formatting, `fromDecimals`/`toDecimals`, React hooks and styling. The NewRequest panel, MainButton, the Requests screen and the app hooks are not modelled.
- The governance rejection path and expiry inside the fold: app/src/script.js has neither.
- Logging (`console.log`, `console.error`).
- JavaScript numbers are doubles; the model uses unbounded integers. So `TokenRequestUtils.HasExpired` does not model a fractional `expireTime`, rounding of large dates, or a `new Date` outside the representable range (an Invalid Date, against which `>=` is false). Dates and block timestamps are integers, and `App.CeilDiv` is exact integer division where the source takes `Math.ceil` of a floating-point quotient.
- app/script.js, a leftover template reducer unrelated to the app, and the deployment and test scaffolding.
