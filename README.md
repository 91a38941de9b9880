# USDC checkout platform: a verified model of its core

The project models the logic at the centre of the USDC checkout platform, with properties proved about it:

- **The payment hub.** The smart contract through which a consumer pays a registered merchant in USDC, with a fee in basis points going to a fee account. It also handles refund requests and refunds by the merchant or by an admin, roles, and pause. Its mock USDC token is modelled with it.
- **Two contract scripts.** `decodeRevert.js` classifies revert data against the hub's custom-error selectors. `runFaucet.js` parses its command line and derives the faucet settings.
- **The web application's cache layer.** This covers the key builders and expiry times, the cache manager over a key-value store, and the cache-aside, write-through and tag-based strategies.
- **Both copies of the storage service.** Only the part that builds the upload path is modelled.

The hub's Solidity sources, `USDCPaymentHub.sol` and `MockUSDC.sol`, are not part of this model. The hub is modelled on the behaviour its test suite pins down (`packages/contracts/test/USDCPaymentHub.test.js`). Where the suite is silent, the model makes its own assumptions, listed below: who may call what, in which order the checks run, and what each event carries.

Some error conditions are declared by the hub but never exercised by the suite. Where they fire is an assumption, and each one says so in its doc comment:

- `ZeroAddress`: on a zero token address or a zero fee account at deployment, and on a zero address passed to `registerMerchant` (`grantRole` accepts any account);
- `PaymentNotProcessed`: on an unknown id;
- `NotPaymentMerchant`: on a merchant refund by a caller other than the recorded merchant;
- `RefundAmountTooHigh`: on a merchant refund above the merchant's net.

The suite also leaves three choices open. The model assumes:

- refund requests and refunds are not gated by pause;
- the admin refund has no cap;
- a repeated refund request overwrites the reason.

Layout:

| file | modules |
|---|---|
| `common.dfy` | `Option`, `Result` |
| `strings.dfy` | the JavaScript string methods the sources call |
| `token_spec.dfy`, `token.dfy` | the token as values (`TokenSpec`), and as a class updated in place (`Token.MockUsdc`) |
| `hub_spec.dfy` | the hub as values: every call is a function from storage to `Ok(new storage)` or `Err(revert reason)` |
| `hub.dfy` | the hub as a class (`Hub.PaymentHub`). Each method commits exactly what `HubSpec` computes, or reverts and leaves storage unchanged |
| `hub_properties.dfy` | fee arithmetic, the invariant, the payment lifecycle, at-most-once checkout and refund, role and pause gates |
| `hub_scenarios.dfy` | the test suite's scenarios replayed on the model |
| `decode_revert.dfy`, `run_faucet.dfy` | the two scripts |
| `cache_keys.dfy`, `cache_manager.dfy`, `cache_strategies.dfy` | the cache layer |
| `storage.dfy` | the shared upload pieces (`Documents`), the two service copies (`WebStorage`, `SharedStorage`), and their comparison (`StorageCompared`) |

## Model

| member | source | states |
|---|---|---|
| Strings.Take | packages/contracts/scripts/decodeRevert.js:102 | `slice(0, n)` yields a prefix of the input, of length `n` or the whole input when shorter |
| Strings.Drop | packages/contracts/scripts/runFaucet.js:17 | `slice(n)` is exactly what follows `slice(0, n)`: the two concatenate back to the input |
| Strings.LastSegment | packages/shared/src/storage/client.ts:17 | `split(sep).pop()` holds no separator and is a suffix of the input. It is the whole input when there is no separator; otherwise the input is some prefix, a separator, and the segment |
| Strings.NatToString | apps/web/lib/database/storage/client.ts:21 | a timestamp renders as a non-empty string of decimal digits, with no dot and no slash |
| Strings.SplitJoin | packages/contracts/scripts/decodeRevert.js:61 | splitting a join at the separator recovers the lines, when none contains the separator |
| TokenSpec.Move | packages/contracts/test/USDCPaymentHub.test.js:76-80 | a move debits the source and credits the destination by the amount, conserving their total, and touches no other balance and no allowance |
| TokenSpec.Mint | packages/contracts/test/USDCPaymentHub.test.js:61 | `faucet(to, amount)` adds the amount to `to`'s balance only |
| TokenSpec.Approve | packages/contracts/test/USDCPaymentHub.test.js:70 | `approve` sets that one allowance to the amount, leaves every other allowance, and leaves all balances |
| TokenSpec.Transfer | packages/contracts/test/USDCPaymentHub.test.js:76-80 | a transfer succeeds exactly when the balance covers it, and is then the move; otherwise it fails with `InsufficientBalance` |
| TokenSpec.TransferFrom | packages/contracts/test/USDCPaymentHub.test.js:70-73 | `transferFrom` succeeds exactly when allowance and balance both cover the amount. It checks the allowance first. On success the allowance drops by the amount, the tokens move, and other allowances are unchanged |
| Token.MockUsdc.constructor | packages/contracts/test/USDCPaymentHub.test.js:39-41 | a fresh token has no balances and no allowances |
| Token.MockUsdc.BalanceOf | packages/contracts/test/USDCPaymentHub.test.js:77-78 | `balanceOf` reads the token's balance of the account |
| Token.MockUsdc.Faucet | packages/contracts/test/USDCPaymentHub.test.js:61 | the new token storage is the old with the amount minted to `to` |
| Token.MockUsdc.Approve | packages/contracts/test/USDCPaymentHub.test.js:70 | returns true, and the new storage is the old with the allowance set |
| Token.MockUsdc.Transfer | packages/contracts/test/USDCPaymentHub.test.js:76-80 | commits `TokenSpec.Transfer`'s new storage or reports its error with storage unchanged |
| Token.MockUsdc.TransferFrom | packages/contracts/test/USDCPaymentHub.test.js:70-73 | commits `TokenSpec.TransferFrom`'s new storage or reports its error with storage unchanged |
| HubSpec.ComputeFeeAndNet | packages/contracts/test/USDCPaymentHub.test.js:245-250 | the only failure of the fee computation is a checked-arithmetic overflow |
| HubProperties.FeeSplitExact | packages/contracts/test/USDCPaymentHub.test.js:116 | at any rate up to 10000 bps, the split succeeds exactly when `amount * bps` fits in uint256. Then fee plus net equals the amount, the fee is at most the amount, and the fee is `amount * bps / 10000` rounded down |
| HubProperties.FeeNeverOverflowsBelowBound | packages/contracts/test/USDCPaymentHub.test.js:245-250 | amounts up to `UINT256_MAX / 10000` never overflow at an admissible rate |
| HubProperties.FeeAtTwoPercent | packages/contracts/test/USDCPaymentHub.test.js:245-250 | at 200 bps, 100e6 splits into 2e6 and 98e6, and 80e6 into 1.6e6 and 78.4e6. Small amounts round the fee down |
| HubProperties.DeployOutcome | packages/contracts/test/USDCPaymentHub.test.js:239-243 | deployment reverts with `FeeTooHigh` exactly when the rate exceeds 10000. Otherwise the hub is valid and running, with no payments and no merchants, and the deployer is the only admin |
| HubProperties.StepPreservesValid | packages/contracts/test/USDCPaymentHub.test.js:64-81 | every transaction keeps the invariant: the rate is admissible and every record is well formed (fee at the rate, fee plus net equals the amount, refunded implies requested) |
| HubProperties.RunPreservesValid | packages/contracts/test/USDCPaymentHub.test.js:35-62 | any sequence of transactions keeps the invariant |
| HubProperties.RecordEvolvesForward | packages/contracts/test/USDCPaymentHub.test.js:221-237 | a record's stage (Processed, Requested, Refunded) never moves backwards, and a refunded record stays refunded |
| HubProperties.StepEvolves | packages/contracts/test/USDCPaymentHub.test.js:83-95 | one transaction never changes the configuration, never deletes or rewrites a record's parties or amounts, never withdraws a request, never touches a refunded record, and only appends events |
| HubProperties.EvolvesTransitive | packages/contracts/test/USDCPaymentHub.test.js:221-237 | the allowed evolution composes |
| HubProperties.RunEvolves | packages/contracts/test/USDCPaymentHub.test.js:221-237 | any sequence of transactions changes the hub only as one step may |
| HubProperties.CheckoutOutcome | packages/contracts/test/USDCPaymentHub.test.js:159-186 | checkout succeeds exactly when all of these hold: not paused, a positive amount, a registered merchant, an unused id, a fee in range, and an allowance and balance covering the amount. Otherwise the first failing check's error is returned (`EnforcedPause`, `InvalidAmount`, `NotMerchant`, `PaymentAlreadyProcessed`) |
| HubProperties.CheckoutEffects | packages/contracts/test/USDCPaymentHub.test.js:64-81 | a successful checkout among distinct parties debits the consumer the amount, credits the merchant the net and the fee account the fee, and leaves the hub and everyone else untouched. The allowance drops by the amount, the record is created, and `PaymentProcessed` is the one new event |
| HubProperties.CheckoutAtMostOnce | packages/contracts/test/USDCPaymentHub.test.js:83-95 | once an id is recorded, every later checkout with it, after any transactions, reverts, with `PaymentAlreadyProcessed` once the earlier checks pass |
| HubProperties.CheckoutTwice | packages/contracts/test/USDCPaymentHub.test.js:90-94 | repeating a successful checkout reverts with `PaymentAlreadyProcessed` |
| HubProperties.RequestRefundOutcome | packages/contracts/test/USDCPaymentHub.test.js:97-111 | a request succeeds exactly for the recorded consumer before the refund, and any other caller gets `NotPaymentConsumer`. Success sets the flag and the reason and emits `RefundRequested(id, consumer, reason)`; nothing else changes |
| HubProperties.RefundNeedsRequest | packages/contracts/test/USDCPaymentHub.test.js:199-219 | neither refund path succeeds without an open request; with no request, the merchant and an admin get `RefundNotRequested` |
| HubProperties.RefundEffects | packages/contracts/test/USDCPaymentHub.test.js:113-156 | a successful refund by either path moves the amount from the refunding caller to the consumer on the caller's allowance, marks the record refunded, and emits `RefundIssued(id, caller, consumer, amount)`. A merchant refund comes from the recorded merchant and is at most its net; an admin refund comes from an admin |
| HubProperties.RefundAtMostOnce | packages/contracts/test/USDCPaymentHub.test.js:221-237 | after a refund, whatever follows, both refund paths revert, with `AlreadyRefunded` for the merchant and for admins |
| HubProperties.RefundTwice | packages/contracts/test/USDCPaymentHub.test.js:233-236 | repeating a successful merchant refund reverts with `AlreadyRefunded` |
| HubProperties.PauseGatesCheckoutOnly | packages/contracts/test/USDCPaymentHub.test.js:173-186 | while paused every checkout reverts, and pause followed by unpause restores the hub exactly. Refund requests and refunds behave the same paused or not |
| HubProperties.RoleGates | packages/contracts/test/USDCPaymentHub.test.js:53-58 | non-admins cannot register, revoke, grant, pause or unpause. For an admin caller, `registerMerchant` of a non-zero account and `grantRole` of any account add exactly that account to the named role's set and change nothing else, and a revoked merchant cannot be paid |
| Hub.PaymentHub.constructor | packages/contracts/test/USDCPaymentHub.test.js:44-51 | a hub whose deployment succeeds starts in the storage `HubSpec.Deploy` gives, and satisfies the invariant |
| Hub.PaymentHub.Deploy | packages/contracts/test/USDCPaymentHub.test.js:239-243 | deployment reverts with the constructor's error or yields a fresh valid hub on the given token |
| Hub.PaymentHub.HasRole | packages/contracts/test/USDCPaymentHub.test.js:57-58 | the object's `hasRole` answers as `HubSpec.HasRole` does on its storage, the query `RoleGates` is proved about |
| Hub.PaymentHub.IsRefundRequested | packages/contracts/test/USDCPaymentHub.test.js:109 | the object's `isRefundRequested` answers as `HubSpec.IsRefundRequested` does on its storage |
| Hub.PaymentHub.IsRefunded | packages/contracts/test/USDCPaymentHub.test.js:132 | the object's `isRefunded` answers as `HubSpec.IsRefunded` does on its storage |
| Hub.PaymentHub.ComputeFeeAndNet | packages/contracts/test/USDCPaymentHub.test.js:245-250 | `computeFeeAndNet` at the hub's rate is `HubSpec.ComputeFeeAndNet`. At an admissible rate it fails only on overflow, and fee plus net is the amount |
| Hub.PaymentHub.RegisterMerchant | packages/contracts/test/USDCPaymentHub.test.js:54 | commits `HubSpec.RegisterMerchant` or reverts unchanged, keeping the invariant |
| Hub.PaymentHub.RevokeMerchant | packages/contracts/scripts/revokeMerchant.js:6 | commits `HubSpec.RevokeMerchant` or reverts unchanged, keeping the invariant |
| Hub.PaymentHub.GrantRole | packages/contracts/test/USDCPaymentHub.test.js:57-58 | commits `HubSpec.GrantRole` or reverts unchanged, keeping the invariant |
| Hub.PaymentHub.Pause | packages/contracts/test/USDCPaymentHub.test.js:175-177 | commits `HubSpec.Pause` or reverts unchanged, keeping the invariant |
| Hub.PaymentHub.Unpause | packages/contracts/test/USDCPaymentHub.test.js:185 | commits `HubSpec.Unpause` or reverts unchanged, keeping the invariant |
| Hub.PaymentHub.Checkout | packages/contracts/test/USDCPaymentHub.test.js:73-80 | commits `HubSpec.Checkout` (pull from the consumer, pay net and fee, record, emit) or reverts with hub and token unchanged, keeping the invariant |
| Hub.PaymentHub.RequestRefund | packages/contracts/test/USDCPaymentHub.test.js:105-110 | commits `HubSpec.RequestRefund` or reverts unchanged, keeping the invariant |
| Hub.PaymentHub.IssueRefund | packages/contracts/test/USDCPaymentHub.test.js:128-133 | the shared refund tail commits `HubSpec.IssueRefund` or reverts unchanged |
| Hub.PaymentHub.MerchantRefund | packages/contracts/test/USDCPaymentHub.test.js:125-133 | commits `HubSpec.MerchantRefund` or reverts unchanged, keeping the invariant |
| Hub.PaymentHub.AdminRefund | packages/contracts/test/USDCPaymentHub.test.js:146-155 | commits `HubSpec.AdminRefund` or reverts unchanged, keeping the invariant |
| HubScenarios.SetupSucceeds | packages/contracts/test/USDCPaymentHub.test.js:35-62 | the suite's setup succeeds: a valid running hub at 200 bps, with merchant and admin roles, a consumer holding 1000 USDC, and no payments |
| HubScenarios.SetupReaches | packages/contracts/test/USDCPaymentHub.test.js:35-62 | the setup reaches a state of the shape the later scenarios start from |
| HubScenarios.PayMerchantSplits | packages/contracts/test/USDCPaymentHub.test.js:64-81 | from any such state, approve-then-checkout of a fresh id succeeds. The merchant gains the net and the fee account the fee, the consumer pays the amount, and one `PaymentProcessed` event is emitted |
| HubScenarios.CheckoutDistributesFunds | packages/contracts/test/USDCPaymentHub.test.js:64-81 | a 100 USDC checkout leaves the merchant 98 USDC and the fee account 2 USDC |
| HubScenarios.DuplicatePaymentIdReverts | packages/contracts/test/USDCPaymentHub.test.js:83-95 | a second 50 USDC checkout with the same id reverts with `PaymentAlreadyProcessed` |
| HubScenarios.RequestRefundByConsumerOnly | packages/contracts/test/USDCPaymentHub.test.js:188-197 | the consumer's request sets the flag and emits its event; the admin's reverts with `NotPaymentConsumer` |
| HubScenarios.PayAndRequest | packages/contracts/test/USDCPaymentHub.test.js:97-111 | pay then request leaves a requested, unrefunded record with the 2% split and the balances it implies |
| HubScenarios.MerchantRefundOnce | packages/contracts/test/USDCPaymentHub.test.js:113-134 | after a request on an 80 USDC payment, the merchant refunds its net 78.4 USDC, and a second refund reverts with `AlreadyRefunded` |
| HubScenarios.MerchantRefundsNet | packages/contracts/test/USDCPaymentHub.test.js:221-237 | from a requested record, the merchant's approved refund of its net succeeds once and credits the consumer |
| HubScenarios.AdminRefundFromOwnFunds | packages/contracts/test/USDCPaymentHub.test.js:136-156 | the admin, funded by the faucet, refunds the full 90 USDC from its own balance |
| HubScenarios.AdminRefundsInFull | packages/contracts/test/USDCPaymentHub.test.js:146-155 | from a requested record, a faucet-funded admin refunds the full amount and emits `RefundIssued` naming the admin |
| HubScenarios.CheckoutRejections | packages/contracts/test/USDCPaymentHub.test.js:159-186 | amount 0 gives `InvalidAmount`, an unregistered payee gives `NotMerchant`, and a paused hub reverts until unpaused. Deploying at 10001 bps gives `FeeTooHigh` |
| HubScenarios.RefundWithoutRequestReverts | packages/contracts/test/USDCPaymentHub.test.js:199-219 | without a request, the merchant refund and the admin refund both revert with `RefundNotRequested` |
| DecodeRevert.Lookup | packages/contracts/scripts/decodeRevert.js:103 | a lookup finds a value exactly for the table's keys |
| DecodeRevert.PutLookup | packages/contracts/scripts/decodeRevert.js:55 | an assignment makes the key read the value and leaves other keys' values unchanged. The keys stay distinct. A new key is appended at the end; an existing key keeps its place |
| DecodeRevert.DistinctKeysCount | packages/contracts/scripts/decodeRevert.js:35 | an object has one entry per key |
| DecodeRevert.BuildSelectors | packages/contracts/scripts/decodeRevert.js:53-56 | the loop builds exactly the table obtained by assigning each known error under its selector, in order |
| DecodeRevert.LastWithSelector | packages/contracts/scripts/decodeRevert.js:53-56 | the reference reading: a selector reads the last signature hashing to it, and only hashed selectors read anything |
| DecodeRevert.SelectorTableReads | packages/contracts/scripts/decodeRevert.js:53-56 | the built table has distinct keys, its keys are exactly the signatures' selectors, and every lookup agrees with the reference reading |
| DecodeRevert.SelectorTableExact | packages/contracts/scripts/decodeRevert.js:21-56 | without selector collisions the table has one entry per known error, and each selector maps to its own signature |
| DecodeRevert.SelectorSetSize | packages/contracts/scripts/decodeRevert.js:53-56 | without collisions there are as many distinct selectors as signatures |
| DecodeRevert.Lines | packages/contracts/scripts/decodeRevert.js:59-60 | the listing has one `  <selector> -> <signature>` line per entry, in insertion order |
| DecodeRevert.PrettyListLines | packages/contracts/scripts/decodeRevert.js:58-62 | the listing of an empty table is empty; otherwise it splits back at its newlines into exactly those lines |
| DecodeRevert.WithHexPrefix | packages/contracts/scripts/decodeRevert.js:72 | the prefixed input always starts with `0x` |
| DecodeRevert.WithHexPrefixIdempotent | packages/contracts/scripts/decodeRevert.js:72 | prefixing is idempotent, changes exactly the unprefixed inputs, and then only prepends |
| DecodeRevert.Decode | packages/contracts/scripts/decodeRevert.js:64-115 | usage and exit 1 exactly for a missing or empty input. Otherwise the first match wins: Error(string), then Panic(uint256), each handing on `0x` plus everything after the selector. Then a truthy table hit on the first 10 characters, and otherwise an unknown selector with the full hex and the listing. Each is an if-and-only-if |
| DecodeRevert.KnownErrorsAreTheCustomErrors | packages/contracts/scripts/decodeRevert.js:21-33 | the listed signatures are exactly the hub's own custom errors, each naming its error back |
| DecodeRevert.SelectorLeads | packages/contracts/scripts/decodeRevert.js:101-102 | data led by a non-standard selector keeps its prefix and is classified by that selector |
| DecodeRevert.DecodeHubError | packages/contracts/scripts/decodeRevert.js:101-107 | with a collision-free digest, revert data led by any hub custom error's selector decodes as that error |
| RunFaucet.ParseArgs | packages/contracts/scripts/runFaucet.js:12-24 | the loop from index 2, with its skip past each flag's value, computes the reference scan |
| RunFaucet.ValueTokensSkipped | packages/contracts/scripts/runFaucet.js:19-20 | the token after a flag is consumed as its value and never read as a key; a non-flag token is stepped over |
| RunFaucet.ScanResult | packages/contracts/scripts/runFaucet.js:14-21 | a key is present exactly when some flag read by the scan names it (never `__proto__`). It holds the value after the last such flag (`undefined` after a trailing flag), and other keys are unchanged |
| RunFaucet.ParsedArgs | packages/contracts/scripts/runFaucet.js:12-24 | the same over the whole command line, from index 2 on, with no `__proto__` property |
| RunFaucet.Or | packages/contracts/scripts/runFaucet.js:28 | the or-operator on two settings is truthy exactly when either is, and then yields the first truthy one |
| RunFaucet.FaucetConfig | packages/contracts/scripts/runFaucet.js:27-37 | the settings are derived exactly when rpc, contract, recipient and key are all set. A missing one stops the script in the order rpc, contract, to, pk. The amount defaults to 1000000. rpc is `--rpc`, else `NEXT_PUBLIC_ALCHEMY_AMOY_URL`, else `ALCHEMY_AMOY_URL`. The key is `--pk`, else `PRIVATE_KEY`, else `ADMIN_PRIVATE_KEY` |
| RunFaucet.DefaultAmountFromEnvironment | packages/contracts/scripts/runFaucet.js:28-32 | a command line with contract and recipient, taking rpc and key from the environment, gets the default amount |
| RunFaucet.TrailingFlagIsMissing | packages/contracts/scripts/runFaucet.js:18 | a trailing `--to` reads `undefined`, so the script stops at the recipient check |
| CacheKeys.Durations | apps/web/lib/cache/keys.ts:25-33 | the expiry times are the documented hour, half hour, hour, five minutes, two hours, minute and day |
| CacheKeys.UserNamespace | apps/web/lib/cache/keys.ts:3-5 | the user keys all sit in namespace `user` |
| CacheKeys.MerchantNamespace | apps/web/lib/cache/keys.ts:8-10 | the merchant keys all sit in namespace `merchant` |
| CacheKeys.TransactionNamespace | apps/web/lib/cache/keys.ts:13-14 | the transaction keys sit in namespace `transaction` |
| CacheKeys.AnalyticsNamespace | apps/web/lib/cache/keys.ts:17-18 | daily stats sit in `stats`, and merchant analytics in `analytics` |
| CacheKeys.OtherNamespaces | apps/web/lib/cache/keys.ts:21-22 | sessions sit in `session`, rate limits in `ratelimit`, and tag lists in `tag` |
| CacheKeys.FamiliesDisjoint | apps/web/lib/cache/keys.ts:1-23 | keys of different families never coincide, whatever the ids |
| CacheKeys.BuildersInjective | apps/web/lib/cache/keys.ts:3-22 | every one-argument builder is injective |
| CacheKeys.DerivedKeysExtend | apps/web/lib/cache/keys.ts:3-14 | each derived key is its entity's key plus a fixed suffix |
| CacheKeys.KeysCollideAcrossIds | apps/web/lib/cache/keys.ts:3-18 | within a family, an id containing a colon collides with another entity's derived key, and the analytics key is ambiguous |
| CacheManager.Get | apps/web/lib/cache/manager.ts:6-17 | `get` reads the stored document, or `null` when absent or when the store fails |
| CacheManager.Set | apps/web/lib/cache/manager.ts:19-31 | `set` writes with the expiry, by default one hour, and reports true, or reports false and writes nothing |
| CacheManager.Delete | apps/web/lib/cache/manager.ts:37-38 | `del(key)` removes the key and reports true, or reports false and removes nothing |
| CacheManager.Del | apps/web/lib/cache/manager.ts:33-45 | `del(keys)` reports true exactly when every delete succeeded, and every delete that succeeded took effect |
| CacheManager.CacheUser | apps/web/lib/cache/manager.ts:48-54 | the user document is written under `user:<id>` for 1800 seconds |
| CacheManager.GetCachedUser | apps/web/lib/cache/manager.ts:56-58 | reads `user:<id>` |
| CacheManager.CacheMerchantData | apps/web/lib/cache/manager.ts:60-66 | the merchant document is written under `merchant:<id>` for 3600 seconds |
| CacheManager.InvalidateUserCache | apps/web/lib/cache/manager.ts:68-75 | the user's three keys are deleted; true exactly when all three deletes succeed |
| CacheManager.ReadAfterWrite | apps/web/lib/cache/manager.ts:19-31 | a write reads back and leaves every other key as it was |
| CacheManager.ReadAbsent | apps/web/lib/cache/manager.ts:8-12 | an absent key reads `null` |
| CacheManager.DelAllRemovesExactly | apps/web/lib/cache/manager.ts:33-40 | when every delete succeeds, exactly the listed keys are removed, and every other key keeps its entry |
| CacheManager.CachedUserReadsBack | apps/web/lib/cache/manager.ts:48-58 | the cached user document reads back, and other users' documents are untouched |
| CacheManager.InvalidateUserRemovesExactly | apps/web/lib/cache/manager.ts:68-75 | invalidation removes exactly the user's three keys; every other key and every merchant document is untouched |
| CacheStrategies.CacheAside | apps/web/lib/cache/strategies.ts:6-20 | a hit returns the cached value with no fetch and no write. A miss fetches once and stores the result, and a rejected fetch writes nothing. Afterwards the key holds the returned value, so a repeat is a hit |
| CacheStrategies.GetOrSet | apps/web/lib/cache/strategies.ts:6-20 | returns, fetches and writes exactly as the cache-aside outcome says |
| CacheStrategies.WriteThrough | apps/web/lib/cache/strategies.ts:23-31 | the cache is written only after a successful persist, and then holds the persisted value. A failed persist propagates and leaves the cache unchanged, and other keys are untouched |
| CacheStrategies.SetAndCache | apps/web/lib/cache/strategies.ts:23-31 | returns and writes exactly as the write-through outcome says |
| CacheStrategies.TagLoopWritesWith | apps/web/lib/cache/strategies.ts:43-48 | the tag loop keeps every key, and every entry it changes carries the loop's ttl |
| CacheStrategies.DefaultExpiry | apps/web/lib/cache/strategies.ts:9 | a strategy called without a ttl writes with the declared default of 3600 seconds: the fetched value on a `getOrSet` miss, the persisted value of `setAndCache`, and, for `setWithTags` with any tags, the value and every entry the tag loop changes |
| CacheStrategies.TagLoopStops | apps/web/lib/cache/strategies.ts:43-48 | a thrown error ends the tag loop; writes already made stay |
| CacheStrategies.SetWithTags | apps/web/lib/cache/strategies.ts:34-49 | the value is written, then the tag loop runs; the store and the error are those of the tag outcome |
| CacheStrategies.TagLoopAppends | apps/web/lib/cache/strategies.ts:43-48 | over distinct extendable tags, each list becomes its previous list plus the key, and no other key changes |
| CacheStrategies.TagListsAppendKey | apps/web/lib/cache/strategies.ts:34-49 | tagging succeeds, the key holds the value, each `tag:<tag>` becomes its previous list (or the empty list) with the key appended, and all else is untouched |
| CacheStrategies.TagListNotArray | apps/web/lib/cache/strategies.ts:45-46 | a truthy non-array tag list makes `push` throw a TypeError, after the value was written |
| CacheStrategies.StringItems | apps/web/lib/cache/strategies.ts:56 | the keys an array spreads are exactly its string elements |
| CacheStrategies.InvalidateByTag | apps/web/lib/cache/strategies.ts:51-58 | the store afterwards and the error reported are the invalidation outcome, including the spread's TypeError for an object with a positive `length` |
| CacheStrategies.InvalidateDeletesListed | apps/web/lib/cache/strategies.ts:51-57 | a value that is absent, empty or has no positive `length` is a no-op. A non-empty array deletes `tag:<tag>` and every string it lists, and a non-empty string deletes `tag:<tag>` and each of its characters as a key. An object with a positive `length` fails with the spread's TypeError and deletes nothing. Keys not spread are untouched |
| CacheStrategies.TagThenInvalidate | apps/web/lib/cache/strategies.ts:34-58 | after a successful `setWithTags`, invalidating any of its tags removes the key and that tag's list, and leaves unrelated keys as they were |
| Documents.Label | apps/web/lib/database/storage/client.ts:15 | the document type names are non-empty and contain no dot, slash or dash |
| Documents.Stem | apps/web/lib/database/storage/client.ts:21 | `type-timestamp` starts with `type-` and contains no dot or slash |
| Documents.Finish | apps/web/lib/database/storage/client.ts:31-36 | an upload error is the call's error. On success, `path` is the storage's reported path and `fullPath` the path built |
| Documents.PathReadsBack | apps/web/lib/database/storage/client.ts:22 | the path starts with the user's folder and, for a slash-free file name, ends with exactly that file name |
| WebStorage.FileExt | apps/web/lib/database/storage/client.ts:20 | the extension is the text after the last dot, or empty when there is no dot |
| WebStorage.FileName | apps/web/lib/database/storage/client.ts:21 | the name starts with the stem and equals it exactly when the extension is empty |
| WebStorage.UploadOutcome | apps/web/lib/database/storage/client.ts:17-36 | a missing file or an empty name fails with "Invalid or missing file" whatever the storage would say. Otherwise one request is sent (documents bucket, `userId/fileName`, no upsert), its error propagates, and `fullPath` is the path built |
| WebStorage.ExtensionKept | apps/web/lib/database/storage/client.ts:20-21 | the stored name's extension is the original file's extension |
| SharedStorage.FileExt | packages/shared/src/storage/client.ts:17 | the extension is the last dot-separated segment, the whole name when there is no dot |
| SharedStorage.FileName | packages/shared/src/storage/client.ts:18 | the name is always the stem, a dot and the extension |
| SharedStorage.UploadOutcome | packages/shared/src/storage/client.ts:17-34 | any present file, even one with an empty name, is uploaded under `userId/fileName`; the storage's error propagates, and `fullPath` is the path built |
| SharedStorage.ExtensionKept | packages/shared/src/storage/client.ts:17-18 | the stored name's extension is the original's, which is the whole name for a dotless name |
| StorageCompared.FileNamesCompared | packages/shared/src/storage/client.ts:17-18 | the copies agree on names whose last dot is followed by text. For a dotless name the shared copy appends `.name`, and for a trailing dot the shared copy keeps the dot the web copy (apps/web/lib/database/storage/client.ts:20-21) drops |
| StorageCompared.DotlessName | packages/shared/src/storage/client.ts:17-18 | `scan` is stored as `license-7` by the web copy and `license-7.scan` by the shared one |
| StorageCompared.TrailingDotName | packages/shared/src/storage/client.ts:17-18 | `scan.` is stored as `tax-7` by the web copy and `tax-7.` by the shared one |
| StorageCompared.OrdinaryName | packages/shared/src/storage/client.ts:17-18 | `id.png` is stored as `identity-7.png` by both |

## Left out

- The hub's Solidity source is not part of this model. Its behaviour is taken from the test suite; where the suite is silent, the model's own assumptions are listed above.
- TokenSpec.Mint: balances are unbounded. A checked `uint256` mint in Solidity 0.8 reverts when a balance or the total supply would pass `UINT256_MAX`; `Mint` always succeeds and no total supply is tracked. The same holds for Token.MockUsdc.Faucet, which commits `Mint`.
- TokenSpec.TransferFrom: the mock token's source is not available, so OpenZeppelin-style details are not modelled. An allowance of `UINT256_MAX` is decremented like any other rather than treated as infinite. Transfers to or from the zero address do not revert.
- The hub's `revokeRole`, `renounceRole` and the access-control events are not modelled. Role ids are the two constructors of `Role`, not keccak hashes.
- HubSpec.GrantRole: the access control's `DEFAULT_ADMIN_ROLE`, which administers the roles, is merged into `AdminRole` as an assumption. Any admin may grant either role, and a role's own admin role is not modelled.
- Payment ids, role ids and error selectors are keccak-256 hashes in the sources. Payment ids are opaque numbers here. The signature digest of `decodeRevert.js` is a parameter (`hash`), and `UsableDigest` states the property the real digest is relied on for (no selector collisions).
- The ABI decoding of the reason string and the panic code (`decodeRevert.js` lines 76-98) is a foreign library call. The outcome carries the hex data that would be decoded, and the decode-failure branch is not modelled. The console output is represented by the outcome, not as text.
- The transaction-sending part of `runFaucet.js` (lines 39-75) is network I/O, and is not modelled. The process environment is a parameter, and `process.exit` is the `ConfigError` outcome.
- The cache store is a map from keys to documents with their expiry. The following are not modelled:
  - TTL expiry;
  - JSON serialisation: a write is assumed to read back as the same document;
  - non-integer numbers: `Json` numbers are integers;
  - the Upstash client's own deserialisation;
  - the network.
- Whether each store call in the cache manager succeeds is a parameter. The strategies assume every store call succeeds.
- Concurrency is not modelled: the read-modify-write of `setWithTags` is treated as atomic.
- CacheStrategies.SpreadKeys: non-string elements of a tag array (numbers, objects) are spread into `del` by the source. The model deletes nothing for them, because their conversion to a key happens in the Redis client, which is not part of this model.
- CacheStrategies.AboveZero: a stored tag object's `length` member that is a string or an array is taken as not above 0. JavaScript would compare it through the number its text spells.
- CacheStrategies.GetOrSet: a fetch resolving to `undefined` (not a JSON value) is not modelled. Fetched values are JSON documents.
- The storage services' `getPublicUrl` and `getSignedUrl` are not modelled; they are calls into the storage client. The upload call is a parameter `respond` that answers a request.
- `Date.now()` is the parameter `now` (milliseconds).
- SharedStorage.Plan: the shared copy's `file: File` parameter is typed non-optional. A missing file is modelled as the TypeError that reading its name throws.
- Floating-point money conversions and the React UI are presentation and are not modelled.
