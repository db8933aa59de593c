# Memory Ascension: a verified model of the game core

Memory Ascension is an incremental game. The player generates bits and
converts each tier of memory into the next one: bit, nibble, byte,
kilobyte, megabyte, gigabyte, terabyte, petabyte. Upgrades automate the
conversions and add passive effects. A recompile (prestige) trades the
run's progress for cycles. Cycles buy programs and permanent computing
stats.

This project models the simulation core as Dafny and proves properties of
the model. Everything changes one shared store, `gameState`. The store is
the class `GameState.Game`, and `Game.Snapshot()` packs its fields into a
`State` value. Each operation that changes the store has two parts:

- a function on `State` that specifies the operation;
- a method that performs it step by step on the live `Game`, with an
  `ensures` tying the new store to that function of the old one.

The lemmas are stated about the functions.

| module | models |
|---|---|
| `Utils` | tiers, weights, exchange rates and `capitalize` |
| `GameState` | the store and its defaults |
| `Engine` | conversion with diminishing returns, clicks, and the per-tick generation, auto-conversion, auto-trade, multiplier and hook passes |
| `UpgradeEffects`, `UpgradeTemplates` | upgrade effect closures as an `Effect` datatype, their dispatcher, and the passive-hook registry that deduplicates by key |
| `UpgradeDefinitions`, `TierSchemas`, `TierData` | the upgrade catalog, the tier table and their join |
| `PurchaseManager` | buying an upgrade, with the deferred effect kept in an explicit queue |
| `ProgramDefinitions`, `ProgramSchemas`, `ProgramData`, `ProgramTemplates`, `ProgramExecutor` | the program catalog and the executor's map of running programs: start, countdown, completion and cancellation |
| `CalculatePrestige`, `Recompile` | the prestige award and the soft reset |
| `Parts`, `RigManager` | the rig parts, the install and uninstall list updates, and the part bonus totals |
| `SaveManager` | the save snapshot, the load merge and replay, and the reset |
| `Terminal` | the terminal's command dispatcher in `main.js`, including `list programs` and `compute prestige` |
| `UiRenderer` | the tier-reveal rule and its pending-update flag, the upgrade-listing filter and the auto-convert toggles |
| `Wrappers`, `OrderedMaps`, `RealMath`, `Text` | `Option`/`Result`, insertion-ordered maps, JavaScript number idioms, and the string built-ins the game uses |

Modelling conventions:

- Balances and stats are `real`. JavaScript's `x || d` on a number is
  `RealMath.Or`, which treats zero as falsy. NaN is not modelled.
- `Math.log10`, `Math.log2` and `**` are fields of a `RealMath.Math`
  record passed in as a parameter. Only the facts the code relies on are
  assumed of them, as the precondition `Lawful(m)`: `pow(x, 1) == x`,
  `log(1) == 0`, logarithms non-negative from 1 up, and powers of
  non-negative numbers non-negative. Powers of 1.5 are exact rationals.
- A JavaScript object iterated with `for…in` or a `Map` becomes an
  `OrderedMaps.OMap`, which keeps insertion order.
- An effect that throws inside a `try` becomes a function returning `None`.
  A swallowed fault leaves the store as it was before the effect.
- `compute prestige` calls `applyPartBonuses` only if
  `window.applyPartBonuses` is set (main.js:266), and nothing sets it. So
  the rig totals are not refreshed (`Terminal.ComputePrestigeSpends`).
- The live methods follow the code as written, including the three
  defects under "## Findings"; the evidently intended behaviour of each is
  a separate function with its own lemmas.

## Model

| member | source | states |
|---|---|---|
| Utils.AllTiers | scripts/core/utils.js:24-33 | the eight tiers, bit to petabyte, each at the position of its index |
| Utils.AllTiersComplete | scripts/core/utils.js:24-33 | every tier is listed at its own index |
| Utils.ParseTier | scripts/core/utils.js:43-45 | a key names a tier exactly when it is one of the eight resource keys, and then that tier's key is the input |
| Utils.ParseTierName | scripts/core/utils.js:24-33 | every tier's key parses back to that tier |
| Utils.NoUnderscore | scripts/core/utils.js:24-33 | no resource key contains `_`, so `"<from>_to_<to>"` keys split cleanly |
| Utils.Weight | scripts/core/utils.js:24-33 | every weight is at least 1 |
| Utils.WeightsIncrease | scripts/core/utils.js:24-33 | weights strictly increase from bit to petabyte |
| Utils.TierRate | scripts/core/utils.js:49 | the rate `weight(to) / weight(from)` is positive |
| Utils.RateTimesWeight | scripts/core/utils.js:49 | one unit of the target is worth exactly `rate` units of the source |
| Utils.ConversionRate | scripts/core/utils.js:42-50 | a rate exists exactly when both keys are resource keys, and is then the weight ratio; otherwise `null` |
| Utils.RateReciprocal | scripts/core/utils.js:42-50 | `rate(a, b) * rate(b, a) == 1` |
| Utils.RateOf | scripts/core/utils.js:42-50 | two tier keys have the rate of their tiers |
| Utils.RateToSelf | scripts/core/utils.js:42-50 | `rate(a, a) == 1` |
| Utils.AdjacentRates | scripts/core/utils.js:24-50 | adjacent steps cost 4, 2, then 1024 units for every higher step |
| Utils.ToUpper | scripts/core/utils.js:13-16 | `charAt(0).toUpperCase()` on a lower-case ASCII letter gives its capital; every other character is kept |
| Utils.Capitalize | scripts/core/utils.js:13-16 | empty input gives ""; otherwise same length, first character upper-cased, the rest unchanged |
| GameState.Initial | scripts/core/gameState.js:20-90 | every default of the store: zero balances, bonuses 1 and counts 0 for the seven non-bit tiers, empty automation maps and hooks, only bit revealed, the meta defaults |
| GameState.UpperTiers | scripts/core/gameState.js:36-44 | a map with exactly the seven non-bit tiers, all at one value |
| GameState.Game.constructor | scripts/core/gameState.js:20-99 | the live store starts as the defaults, and the module-level check leaves the terminal tab locked |
| Engine.Convert | scripts/core/engine.js:116-139 | `convertResources`: with the source balance short of `rate * amount` the store is unchanged; otherwise the debit, the diminished gain and the count (stated by `Engine.ConvertCommits`) |
| Engine.ConvertUnknownKey | scripts/core/engine.js:116-124 | an unknown source or target key leaves the store unchanged |
| Engine.ConvertCommits | scripts/core/engine.js:125-139 | short of `rate * amount` nothing changes; otherwise the source drops by exactly that, the target gains the diminished gain, `conversionCounts[to]` rises by 1 and nothing else changes |
| Engine.ConvertKnownKeys | scripts/core/engine.js:116-124 | two resource keys convert between the tiers they name |
| Engine.SingleUnitGain | scripts/core/engine.js:134-136 | converting one unit gains exactly `bonus * multiplier` |
| Engine.ExponentBounds | scripts/core/engine.js:135-136 | the exponent `1 - d` lies in [1/2, 1] |
| Engine.ConvertResources | scripts/core/engine.js:116-140 | the in-place conversion leaves the store as the conversion function says |
| Engine.ManuallyConverted | scripts/core/engine.js:148-163 | `manualConvert(from, to)`: the invalid-rate alert, the shortfall alert, or one unit converted at the rate with the target's bonus |
| Engine.ManualConvertOneUnit | scripts/core/engine.js:148-163 | succeeds exactly when the source holds at least one rate, then converts one unit at that rate with the target's bonus |
| Engine.ManualConvertUnknown | scripts/core/engine.js:149-153 | a pair that is not two resource keys is refused as an invalid rate, by both manual conversions, with no change |
| Engine.ManualConvert | scripts/core/engine.js:148-163 | the live manual conversion returns the alert or commits the modelled result, and requests a tier update exactly when it converts |
| Engine.ManuallyConvertedMax | scripts/core/engine.js:171-188 | `manualConvertMax(from, to)`: the invalid-rate alert, the alert when floor(balance / rate) is not positive, or that many units converted |
| Engine.ManualConvertMaxAll | scripts/core/engine.js:171-188 | refused exactly when `floor(balance / rate) <= 0`; otherwise converts exactly that many units |
| Engine.ConvertAllAffordable | scripts/core/engine.js:179-185 | converting every affordable unit leaves the source in [0, rate) |
| Engine.ManualConvertMax | scripts/core/engine.js:171-188 | the live max conversion returns the alert or commits the modelled result, and requests a tier update exactly when it converts |
| Engine.Clicked | scripts/core/engine.js:194-204 | `generateBit()`: one click pays `manualGain * multiplier`, and with the click bonus every fifth click also pays `5 * multiplier` (stated by the two click lemmas) |
| Engine.ClickBonusEveryFifth | scripts/core/engine.js:194-204 | with the click bonus, the fifth click in a row also pays `5 * multiplier` and restarts the counter |
| Engine.ClickWithoutBonus | scripts/core/engine.js:194-204 | without the bonus a click counts once and pays `manualGain * multiplier`, changing no other tier |
| Engine.GenerateBit | scripts/core/engine.js:194-205 | the live click leaves the store as one modelled click and requests a tier update |
| Engine.AutoGenerated | scripts/core/engine.js:58-65 | `processAutoGeneration()`: `bitGenAmount` times the multiplier (plus the nibble boost) times `1 + speed / 10` added to bits |
| Engine.AutoGenerationAddsBits | scripts/core/engine.js:58-65 | with non-negative factors generation only adds bits and changes nothing else |
| Engine.ProcessAutoGeneration | scripts/core/engine.js:58-65 | the live generation pass matches the modelled one |
| Engine.AutoConvertOne | scripts/core/engine.js:71-88 | one key of the auto-convert loop: a `_max` key or a disabled toggle does nothing; otherwise one unit, or every affordable unit in max mode |
| Engine.AutoConverted | scripts/core/engine.js:70-89 | `processAutoConversions()`: the per-key rule over the toggle keys in insertion order |
| Engine.AutoConvertKeepsSystems | scripts/core/engine.js:70-89 | auto-conversion never changes the toggles, unlocks, upgrades or meta |
| Engine.ConvertKeyParts | scripts/core/engine.js:76 | an automation key splits back into its two tiers and does not end in `_max` |
| Engine.AutoConvertOneRule | scripts/core/engine.js:71-88 | an enabled pair converts one unit, or every affordable unit when both its `_max` toggle and its max unlock are set |
| Engine.AutoConvertSkipsMaxKeys | scripts/core/engine.js:72-75 | a `_max` key or a disabled toggle converts nothing |
| Engine.AutoConvertHundredBits | scripts/core/engine.js:71-88 | 100 bits with bit-to-nibble on and no max mode leave 96 bits |
| Engine.ProcessAutoConversions | scripts/core/engine.js:70-89 | the live loop over the toggles matches the modelled pass in key order |
| Engine.AutoConvertStep | scripts/core/engine.js:72-87 | one loop iteration matches the per-key rule |
| Engine.AutoTradeOne | scripts/core/engine.js:95-104 | one key of the auto-trade loop: `floor(res / batch)` batches move, with the batch `\|\| 1` |
| Engine.TradeBatch | scripts/core/engine.js:98 | the batch size is never zero (`|| 1`) |
| Engine.AutoTraded | scripts/core/engine.js:95-104 | `processAutoTrades()`: the per-key trade over the batch keys in insertion order |
| Engine.Trade | scripts/core/engine.js:97-102 | one trade key: floor(balance / batch) batches leave the source, and the target gains one unit per batch |
| Engine.AutoTradeKeepsRest | scripts/core/engine.js:95-104 | auto-trading only changes balances |
| Engine.TradeKnownKey | scripts/core/engine.js:97 | a pair key names its two tiers to the trader |
| Engine.TradeRemainder | scripts/core/engine.js:99-102 | the source ends at `res - floor(res/b)*b`, in [0, b), and the target gains `floor(res/b)` |
| Engine.BatchesMoved | scripts/core/engine.js:101-102 | `n` batches lower the source by `n*b` and raise the target by `n` |
| Engine.ProcessAutoTrades | scripts/core/engine.js:95-104 | the live loop over the batches matches the modelled pass in key order |
| Engine.AutoTradeStep | scripts/core/engine.js:97-102 | one loop iteration matches the per-key rule |
| Engine.TradeStep | scripts/core/engine.js:101-102 | the in-place debit and credit match the modelled trade |
| Engine.FireAt | scripts/core/engine.js:27 | firing one hook keeps the number of hooks |
| Engine.Recalculated | scripts/core/engine.js:22-28 | `recalculateGlobalMultiplier()`: the multiplier rebuilt from prestige, byte cache and memory, then every hook fired in order |
| Engine.MultiplierFromScratch | scripts/core/engine.js:22-28 | the old multiplier never matters; with no hooks it is `1 + prestige*0.1 + 0.2 (byteCache) + memory*0.05` |
| Engine.AdditiveHooksKeepMultiplier | scripts/core/engine.js:27 | hooks that only add resources or prestige leave the rebuilt multiplier alone |
| Engine.AdditiveKeepsMultiplier | scripts/core/engine.js:27 | one such hook leaves the multiplier alone |
| Engine.AdditiveAdvance | scripts/core/engine.js:27 | such a hook stays such a hook after it runs |
| Engine.RecalculateGlobalMultiplier | scripts/core/engine.js:22-28 | the live recalculation and hook loop match the modelled one |
| Engine.FireHookAt | scripts/core/engine.js:27 | running one hook in place matches the modelled firing |
| Engine.CycleThresholdAtLeast | scripts/core/engine.js:50-52 | every threshold step after the first adds at least 1500 |
| Engine.Ticked | scripts/core/engine.js:34-42 | `gameTick()`: multiplier, generation, auto-conversion, auto-trade, program countdown, then the reveal pass over the resulting store when a tier update is pending |
| Engine.CountedDown | scripts/core/engine.js:35-39 | the world after the four passes and the program countdown |
| Engine.TickForgetsMultiplier | scripts/core/engine.js:34-42 | the multiplier left from the previous tick never affects the next |
| Engine.TickEndsWithTradedBalances | scripts/core/engine.js:34-42 | neither the program countdown nor the reveal pass moves a balance |
| Engine.ProcessedKeepsRevealed | scripts/core/engine.js:35-38 | the four passes never write `revealedTiers` |
| Engine.TickRevealIff | scripts/core/engine.js:34-42 | a tick reveals a tier exactly when it was revealed before, or an update was pending and the balances after the countdown pass the reveal test; with no update pending the revealed set is unchanged |
| Engine.FirstTickRevealsNibble | scripts/core/engine.js:34-42 | a new game holding 100 bits ends its first tick with exactly bit and nibble revealed |
| Engine.GameTick | scripts/core/engine.js:34-42 | the live tick runs the passes in the fixed order, then `updateTiersIfDirty()`: the store is the tick function of the old store and the pending flag, and no update is pending afterwards |
| UpgradeTemplates.Apply | scripts/data/upgrades/upgradeTemplates.js:28-198 | each upgrade effect template applied to the store |
| UpgradeTemplates.KeyedHookRegisteredOnce | scripts/data/upgrades/upgradeTemplates.js:15-22 | a keyed effect invoked n >= 1 times adds its hook and its key exactly once |
| UpgradeTemplates.KeyedHookNoop | scripts/data/upgrades/upgradeTemplates.js:18-21 | once its key is recorded, a keyed effect leaves the hook list and keys alone |
| UpgradeTemplates.Copies | scripts/data/upgrades/upgradeTemplates.js:114-121 | `n` copies of one hook, each equal to it |
| UpgradeTemplates.UnkeyedHookPushedEachTime | scripts/data/upgrades/upgradeTemplates.js:114-121 | an unkeyed `passiveEffect` or an `effectWithDuration` adds one hook per invocation, with no dedup |
| UpgradeTemplates.BonusYieldOverwrites | scripts/data/upgrades/upgradeTemplates.js:49-53 | `bonusYield` overwrites an existing bonus (the later purchase wins) and is a no-op for a target with no entry |
| UpgradeTemplates.FlagSettersIdempotent | scripts/data/upgrades/upgradeTemplates.js:37-40 | `autoConvert` sets `"<from>_to_<to>"` true whatever its amount; it and both unlock templates are idempotent |
| UpgradeTemplates.ToggleFeatureMonotone | scripts/data/upgrades/upgradeTemplates.js:73-77 | `toggleFeature` sets its flag, changes no other flag and never touches a flag already set |
| UpgradeTemplates.FireHook | scripts/data/upgrades/upgradeTemplates.js:133-198 | running a hook never changes the hook registry, the owned set or the queue, and only a timed wrapper counts down |
| UpgradeTemplates.ConversionBonusRepeats | scripts/data/upgrades/upgradeTemplates.js:136-144 | at a positive multiple below 1000 the reward is paid on every firing, not only when the count crosses a multiple |
| UpgradeTemplates.ConversionBonusPays | scripts/data/upgrades/upgradeTemplates.js:137-140 | one firing at a positive multiple below 1000 pays the reward and changes nothing else |
| UpgradeTemplates.ConversionBonusWraps | scripts/data/upgrades/upgradeTemplates.js:137-143 | at 1000 or more the count wraps to `count % 1000` |
| UpgradeTemplates.ScalingBoostZeroWhenEmpty | scripts/data/upgrades/upgradeTemplates.js:170-179 | a `scalingBoost` hook adds nothing while none of its resource is held |
| UpgradeTemplates.ScalingBoostNonNegative | scripts/data/upgrades/upgradeTemplates.js:173-177 | with a non-negative rate it never lowers the multiplier |
| UpgradeTemplates.TimedHookRunsAtMostTicks | scripts/data/upgrades/upgradeTemplates.js:188-198 | the wrapper runs its function on exactly the first `ticks` firings, at most `ticks` times |
| UpgradeTemplates.TimedExhausted | scripts/data/upgrades/upgradeTemplates.js:190-194 | a wrapper with no ticks left never runs its function |
| UpgradeTemplates.Invoke | scripts/data/upgrades/upgradeTemplates.js:28-199 | invoking an effect closure on the live store matches the modelled effect |
| UpgradeTemplates.InvokeHookTemplate | scripts/data/upgrades/upgradeTemplates.js:114-198 | the hook-registering templates on the live store |
| UpgradeTemplates.InvokeGenerationEffect | scripts/data/upgrades/upgradeDefinitions.js:11-115 | the catalog's inline closures over the generation amounts, on the live store |
| UpgradeTemplates.InvokeFlagTemplate | scripts/data/upgrades/upgradeTemplates.js:37-97 | the flag, toggle, bonus and multiplier templates on the live store |
| UpgradeDefinitions.Definitions | scripts/data/upgrades/upgradeDefinitions.js:117-129 | `upgradeDefinitions`: `Object.fromEntries` over all eight tier lists |
| UpgradeDefinitions.TierLists | scripts/data/upgrades/upgradeDefinitions.js:117-126 | the eight tier lists, in tier order |
| UpgradeDefinitions.Keys | scripts/data/upgrades/upgradeDefinitions.js:128-130 | the keys of a list of upgrades, position by position |
| UpgradeDefinitions.FromEntries | scripts/data/upgrades/upgradeDefinitions.js:128-130 | the object holds exactly the listed keys, each definition under its own key |
| UpgradeDefinitions.FromEntriesDistinct | scripts/data/upgrades/upgradeDefinitions.js:128-130 | with no key repeated, each listed upgrade is stored under its key |
| UpgradeDefinitions.ApartFromFlatten | scripts/data/upgrades/upgradeDefinitions.js:117-126 | a list apart from each tier list is apart from their concatenation |
| UpgradeDefinitions.FlattenDistinct | scripts/data/upgrades/upgradeDefinitions.js:117-126 | unique, pairwise-apart tier lists spread into a list with unique keys |
| UpgradeDefinitions.InFlatten | scripts/data/upgrades/upgradeDefinitions.js:117-126 | every entry of every tier list is in `allUpgrades` |
| UpgradeDefinitions.TierWellFormed | scripts/data/upgrades/upgradeDefinitions.js:11-115 | every tier list has unique keys, strictly rising costs and, above bit, opens with its auto-convert and its two unlocks |
| UpgradeDefinitions.TiersApart | scripts/data/upgrades/upgradeDefinitions.js:11-115 | two different tiers list no key in common |
| UpgradeDefinitions.KeysUnique | scripts/data/upgrades/upgradeDefinitions.js:117-130 | keys are unique across all tiers, so no definition shadows another |
| UpgradeDefinitions.ListedIsDefined | scripts/data/upgrades/upgradeDefinitions.js:128-130 | every entry is stored under its own key, and the stored definition is that entry |
| UpgradeDefinitions.CostsIncrease | scripts/data/upgrades/upgradeDefinitions.js:11-115 | within each tier list, costs strictly increase |
| UpgradeDefinitions.AdjacentIncreaseChains | scripts/data/upgrades/upgradeDefinitions.js:11-115 | costs rising between neighbours rise between any two positions |
| UpgradeDefinitions.DefinedAs | scripts/data/upgrades/upgradeDefinitions.js:128-130 | the definition under a listed key is that list entry |
| UpgradeDefinitions.AutoConvertsAdjacent | scripts/data/upgrades/upgradeDefinitions.js:25-111 | each `autoConvert` names adjacent tiers with the exchange rate as amount, and the tier's two unlocks name the same pair |
| UpgradeDefinitions.MegabyteBonusOverwritten | scripts/data/upgrades/upgradeDefinitions.js:70-73 | buying `megaEfficiency` then `compileDaemon` leaves the megabyte bonus at 1.25 |
| UpgradeDefinitions.TerabyteBonusOverwritten | scripts/data/upgrades/upgradeDefinitions.js:99-100 | buying `terafluxBooster` then `coreReactor` leaves the terabyte bonus at 1.35 |
| UpgradeDefinitions.CompressorHooksPayPrestige | scripts/data/upgrades/upgradeDefinitions.js:87-113 | the `gigaframeCompressor` and `hyperscalarEngine` hooks add 0.5 and 1 cycle each time they run |
| UpgradeDefinitions.AutoClickerAddsBitGen | scripts/data/upgrades/upgradeDefinitions.js:13 | `bitAutoClicker` adds exactly 0.05 to `bitGenAmount` |
| TierSchemas.Schemas | scripts/data/tiers/tierSchemas.js:1-101 | the eight tier schemas: key, name, threshold and listed upgrade keys |
| TierSchemas.SchemaListsPrefix | scripts/data/tiers/tierSchemas.js:1-102 | each schema lists a prefix of its tier's upgrade list in order: all of nibble's, all but the last elsewhere |
| TierSchemas.SchemaOrder | scripts/data/tiers/tierSchemas.js:1-102 | eight tiers in weight order, keyed by resource name; bit's threshold is 0 and thresholds never decrease |
| TierSchemas.ListedKeysDefined | scripts/data/tiers/tierSchemas.js:6-99 | every listed key is defined, as the entry at the same position of its tier list |
| TierSchemas.ListedOnce | scripts/data/tiers/tierSchemas.js:6-99 | no key is listed by two tiers, nor twice by one |
| TierSchemas.PrefixKeysApart | scripts/data/tiers/tierSchemas.js:6-99 | keys from the prefixes of two apart lists differ |
| TierSchemas.GeneratorsUnlisted | scripts/data/tiers/tierSchemas.js:6-99 | `bitOverclocker`, `byteBitGenerator` and the five generators are listed by no tier |
| TierSchemas.UnlistedInOwnTier | scripts/data/tiers/tierSchemas.js:6-99 | the entry after a listed prefix is not in the prefix |
| TierSchemas.GeneratorUnlistedElsewhere | scripts/data/tiers/tierSchemas.js:6-99 | a tier's generator is not listed by another tier |
| TierSchemas.FirstListedConvertsInto | scripts/data/tiers/tierSchemas.js:18-95 | above bit, a tier's first listed upgrade auto-converts from the tier below into that tier |
| TierData.Tiers | scripts/data/tiers/tierData.js:16-19 | `tierData`: each schema with its keys replaced by their definitions |
| TierData.Lookup | scripts/data/tiers/tierData.js:18 | `upgradeDefinitions[key]` is defined exactly when the key is, and is that definition |
| TierData.Attach | scripts/data/tiers/tierData.js:16-19 | key, name and threshold are copied; each listed key becomes its definition, same length |
| TierData.Join | scripts/data/tiers/tierData.js:16-19 | one entry per schema, same length and order |
| TierData.TierEntryDefined | scripts/data/tiers/tierData.js:16-19 | no entry of `tierData` is undefined: entry j of tier a is the upgrade under the listed key |
| PurchaseManager.Purchased | scripts/managers/purchaseManager.js:7-39 | `purchaseUpgrade(key)`: the refusal, or the debited, owned store with the effect queued (stated by `PurchaseManager.PurchaseSucceedsIff` and `PurchaseManager.PurchaseCommits`) |
| PurchaseManager.PurchaseSucceedsIff | scripts/managers/purchaseManager.js:7-39 | a purchase goes through exactly when the key is not owned and the floored balance is neither negative nor below the cost; every other call changes nothing |
| PurchaseManager.PurchaseCommits | scripts/managers/purchaseManager.js:21-31 | on success the balance falls by exactly the cost and stays non-negative, the key is owned, and the effect waits at the back of the queue, not yet run |
| PurchaseManager.PurchaseIdempotent | scripts/managers/purchaseManager.js:13 | buying an owned key a second time changes nothing |
| PurchaseManager.Drained | scripts/managers/purchaseManager.js:27-31 | the queued microtasks run in order, each applying its effect, and the queue is emptied |
| PurchaseManager.PurchaseThenDrain | scripts/managers/purchaseManager.js:21-31 | buying with an empty queue and letting the microtask run applies the effect exactly once to the debited, owned state |
| PurchaseManager.PurchaseUpgrade | scripts/managers/purchaseManager.js:7-39 | the live purchase returns the outcome and state of the modelled purchase |
| PurchaseManager.DrainPending | scripts/managers/purchaseManager.js:27-31 | the queued effects run once each, oldest first, the queue empties, and a tier update is requested when anything ran |
| ProgramDefinitions.Catalog | scripts/data/programs/programDefinitions.js:29-96 | seven programs, each keyed as listed |
| ProgramDefinitions.ProgramFacts | scripts/data/programs/programDefinitions.js:20-96 | only `backgroundEncryptor` is permanent and has no duration; costs, durations and collateral are positive; the extra `false` argument is dropped |
| ProgramDefinitions.KeysDistinct | scripts/data/programs/programDefinitions.js:29-96 | the seven keys differ |
| ProgramDefinitions.Definitions | scripts/data/programs/programDefinitions.js:29-96 | exactly the seven keys, each holding its own program |
| ProgramDefinitions.Keyed | scripts/data/programs/programDefinitions.js:29-96 | an object literal with distinct keys holds exactly those keys, each with its value |
| ProgramDefinitions.DefinitionFacts | scripts/data/programs/programDefinitions.js:29-96 | every definition is stored under its own key, is permanent exactly when it has no duration, and costs positive cycles and collateral |
| ProgramSchemas.Schemas | scripts/data/programs/programSchemas.js:15-28 | two groups with thresholds 100 and 150, listing only defined programs |
| ProgramSchemas.GroupKeys | scripts/data/programs/programSchemas.js:20-26 | the two groups' key lists |
| ProgramSchemas.EachProgramInOneGroup | scripts/data/programs/programSchemas.js:20-26 | each program is listed by exactly one group |
| ProgramSchemas.SplitInTwo | scripts/data/programs/programSchemas.js:20-26 | splitting seven distinct keys by position puts each in exactly one part |
| ProgramData.Attach | scripts/data/programs/programData.js:14-17 | the schema's fields are kept and each listed key becomes its definition, same length and order |
| ProgramData.Join | scripts/data/programs/programData.js:14-17 | one group per schema, same order |
| ProgramData.GroupsComplete | scripts/data/programs/programData.js:14-17 | `programData` keeps the schemas' order and fields, and no program entry is undefined |
| ProgramTemplates.Applied | scripts/data/programs/programTemplates.js:21-83 | each program effect template, `None` where the template throws |
| ProgramTemplates.Effected | scripts/data/programs/programExecutor.js:99-104 | the effect run inside `try`, a thrown fault leaving the store as it was |
| ProgramTemplates.MultiplierBoostAdds | scripts/data/programs/programTemplates.js:21-25 | `globalMultiplierBoost(a)` adds exactly `a` to the multiplier and changes nothing else |
| ProgramTemplates.SpeedBoostShortens | scripts/data/programs/programTemplates.js:33-37 | a factor in (0, 1) makes a positive conversion interval strictly shorter and keeps it positive |
| ProgramTemplates.UnlockSystemOnlyFlag | scripts/data/programs/programTemplates.js:45-49 | `unlockSystem(flag)` faults exactly when `unlocks` is absent, and otherwise sets that one entry and nothing else |
| ProgramTemplates.PassiveYieldAddsOnce | scripts/data/programs/programTemplates.js:58-65 | one run adds `a` to the entry, starting from 0 when it is absent |
| ProgramTemplates.PassiveYieldAccumulates | scripts/data/programs/programTemplates.js:58-65 | `n` runs add `n * a` |
| ProgramTemplates.InitialFaults | scripts/data/programs/programTemplates.js:46-64 | on the initial store `unlockSystem` and `addPassiveYield` fault, and the swallowed fault leaves the store as it was |
| ProgramTemplates.RunEffect | scripts/data/programs/programTemplates.js:21-83 | running an effect in place reports a fault exactly when the effect faults, and leaves the store as the swallowed-fault semantics say |
| ProgramExecutor.IsProgramUnlocked | scripts/data/programs/programExecutor.js:24-29 | `isProgramUnlocked(key)` over the program schemas, with the currency `|| 0` |
| ProgramExecutor.UnlockedInSome | scripts/data/programs/programExecutor.js:24-29 | a program is unlocked exactly when some schema listing it has a threshold the currency reaches |
| ProgramExecutor.UnlockMonotone | scripts/data/programs/programExecutor.js:24-29 | more prestige currency never locks a program again |
| ProgramExecutor.UnlockThresholds | scripts/data/programs/programExecutor.js:24-29 | with the shipped groups a program unlocks at 100 or at 150 cycles, by group |
| ProgramExecutor.NoShortfall | scripts/data/programs/programExecutor.js:58-63 | no shortfall exactly when every balance covers its amount |
| ProgramExecutor.ShortfallIsShort | scripts/data/programs/programExecutor.js:58-63 | a reported shortfall is a required resource below its amount |
| ProgramExecutor.DebitAll | scripts/data/programs/programExecutor.js:68-71 | each tier falls by exactly its total required amount |
| ProgramExecutor.RefundAll | scripts/data/programs/programExecutor.js:120-122 | each tier rises by exactly its total locked amount |
| ProgramExecutor.AmountOfDistinct | scripts/data/programs/programExecutor.js:58-71 | in a requirement object each resource's total is its one amount, or 0 |
| ProgramExecutor.EffectKeepsBalances | scripts/data/programs/programTemplates.js:21-83 | program effects never touch the balances, the prestige currency, the owned set or the queue |
| ProgramExecutor.Start | scripts/data/programs/programExecutor.js:36-90 | `runProgram` given the unlock answer: capacity, unlock, cycles and each collateral in order, then pay, record the entry and run a permanent effect |
| ProgramExecutor.Started | scripts/data/programs/programExecutor.js:36-90 | `runProgram(program)`: the first failed check in order, or the paid world with the new entry and a permanent effect run |
| ProgramExecutor.StartedIff | scripts/data/programs/programExecutor.js:36-63 | a start succeeds exactly when below capacity, unlocked, the cost is covered and every collateral is covered; each refusal is reported by the first failed check, in order |
| ProgramExecutor.StartedDebits | scripts/data/programs/programExecutor.js:66-82 | a started program costs exactly its cycles and collateral, its entry locks exactly `dataRequired`, and a running key is overwritten without refund |
| ProgramExecutor.StartedNonNegative | scripts/data/programs/programExecutor.js:52-71 | a start never drives a balance or the currency below zero |
| ProgramExecutor.StartedRunsPermanentOnce | scripts/data/programs/programExecutor.js:77-86 | a permanent program has no time remaining and its effect runs once, immediately |
| ProgramExecutor.PermanentFaultKeepsCost | scripts/data/programs/programExecutor.js:84-86 | when the permanent effect faults, the cost stays spent |
| ProgramExecutor.TickAll | scripts/data/programs/programExecutor.js:95-109 | `tickPrograms()`: every running entry, in insertion order |
| ProgramExecutor.TickOne | scripts/data/programs/programExecutor.js:96-107 | one entry of `tickPrograms`: permanent entries stay; others count down by one and at zero or below run their effect and are removed |
| ProgramExecutor.TickOneState | scripts/data/programs/programExecutor.js:96-107 | one tick changes the store only through the effect of a program that finished |
| ProgramExecutor.TickKeysEntries | scripts/data/programs/programExecutor.js:96-108 | ticking distinct keys ticks each listed entry once and leaves the others alone |
| ProgramExecutor.TickAllEntries | scripts/data/programs/programExecutor.js:95-109 | after `tickPrograms` every entry is what one tick makes of it |
| ProgramExecutor.TickCountsDown | scripts/data/programs/programExecutor.js:96-107 | permanent programs are never decremented or removed; others lose exactly 1 and are removed at 0 or below |
| ProgramExecutor.CountsDown | scripts/data/programs/programExecutor.js:97-107 | the same for a single entry |
| ProgramExecutor.TickKeysValid | scripts/data/programs/programExecutor.js:95-109 | ticking keeps the running map well formed |
| ProgramExecutor.TickKeepsBalances | scripts/data/programs/programExecutor.js:95-109 | a natural completion refunds nothing |
| ProgramExecutor.Cancelled | scripts/data/programs/programExecutor.js:115-127 | `cancelProgram(key)`: an absent key changes nothing; otherwise the locked amounts come back and the entry goes |
| ProgramExecutor.CancelRefunds | scripts/data/programs/programExecutor.js:115-127 | cancelling an absent key does nothing; otherwise exactly the locked amounts come back and the entry goes, permanent programs included |
| ProgramExecutor.StartThenCancel | scripts/data/programs/programExecutor.js:36-127 | starting then cancelling returns every locked resource but not the cycles |
| ProgramExecutor.PutThenRemove | scripts/data/programs/programExecutor.js:74-125 | adding a new key and deleting it restores the map, order included |
| ProgramExecutor.WithoutAppended | scripts/data/programs/programExecutor.js:74-125 | dropping an appended key restores the key list |
| ProgramExecutor.RunningList | scripts/data/programs/programExecutor.js:133-135 | one entry per running program, exactly the map's values |
| ProgramExecutor.ListsRunning | scripts/data/programs/programExecutor.js:133-135 | the values listed in key order are exactly the map's values |
| ProgramExecutor.Executor.constructor | scripts/data/programs/programExecutor.js:16-17 | no program runs at load |
| ProgramExecutor.RunProgram | scripts/data/programs/programExecutor.js:36-90 | the live start returns true exactly when the modelled start succeeds, commits its world, and requests a tier update exactly when it starts |
| ProgramExecutor.Launch | scripts/data/programs/programExecutor.js:65-86 | once the checks pass, the live store is paid, the entry is recorded under its key, and a permanent program's effect runs |
| ProgramExecutor.CheckStart | scripts/data/programs/programExecutor.js:39-63 | the four checks in order return the modelled refusal |
| ProgramExecutor.Shortfall | scripts/data/programs/programExecutor.js:58-63 | the check loop finds the first short resource |
| ProgramExecutor.Pay | scripts/data/programs/programExecutor.js:66-71 | the in-place debit matches the modelled payment and locks exactly `dataRequired` |
| ProgramExecutor.TickPrograms | scripts/data/programs/programExecutor.js:95-109 | the live loop matches `tickPrograms` over the running keys in insertion order |
| ProgramExecutor.TickProgram | scripts/data/programs/programExecutor.js:96-107 | one loop iteration matches the per-key rule |
| ProgramExecutor.CancelProgram | scripts/data/programs/programExecutor.js:115-127 | the live cancel matches the modelled refund and removal, and requests a tier update when the key was running |
| ProgramExecutor.GetRunningPrograms | scripts/data/programs/programExecutor.js:133-135 | returns the running entries in insertion order |
| CalculatePrestige.PrestigeWeight | scripts/prestige/calculatePrestige.js:5-14 | every prestige weight is at least 1 |
| CalculatePrestige.PrestigeWeights | scripts/prestige/calculatePrestige.js:5-14 | the weights are powers of four, and from byte up differ from `RESOURCE_WEIGHTS` |
| CalculatePrestige.PartialTotalMonotone | scripts/prestige/calculatePrestige.js:17-20 | the weighted total grows with any balance |
| CalculatePrestige.OnlyBitsTotal | scripts/prestige/calculatePrestige.js:17-20 | a store with only bits totals its bit balance |
| CalculatePrestige.SeriesStep | scripts/prestige/calculatePrestige.js:26-29 | each threshold step adds at least 1500, which is why the loop ends |
| CalculatePrestige.SeriesIncreasing | scripts/prestige/calculatePrestige.js:24-29 | the threshold series strictly increases |
| CalculatePrestige.CountFromBounds | scripts/prestige/calculatePrestige.js:26-29 | the loop stops at the first threshold above the total |
| CalculatePrestige.EarnedClears | scripts/prestige/calculatePrestige.js:23-29 | the earned count is the number of thresholds 1000, 2500, 4750, ... the total clears |
| CalculatePrestige.EarnedMonotone | scripts/prestige/calculatePrestige.js:23-29 | a larger total never earns fewer cycles |
| CalculatePrestige.SeriesAtLeast | scripts/prestige/calculatePrestige.js:24-29 | the k-th threshold is at least `1000 + 1500 k` |
| CalculatePrestige.EarnedFirstThreshold | scripts/prestige/calculatePrestige.js:23-29 | below 1000 nothing is earned; exactly 1000 earns one cycle |
| CalculatePrestige.Prestige | scripts/prestige/calculatePrestige.js:4-39 | `calculatePrestige()`: the number of thresholds the weighted total clears, plus the byte bonus when enabled |
| CalculatePrestige.PrestigeFacts | scripts/prestige/calculatePrestige.js:4-39 | without the byte bonus the result is the earned count, is monotone in the balances, and 1000 bits alone give 1 |
| CalculatePrestige.ByteBonusNonNegative | scripts/prestige/calculatePrestige.js:32-38 | the byte bonus never lowers the count |
| CalculatePrestige.CalculatePrestige | scripts/prestige/calculatePrestige.js:4-39 | the two loops over locals compute the modelled result and change nothing |
| Recompile.Zeroed | scripts/prestige/recompile.js:28-30 | the same keys, every balance zero |
| Recompile.Recompiled | scripts/prestige/recompile.js:15-20 | `recompile()`: unchanged (the alert) when nothing is gained; otherwise the award and the reset |
| Recompile.Awarded | scripts/prestige/recompile.js:22-68 | the award and the soft reset: cycles and total cycles raised, multiplier raised by a tenth per cycle, resources, generation, systems and owned set cleared, terminal tab opened at 50 total cycles |
| Recompile.RecompileAwards | scripts/prestige/recompile.js:15-56 | nothing changes exactly when 0 is gained; otherwise currency and total cycles rise by `gained`, the multiplier by `gained*0.1`, balances are zero, owned is empty, and counts, bonuses and rig stats are kept |
| Recompile.RecompileMatchesDefaults | scripts/prestige/recompile.js:33-53 | the cleared fields end at the new-game defaults, with the conversion speed at 1000 |
| Recompile.RecompileOpensTab | scripts/prestige/recompile.js:67-68 | the tab opens once total cycles reach 50 and a recompile never closes it |
| Recompile.ZeroTotal | scripts/prestige/recompile.js:28-30 | zero balances total zero |
| Recompile.RecompileTwice | scripts/prestige/recompile.js:16-20 | right after a recompile a second one finds nothing and changes nothing |
| Recompile.DoRecompile | scripts/prestige/recompile.js:15-77 | the live recompile returns the cycles found and leaves the modelled store (unchanged on the alert path); its `buildTierLayout()` pass reveals nothing, and a tier update is requested exactly when cycles were gained |
| Recompile.LayoutAfterReset | scripts/prestige/recompile.js:58-62 | the `buildTierLayout()` pass after the reset leaves the store unchanged, every balance being zero |
| Recompile.ZeroResources | scripts/prestige/recompile.js:28-30 | the in-place loop zeroes every present key and changes nothing else |
| Parts.Catalog | scripts/data/parts/parts.js:3-79 | `computerParts`: the eight parts with their stat effects |
| Parts.Ids | scripts/data/parts/parts.js:3-80 | the part ids, in catalog order |
| Parts.Find | scripts/managers/rigManager.js:89 | `find` returns a part exactly when the id is in the catalog, and then a catalog part with that id |
| Parts.CatalogIds | scripts/data/parts/parts.js:3-80 | eight parts with distinct ids |
| Parts.CatalogEffects | scripts/data/parts/parts.js:9-77 | every effect names a distinct stat among processing power, speed and memory, with a positive amount |
| Parts.NoPartAddsSlots | scripts/data/parts/parts.js:9-77 | no part changes `storageSlots`, whatever the id |
| Parts.NoSlotAmount | scripts/data/parts/parts.js:9-77 | effects that never name the slots add nothing to them |
| Parts.FindListed | scripts/managers/rigManager.js:89 | with distinct ids, finding a listed part's id finds that part |
| Parts.ListedAmount | scripts/managers/rigManager.js:89-93 | a listed part adds its own effect amounts |
| RigManager.PartBonuses | scripts/managers/rigManager.js:79-113 | `applyPartBonuses()` totals: each stat's base plus every installed part's amounts (stated by `RigManager.BonusesPerStat`) |
| RigManager.Bump | scripts/managers/rigManager.js:92 | `base[stat] += v` changes only that stat, by exactly `v` |
| RigManager.AddEffectsStat | scripts/managers/rigManager.js:91-93 | one part's effects add their amount for each stat |
| RigManager.AccumulateStat | scripts/managers/rigManager.js:88-95 | the installed ids add, per stat, the sum of their parts' amounts |
| RigManager.BonusesPerStat | scripts/managers/rigManager.js:80-95 | each total is its base (`\|\|0`, `\|\|1`, `\|\|0`, `\|\|1`) plus the sum over installed parts; slots stay at their base |
| RigManager.SlotsUnchanged | scripts/managers/rigManager.js:88-95 | installed parts never add slots |
| RigManager.UnknownIdAddsNothing | scripts/managers/rigManager.js:89-90 | an installed id with no matching part contributes nothing |
| RigManager.BonusesKeepPrestigeStats | scripts/managers/rigManager.js:108-112 | `applyPartBonuses` never changes the four prestige stats; it writes only the display fields |
| RigManager.ApplyPartBonuses | scripts/managers/rigManager.js:79-113 | the live call writes the modelled totals to the display fields only |
| RigManager.Totals | scripts/managers/rigManager.js:81-95 | the accumulation loop computes the modelled totals |
| RigManager.AccumulateStep | scripts/managers/rigManager.js:88-95 | one more id folds in one more part |
| RigManager.AddPartEffects | scripts/managers/rigManager.js:91-93 | the inner loop adds one part's effects |
| RigManager.Installed | scripts/managers/rigManager.js:20-35 | the install button: offered for a catalog part not yet installed while fewer parts than slots are installed; appends the id and refreshes the totals |
| RigManager.InstallKeepsRigValid | scripts/managers/rigManager.js:20-35 | install appends exactly the id and keeps the list duplicate-free and within the slots |
| RigManager.FullRigRefusesInstall | scripts/managers/rigManager.js:21 | no install is offered once every slot is taken |
| RigManager.UninstallOffered | scripts/managers/rigManager.js:47-76 | slot `i` has an uninstall button when it is below the slot count, holds an id, and every non-empty slot below the count holds a catalog part (the row of slots is attached only after the loop) |
| RigManager.UnknownIdHidesUninstall | scripts/managers/rigManager.js:47-76 | an id with no part in any slot below the count leaves no uninstall button at all |
| RigManager.Uninstalled | scripts/managers/rigManager.js:64-68 | the uninstall button: when offered, `splice(i, 1)` and refresh the totals |
| RigManager.UninstallRemovesIndex | scripts/managers/rigManager.js:64-66 | uninstall removes exactly index `i`, keeps the others in order, and keeps the list valid |
| RigManager.WithBonusesIgnoresDisplay | scripts/managers/rigManager.js:79-113 | the totals do not depend on the display fields they overwrite |
| RigManager.UninstallOfferedAfterInstall | scripts/managers/rigManager.js:47-68 | a part just installed gets its uninstall button |
| RigManager.InstallThenUninstall | scripts/managers/rigManager.js:33-66 | uninstalling the part just installed restores the rig, totals refreshed |
| RigManager.InstallPart | scripts/managers/rigManager.js:20-37 | the install click happens exactly when offered and leaves the modelled store |
| RigManager.UninstallPart | scripts/managers/rigManager.js:47-68 | the uninstall click happens exactly when offered (no button at all once any slot below the count holds an id with no part) and leaves the modelled store |
| SaveManager.Save | scripts/managers/saveManager.js:46-73 | `saveGame()`: the snapshot of every section, with the owned set as a list |
| SaveManager.LoadOver | scripts/managers/saveManager.js:97-152 | `loadGame()` for a present save: merge, replay the owned entries by the given key rule, then reset on an incomplete save or refresh the part bonuses |
| SaveManager.Merged | scripts/managers/saveManager.js:97-115 | each saved section spread over the defaults, the hook registry emptied, the meta fields merged and the owned set replaced by the saved keys |
| SaveManager.LoadedAsWritten | scripts/managers/saveManager.js:78-152 | `loadGame()` as written: merge, replay over the saved generation amounts with the toggle keys derived from the descriptions, then reset or apply the part bonuses |
| SaveManager.Loaded | scripts/managers/saveManager.js:78-152 | `loadGame()` as evidently intended: the same, with the replayed amounts restarted and each Assembler's own toggle key |
| SaveManager.Reset | scripts/managers/saveManager.js:157-168 | a confirmed `resetGame()`: every section back to its defaults (stated by `SaveManager.ResetMatchesDefaults`) |
| SaveManager.ResetGame | scripts/managers/saveManager.js:157-170 | `resetGame()`: nothing changes unless the player confirms |
| SaveManager.MergeResources | scripts/managers/saveManager.js:97 | every tier's balance after the merge is the saved amount when the save names that tier and the default 0 otherwise |
| SaveManager.ApplyKeeps | scripts/data/upgrades/upgradeTemplates.js:15-198 | no upgrade effect writes the balances, the owned set, the rig stats or the other fields the replay must leave as merged |
| SaveManager.ReplayEntriesKeep | scripts/managers/saveManager.js:118-139 | replaying one tier's entries keeps those fields |
| SaveManager.ReplayTiersKeep | scripts/managers/saveManager.js:117-140 | replaying every tier keeps those fields |
| SaveManager.SaveLoadRoundTrip | scripts/managers/saveManager.js:52-115 | loading a snapshot of a store, both as written and as intended, restores its balances, owned set, prestige and rig stats, installed parts, conversion counts, click counter, revealed tiers and trade batches; the rig display is recomputed from the parts and an absent conversion speed comes back as 1000 |
| SaveManager.NothingSaved | scripts/managers/saveManager.js:78-80 | a load with no save changes nothing, as written and as intended |
| SaveManager.LoadForgetsHooks | scripts/managers/saveManager.js:100-101 | the hooks and hook keys held before a load play no part in its result, as written and as intended |
| SaveManager.IncompleteSaveResets | scripts/managers/saveManager.js:142-146 | a save with a missing or zero nibble balance ends in a reset when the player confirms, and otherwise in the replayed store without the part bonuses applied, as written and as intended |
| SaveManager.ResetMatchesDefaults | scripts/managers/saveManager.js:157-168 | a confirmed reset puts balances, owned set, generation, systems and the meta stats back to the new-game defaults, keeping only the conversion counts, the byte-bonus flag and the unlock flags; an unconfirmed one changes nothing |
| SaveManager.ReplayEntriesAgree | scripts/managers/saveManager.js:118-139 | two owned sets that agree on a tier's listed keys replay that tier alike |
| SaveManager.ReplayTiersAgree | scripts/managers/saveManager.js:117-140 | two owned sets that agree on every listed key replay alike |
| SaveManager.ReplayIgnoresUnlisted | scripts/managers/saveManager.js:117-140 | owning a key no tier lists changes nothing in the replay |
| SaveManager.OverclockerUnlisted | scripts/data/tiers/tierSchemas.js:7-99 | `bitOverclocker` is listed by no tier, so it is never replayed |
| SaveManager.PluralNotToggleKey | scripts/managers/saveManager.js:124-126 | a key `"<a>_to_<b>"` with a plural `b` and an `a` that is no tier name is neither a conversion toggle key nor its `_max` key |
| SaveManager.AsWrittenKeysNeverToggles | scripts/managers/saveManager.js:121-131 | the key the source derives for each of the three Assemblers is never a toggle key |
| SaveManager.AsWrittenResumesPaused | scripts/managers/saveManager.js:121-131 | as written, replaying an owned Assembler whose toggle is paused sets that toggle back on |
| SaveManager.IntendedKeepsPaused | scripts/managers/saveManager.js:121-131 | with the Assembler's own toggle key, an Assembler whose toggle exists is passed over and the store is unchanged |
| SaveManager.AssemblersWriteTheirKey | scripts/data/upgrades/upgradeDefinitions.js:39-69 | each Assembler's intended replay key is the toggle its own auto-convert effect writes |
| SaveManager.EntriesUnowned | scripts/managers/saveManager.js:118-139 | a tier none of whose entries is owned replays to the same store |
| SaveManager.TiersUnowned | scripts/managers/saveManager.js:117-140 | with nothing listed owned, the replay changes nothing |
| SaveManager.OnlyFirstOwned | scripts/managers/saveManager.js:117-140 | when only the first entry is owned and not skipped, the replay is exactly that entry's effect |
| SaveManager.DoublerFirst | scripts/data/tiers/tierSchemas.js:7 | `bitDoubler` is the first replayed entry, its effect adds 1 to the manual gain, and no other entry has its key |
| SaveManager.ReplayDoublerOnly | scripts/managers/saveManager.js:117-140 | replaying a store that owns only `bitDoubler` adds exactly 1 to the manual gain and changes nothing else in the generation |
| SaveManager.MergedDoublerSave | scripts/managers/saveManager.js:52-115 | merging a snapshot that owns only `bitDoubler` keeps the saved manual gain and that owned set, and does not reset |
| SaveManager.AsWrittenReloadCompounds | scripts/managers/saveManager.js:98-140 | as written, each reload of such a save yields the saved manual gain plus 1 |
| SaveManager.IntendedReloadStable | scripts/managers/saveManager.js:98-140 | with the generated amounts restarted before the replay, the reloaded manual gain is 2 whatever the save held |
| SaveManager.IntendedIgnoresSavedAmounts | scripts/managers/saveManager.js:98-140 | with the amounts restarted, the saved manual gain and generation rate do not affect a load |
| SaveManager.SaveGame | scripts/managers/saveManager.js:46-73 | the snapshot lists the owned set once each, equals the snapshot function of the live store, and requests a tier update |
| SaveManager.LoadGame | scripts/managers/saveManager.js:78-152 | the live store becomes the as-written load of its old state and the save: the replay runs over the saved generation amounts with the toggle keys derived from the descriptions; a tier update is requested exactly when a complete save was loaded |
| SaveManager.LoadOverTiers | scripts/managers/saveManager.js:97-152 | for a present save, the live store becomes the merge, the as-written replay over the given tier table, then the reset or the part bonuses; a tier update is requested exactly when the save is complete |
| SaveManager.RestoreOwned | scripts/managers/saveManager.js:114-115 | the owned set becomes exactly the saved keys and nothing else changes |
| SaveManager.ReplayOwned | scripts/managers/saveManager.js:117-140 | the nested loop ends in the as-written replay of the old store over the given tiers |
| SaveManager.ReplayTier | scripts/managers/saveManager.js:118-139 | the loop over one tier runs each owned entry unless its description-derived toggle key is present, ending in the as-written replay of that tier |
| SaveManager.DoResetGame | scripts/managers/saveManager.js:157-170 | the live store becomes the reset of its old state when confirmed, and is unchanged otherwise |
| Text.Trim | main.js:165 | `input.trim()`: no JavaScript white space or line terminator is left at either end |
| Terminal.Parse | main.js:165-251 | the trimmed input classified as a command |
| Terminal.Classify | main.js:169-251 | the handler's comparisons in order: exact words, then the `run ` and `stop ` prefixes, else unknown |
| Terminal.TrimKeeps | main.js:165 | trimming input with no white space at either end gives it back |
| Terminal.ParseIgnoresPadding | main.js:165 | trimming is idempotent, so padded and unpadded input give the same command |
| Terminal.ParseTrimmed | main.js:165-273 | input with no white space at either end is classified as it stands |
| Terminal.ClassifyWords | main.js:169-251 | `exit` and `close` close the terminal, and `clear`, `status`, `list programs`, `help` and `compute prestige` are each recognised as their own command |
| Terminal.ParseRun | main.js:191-192 | `run <key>` with a non-empty trimmed key runs exactly that key |
| Terminal.ParseStop | main.js:205-206 | `stop <key>` with a non-empty trimmed key stops exactly that key |
| Terminal.PrefixedTrimmed | main.js:165 | a word followed by a non-empty trimmed key is itself trimmed |
| Terminal.ClassifyRunPrefix | main.js:191-192 | any input starting `run ` is a run of its trimmed remainder |
| Terminal.ClassifyRun | main.js:191-192 | `run ` followed by a key classifies as a run of that key |
| Terminal.ClassifyStopPrefix | main.js:205-206 | any input starting `stop ` is a stop of its trimmed remainder |
| Terminal.ClassifyStop | main.js:205-206 | `stop ` followed by a key classifies as a stop of that key |
| Terminal.StopNoEarlierWord | main.js:169-191 | input starting `stop ` is not `exit`, `close`, `clear` or `status` and does not start with `run `, so no earlier branch takes it |
| Terminal.NotPrefixed | main.js:191-205 | the exact command words start with neither `run ` nor `stop ` |
| Terminal.AddAllMembers | main.js:222 | adding ids to a set in turn keeps each id once and holds exactly the old ids and the added ones |
| Terminal.CollectMembers | main.js:219-224 | the loop over the groups collects, once each, exactly the programs of the groups whose threshold the currency reaches |
| Terminal.ListedIffUnlocked | main.js:219-225 | `list programs` prints each program once, and a program is printed exactly when the executor's unlock check accepts it |
| Terminal.PrestigeCostGrows | main.js:252-254 | the compute-prestige costs start 300, 450, 675 and never fall as the count grows |
| Terminal.ComputedPrestige | main.js:252-264 | `compute prestige`: refused below the cost; otherwise the cost spent and each of the four stats raised by one |
| Terminal.ComputePrestigeSpends | main.js:252-264 | compute prestige is refused exactly when `prestigeCurrency \|\| 0` is below the cost; otherwise it spends exactly the cost, counts one more prestige, adds 1 to each of the four stats over its default and changes nothing else in `meta` |
| Terminal.ComputePrestigeCapacity | main.js:261 | after compute prestige the program limit `processingPower \|\| 1` is one higher, except from a power of 0, where it stays 1 |
| Terminal.FindRunning | main.js:208 | the lookup finds an entry exactly when some running entry has the key, and the entry found has that key |
| Terminal.StartKeepsKeyed | main.js:195 | starting a program keeps every running entry stored under its own key |
| Terminal.FindRunningIff | main.js:207-209 | with keyed entries, `stop`'s lookup finds a key exactly when that key is running |
| Terminal.StopAsWritten | main.js:205-214 | `stop <key>` as written: a key that is not running is reported; a running key throws and nothing changes |
| Terminal.StopProgram | main.js:205-214 | `stop <key>` as intended: a running key is cancelled with its collateral refunded |
| Terminal.StopAsWrittenKeepsRunning | main.js:205-214 | as written, stopping a running program faults and leaves it running with its collateral locked |
| Terminal.StopCancels | main.js:205-214 | as intended, stopping a running program removes it, refunds exactly its locked amounts and keeps the entries keyed; stopping a key that is not running changes nothing |
| Terminal.Handle | main.js:169-273 | one command on the store and the running programs, as main.js handles it, with `stop` as written |
| Terminal.OnlyActionsChange | main.js:165-273 | only `run` and `compute prestige` change the store or the running programs, and a refused one changes nothing; `stop` never changes anything, because its cancel call throws |
| Terminal.HandleInput | main.js:162-275 | the handler leaves the store, the running programs and the reply as the command function gives them for the trimmed input, `stop` as written; a tier update is requested exactly when a program started or a prestige was computed |
| Terminal.Dispatch | main.js:169-273 | each recognised command's branch ends as the command function says, `stop` as written; a tier update is requested exactly when a program started or a prestige was computed |
| Terminal.RunCommand | main.js:191-202 | an unknown key is reported as not found; a defined one is started by the executor, which may refuse it; a tier update is requested exactly when a program started or a prestige was computed |
| Terminal.StopCommand | main.js:205-214 | the stop branch reports a key that is not running; for a running key it faults with nothing changed, as main.js does when the unimported `cancelProgram` throws |
| Terminal.UnlockedPrograms | main.js:219-224 | the loops collect exactly the listed ids, in insertion order |
| Terminal.DoComputePrestige | main.js:251-271 | the live store's `meta` becomes the compute-prestige result, or stays as it was when the currency is short, and the reply names the cost; a tier update is requested exactly when a program started or a prestige was computed |
| UiRenderer.RevealedAfter | scripts/ui/uiRenderer.js:69-80 | the revealed tiers after one pass of the tier loop |
| UiRenderer.Rendered | scripts/ui/uiRenderer.js:69-80 | the store after one reveal pass: only `revealedTiers` changes |
| UiRenderer.RevealIff | scripts/ui/uiRenderer.js:69-80 | a tier is revealed after the pass exactly when it was already, or it has a lower tier, is not soft-locked and the lower balance reaches its threshold; entries are only added, and a second pass adds nothing |
| UiRenderer.SoftLockHolds | scripts/ui/uiRenderer.js:71-78 | the pass never reveals bit, and below 50 cycles it neither reveals nor draws kilobyte |
| UiRenderer.NothingRevealedAtZero | scripts/ui/uiRenderer.js:36-47 | with every balance at zero the pass reveals nothing new, every threshold above bit being positive |
| UiRenderer.NothingBeyondNibble | scripts/ui/uiRenderer.js:69-80 | with 100 bits and nothing else, the pass reveals nibble and nothing more |
| UiRenderer.RevealMonotone | scripts/ui/uiRenderer.js:69-80 | larger balances, more cycles or more revealed tiers never reveal fewer tiers |
| UiRenderer.TierThreshold | scripts/data/tiers/tierData.js:16-19 | each tier the pass reads has the threshold and key the reveal rule uses |
| UiRenderer.RevealTiers | scripts/ui/uiRenderer.js:69-80 | the loop sets the revealed set to the one-pass result and changes nothing else |
| UiRenderer.Renderer.constructor | scripts/ui/uiRenderer.js:13 | a tier update starts pending |
| UiRenderer.Renderer.RequestTierUpdate | scripts/ui/uiRenderer.js:18-20 | a tier update is pending afterwards |
| UiRenderer.Renderer.UpdateTiersIfDirty | scripts/ui/uiRenderer.js:25-30 | the pass runs exactly when an update was pending, and afterwards none is |
| UiRenderer.Listing | scripts/ui/uiRenderer.js:115-125 | the entries of a tier the upgrade list shows |
| UiRenderer.ListingIff | scripts/ui/uiRenderer.js:115-125 | an entry is listed exactly when it is not owned and, if it is an AutoMax upgrade, some converter of its tier is owned |
| UiRenderer.PurchasedNotListed | scripts/ui/uiRenderer.js:125 | an owned upgrade is never listed, so buying one removes it from the list |
| UiRenderer.RenderUpgrades | scripts/ui/uiRenderer.js:112-137 | the loop lists exactly the entries the listing rule offers, in the tier's order |
| UiRenderer.FindBase | scripts/ui/uiRenderer.js:118-121 | the search finds a base exactly when some owned entry of the tier is a converter |
| UiRenderer.ControlsFor | scripts/ui/uiRenderer.js:154-212 | the conversion controls drawn for a tier |
| UiRenderer.CheckboxNeedsToggle | scripts/ui/uiRenderer.js:154-212 | bit has no conversion controls, and the max checkbox appears only beside the auto-convert toggle |
| UiRenderer.Flipped | scripts/ui/uiRenderer.js:185-188 | the auto-convert toggle's click handler |
| UiRenderer.MaxSet | scripts/ui/uiRenderer.js:205-207 | the max checkbox's change handler |
| UiRenderer.FlipOnlyKey | scripts/ui/uiRenderer.js:185-188 | the toggle handler sets its key to the opposite of how it was shown and changes no other key or field; flipping twice restores a present toggle |
| UiRenderer.MaxSetOnlyKey | scripts/ui/uiRenderer.js:205-207 | the checkbox sets exactly the `_max` entry to its checked state and leaves the pair's own toggle and every other key alone |
| UiRenderer.FlipToggle | scripts/ui/uiRenderer.js:185-188 | the click on the live store is the flip function |
| UiRenderer.SetMaxToggle | scripts/ui/uiRenderer.js:205-207 | the change on the live store is the checkbox function |

## Left out

- DOM work is not modelled: element creation, markup, tab switching, modals and button text. What the terminal prints is a `Terminal.Reply` value, and a listed upgrade is a value in a sequence.
- `localStorage`, JSON, `FileReader` and the import and export of saves (scripts/managers/saveManager.js:175-229) are I/O. The save is a `SaveManager.SavedGame` value, and theme settings are not part of it.
- `checkUnlocks` and `refreshGameState` (scripts/managers/saveManager.js:234-244) only show the terminal tab, redraw the page and write storage.
- `localStorage.clear()` and `location.reload()` in `resetGame` (scripts/managers/saveManager.js:159,169) are I/O. The reset ends with the store it wrote.
- scripts/managers/themeManager.js and scripts/managers/displayManager.js are presentation only. `formatNumber` in scripts/core/utils.js is float formatting. Console logging is left out.
- Timers are not modelled. The 100 ms `setInterval` tick is an explicit call to `Engine.GameTick`, so a program's "seconds" are ticks. The `setTimeout` calls in gameState.js and recompile.js touch only the page.
- `temporaryBoost`'s delayed restore runs on a timer and is left out. `ProgramTemplates` models only the immediate multiplication.
- `queueMicrotask` becomes the store's explicit `pending` queue, drained by `PurchaseManager.DrainPending` before the next tick.
- Floating point is not modelled: numbers are exact reals and NaN is absent. `Math.log10`, `Math.log2` and `**` are uninterpreted functions, constrained only by `RealMath.Lawful`. `Math.pow(1.5, n)` is the exact rational power.
- The module-level DOM side effects of scripts/core/gameState.js:93-104 are left out. `GameState.Game.constructor` keeps only the flag they compute.
- Aliasing of the nested default objects is not modelled. When a save lacks a `systems` map, the source would share the default object from then on, while the model copies values.
- SaveManager.SaveGame: the owned keys are listed in some order, each once. The model does not fix the `Set`'s insertion order.
- A saved `meta` without `computingPrestigeCount` leaves the count `undefined` in the source. Every reader treats that as 0, so the model stores 0.
- Utils.ToUpper: upper-cases only `a`-`z`. JavaScript's `toUpperCase` also maps other letters, some to two characters; `capitalize` is only applied to the lower-case ASCII tier and stat keys.
- Terminal.RunCommand: a key naming an inherited `Object.prototype` member, such as `toString`, is treated as not found. The source would pass the inherited function to `runProgram`.
- Terminal.DoComputePrestige: `renderUpgradeRack()` and `updateDisplay()` only redraw the page and are left out. `applyPartBonuses` is never reached, because `window.applyPartBonuses` is never set.
- The page start-up in main.js:57-59 (`loadGame`, then a `buildTierLayout` reveal pass and `requestTierUpdate`) is not a modelled operation: `SaveManager.LoadGame` and `UiRenderer.RevealTiers` model its steps, and `UiRenderer.Renderer.constructor` starts with an update pending, as the start-up leaves it. The `requestTierUpdate()` in `temporaryBoost`'s timer is left out with the timer.

## Findings

| source | as written | input that shows it | evidently intended | confidence | as-written member | corrected member |
|---|---|---|---|---|---|---|
| main.js:205-214 | `stop <key>` calls `cancelProgram`, which main.js never imports (main.js:10-20), so for a running key the handler throws a `ReferenceError` before cancelling or printing | any running program `k`, then the input `stop k` | cancel `k` and refund its locked collateral, as `cancelProgram` does | high, not executed | Terminal.StopAsWrittenKeepsRunning | Terminal.StopCancels |
| scripts/managers/saveManager.js:121-131 | the replay derives an Assembler's toggle key from its description, which gives plural keys such as `nibbles_to_bytes`; no toggle has such a key, so the skip never fires and the effect always runs | a save owning `byteAssembler` whose `nibble_to_byte` toggle is paused (`false`): after the load the toggle is `true` | pass over an Assembler whose own toggle key already exists, so a paused toggle stays paused | high, not executed | SaveManager.AsWrittenResumesPaused | SaveManager.IntendedKeepsPaused |
| scripts/managers/saveManager.js:98-140 | the saved `generation` already counts the owned upgrades' effects, and the replay applies them again on top | a save owning only `bitDoubler` with `manualGain` 2: each load adds 1, giving 3, then 4 | restart the amounts the replayed effects build (`manualGain`, `bitGenAmount`) before the replay, so a reload gives the gain one purchase gives | medium, not executed | SaveManager.AsWrittenReloadCompounds | SaveManager.IntendedReloadStable |
