/**
 * The closures that upgrade effect templates return, as tagged variants
 * (scripts/data/upgrades/upgradeTemplates.js and the inline effects of
 * scripts/data/upgrades/upgradeDefinitions.js). `UpgradeTemplates` runs them.
 */
module UpgradeEffects {
  import opened Wrappers
  import opened Utils

  /** Boolean flags of the `generation` section that `toggleFeature` may set. */
  datatype GenerationFlag = ClickBonusActive | NibbleBoostEnabled | NibbleShift | ByteBonusEnabled

  /** A per-tick passive hook. */
  datatype Hook =
      /** `conversionBonus`: `reward` of `bonusResource` whenever the count of `fromResource` is a positive multiple of `perAmount`. */
    | ConversionBonusHook(fromResource: Tier, bonusResource: Tier, perAmount: int, reward: real)
      /** `scalingBoost`: adds `log2(held + 1) * rate` to the global multiplier. */
    | ScalingBoostHook(resource: Tier, rate: real)
      /** A `passiveEffect` body that adds a fixed amount of a resource. */
    | AddResourceHook(resource: Tier, amount: real)
      /** A `passiveEffect` body that adds a fixed amount of prestige currency. */
    | AddPrestigeHook(amount: real)
      /** The `effectWithDuration` wrapper: runs `body` while `remaining > 0`, counting down. */
    | TimedHook(body: Hook, remaining: int)

  /** The condition a `conditionalToggle` tests when it runs. */
  datatype Condition = ResourceAtLeast(resource: Tier, amount: real)

  /** An upgrade's effect: what invoking its closure does. */
  datatype Effect =
    | AutoConvert(from: Tier, to: Tier, amount: real)
    | BonusYield(target: Tier, bonus: real)
    | GlobalMultiplierBoost(amount: real)
    | ToggleFeature(flag: GenerationFlag)
    | UnlockConvertMax(conversionKey: string)
    | UnlockAutoMax(conversionKey: string)
    | PassiveEffect(hook: Hook, key: Option<string>)
    | ConversionBonus(fromResource: Tier, bonusResource: Tier, perAmount: int, reward: real)
    | ConditionalToggle(flag: GenerationFlag, condition: Condition)
    | ScalingBoost(resource: Tier, rate: real)
    | EffectWithDuration(hook: Hook, ticks: int)
      /** The catalog's inline closures over `generation`. */
    | AddManualGain(amount: real)
    | ScaleManualGain(factor: real)
    | AddBitGen(amount: real)
    | ScaleBitGen(factor: real)

  /** The automation key `"<from>_to_<to>"`. */
  function ConvertKey(from: Tier, to: Tier): string {
    TierName(from) + "_to_" + TierName(to)
  }

  /** The deduplication key of a `conversionBonus` hook. */
  function ConversionBonusKey(from: Tier, bonus: Tier): string {
    "conversionBonus_" + TierName(from) + "_" + TierName(bonus)
  }

  /** The deduplication key of a `scalingBoost` hook. */
  function ScalingBoostKey(resource: Tier): string {
    "scalingBoost_" + TierName(resource)
  }
}
