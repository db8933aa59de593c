/**
 * The upgrade effect templates (scripts/data/upgrades/upgradeTemplates.js).
 * A template call builds an `Effect` value; `Apply` is what invoking the
 * returned closure does to the store, and `FireHook` what one registered
 * passive hook does when `gameTick` runs it. `Invoke` performs an effect in
 * place on the live `Game`; `Engine.FireHookAt` does the same for a hook.
 */
module UpgradeTemplates {
  import opened Wrappers
  import opened Utils
  import opened RealMath
  import opened OrderedMaps
  import opened UpgradeEffects
  import opened GameState

  /** `addPassiveHook(key, fn)`: registers `h` unless `key` is already recorded. */
  function AddPassiveHook(sys: Systems, key: string, h: Hook): Systems {
    if key in sys.passiveHookKeys then sys
    else sys.(passiveHooks := sys.passiveHooks + [h], passiveHookKeys := sys.passiveHookKeys + {key})
  }

  /** The hook list with `h` pushed and no key recorded. */
  function PushHook(sys: Systems, h: Hook): Systems {
    sys.(passiveHooks := sys.passiveHooks + [h])
  }

  /** What a `conditionalToggle` condition function returns. */
  predicate Holds(s: State, c: Condition) {
    match c
    case ResourceAtLeast(t, amount) => s.resources.Get(t) >= amount
  }

  /** Invoking the closure an upgrade's effect template returned. */
  function Apply(s: State, e: Effect): State {
    match e
    case AutoConvert(from, to, _) =>
      s.(systems := s.systems.(autoConvertToggles := s.systems.autoConvertToggles.Put(ConvertKey(from, to), true)))
    case BonusYield(target, bonus) =>
      if target in s.upgrades.conversionBonuses
      then s.(upgrades := s.upgrades.(conversionBonuses := s.upgrades.conversionBonuses[target := bonus]))
      else s
    case GlobalMultiplierBoost(amount) =>
      s.(systems := s.systems.(globalMultiplier := s.systems.globalMultiplier + amount))
    case ToggleFeature(flag) =>
      if !s.generation.Flag(flag) then s.(generation := s.generation.SetFlag(flag)) else s
    case UnlockConvertMax(k) =>
      s.(systems := s.systems.(convertMaxUnlocked := s.systems.convertMaxUnlocked[k := true]))
    case UnlockAutoMax(k) =>
      s.(systems := s.systems.(autoConvertMaxUnlocked := s.systems.autoConvertMaxUnlocked[k := true]))
    case PassiveEffect(h, key) =>
      // `if (key)`: an absent or empty key pushes without deduplication
      if key.Some? && key.value != "" then s.(systems := AddPassiveHook(s.systems, key.value, h))
      else s.(systems := PushHook(s.systems, h))
    case ConversionBonus(from, bonus, per, reward) =>
      s.(systems := AddPassiveHook(s.systems, ConversionBonusKey(from, bonus),
                                   ConversionBonusHook(from, bonus, per, reward)))
    case ConditionalToggle(flag, cond) =>
      if Holds(s, cond) then s.(generation := s.generation.SetFlag(flag)) else s
    case ScalingBoost(resource, rate) =>
      s.(systems := AddPassiveHook(s.systems, ScalingBoostKey(resource), ScalingBoostHook(resource, rate)))
    case EffectWithDuration(h, ticks) =>
      s.(systems := PushHook(s.systems, TimedHook(h, ticks)))
    case AddManualGain(a) => s.(generation := s.generation.(manualGain := s.generation.manualGain + a))
    case ScaleManualGain(f) => s.(generation := s.generation.(manualGain := s.generation.manualGain * f))
    case AddBitGen(a) => s.(generation := s.generation.(bitGenAmount := s.generation.bitGenAmount + a))
    case ScaleBitGen(f) => s.(generation := s.generation.(bitGenAmount := s.generation.bitGenAmount * f))
  }

  /** The effect invoked `n` times in a row. */
  function ApplyN(s: State, e: Effect, n: nat): State
    decreases n
  {
    if n == 0 then s else ApplyN(Apply(s, e), e, n - 1)
  }

  /** The key under which an effect registers its hook, if it deduplicates at all. */
  function HookKey(e: Effect): Option<string> {
    match e
    case PassiveEffect(_, key) => if key.Some? && key.value != "" then key else None
    case ConversionBonus(from, bonus, _, _) => Some(ConversionBonusKey(from, bonus))
    case ScalingBoost(resource, _) => Some(ScalingBoostKey(resource))
    case _ => None
  }

  /** The hook an effect registers, if it registers one. */
  function HookOf(e: Effect): Option<Hook> {
    match e
    case PassiveEffect(h, _) => Some(h)
    case ConversionBonus(from, bonus, per, reward) => Some(ConversionBonusHook(from, bonus, per, reward))
    case ScalingBoost(resource, rate) => Some(ScalingBoostHook(resource, rate))
    case EffectWithDuration(h, ticks) => Some(TimedHook(h, ticks))
    case _ => None
  }

  /**
   * A keyed effect invoked any number n >= 1 of times registers its hook
   * exactly once, when its key was not yet recorded.
   */
  lemma {:induction false} KeyedHookRegisteredOnce(s: State, e: Effect, n: nat)
    requires HookKey(e).Some? && HookKey(e).value !in s.systems.passiveHookKeys
    requires n >= 1
    ensures ApplyN(s, e, n).systems.passiveHooks == s.systems.passiveHooks + [HookOf(e).value]
    ensures ApplyN(s, e, n).systems.passiveHookKeys == s.systems.passiveHookKeys + {HookKey(e).value}
  {
    var s1 := Apply(s, e);
    assert s1.systems.passiveHookKeys == s.systems.passiveHookKeys + {HookKey(e).value};
    KeyedHookNoop(s1, e, n - 1);
  }

  /** Once its key is recorded, a keyed effect leaves the hook registry alone. */
  lemma {:induction false} KeyedHookNoop(s: State, e: Effect, n: nat)
    requires HookKey(e).Some? && HookKey(e).value in s.systems.passiveHookKeys
    ensures ApplyN(s, e, n).systems.passiveHooks == s.systems.passiveHooks
    ensures ApplyN(s, e, n).systems.passiveHookKeys == s.systems.passiveHookKeys
    decreases n
  {
    if n > 0 {
      assert Apply(s, e).systems == s.systems;
      KeyedHookNoop(Apply(s, e), e, n - 1);
    }
  }

  /** `n` copies of one hook. */
  function Copies(h: Hook, n: nat): (r: seq<Hook>)
    ensures |r| == n && forall i :: 0 <= i < n ==> r[i] == h
  {
    if n == 0 then [] else Copies(h, n - 1) + [h]
  }

  /**
   * `passiveEffect` without a key and `effectWithDuration` push a fresh
   * hook on every invocation: n invocations add n hooks.
   */
  lemma {:induction false} UnkeyedHookPushedEachTime(s: State, e: Effect, n: nat)
    requires HookOf(e).Some? && HookKey(e).None?
    ensures ApplyN(s, e, n).systems.passiveHooks == s.systems.passiveHooks + Copies(HookOf(e).value, n)
    ensures ApplyN(s, e, n).systems.passiveHookKeys == s.systems.passiveHookKeys
    decreases n
  {
    if n > 0 {
      var h := HookOf(e).value;
      var s1 := Apply(s, e);
      assert s1.systems.passiveHooks == s.systems.passiveHooks + [h];
      UnkeyedHookPushedEachTime(s1, e, n - 1);
      assert [h] + Copies(h, n - 1) == Copies(h, n) by {
        CopiesCons(h, n);
      }
    }
  }

  lemma {:induction false} CopiesCons(h: Hook, n: nat)
    requires n > 0
    ensures [h] + Copies(h, n - 1) == Copies(h, n)
  {
    if n > 1 {
      CopiesCons(h, n - 1);
    }
  }

  /**
   * `bonusYield` overwrites the bonus of an existing key rather than
   * multiplying it, so the later of two purchases wins; for a target with no
   * entry (bit) it does nothing.
   */
  lemma BonusYieldOverwrites(s: State, t: Tier, a: real, b: real)
    ensures Apply(Apply(s, BonusYield(t, a)), BonusYield(t, b)) == Apply(s, BonusYield(t, b))
    ensures t in s.upgrades.conversionBonuses ==> Apply(s, BonusYield(t, b)).upgrades.conversionBonuses[t] == b
    ensures t !in s.upgrades.conversionBonuses ==> Apply(s, BonusYield(t, b)) == s
  {
  }

  /** `autoConvert` ignores its amount, and it and the two unlock templates are idempotent. */
  lemma FlagSettersIdempotent(s: State, from: Tier, to: Tier, a: real, b: real, k: string)
    ensures Apply(s, AutoConvert(from, to, a)) == Apply(s, AutoConvert(from, to, b))
    ensures Apply(s, AutoConvert(from, to, a)).systems.autoConvertToggles.Get(ConvertKey(from, to)) == Some(true)
    ensures Apply(Apply(s, AutoConvert(from, to, a)), AutoConvert(from, to, a)) == Apply(s, AutoConvert(from, to, a))
    ensures Apply(Apply(s, UnlockConvertMax(k)), UnlockConvertMax(k)) == Apply(s, UnlockConvertMax(k))
    ensures Apply(Apply(s, UnlockAutoMax(k)), UnlockAutoMax(k)) == Apply(s, UnlockAutoMax(k))
  {
    var key := ConvertKey(from, to);
    var s1 := Apply(s, AutoConvert(from, to, a));
    assert key in s1.systems.autoConvertToggles.values;
    assert s1.systems.autoConvertToggles.Put(key, true) == s1.systems.autoConvertToggles;
  }

  /** `toggleFeature` sets its flag, changes no other flag and never touches a flag already set. */
  lemma ToggleFeatureMonotone(s: State, f: GenerationFlag)
    ensures Apply(s, ToggleFeature(f)).generation.Flag(f)
    ensures forall h :: h != f ==> Apply(s, ToggleFeature(f)).generation.Flag(h) == s.generation.Flag(h)
    ensures s.generation.Flag(f) ==> Apply(s, ToggleFeature(f)) == s
    ensures Apply(s, ToggleFeature(f)).resources == s.resources
  {
  }

  /** The hook's own bookkeeping after one firing: only a timed wrapper counts down. */
  function Advance(h: Hook): Hook {
    match h
    case TimedHook(body, remaining) =>
      if remaining > 0 then TimedHook(Advance(body), remaining - 1) else h
    case _ => h
  }

  /** A `scalingBoost` hook's run: `log2(held + 1) * rate` added to the multiplier. */
  function ScalingBoosted(s: State, resource: Tier, rate: real, m: Math): State {
    var boost := m.log2(s.resources.Get(resource) + 1.0) * rate;
    s.(systems := s.systems.(globalMultiplier := s.systems.globalMultiplier + boost))
  }

  /** Running one passive hook: the new store and the hook's updated closure state. */
  function FireHook(s: State, h: Hook, m: Math): (r: (State, Hook))
    ensures r.1 == Advance(h)
    ensures r.0.systems.passiveHooks == s.systems.passiveHooks
    ensures r.0.systems.passiveHookKeys == s.systems.passiveHookKeys
    ensures r.0.pending == s.pending && r.0.upgrades == s.upgrades
    ensures r.0.systems.revealedTiers == s.systems.revealedTiers
  {
    match h
    case ConversionBonusHook(from, bonus, per, reward) =>
      var count := s.generation.Count(from);
      var s1 := if count > 0 && per != 0 && count % per == 0
                then s.(resources := s.resources.Add(bonus, reward)) else s;
      var s2 := if count >= 1000
                then s1.(generation := s1.generation.(conversionCounts := s1.generation.conversionCounts[from := count % 1000]))
                else s1;
      (s2, h)
    case ScalingBoostHook(resource, rate) => (ScalingBoosted(s, resource, rate, m), h)
    case AddResourceHook(resource, amount) =>
      (s.(resources := s.resources.Add(resource, amount)), h)
    case AddPrestigeHook(amount) =>
      (s.(meta := s.meta.(prestigeCurrency := s.meta.prestigeCurrency + amount)), h)
    case TimedHook(body, remaining) =>
      if remaining > 0 then
        var inner := FireHook(s, body, m);
        (inner.0, TimedHook(inner.1, remaining - 1))
      else (s, h)
  }

  /**
   * The reward of a `conversionBonus` hook is paid on every firing while the
   * count sits at a positive multiple below 1000, not only when the count
   * crosses the multiple: k firings pay k rewards.
   */
  lemma {:induction false} ConversionBonusRepeats(s: State, from: Tier, bonus: Tier, per: int, reward: real, k: nat, m: Math)
    requires 0 < s.generation.Count(from) < 1000 && per != 0 && s.generation.Count(from) % per == 0
    ensures FireN(s, ConversionBonusHook(from, bonus, per, reward), k, m).resources.Get(bonus)
            == s.resources.Get(bonus) + k as real * reward
    ensures FireN(s, ConversionBonusHook(from, bonus, per, reward), k, m).generation == s.generation
    decreases k
  {
    if k > 0 {
      var h := ConversionBonusHook(from, bonus, per, reward);
      var s1 := s.(resources := s.resources.Add(bonus, reward));
      ConversionBonusPays(s, from, bonus, per, reward, m);
      assert FireN(s, h, k, m) == FireN(s1, h, k - 1, m);
      ConversionBonusRepeats(s1, from, bonus, per, reward, k - 1, m);
      assert (k - 1) as real * reward + reward == k as real * reward;
    }
  }

  /** One firing at a positive multiple below 1000: the reward is paid and nothing else changes. */
  lemma ConversionBonusPays(s: State, from: Tier, bonus: Tier, per: int, reward: real, m: Math)
    requires 0 < s.generation.Count(from) < 1000 && per != 0 && s.generation.Count(from) % per == 0
    ensures FireHook(s, ConversionBonusHook(from, bonus, per, reward), m)
         == (s.(resources := s.resources.Add(bonus, reward)), ConversionBonusHook(from, bonus, per, reward))
  {
  }

  /** A hook fired `k` times with nothing else running in between. */
  function FireN(s: State, h: Hook, k: nat, m: Math): State
    decreases k
  {
    if k == 0 then s else
      var r := FireHook(s, h, m);
      FireN(r.0, r.1, k - 1, m)
  }

  /** Once its conversion count reaches 1000 the hook wraps it to `count % 1000`, and pays only on a multiple. */
  lemma ConversionBonusWraps(s: State, from: Tier, bonus: Tier, per: int, reward: real, m: Math)
    ensures var c := s.generation.Count(from);
            var r := FireHook(s, ConversionBonusHook(from, bonus, per, reward), m).0;
            && r.generation.Count(from) == (if c >= 1000 then c % 1000 else c)
            && r.resources.Get(bonus) == s.resources.Get(bonus) + (if c > 0 && per != 0 && c % per == 0 then reward else 0.0)
            && (forall t :: t != bonus ==> r.resources.Get(t) == s.resources.Get(t))
  {
  }

  /** A `scalingBoost` hook adds nothing to the multiplier while none of its resource is held. */
  lemma ScalingBoostZeroWhenEmpty(s: State, resource: Tier, rate: real, m: Math)
    requires Lawful(m) && s.resources.Get(resource) == 0.0
    ensures FireHook(s, ScalingBoostHook(resource, rate), m).0 == s
  {
    assert s.systems.(globalMultiplier := s.systems.globalMultiplier + 0.0) == s.systems;
  }

  /** A `scalingBoost` hook on a non-negative multiplier rate never lowers the multiplier. */
  lemma ScalingBoostNonNegative(s: State, resource: Tier, rate: real, m: Math)
    requires Lawful(m) && s.resources.Get(resource) >= 0.0 && rate >= 0.0
    ensures FireHook(s, ScalingBoostHook(resource, rate), m).0.systems.globalMultiplier >= s.systems.globalMultiplier
  {
    var l := m.log2(s.resources.Get(resource) + 1.0);
    assert l >= 0.0;
    NonNegativeProduct(l, rate);
  }

  /** How many times the wrapped function of a timed hook runs over `k` firings. */
  function BodyRuns(h: Hook, k: nat): nat
    decreases k
  {
    if k == 0 then 0
    else (if h.TimedHook? && h.remaining > 0 then 1 else 0) + BodyRuns(Advance(h), k - 1)
  }

  /**
   * An `effectWithDuration` wrapper runs its function on exactly the first
   * `ticks` firings and never again: at most `ticks` times in total.
   */
  lemma {:induction false} TimedHookRunsAtMostTicks(body: Hook, ticks: int, k: nat)
    ensures BodyRuns(TimedHook(body, ticks), k) == if ticks <= 0 then 0 else Min(k as real, ticks as real).Floor
    ensures ticks >= 0 ==> BodyRuns(TimedHook(body, ticks), k) <= ticks
    decreases k
  {
    if k > 0 && ticks > 0 {
      TimedHookRunsAtMostTicks(Advance(body), ticks - 1, k - 1);
    } else if k > 0 {
      TimedExhausted(body, ticks, k);
    }
  }

  lemma {:induction false} TimedExhausted(body: Hook, ticks: int, k: nat)
    requires ticks <= 0
    ensures BodyRuns(TimedHook(body, ticks), k) == 0
  {
    if k > 0 {
      TimedExhausted(body, ticks, k - 1);
    }
  }

  /** The closure an upgrade effect template returned, invoked on the live store. */
  method Invoke(g: Game, e: Effect)
    modifies g
    ensures g.Snapshot() == Apply(old(g.Snapshot()), e)
  {
    if e.PassiveEffect? || e.ConversionBonus? || e.ScalingBoost? || e.EffectWithDuration? {
      InvokeHookTemplate(g, e);
    } else if e.AddManualGain? || e.ScaleManualGain? || e.AddBitGen? || e.ScaleBitGen? {
      InvokeGenerationEffect(g, e);
    } else {
      InvokeFlagTemplate(g, e);
    }
  }

  /** The templates that register a passive hook. */
  method InvokeHookTemplate(g: Game, e: Effect)
    requires e.PassiveEffect? || e.ConversionBonus? || e.ScalingBoost? || e.EffectWithDuration?
    modifies g
    ensures g.Snapshot() == Apply(old(g.Snapshot()), e)
  {
    match e
    case PassiveEffect(h, key) =>
      if key.Some? && key.value != "" {
        if key.value !in g.systems.passiveHookKeys {
          g.systems := g.systems.(passiveHooks := g.systems.passiveHooks + [h]);
          g.systems := g.systems.(passiveHookKeys := g.systems.passiveHookKeys + {key.value});
        }
      } else {
        g.systems := g.systems.(passiveHooks := g.systems.passiveHooks + [h]);
      }
    case ConversionBonus(from, bonus, per, reward) =>
      g.systems := AddPassiveHook(g.systems, ConversionBonusKey(from, bonus), ConversionBonusHook(from, bonus, per, reward));
    case ScalingBoost(resource, rate) =>
      g.systems := AddPassiveHook(g.systems, ScalingBoostKey(resource), ScalingBoostHook(resource, rate));
    case EffectWithDuration(h, ticks) =>
      g.systems := g.systems.(passiveHooks := g.systems.passiveHooks + [TimedHook(h, ticks)]);
  }

  /** The catalog's inline closures over the `generation` amounts. */
  method InvokeGenerationEffect(g: Game, e: Effect)
    requires e.AddManualGain? || e.ScaleManualGain? || e.AddBitGen? || e.ScaleBitGen?
    modifies g
    ensures g.Snapshot() == Apply(old(g.Snapshot()), e)
  {
    match e
    case AddManualGain(a) =>
      g.generation := g.generation.(manualGain := g.generation.manualGain + a);
    case ScaleManualGain(f) =>
      g.generation := g.generation.(manualGain := g.generation.manualGain * f);
    case AddBitGen(a) =>
      g.generation := g.generation.(bitGenAmount := g.generation.bitGenAmount + a);
    case ScaleBitGen(f) =>
      g.generation := g.generation.(bitGenAmount := g.generation.bitGenAmount * f);
  }

  /** The templates that set a flag, a toggle, a bonus or the multiplier. */
  method InvokeFlagTemplate(g: Game, e: Effect)
    requires !(e.PassiveEffect? || e.ConversionBonus? || e.ScalingBoost? || e.EffectWithDuration?)
    requires !(e.AddManualGain? || e.ScaleManualGain? || e.AddBitGen? || e.ScaleBitGen?)
    modifies g
    ensures g.Snapshot() == Apply(old(g.Snapshot()), e)
  {
    match e
    case AutoConvert(from, to, _) =>
      g.systems := g.systems.(autoConvertToggles := g.systems.autoConvertToggles.Put(ConvertKey(from, to), true));
    case BonusYield(target, bonus) =>
      if target in g.upgrades.conversionBonuses {
        g.upgrades := g.upgrades.(conversionBonuses := g.upgrades.conversionBonuses[target := bonus]);
      }
    case GlobalMultiplierBoost(amount) =>
      g.systems := g.systems.(globalMultiplier := g.systems.globalMultiplier + amount);
    case ToggleFeature(flag) =>
      if !g.generation.Flag(flag) {
        g.generation := g.generation.SetFlag(flag);
      }
    case UnlockConvertMax(k) =>
      g.systems := g.systems.(convertMaxUnlocked := g.systems.convertMaxUnlocked[k := true]);
    case UnlockAutoMax(k) =>
      g.systems := g.systems.(autoConvertMaxUnlocked := g.systems.autoConvertMaxUnlocked[k := true]);
    case ConditionalToggle(flag, cond) =>
      if Holds(g.Snapshot(), cond) {
        g.generation := g.generation.SetFlag(flag);
      }
  }
}
