/**
 * The prestige action, "recompile" (scripts/prestige/recompile.js): award
 * the cycles `calculatePrestige` reports, then a soft reset that clears the
 * run's progress and keeps the prestige-side state.
 */
module Recompile {
  import opened Wrappers
  import opened Utils
  import opened RealMath
  import opened OrderedMaps
  import opened GameState
  import opened CalculatePrestige
  import UiRenderer

  /** `for (key in resources) resources[key] = 0`: every present key set to zero. */
  function Zeroed(r: Ledger): (z: Ledger)
    ensures z.balances.Keys == r.balances.Keys
    ensures forall t :: z.Get(t) == 0.0
    ensures r.Complete() ==> z.Complete()
  {
    Ledger(map t | t in r.balances :: 0.0)
  }

  /** The `Object.assign` on `generation`: six fields back to their defaults. */
  function ResetGeneration(g: Generation): Generation {
    g.(manualGain := 1.0, bitGenAmount := 0.0, clickCounter := 0,
       clickBonusActive := false, nibbleBoostEnabled := false, nibbleShift := false)
  }

  /** The `Object.assign` on `systems`, keeping `globalMultiplier` as it is. */
  function ResetSystems(y: Systems): Systems {
    y.(autoConvertToggles := Empty(), convertMaxUnlocked := map[], autoConvertMaxUnlocked := map[],
       autoTradeBatches := Empty(), globalConversionSpeed := Some(1000.0), revealedTiers := {Bit},
       passiveHooks := [], passiveHookKeys := {})
  }

  /** Award `gained` cycles, reset, and open the terminal tab at 50 total cycles. */
  function Awarded(s: State, gained: int): State {
    var meta := s.meta.(prestigeCurrency := s.meta.prestigeCurrency + gained as real,
                        totalCycles := s.meta.totalCycles + gained as real);
    var tab := meta.computingTabUnlocked || meta.totalCycles >= 50.0;
    s.(resources := Zeroed(s.resources),
       generation := ResetGeneration(s.generation),
       systems := ResetSystems(s.systems.(globalMultiplier := s.systems.globalMultiplier + gained as real * 0.1)),
       upgrades := s.upgrades.(owned := {}),
       meta := meta.(computingTabUnlocked := tab))
  }

  /** `recompile()`: `None` is the "not enough data" alert, which changes nothing. */
  function Recompiled(s: State, m: Math): Option<State> {
    var gained := Prestige(s, m);
    if gained == 0 then None else Some(Awarded(s, gained))
  }

  /**
   * What a successful recompile awards and clears, and what it keeps:
   * conversion counts and bonuses, the byte-bonus flag, the multiplier
   * (raised by a tenth per cycle), the rig stats, the unlock map and the
   * queued purchase effects.
   */
  lemma RecompileAwards(s: State, m: Math)
    ensures Recompiled(s, m).None? <==> Prestige(s, m) == 0
    ensures Recompiled(s, m).Some? ==>
      var r, n := Recompiled(s, m).value, Prestige(s, m) as real;
      && r.meta.prestigeCurrency == s.meta.prestigeCurrency + n
      && r.meta.totalCycles == s.meta.totalCycles + n
      && r.systems.globalMultiplier == s.systems.globalMultiplier + n * 0.1
      && (forall t :: r.resources.Get(t) == 0.0)
      && r.upgrades.owned == {}
      && r.upgrades.conversionBonuses == s.upgrades.conversionBonuses
      && r.generation.conversionCounts == s.generation.conversionCounts
      && r.generation.byteBonusEnabled == s.generation.byteBonusEnabled
      && r.meta.processingPower == s.meta.processingPower && r.meta.speed == s.meta.speed
      && r.meta.memory == s.meta.memory && r.meta.storageSlots == s.meta.storageSlots
      && r.meta.computingPrestigeCount == s.meta.computingPrestigeCount
      && r.meta.installedParts == s.meta.installedParts
      && r.systems.unlocks == s.systems.unlocks
      && r.pending == s.pending
  {
  }

  /**
   * The fields the reset clears end where a new game starts them; the
   * conversion speed is written as the 1000 the save defaults carry.
   */
  lemma RecompileMatchesDefaults(s: State, m: Math)
    requires Recompiled(s, m).Some?
    ensures var r, i := Recompiled(s, m).value, Initial();
      && (forall t :: r.resources.Get(t) == i.resources.Get(t))
      && r.upgrades.owned == i.upgrades.owned
      && r.generation.manualGain == i.generation.manualGain
      && r.generation.bitGenAmount == i.generation.bitGenAmount
      && r.generation.clickCounter == i.generation.clickCounter
      && r.generation.clickBonusActive == i.generation.clickBonusActive
      && r.generation.nibbleBoostEnabled == i.generation.nibbleBoostEnabled
      && r.generation.nibbleShift == i.generation.nibbleShift
      && r.systems.autoConvertToggles == i.systems.autoConvertToggles
      && r.systems.autoTradeBatches == i.systems.autoTradeBatches
      && r.systems.convertMaxUnlocked == i.systems.convertMaxUnlocked
      && r.systems.autoConvertMaxUnlocked == i.systems.autoConvertMaxUnlocked
      && r.systems.revealedTiers == i.systems.revealedTiers
      && r.systems.passiveHooks == i.systems.passiveHooks
      && r.systems.passiveHookKeys == i.systems.passiveHookKeys
      && r.systems.globalConversionSpeed == Some(1000.0)
  {
  }

  /**
   * The terminal tab opens once the total reaches 50 and a recompile never
   * closes it again.
   */
  lemma RecompileOpensTab(s: State, m: Math)
    requires Recompiled(s, m).Some?
    ensures var r := Recompiled(s, m).value;
      r.meta.computingTabUnlocked <==> s.meta.computingTabUnlocked || r.meta.totalCycles >= 50.0
  {
  }

  /** A ledger with every balance at zero totals zero. */
  lemma {:induction false} ZeroTotal(r: Ledger, i: nat)
    requires i <= 8
    requires forall t :: r.Get(t) == 0.0
    ensures PartialTotal(r, i) == 0.0
  {
    if i > 0 {
      ZeroTotal(r, i - 1);
    }
  }

  /**
   * Right after a recompile nothing is left to compile: a second one (with
   * the floating-point library behaving) changes nothing.
   */
  lemma RecompileTwice(s: State, m: Math)
    requires Lawful(m) && Recompiled(s, m).Some?
    ensures Recompiled(Recompiled(s, m).value, m) == None
  {
    var r := Recompiled(s, m).value;
    ZeroTotal(r.resources, 8);
    EarnedFirstThreshold(0.0);
  }

  /** `recompile()` on the live store; returns the cycles it found (0 on the alert path). */
  method DoRecompile(g: Game, ui: UiRenderer.Renderer, m: Math) returns (gained: int)
    modifies g, ui
    ensures gained == Prestige(old(g.Snapshot()), m)
    ensures ui.pending == (old(ui.pending) || gained != 0)
    ensures g.Snapshot() == Recompiled(old(g.Snapshot()), m).GetOr(old(g.Snapshot()))
  {
    gained := CalculatePrestige.CalculatePrestige(g, m);
    if gained == 0 {
      return;
    }
    g.meta := g.meta.(prestigeCurrency := g.meta.prestigeCurrency + gained as real);
    g.meta := g.meta.(totalCycles := g.meta.totalCycles + gained as real);
    g.systems := g.systems.(globalMultiplier := g.systems.globalMultiplier + gained as real * 0.1);
    ZeroResources(g);
    g.generation := ResetGeneration(g.generation);
    g.systems := ResetSystems(g.systems);
    g.upgrades := g.upgrades.(owned := {});
    LayoutAfterReset(g);
    ui.RequestTierUpdate();
    if !g.meta.computingTabUnlocked && g.meta.totalCycles >= 50.0 {
      g.meta := g.meta.(computingTabUnlocked := true);
    }
  }

  /** `buildTierLayout()` after the reset: its reveal pass finds every balance at zero and changes nothing. */
  method LayoutAfterReset(g: Game)
    requires forall t :: g.resources.Get(t) == 0.0
    modifies g
    ensures g.Snapshot() == old(g.Snapshot())
  {
    UiRenderer.NothingRevealedAtZero(g.Snapshot());
    UiRenderer.RevealTiers(g);
  }

  /** The `for…in` loop over `resources`: each present key set to zero in place. */
  method ZeroResources(g: Game)
    modifies g
    ensures g.resources == Zeroed(old(g.resources))
    ensures g.Snapshot() == old(g.Snapshot()).(resources := g.resources)
  {
    ghost var r0 := g.resources;
    var i := 0;
    while i < 8
      invariant 0 <= i <= 8
      invariant g.resources == ZeroedBelow(r0, i)
      invariant g.Snapshot() == old(g.Snapshot()).(resources := g.resources)
    {
      var t := AllTiers()[i];
      ZeroedBelowStep(r0, i);
      if t in g.resources.balances {
        g.resources := g.resources.Set(t, 0.0);
      }
      i := i + 1;
    }
    assert ZeroedBelow(r0, 8).balances == Zeroed(r0).balances;
  }

  /** The balances after the loop has passed the first `n` tiers of the order. */
  function ZeroedBelow(r: Ledger, n: nat): Ledger {
    Ledger(map t | t in r.balances :: if Index(t) < n then 0.0 else r.balances[t])
  }

  /** Passing tier `n` zeroes its entry when present. */
  lemma ZeroedBelowStep(r: Ledger, n: nat)
    requires n < 8
    ensures var z := ZeroedBelow(r, n); var t := AllTiers()[n];
      ZeroedBelow(r, n + 1) == if t in z.balances then z.Set(t, 0.0) else z
  {
    var z := ZeroedBelow(r, n);
    var t := AllTiers()[n];
    if t in z.balances {
      assert ZeroedBelow(r, n + 1).balances == z.Set(t, 0.0).balances;
    } else {
      assert ZeroedBelow(r, n + 1).balances == z.balances;
    }
  }
}
