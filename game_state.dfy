/**
 * The single mutable store every other module changes
 * (scripts/core/gameState.js): resources, upgrades, generation, systems and
 * meta, plus the queue of purchase effects waiting for the next microtask.
 */
module GameState {
  import opened Wrappers
  import opened Utils
  import opened UpgradeEffects
  import opened OrderedMaps

  /**
   * The resource balances, keyed by tier. Every ledger the store holds has
   * all eight keys (`Complete`); a tier without a key reads as zero.
   */
  datatype Ledger = Ledger(balances: map<Tier, real>)
  {
    /** `resources[t]`. */
    function Get(t: Tier): real {
      if t in balances then balances[t] else 0.0
    }

    /** `resources[t] = v`: only tier `t` changes. */
    function Set(t: Tier, v: real): (r: Ledger)
      ensures r.Get(t) == v
      ensures forall u :: u != t ==> r.Get(u) == Get(u)
      ensures Complete() ==> r.Complete()
    {
      Ledger(balances[t := v])
    }

    /** `resources[t] += d`. */
    function Add(t: Tier, d: real): (r: Ledger)
      ensures r.Get(t) == Get(t) + d
      ensures forall u :: u != t ==> r.Get(u) == Get(u)
      ensures Complete() ==> r.Complete()
    {
      Set(t, Get(t) + d)
    }

    /** Two additions to one tier in a row are one addition of their sum. */
    lemma AddTwice(t: Tier, a: real, b: real)
      ensures Add(t, a).Add(t, b) == Set(t, Get(t) + a + b)
    {
      assert Add(t, a).Add(t, b).balances == Set(t, Get(t) + a + b).balances;
    }

    ghost predicate Complete() {
      forall t :: t in balances
    }

    ghost predicate NonNegative() {
      forall t :: Get(t) >= 0.0
    }
  }

  /** Two complete ledgers with the same balance in every tier are equal. */
  lemma LedgerExt(a: Ledger, b: Ledger)
    requires a.Complete() && b.Complete()
    requires forall t :: a.Get(t) == b.Get(t)
    ensures a == b
  {
    assert forall t :: t in a.balances ==> a.balances[t] == a.Get(t);
    assert a.balances == b.balances;
  }

  /** `defaultResources`: every tier at zero. */
  function ZeroLedger(): (l: Ledger)
    ensures l.Complete()
    ensures forall t :: l.Get(t) == 0.0
  {
    var m := UpperTiers(0.0)[Bit := 0.0];
    assert forall t :: t in m;
    Ledger(m)
  }

  datatype Upgrades = Upgrades(owned: set<string>, conversionBonuses: map<Tier, real>)

  datatype Generation = Generation(
    manualGain: real,
    bitGenAmount: real,
    clickCounter: int,
    clickBonusActive: bool,
    nibbleBoostEnabled: bool,
    nibbleShift: bool,
    byteBonusEnabled: bool,
    conversionCounts: map<Tier, int>)
  {
    function Flag(f: GenerationFlag): bool {
      match f
      case ClickBonusActive => clickBonusActive
      case NibbleBoostEnabled => nibbleBoostEnabled
      case NibbleShift => nibbleShift
      case ByteBonusEnabled => byteBonusEnabled
    }

    function SetFlag(f: GenerationFlag): (g: Generation)
      ensures g.Flag(f)
      ensures forall h :: h != f ==> g.Flag(h) == Flag(h)
      ensures g.(clickBonusActive := clickBonusActive, nibbleBoostEnabled := nibbleBoostEnabled,
                 nibbleShift := nibbleShift, byteBonusEnabled := byteBonusEnabled) == this
    {
      match f
      case ClickBonusActive => this.(clickBonusActive := true)
      case NibbleBoostEnabled => this.(nibbleBoostEnabled := true)
      case NibbleShift => this.(nibbleShift := true)
      case ByteBonusEnabled => this.(byteBonusEnabled := true)
    }

    /** `conversionCounts[t] ?? 0`. */
    function Count(t: Tier): int {
      if t in conversionCounts then conversionCounts[t] else 0
    }
  }

  datatype Systems = Systems(
    autoConvertToggles: OMap<bool>,
    autoConvertMaxUnlocked: map<string, bool>,
    convertMaxUnlocked: map<string, bool>,
    autoTradeBatches: OMap<real>,
    globalMultiplier: real,
    /** `None` while the field is absent (before the first reset) or not a number. */
    globalConversionSpeed: Option<real>,
    /** The tiers whose `revealedTiers` entry is true; entries are only ever set true. */
    revealedTiers: set<Tier>,
    passiveHooks: seq<Hook>,
    passiveHookKeys: set<string>,
    /** `systems.unlocks`, absent unless a save supplies it. */
    unlocks: Option<map<string, bool>>)

  /** The rig totals `applyPartBonuses` writes to the `display*` fields. */
  datatype RigStats = RigStats(processingPower: real, speed: real, memory: real, storageSlots: real)

  datatype Meta = Meta(
    prestigeCurrency: real,
    totalCycles: real,
    computingPrestigeCount: int,
    processingPower: real,
    speed: real,
    memory: real,
    storageSlots: real,
    computingTabUnlocked: bool,
    /** `meta.passiveYield`, absent unless a save supplies it. */
    passiveYield: Option<map<Tier, real>>,
    installedParts: seq<string>,
    display: Option<RigStats>)

  datatype State = State(
    resources: Ledger,
    upgrades: Upgrades,
    generation: Generation,
    systems: Systems,
    meta: Meta,
    /** Purchase effects queued by `queueMicrotask`, oldest first. */
    pending: seq<Effect>)

  /** The seven tiers above bit, keyed to `v`. */
  function UpperTiers<V>(v: V): (m: map<Tier, V>)
    ensures forall t :: t in m <==> t != Bit
    ensures forall t :: t in m ==> m[t] == v
  {
    UpperTiersKeys(v);
    map[Nibble := v, Byte := v, Kilobyte := v, Megabyte := v, Gigabyte := v, Terabyte := v, Petabyte := v]
  }

  lemma UpperTiersKeys<V>(v: V)
    ensures var m := map[Nibble := v, Byte := v, Kilobyte := v, Megabyte := v, Gigabyte := v, Terabyte := v, Petabyte := v];
      forall t :: t in m <==> t != Bit
  {
    var m := map[Nibble := v, Byte := v, Kilobyte := v, Megabyte := v, Gigabyte := v, Terabyte := v, Petabyte := v];
    forall t: Tier ensures t in m <==> t != Bit {
      match t
      case Bit =>
      case Nibble =>
      case Byte =>
      case Kilobyte =>
      case Megabyte =>
      case Gigabyte =>
      case Terabyte =>
      case Petabyte =>
    }
  }

  /** The store as the page first loads it. */
  function Initial(): (s: State)
    ensures s.resources.Complete() && forall t :: s.resources.Get(t) == 0.0
    ensures s.upgrades.owned == {}
    ensures forall t :: t in s.upgrades.conversionBonuses <==> t != Bit
    ensures forall t :: t in s.upgrades.conversionBonuses ==> s.upgrades.conversionBonuses[t] == 1.0
    ensures forall t :: t in s.generation.conversionCounts <==> t != Bit
    ensures forall t :: s.generation.Count(t) == 0
    ensures s.generation.manualGain == 1.0 && s.generation.bitGenAmount == 0.0
    ensures s.generation.clickCounter == 0
    ensures forall f :: !s.generation.Flag(f)
    ensures s.systems.autoConvertToggles.keys == [] && s.systems.autoConvertToggles.Valid()
    ensures s.systems.autoTradeBatches.keys == [] && s.systems.autoTradeBatches.Valid()
    ensures s.systems.autoConvertMaxUnlocked == map[] && s.systems.convertMaxUnlocked == map[]
    ensures s.systems.passiveHooks == [] && s.systems.passiveHookKeys == {}
    ensures s.systems.revealedTiers == {Bit}
    ensures s.systems.globalMultiplier == 1.0
    ensures s.meta.prestigeCurrency == 0.0 && s.meta.totalCycles == 0.0
    ensures s.meta.processingPower == 0.0 && s.meta.speed == 1.0
    ensures s.meta.memory == 16.0 && s.meta.storageSlots == 1.0
    ensures !s.meta.computingTabUnlocked
    ensures s.pending == []
  {
    State(
      ZeroLedger(),
      Upgrades({}, UpperTiers(1.0)),
      Generation(1.0, 0.0, 0, false, false, false, false, UpperTiers(0)),
      Systems(Empty(), map[], map[], Empty(), 1.0, None, {Bit}, [], {}, None),
      Meta(0.0, 0.0, 0, 0.0, 1.0, 16.0, 1.0, false, None, [], None),
      [])
  }

  /** The live store: `gameState`. */
  class Game {
    var resources: Ledger
    var upgrades: Upgrades
    var generation: Generation
    var systems: Systems
    var meta: Meta
    var pending: seq<Effect>

    function Snapshot(): State
      reads this
    {
      State.State(resources, upgrades, generation, systems, meta, pending)
    }

    /**
     * The object literal of gameState.js. The module-level check that follows
     * it sees a prestige currency of 0, so the terminal tab stays locked.
     */
    constructor ()
      ensures Snapshot() == Initial()
    {
      var s := Initial();
      if !s.meta.computingTabUnlocked && s.meta.prestigeCurrency >= 50.0 {
        s := s.(meta := s.meta.(computingTabUnlocked := true));
      }
      resources := s.resources;
      upgrades := s.upgrades;
      generation := s.generation;
      meta := s.meta;
      systems := s.systems;
      pending := [];
    }
  }
}
