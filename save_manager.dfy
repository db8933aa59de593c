/**
 * Saving and restoring the store (scripts/managers/saveManager.js): the
 * snapshot `saveGame` writes, and `loadGame`, which merges each saved
 * section over the defaults, empties the hook registry, replays the owned
 * upgrades in tier order and resets the game when the save has no nibbles.
 * `resetGame` puts every section back to its defaults once confirmed.
 *
 * The save is a value here; `localStorage`, JSON and the theme settings are
 * not modelled. A section or a field the save lacks is `None`.
 */
module SaveManager {
  import opened Wrappers
  import opened Utils
  import opened Text
  import opened OrderedMaps
  import opened UpgradeEffects
  import opened GameState
  import opened UpgradeTemplates
  import opened UpgradeDefinitions
  import opened TierSchemas
  import opened TierData
  import opened RigManager
  import Engine
  import UiRenderer

  datatype GenerationPatch = GenerationPatch(
    manualGain: Option<real>,
    bitGenAmount: Option<real>,
    clickCounter: Option<int>,
    clickBonusActive: Option<bool>,
    nibbleBoostEnabled: Option<bool>,
    nibbleShift: Option<bool>,
    byteBonusEnabled: Option<bool>,
    conversionCounts: Option<map<Tier, int>>)

  /** The seven `systems` fields a save carries. */
  datatype SystemsPatch = SystemsPatch(
    revealedTiers: Option<set<Tier>>,
    convertMaxUnlocked: Option<map<string, bool>>,
    autoConvertMaxUnlocked: Option<map<string, bool>>,
    autoConvertToggles: Option<OMap<bool>>,
    autoTradeBatches: Option<OMap<real>>,
    globalMultiplier: Option<real>,
    globalConversionSpeed: Option<real>)

  datatype MetaPatch = MetaPatch(
    prestigeCurrency: Option<real>,
    totalCycles: Option<real>,
    computingPrestigeCount: Option<int>,
    processingPower: Option<real>,
    speed: Option<real>,
    memory: Option<real>,
    storageSlots: Option<real>,
    computingTabUnlocked: Option<bool>,
    passiveYield: Option<map<Tier, real>>,
    installedParts: Option<seq<string>>,
    display: Option<RigStats>)

  /** `saved.gameState`: the owned upgrades are a list, and neither hooks nor conversion bonuses are saved. */
  datatype SavedGame = SavedGame(
    resources: Option<map<Tier, real>>,
    upgrades: Option<seq<string>>,
    generation: Option<GenerationPatch>,
    systems: Option<SystemsPatch>,
    meta: Option<MetaPatch>)

  /** `xs` lists every key of `s` exactly once: what `Array.from(owned)` yields, in some order. */
  predicate ListsOnce(xs: seq<string>, s: set<string>) {
    Distinct(xs) && (forall k :: k in xs ==> k in s) && (forall k :: k in s ==> k in xs)
  }

  /** `saveGame()`'s snapshot, with `owned` the listing of the owned set. */
  function Save(s: State, owned: seq<string>): SavedGame {
    var g, y, m := s.generation, s.systems, s.meta;
    SavedGame(
      Some(s.resources.balances),
      Some(owned),
      Some(GenerationPatch(Some(g.manualGain), Some(g.bitGenAmount), Some(g.clickCounter),
                           Some(g.clickBonusActive), Some(g.nibbleBoostEnabled), Some(g.nibbleShift),
                           Some(g.byteBonusEnabled), Some(g.conversionCounts))),
      Some(SystemsPatch(Some(y.revealedTiers), Some(y.convertMaxUnlocked), Some(y.autoConvertMaxUnlocked),
                        Some(y.autoConvertToggles), Some(y.autoTradeBatches), Some(y.globalMultiplier),
                        y.globalConversionSpeed)),
      Some(MetaPatch(Some(m.prestigeCurrency), Some(m.totalCycles), Some(m.computingPrestigeCount),
                     Some(m.processingPower), Some(m.speed), Some(m.memory), Some(m.storageSlots),
                     Some(m.computingTabUnlocked), m.passiveYield, Some(m.installedParts), m.display)))
  }

  /** `saved.gameState.generation || {}` and the like: an absent section reads as an empty object. */
  function NoGeneration(): GenerationPatch {
    GenerationPatch(None, None, None, None, None, None, None, None)
  }

  function NoSystems(): SystemsPatch {
    SystemsPatch(None, None, None, None, None, None, None)
  }

  function NoMeta(): MetaPatch {
    MetaPatch(None, None, None, None, None, None, None, None, None, None, None)
  }

  /** `{...defaultResources, ...saved.resources}` assigned over the balances. */
  function MergeResources(p: map<Tier, real>): (r: Ledger)
    ensures r.Complete()
    ensures forall t :: r.Get(t) == if t in p then p[t] else 0.0
  {
    var z := ZeroLedger();
    Ledger(map t | t in z.balances :: if t in p then p[t] else 0.0)
  }

  /**
   * `{...defaultGeneration, ...saved.generation}` assigned over the current
   * generation: the six default fields take the saved value or the default;
   * the byte-bonus flag and the conversion counts, which have no default,
   * keep their current value unless saved.
   */
  function MergeGeneration(cur: Generation, p: GenerationPatch): Generation {
    Generation(p.manualGain.GetOr(1.0), p.bitGenAmount.GetOr(0.0), p.clickCounter.GetOr(0),
               p.clickBonusActive.GetOr(false), p.nibbleBoostEnabled.GetOr(false), p.nibbleShift.GetOr(false),
               p.byteBonusEnabled.GetOr(cur.byteBonusEnabled), p.conversionCounts.GetOr(cur.conversionCounts))
  }

  /**
   * `{...defaultSystems, ...saved.systems}` assigned over the current
   * systems, then the hook list and the key set emptied; `unlocks`, which
   * has no default, is kept.
   */
  function MergeSystems(cur: Systems, p: SystemsPatch): Systems {
    Systems(p.autoConvertToggles.GetOr(Empty()), p.autoConvertMaxUnlocked.GetOr(map[]),
            p.convertMaxUnlocked.GetOr(map[]), p.autoTradeBatches.GetOr(Empty()),
            p.globalMultiplier.GetOr(1.0), Some(p.globalConversionSpeed.GetOr(1000.0)),
            p.revealedTiers.GetOr({Bit}), [], {}, cur.unlocks)
  }

  /**
   * The `metaKeys` loop and `{...defaultMeta, ...saved.meta}`: the six
   * default fields take the saved value or the default, the prestige count
   * the saved value or `undefined` (read as 0 everywhere it is used), and
   * the rest keep their current value unless saved.
   */
  function MergeMeta(cur: Meta, p: MetaPatch): Meta {
    Meta(p.prestigeCurrency.GetOr(0.0), p.totalCycles.GetOr(0.0), p.computingPrestigeCount.GetOr(0),
         p.processingPower.GetOr(0.0), p.speed.GetOr(1.0), p.memory.GetOr(16.0), p.storageSlots.GetOr(1.0),
         p.computingTabUnlocked.GetOr(cur.computingTabUnlocked),
         if p.passiveYield.Some? then p.passiveYield else cur.passiveYield,
         p.installedParts.GetOr(cur.installedParts),
         if p.display.Some? then p.display else cur.display)
  }

  /** Every section merged, and the owned set replaced by the saved list. */
  function Merged(s: State, x: SavedGame): State {
    s.(resources := MergeResources(x.resources.GetOr(map[])),
       generation := MergeGeneration(s.generation, x.generation.GetOr(NoGeneration())),
       systems := MergeSystems(s.systems, x.systems.GetOr(NoSystems())),
       meta := MergeMeta(s.meta, x.meta.GetOr(NoMeta())),
       upgrades := s.upgrades.(owned := set k | k in x.upgrades.GetOr([])))
  }

  /**
   * How the replay finds the toggle of an Assembler upgrade. `AsWritten`:
   * the words around the arrow of its description ("Auto-convert nibbles →
   * bytes"), lower-cased and joined by `_to_`, which are plural.
   * `Intended`: the key its own effect writes.
   */
  datatype KeyRule = AsWritten | Intended

  /**
   * The toggle key the replay checks before re-running an upgrade: only the
   * keys ending in `Assembler` whose description says "auto-convert" have one.
   */
  function ReplayKey(rule: KeyRule, key: string): Option<string> {
    if key == "byteAssembler" then Some(if rule == AsWritten then "nibbles_to_bytes" else ConvertKey(Nibble, Byte))
    else if key == "kiloAssembler" then Some(if rule == AsWritten then "bytes_to_kilobytes" else ConvertKey(Byte, Kilobyte))
    else if key == "megaAssembler" then Some(if rule == AsWritten then "kilobytes_to_megabytes" else ConvertKey(Kilobyte, Megabyte))
    else None
  }

  /** The replay passes over an owned Assembler whose toggle key is already present. */
  predicate Skipped(rule: KeyRule, s: State, u: Upgrade) {
    var k := ReplayKey(rule, u.key);
    k.Some? && k.value in s.systems.autoConvertToggles.values
  }

  /**
   * One entry of the replay: an owned upgrade's effect runs unless skipped.
   * An undefined entry is passed over (the catalog has none:
   * `TierData.TierEntryDefined`). No upgrade effect faults, so the
   * `try`/`catch` around each one never fires.
   */
  function ReplayStep(rule: KeyRule, s: State, owned: set<string>, e: Option<Upgrade>): State {
    match e
    case None => s
    case Some(u) => if u.key in owned && !Skipped(rule, s, u) then Apply(s, u.effect) else s
  }

  /** The inner `forEach` over one tier's upgrades. */
  function ReplayEntries(rule: KeyRule, s: State, owned: set<string>, es: seq<Option<Upgrade>>): State
    decreases |es|
  {
    if es == [] then s else ReplayEntries(rule, ReplayStep(rule, s, owned, es[0]), owned, es[1..])
  }

  /** The outer `forEach` over `tierData`. */
  function ReplayTiers(rule: KeyRule, s: State, owned: set<string>, ts: seq<TierEntry>): State
    decreases |ts|
  {
    if ts == [] then s else ReplayTiers(rule, ReplayEntries(rule, s, owned, ts[0].upgrades), owned, ts[1..])
  }

  /** `!saved.gameState.resources?.nibble`: no nibble entry, or a zero one. */
  predicate Incomplete(x: SavedGame) {
    !(x.resources.Some? && Nibble in x.resources.value && x.resources.value[Nibble] != 0.0)
  }

  /**
   * `resetGame()` once confirmed: the defaults assigned over each section.
   * The fields without a default (conversion counts, byte-bonus flag,
   * unlocks, the rest of `meta`) keep their value; the page reload that
   * follows is not modelled.
   */
  function Reset(s: State): State {
    s.(resources := ZeroLedger(),
       generation := s.generation.(manualGain := 1.0, bitGenAmount := 0.0, clickCounter := 0,
                                   clickBonusActive := false, nibbleBoostEnabled := false, nibbleShift := false),
       systems := MergeSystems(s.systems, NoSystems()),
       meta := s.meta.(prestigeCurrency := 0.0, totalCycles := 0.0, processingPower := 0.0,
                       speed := 1.0, memory := 16.0, storageSlots := 1.0),
       upgrades := s.upgrades.(owned := {}))
  }

  /** `resetGame()`: nothing happens unless the player confirms. */
  function ResetGame(s: State, confirmed: bool): State {
    if confirmed then Reset(s) else s
  }

  /** The generation amounts the replayed effects build up, back at their defaults. */
  function Restarted(m: State): State {
    m.(generation := m.generation.(manualGain := 1.0, bitGenAmount := 0.0))
  }

  /**
   * A load of save `x` over the tier table `ts`: merge, replay the owned
   * upgrades with the toggle keys of `rule` (from the restarted amounts when
   * `restart` holds), then reset an incomplete save or apply the part
   * bonuses.
   */
  function LoadOver(rule: KeyRule, restart: bool, ts: seq<TierEntry>, s: State, x: SavedGame, confirmed: bool): State {
    var m := Merged(s, x);
    var r := ReplayTiers(rule, if restart then Restarted(m) else m, m.upgrades.owned, ts);
    if Incomplete(x) then ResetGame(r, confirmed) else WithBonuses(r)
  }

  /** `loadGame()` as the source writes it. */
  function LoadedAsWritten(s: State, saved: Option<SavedGame>, confirmed: bool): State {
    match saved
    case None => s
    case Some(x) => LoadOver(AsWritten, false, Tiers(), s, x, confirmed)
  }

  /**
   * `loadGame()` as evidently intended: the replay checks each Assembler's
   * own toggle key, and the two generation amounts the replayed effects
   * build up restart from their defaults before the replay.
   */
  function Loaded(s: State, saved: Option<SavedGame>, confirmed: bool): State {
    match saved
    case None => s
    case Some(x) => LoadOver(Intended, true, Tiers(), s, x, confirmed)
  }

  // ---------------------------------------------------------------------------
  // What the replay leaves alone

  /** The parts of the store no upgrade effect writes. */
  predicate EffectsKeep(a: State, b: State) {
    && a.resources == b.resources
    && a.meta == b.meta
    && a.upgrades.owned == b.upgrades.owned
    && a.pending == b.pending
    && a.generation.clickCounter == b.generation.clickCounter
    && a.generation.conversionCounts == b.generation.conversionCounts
    && a.systems.revealedTiers == b.systems.revealedTiers
    && a.systems.autoTradeBatches == b.systems.autoTradeBatches
    && a.systems.globalConversionSpeed == b.systems.globalConversionSpeed
    && a.systems.unlocks == b.systems.unlocks
  }

  /** No upgrade effect touches the balances, the rig, the owned set or the fields `EffectsKeep` names. */
  lemma ApplyKeeps(s: State, e: Effect)
    ensures EffectsKeep(Apply(s, e), s)
  {
    match e
    case ToggleFeature(f) =>
    case ConditionalToggle(f, c) =>
    case _ =>
  }

  lemma {:induction false} ReplayEntriesKeep(rule: KeyRule, s: State, owned: set<string>, es: seq<Option<Upgrade>>)
    decreases |es|
    ensures EffectsKeep(ReplayEntries(rule, s, owned, es), s)
  {
    if es != [] {
      if es[0].Some? {
        ApplyKeeps(s, es[0].value.effect);
      }
      ReplayEntriesKeep(rule, ReplayStep(rule, s, owned, es[0]), owned, es[1..]);
    }
  }

  lemma {:induction false} ReplayTiersKeep(rule: KeyRule, s: State, owned: set<string>, ts: seq<TierEntry>)
    decreases |ts|
    ensures EffectsKeep(ReplayTiers(rule, s, owned, ts), s)
  {
    if ts != [] {
      var next := ReplayEntries(rule, s, owned, ts[0].upgrades);
      ReplayEntriesKeep(rule, s, owned, ts[0].upgrades);
      ReplayTiersKeep(rule, next, owned, ts[1..]);
    }
  }

  /**
   * What a load `r` of a snapshot of `s` restores: the balances, the owned
   * set, the prestige stats, the installed parts with refreshed totals, the
   * conversion counts, the click counter, the revealed tiers and the trade
   * batches. An absent conversion speed comes back as 1000.
   */
  ghost predicate Restores(r: State, s: State) {
    && r.resources == s.resources
    && r.upgrades.owned == s.upgrades.owned
    && r.meta.prestigeCurrency == s.meta.prestigeCurrency && r.meta.totalCycles == s.meta.totalCycles
    && r.meta.computingPrestigeCount == s.meta.computingPrestigeCount
    && r.meta.processingPower == s.meta.processingPower && r.meta.speed == s.meta.speed
    && r.meta.memory == s.meta.memory && r.meta.storageSlots == s.meta.storageSlots
    && r.meta.computingTabUnlocked == s.meta.computingTabUnlocked
    && r.meta.installedParts == s.meta.installedParts
    && r.meta.display == Some(PartBonuses(s.meta.(passiveYield := r.meta.passiveYield, display := r.meta.display)))
    && r.generation.conversionCounts == s.generation.conversionCounts
    && r.generation.clickCounter == s.generation.clickCounter
    && r.systems.revealedTiers == s.systems.revealedTiers
    && r.systems.autoTradeBatches == s.systems.autoTradeBatches
    && r.systems.globalConversionSpeed == Some(s.systems.globalConversionSpeed.GetOr(1000.0))
  }

  /**
   * Saving and then loading restores what `Restores` lists, both as the
   * source loads and as intended (a save always holds nibbles here, so no
   * reset).
   */
  lemma SaveLoadRoundTrip(s0: State, s: State, owned: seq<string>, confirmed: bool)
    requires ListsOnce(owned, s.upgrades.owned)
    requires s.resources.Complete() && s.resources.Get(Nibble) != 0.0
    ensures Restores(LoadedAsWritten(s0, Some(Save(s, owned)), confirmed), s)
    ensures Restores(Loaded(s0, Some(Save(s, owned)), confirmed), s)
  {
    RoundTripOver(AsWritten, false, s0, s, owned, confirmed, Tiers());
    RoundTripOver(Intended, true, s0, s, owned, confirmed, Tiers());
  }

  /** The round trip for either key rule, with or without the restart, over any tier table. */
  lemma RoundTripOver(rule: KeyRule, restart: bool, s0: State, s: State, owned: seq<string>, confirmed: bool,
                      ts: seq<TierEntry>)
    requires ListsOnce(owned, s.upgrades.owned)
    requires s.resources.Complete() && s.resources.Get(Nibble) != 0.0
    ensures Restores(LoadOver(rule, restart, ts, s0, Save(s, owned), confirmed), s)
  {
    var x := Save(s, owned);
    var m := Merged(s0, x);
    LedgerExt(m.resources, s.resources);
    assert m.upgrades.owned == s.upgrades.owned;
    ReplayTiersKeep(rule, if restart then Restarted(m) else m, m.upgrades.owned, ts);
  }

  /** A load with nothing saved changes nothing. */
  lemma NothingSaved(s: State, confirmed: bool)
    ensures LoadedAsWritten(s, None, confirmed) == s
    ensures Loaded(s, None, confirmed) == s
  {
  }

  /**
   * The hooks registered before a load play no part in it: the registry is
   * emptied before the replay, so each keyed hook is registered afresh, once.
   */
  lemma LoadForgetsHooks(s: State, hooks: seq<Hook>, keys: set<string>, x: SavedGame, confirmed: bool)
    ensures var s' := s.(systems := s.systems.(passiveHooks := hooks, passiveHookKeys := keys));
      LoadedAsWritten(s', Some(x), confirmed) == LoadedAsWritten(s, Some(x), confirmed)
    ensures var s' := s.(systems := s.systems.(passiveHooks := hooks, passiveHookKeys := keys));
      Loaded(s', Some(x), confirmed) == Loaded(s, Some(x), confirmed)
  {
    var s' := s.(systems := s.systems.(passiveHooks := hooks, passiveHookKeys := keys));
    assert Merged(s', x) == Merged(s, x);
  }

  /**
   * What a load `r` of the save `x` holds when `x` has no nibbles: once
   * confirmed, the reset after the replay; otherwise the replayed store,
   * owning exactly the saved keys, without the rig refresh.
   */
  ghost predicate ResetAfterReplay(r: State, x: SavedGame, confirmed: bool) {
    && (confirmed ==> (forall t :: r.resources.Get(t) == 0.0) && r.upgrades.owned == {}
                      && r.meta.prestigeCurrency == 0.0 && r.systems.passiveHooks == [])
    && (!confirmed ==> r.upgrades.owned == set k | k in x.upgrades.GetOr([]))
  }

  /** A save whose nibble balance is missing or zero resets the game, as written and as intended. */
  lemma IncompleteSaveResets(s: State, x: SavedGame, confirmed: bool)
    requires Incomplete(x)
    ensures ResetAfterReplay(LoadedAsWritten(s, Some(x), confirmed), x, confirmed)
    ensures ResetAfterReplay(Loaded(s, Some(x), confirmed), x, confirmed)
  {
    IncompleteOver(AsWritten, false, s, x, confirmed, Tiers());
    IncompleteOver(Intended, true, s, x, confirmed, Tiers());
  }

  lemma IncompleteOver(rule: KeyRule, restart: bool, s: State, x: SavedGame, confirmed: bool, ts: seq<TierEntry>)
    requires Incomplete(x)
    ensures ResetAfterReplay(LoadOver(rule, restart, ts, s, x, confirmed), x, confirmed)
  {
    var m := Merged(s, x);
    ReplayTiersKeep(rule, if restart then Restarted(m) else m, m.upgrades.owned, ts);
  }

  /**
   * A confirmed reset leaves the sections it resets where a new game
   * starts them, and keeps the conversion counts and the byte-bonus flag.
   */
  lemma ResetMatchesDefaults(s: State)
    ensures var r, i := ResetGame(s, true), Initial();
      && r.resources == i.resources
      && r.upgrades.owned == i.upgrades.owned
      && r.generation == i.generation.(byteBonusEnabled := s.generation.byteBonusEnabled,
                                       conversionCounts := s.generation.conversionCounts)
      && r.systems == i.systems.(globalConversionSpeed := Some(1000.0), unlocks := s.systems.unlocks)
      && r.meta.prestigeCurrency == i.meta.prestigeCurrency && r.meta.totalCycles == i.meta.totalCycles
      && r.meta.processingPower == i.meta.processingPower && r.meta.speed == i.meta.speed
      && r.meta.memory == i.meta.memory && r.meta.storageSlots == i.meta.storageSlots
    ensures ResetGame(s, false) == s
  {
  }

  // ---------------------------------------------------------------------------
  // Which entries the replay runs

  /** An owned set meets a list of entries only in the listed keys `listed`. */
  predicate AgreeOn(es: seq<Option<Upgrade>>, owned: set<string>, other: set<string>) {
    forall i :: 0 <= i < |es| && es[i].Some? ==> (es[i].value.key in owned <==> es[i].value.key in other)
  }

  lemma {:induction false} ReplayEntriesAgree(rule: KeyRule, s: State, owned: set<string>, other: set<string>,
                                              es: seq<Option<Upgrade>>)
    decreases |es|
    requires AgreeOn(es, owned, other)
    ensures ReplayEntries(rule, s, owned, es) == ReplayEntries(rule, s, other, es)
  {
    if es != [] {
      assert ReplayStep(rule, s, owned, es[0]) == ReplayStep(rule, s, other, es[0]);
      assert AgreeOn(es[1..], owned, other) by {
        forall i | 0 <= i < |es[1..]| && es[1..][i].Some?
          ensures es[1..][i].value.key in owned <==> es[1..][i].value.key in other
        {
          assert es[1..][i] == es[i + 1];
        }
      }
      ReplayEntriesAgree(rule, ReplayStep(rule, s, owned, es[0]), owned, other, es[1..]);
    }
  }

  lemma {:induction false} ReplayTiersAgree(rule: KeyRule, s: State, owned: set<string>, other: set<string>,
                                            ts: seq<TierEntry>)
    decreases |ts|
    requires forall a :: 0 <= a < |ts| ==> AgreeOn(ts[a].upgrades, owned, other)
    ensures ReplayTiers(rule, s, owned, ts) == ReplayTiers(rule, s, other, ts)
  {
    if ts != [] {
      ReplayEntriesAgree(rule, s, owned, other, ts[0].upgrades);
      assert forall a :: 0 <= a < |ts[1..]| ==> ts[1..][a] == ts[a + 1];
      ReplayTiersAgree(rule, ReplayEntries(rule, s, owned, ts[0].upgrades), owned, other, ts[1..]);
    }
  }

  /** A key some tier lists. */
  predicate Listed(key: string) {
    exists a, j :: 0 <= a < 8 && 0 <= j < |Schemas()[a].upgrades| && Schemas()[a].upgrades[j] == key
  }

  /**
   * Only upgrades the tiers list are replayed: owning a key no tier lists,
   * such as `bitOverclocker` or one of the generators, changes nothing.
   */
  lemma ReplayIgnoresUnlisted(rule: KeyRule, s: State, owned: set<string>, key: string)
    requires !Listed(key)
    ensures ReplayTiers(rule, s, owned + {key}, Tiers()) == ReplayTiers(rule, s, owned, Tiers())
  {
    forall a | 0 <= a < |Tiers()| ensures AgreeOn(Tiers()[a].upgrades, owned + {key}, owned) {
      UnlistedAgreeTier(owned, key, a);
    }
    ReplayTiersAgree(rule, s, owned + {key}, owned, Tiers());
  }

  /** A key no tier lists is not the key of any entry of tier `a`. */
  lemma UnlistedAgreeTier(owned: set<string>, key: string, a: nat)
    requires !Listed(key) && a < |Tiers()|
    ensures AgreeOn(Tiers()[a].upgrades, owned + {key}, owned)
  {
    SchemaOrder();
    forall j | 0 <= j < |Tiers()[a].upgrades| && Tiers()[a].upgrades[j].Some?
      ensures Tiers()[a].upgrades[j].value.key != key
    {
      TierEntryDefined(a, j);
    }
  }

  /** `bitOverclocker` is defined but listed by no tier. */
  lemma OverclockerUnlisted()
    ensures !Listed("bitOverclocker")
  {
    SchemaOrder();
    forall a, j | 0 <= a < 8 && 0 <= j < |Schemas()[a].upgrades|
      ensures Schemas()[a].upgrades[j] != "bitOverclocker"
    {
      GeneratorsUnlisted(0, a, j);
    }
  }

  // ---------------------------------------------------------------------------
  // The Assembler skip

  /** The keys the toggles can hold: a pair's key, or a pair's key with `_max`. */
  predicate IsToggleKey(k: string) {
    exists f: Tier, t: Tier :: k == ConvertKey(f, t) || k == ConvertKey(f, t) + "_max"
  }

  predicate ToggleKeysShaped(s: State) {
    forall k :: k in s.systems.autoConvertToggles.values ==> IsToggleKey(k)
  }

  /** A plural key `"<a>_to_<b>"` is neither a pair's key nor a pair's `_max` key. */
  lemma PluralNotToggleKey(a: string, b: string)
    requires '_' !in a && '_' !in b && |b| > 0 && b[|b| - 1] == 's'
    requires forall t: Tier :: TierName(t) != a
    ensures !IsToggleKey(a + "_to_" + b)
  {
    var k := a + "_to_" + b;
    Engine.PairSplitTiers(a, b);
    forall f: Tier, t: Tier ensures k != ConvertKey(f, t) && k != ConvertKey(f, t) + "_max" {
      Engine.ConvertKeyParts(f, t);
      var m := ConvertKey(f, t) + "_max";
      assert m[|m| - 1] == 'x';
      assert k[|k| - 1] == 's';
    }
  }

  /** The keys the source derives for the three Assemblers are never toggle keys. */
  lemma AsWrittenKeysNeverToggles(key: string)
    requires ReplayKey(AsWritten, key).Some?
    ensures !IsToggleKey(ReplayKey(AsWritten, key).value)
  {
    if key == "byteAssembler" {
      NibblesToBytesNotToggle();
    } else if key == "kiloAssembler" {
      BytesToKilobytesNotToggle();
    } else {
      KilobytesToMegabytesNotToggle();
    }
  }

  lemma NibblesToBytesNotToggle()
    ensures !IsToggleKey("nibbles_to_bytes")
  {
    assert "nibbles_to_bytes" == "nibbles" + "_to_" + "bytes";
    PluralNotToggleKey("nibbles", "bytes");
  }

  lemma BytesToKilobytesNotToggle()
    ensures !IsToggleKey("bytes_to_kilobytes")
  {
    assert "bytes_to_kilobytes" == "bytes" + "_to_" + "kilobytes";
    PluralNotToggleKey("bytes", "kilobytes");
  }

  lemma KilobytesToMegabytesNotToggle()
    ensures !IsToggleKey("kilobytes_to_megabytes")
  {
    assert "kilobytes_to_megabytes" == "kilobytes" + "_to_" + "megabytes";
    PluralNotToggleKey("kilobytes", "megabytes");
  }

  /**
   * As written, an owned Assembler is never skipped while the toggles hold
   * only pair keys, so its effect runs and a paused toggle comes back on.
   */
  lemma AsWrittenResumesPaused(s: State, owned: set<string>, u: Upgrade, f: Tier, t: Tier, n: real)
    requires ToggleKeysShaped(s) && u.key in owned
    requires ReplayKey(AsWritten, u.key).Some? && u.effect == AutoConvert(f, t, n)
    requires s.systems.autoConvertToggles.Get(ConvertKey(f, t)) == Some(false)
    ensures ReplayStep(AsWritten, s, owned, Some(u)).systems.autoConvertToggles.Get(ConvertKey(f, t)) == Some(true)
  {
    AsWrittenKeysNeverToggles(u.key);
  }

  /** With the intended key, an Assembler whose toggle exists is passed over: a paused toggle stays paused. */
  lemma IntendedKeepsPaused(s: State, owned: set<string>, u: Upgrade, f: Tier, t: Tier, n: real)
    requires ReplayKey(Intended, u.key) == Some(ConvertKey(f, t)) && u.effect == AutoConvert(f, t, n)
    requires ConvertKey(f, t) in s.systems.autoConvertToggles.values
    ensures ReplayStep(Intended, s, owned, Some(u)) == s
  {
  }

  /** The intended key of each Assembler is the toggle its own effect writes. */
  lemma AssemblersWriteTheirKey(a: nat)
    requires 2 <= a <= 4
    ensures |TierList(a)| > 0
    ensures |TierList(a)| > 0 && var u := TierList(a)[0];
      u.effect.AutoConvert? && ReplayKey(Intended, u.key) == Some(ConvertKey(u.effect.from, u.effect.to))
      && ReplayKey(AsWritten, u.key).Some?
  {
    if a == 2 {
      AssemblerKey(ByteTier()[0]);
    } else if a == 3 {
      AssemblerKey(KiloTier()[0]);
    } else {
      AssemblerKey(MegaTier()[0]);
    }
  }

  lemma AssemblerKey(u: Upgrade)
    requires u.key in {"byteAssembler", "kiloAssembler", "megaAssembler"}
    requires u.effect.AutoConvert?
    requires u.key == "byteAssembler" ==> u.effect.from == Nibble && u.effect.to == Byte
    requires u.key == "kiloAssembler" ==> u.effect.from == Byte && u.effect.to == Kilobyte
    requires u.key == "megaAssembler" ==> u.effect.from == Kilobyte && u.effect.to == Megabyte
    ensures u.effect.AutoConvert? && ReplayKey(Intended, u.key) == Some(ConvertKey(u.effect.from, u.effect.to))
    ensures ReplayKey(AsWritten, u.key).Some?
  {
  }

  // ---------------------------------------------------------------------------
  // The generation amounts on reload

  lemma {:induction false} EntriesUnowned(rule: KeyRule, s: State, owned: set<string>, es: seq<Option<Upgrade>>)
    decreases |es|
    requires forall i :: 0 <= i < |es| && es[i].Some? ==> es[i].value.key !in owned
    ensures ReplayEntries(rule, s, owned, es) == s
  {
    if es != [] {
      EntriesUnowned(rule, s, owned, es[1..]);
    }
  }

  lemma {:induction false} TiersUnowned(rule: KeyRule, s: State, owned: set<string>, ts: seq<TierEntry>)
    decreases |ts|
    requires forall a, i :: 0 <= a < |ts| && 0 <= i < |ts[a].upgrades| && ts[a].upgrades[i].Some?
               ==> ts[a].upgrades[i].value.key !in owned
    ensures ReplayTiers(rule, s, owned, ts) == s
  {
    if ts != [] {
      EntriesUnowned(rule, s, owned, ts[0].upgrades);
      TiersUnowned(rule, s, owned, ts[1..]);
    }
  }

  /** With one owned entry, at the front of the first tier and not skipped, the replay runs that effect alone. */
  lemma OnlyFirstOwned(rule: KeyRule, s: State, owned: set<string>, ts: seq<TierEntry>, u: Upgrade)
    requires |ts| > 0 && |ts[0].upgrades| > 0 && ts[0].upgrades[0] == Some(u)
    requires u.key in owned && !Skipped(rule, s, u)
    requires forall a, i :: (0 <= a < |ts| && 0 <= i < |ts[a].upgrades| && ts[a].upgrades[i].Some?
                             && (a, i) != (0, 0)) ==> ts[a].upgrades[i].value.key !in owned
    ensures ReplayTiers(rule, s, owned, ts) == Apply(s, u.effect)
  {
    var es := ts[0].upgrades;
    var next := Apply(s, u.effect);
    assert ReplayStep(rule, s, owned, es[0]) == next;
    EntriesUnowned(rule, next, owned, es[1..]);
    TiersUnowned(rule, next, owned, ts[1..]);
  }

  /** `bitDoubler` is the first entry of the replay and no other entry carries its key. */
  lemma DoublerFirst()
    ensures |Tiers()| == 8 && |Tiers()[0].upgrades| > 0
    ensures Tiers()[0].upgrades[0] == Some(Upgrade("bitDoubler", 5.0, AddManualGain(1.0)))
    ensures forall a, i :: (0 <= a < 8 && 0 <= i < |Tiers()[a].upgrades| && Tiers()[a].upgrades[i].Some?
                            && (a, i) != (0, 0)) ==> Tiers()[a].upgrades[i].value.key != "bitDoubler"
  {
    SchemaOrder();
    TierEntryDefined(0, 0);
    forall a, i | 0 <= a < 8 && 0 <= i < |Tiers()[a].upgrades| && Tiers()[a].upgrades[i].Some? && (a, i) != (0, 0)
      ensures Tiers()[a].upgrades[i].value.key != "bitDoubler"
    {
      TierEntryDefined(a, i);
      if Schemas()[a].upgrades[i] == "bitDoubler" {
        ListedOnce(a, i, 0, 0);
      }
    }
  }

  /** Replaying a store that owns only `bitDoubler` adds one to the manual gain and leaves the rest of the generation. */
  lemma ReplayDoublerOnly(rule: KeyRule, m: State)
    requires m.upgrades.owned == {"bitDoubler"}
    ensures var r := ReplayTiers(rule, m, m.upgrades.owned, Tiers());
      r.generation == m.generation.(manualGain := m.generation.manualGain + 1.0)
  {
    DoublerFirst();
    DoublerAlone(rule, m, Tiers());
  }

  lemma DoublerAlone(rule: KeyRule, m: State, ts: seq<TierEntry>)
    requires m.upgrades.owned == {"bitDoubler"}
    requires |ts| == 8 && |ts[0].upgrades| > 0
    requires ts[0].upgrades[0] == Some(Upgrade("bitDoubler", 5.0, AddManualGain(1.0)))
    requires forall a, i :: (0 <= a < 8 && 0 <= i < |ts[a].upgrades| && ts[a].upgrades[i].Some?
                             && (a, i) != (0, 0)) ==> ts[a].upgrades[i].value.key != "bitDoubler"
    ensures ReplayTiers(rule, m, m.upgrades.owned, ts).generation
         == m.generation.(manualGain := m.generation.manualGain + 1.0)
  {
    OnlyFirstOwned(rule, m, m.upgrades.owned, ts, Upgrade("bitDoubler", 5.0, AddManualGain(1.0)));
  }

  /** The store `Save` then `Merged` build for a save that owns only `bitDoubler`. */
  lemma MergedDoublerSave(s0: State, s: State)
    requires s.upgrades.owned == {"bitDoubler"} && s.resources.Get(Nibble) != 0.0
    ensures var x := Save(s, ["bitDoubler"]);
      && !Incomplete(x)
      && Merged(s0, x).upgrades.owned == {"bitDoubler"}
      && Merged(s0, x).generation.manualGain == s.generation.manualGain
  {
  }

  /**
   * As written, every reload of a save that owns only `bitDoubler` adds
   * one more to the manual gain: the saved gain already counts the upgrade,
   * and the replay counts it again.
   */
  lemma AsWrittenReloadCompounds(s0: State, s: State, confirmed: bool)
    requires s.upgrades.owned == {"bitDoubler"} && s.resources.Get(Nibble) != 0.0
    ensures LoadedAsWritten(s0, Some(Save(s, ["bitDoubler"])), confirmed).generation.manualGain
            == s.generation.manualGain + 1.0
  {
    var x := Save(s, ["bitDoubler"]);
    MergedDoublerSave(s0, s);
    ReplayDoublerOnly(AsWritten, Merged(s0, x));
  }

  /**
   * With the amounts restarted, reloading a save that owns only
   * `bitDoubler` gives the gain one purchase of it gives a new game, 2,
   * however often the save is reloaded.
   */
  lemma IntendedReloadStable(s0: State, s: State, confirmed: bool)
    requires s.upgrades.owned == {"bitDoubler"} && s.resources.Get(Nibble) != 0.0
    ensures Loaded(s0, Some(Save(s, ["bitDoubler"])), confirmed).generation.manualGain == 2.0
  {
    var x := Save(s, ["bitDoubler"]);
    MergedDoublerSave(s0, s);
    var m := Merged(s0, x);
    ReplayDoublerOnly(Intended, Restarted(m));
  }

  /** With the amounts restarted, the saved manual gain and generation rate play no part in a load. */
  lemma IntendedIgnoresSavedAmounts(s: State, x: SavedGame, p: GenerationPatch, confirmed: bool)
    requires x.generation.Some?
    requires p == x.generation.value.(manualGain := p.manualGain, bitGenAmount := p.bitGenAmount)
    ensures Loaded(s, Some(x.(generation := Some(p))), confirmed) == Loaded(s, Some(x), confirmed)
  {
    RestartIgnoresAmounts(s, x, p, confirmed, Tiers());
  }

  lemma RestartIgnoresAmounts(s: State, x: SavedGame, p: GenerationPatch, confirmed: bool, ts: seq<TierEntry>)
    requires x.generation.Some?
    requires p == x.generation.value.(manualGain := p.manualGain, bitGenAmount := p.bitGenAmount)
    ensures LoadOver(Intended, true, ts, s, x.(generation := Some(p)), confirmed) == LoadOver(Intended, true, ts, s, x, confirmed)
  {
    var m, m' := Merged(s, x), Merged(s, x.(generation := Some(p)));
    assert Restarted(m') == Restarted(m);
  }

  // ---------------------------------------------------------------------------
  // The live store

  /** `saveGame()`: the snapshot of the live store, listing the owned set in some order. */
  method SaveGame(g: Game, ui: UiRenderer.Renderer) returns (x: SavedGame)
    modifies ui
    ensures ui.pending
    ensures x.upgrades.Some? && ListsOnce(x.upgrades.value, g.upgrades.owned)
    ensures x == Save(g.Snapshot(), x.upgrades.value)
  {
    var rest := g.upgrades.owned;
    var list: seq<string> := [];
    while rest != {}
      invariant rest <= g.upgrades.owned
      invariant Distinct(list)
      invariant forall k :: k in list <==> k in g.upgrades.owned && k !in rest
      decreases rest
    {
      var k :| k in rest;
      list := list + [k];
      rest := rest - {k};
    }
    x := Save(g.Snapshot(), list);
    ui.RequestTierUpdate();
  }

  /** `loadGame()` on the live store, as the source writes it. */
  method LoadGame(g: Game, ui: UiRenderer.Renderer, saved: Option<SavedGame>, confirmed: bool)
    modifies g, ui
    ensures g.Snapshot() == LoadedAsWritten(old(g.Snapshot()), saved, confirmed)
    ensures ui.pending == (old(ui.pending) || (saved.Some? && !Incomplete(saved.value)))
  {
    if saved.None? {
      return;
    }
    LoadOverTiers(g, ui, saved.value, confirmed, Tiers());
  }

  /** The body of `loadGame()` for a present save `x`, replaying the tier table `ts`. */
  method LoadOverTiers(g: Game, ui: UiRenderer.Renderer, x: SavedGame, confirmed: bool, ts: seq<TierEntry>)
    modifies g, ui
    ensures g.Snapshot() == LoadOver(AsWritten, false, ts, old(g.Snapshot()), x, confirmed)
    ensures ui.pending == (old(ui.pending) || !Incomplete(x))
  {
    ghost var m := Merged(g.Snapshot(), x);
    g.resources := MergeResources(x.resources.GetOr(map[]));
    g.generation := MergeGeneration(g.generation, x.generation.GetOr(NoGeneration()));
    g.systems := MergeSystems(g.systems, x.systems.GetOr(NoSystems()));
    g.meta := MergeMeta(g.meta, x.meta.GetOr(NoMeta()));
    RestoreOwned(g, x.upgrades.GetOr([]));
    assert g.Snapshot() == m;
    ReplayOwned(g, ts);
    if Incomplete(x) {
      DoResetGame(g, confirmed);
    } else {
      ApplyPartBonuses(g);
      ui.RequestTierUpdate();
    }
  }

  /** `owned.clear()`, then `owned.add(key)` for each saved key. */
  method RestoreOwned(g: Game, keys: seq<string>)
    modifies g
    ensures g.Snapshot() == old(g.Snapshot()).(upgrades := old(g.upgrades).(owned := set k | k in keys))
  {
    g.upgrades := g.upgrades.(owned := {});
    var i := 0;
    while i < |keys|
      invariant 0 <= i <= |keys|
      invariant g.upgrades.owned == set k | k in keys[..i]
      invariant g.Snapshot() == old(g.Snapshot()).(upgrades := old(g.upgrades).(owned := g.upgrades.owned))
    {
      assert keys[..i + 1] == keys[..i] + [keys[i]];
      g.upgrades := g.upgrades.(owned := g.upgrades.owned + {keys[i]});
      i := i + 1;
    }
    assert keys[..i] == keys;
  }

  /** The nested `forEach` over `tierData` and each tier's upgrades. */
  method ReplayOwned(g: Game, tiers: seq<TierEntry>)
    modifies g
    ensures g.Snapshot() == ReplayTiers(AsWritten, old(g.Snapshot()), old(g.upgrades.owned), tiers)
  {
    var owned := g.upgrades.owned;
    var a := 0;
    while a < |tiers|
      invariant 0 <= a <= |tiers|
      invariant ReplayTiers(AsWritten, g.Snapshot(), owned, tiers[a..])
             == ReplayTiers(AsWritten, old(g.Snapshot()), owned, tiers)
    {
      assert tiers[a..][1..] == tiers[a + 1..];
      ReplayTier(g, owned, tiers[a].upgrades);
      a := a + 1;
    }
  }

  /** One tier's entries: each owned one runs unless it is an Assembler whose toggle exists. */
  method ReplayTier(g: Game, owned: set<string>, es: seq<Option<Upgrade>>)
    modifies g
    ensures g.Snapshot() == ReplayEntries(AsWritten, old(g.Snapshot()), owned, es)
  {
    var j := 0;
    while j < |es|
      invariant 0 <= j <= |es|
      invariant ReplayEntries(AsWritten, g.Snapshot(), owned, es[j..])
             == ReplayEntries(AsWritten, old(g.Snapshot()), owned, es)
    {
      assert es[j..][1..] == es[j + 1..];
      var e := es[j];
      if e.Some? && e.value.key in owned {
        var k := ReplayKey(AsWritten, e.value.key);
        if !(k.Some? && k.value in g.systems.autoConvertToggles.values) {
          Invoke(g, e.value.effect);
        }
      }
      j := j + 1;
    }
  }

  /** `resetGame()` on the live store. */
  method DoResetGame(g: Game, confirmed: bool)
    modifies g
    ensures g.Snapshot() == ResetGame(old(g.Snapshot()), confirmed)
  {
    if !confirmed {
      return;
    }
    g.resources := ZeroLedger();
    g.generation := g.generation.(manualGain := 1.0, bitGenAmount := 0.0, clickCounter := 0,
                                  clickBonusActive := false, nibbleBoostEnabled := false, nibbleShift := false);
    g.systems := MergeSystems(g.systems, NoSystems());
    g.meta := g.meta.(prestigeCurrency := 0.0, totalCycles := 0.0, processingPower := 0.0,
                      speed := 1.0, memory := 16.0, storageSlots := 1.0);
    g.upgrades := g.upgrades.(owned := {});
  }
}
