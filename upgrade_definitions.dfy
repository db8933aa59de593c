/**
 * The upgrade catalog (scripts/data/upgrades/upgradeDefinitions.js): eight
 * per-tier lists of (key, cost, effect), concatenated in tier order and
 * turned into an object keyed by each upgrade's own key.
 */
module UpgradeDefinitions {
  import opened Wrappers
  import opened Utils
  import opened OrderedMaps
  import opened UpgradeEffects
  import opened RealMath
  import opened GameState
  import opened UpgradeTemplates

  /**
   * `createUpgrade(key, desc, cost, effect)`. Descriptions are display text;
   * the one place that reads them, the save replay, is modelled with
   * `SaveManager.ReplayKey`.
   */
  datatype Upgrade = Upgrade(key: string, cost: real, effect: Effect)

  function BitTier(): seq<Upgrade> {
    [ Upgrade("bitDoubler", 5.0, AddManualGain(1.0)),
      Upgrade("bitAutoClicker", 10.0, AddBitGen(0.05)),
      Upgrade("clickBonus", 20.0, ToggleFeature(ClickBonusActive)),
      Upgrade("bitAmplifier", 40.0, ScaleManualGain(2.0)),
      Upgrade("pulseShaper", 60.0, ScaleBitGen(1.25)),
      Upgrade("bitOverclocker", 80.0, AddBitGen(1.0)) ]
  }

  function NibbleTier(): seq<Upgrade> {
    [ Upgrade("nibbleCombiner", 75.0, AutoConvert(Bit, Nibble, 4.0)),
      Upgrade("nibbleEfficiency", 100.0, BonusYield(Nibble, 1.25)),
      Upgrade("nibbleConvertMax", 120.0, UnlockConvertMax("bit_to_nibble")),
      Upgrade("nibbleAutoMax", 140.0, UnlockAutoMax("bit_to_nibble")),
      Upgrade("nibbleBoost", 160.0, ToggleFeature(NibbleBoostEnabled)),
      Upgrade("nibbleShift", 200.0, ConversionBonus(Nibble, Byte, 10, 1.0)) ]
  }

  function ByteTier(): seq<Upgrade> {
    [ Upgrade("byteAssembler", 250.0, AutoConvert(Nibble, Byte, 2.0)),
      Upgrade("byteEfficiency", 300.0, BonusYield(Byte, 1.25)),
      Upgrade("byteConvertMax", 350.0, UnlockConvertMax("nibble_to_byte")),
      Upgrade("byteAutoMax", 400.0, UnlockAutoMax("nibble_to_byte")),
      Upgrade("byteCache", 450.0, GlobalMultiplierBoost(0.2)),
      Upgrade("byteBonus", 500.0, ScalingBoost(Byte, 0.001)),
      Upgrade("byteBitGenerator", 600.0, AddBitGen(2.0)) ]
  }

  function KiloTier(): seq<Upgrade> {
    [ Upgrade("kiloAssembler", 600.0, AutoConvert(Byte, Kilobyte, 1024.0)),
      Upgrade("kiloEfficiency", 700.0, BonusYield(Kilobyte, 1.15)),
      Upgrade("kiloConvertMax", 750.0, UnlockConvertMax("byte_to_kilobyte")),
      Upgrade("kiloAutoMax", 800.0, UnlockAutoMax("byte_to_kilobyte")),
      Upgrade("threadOptimizer", 850.0, ScalingBoost(Kilobyte, 0.00075)),
      Upgrade("quantumBuffer", 950.0, GlobalMultiplierBoost(0.1)),
      Upgrade("kiloNibbleGenerator", 1000.0,
              PassiveEffect(AddResourceHook(Nibble, 2.0), Some("kiloNibbleGenerator"))) ]
  }

  function MegaTier(): seq<Upgrade> {
    [ Upgrade("megaAssembler", 1200.0, AutoConvert(Kilobyte, Megabyte, 1024.0)),
      Upgrade("megaEfficiency", 1400.0, BonusYield(Megabyte, 1.15)),
      Upgrade("megabyteConvertMax", 1600.0, UnlockConvertMax("kilobyte_to_megabyte")),
      Upgrade("megabyteAutoMax", 1800.0, UnlockAutoMax("kilobyte_to_megabyte")),
      Upgrade("compileDaemon", 2000.0, BonusYield(Megabyte, 1.25)),
      Upgrade("coreParallel", 2200.0, ScalingBoost(Megabyte, 0.0015)),
      Upgrade("megaByteGenerator", 2500.0,
              PassiveEffect(AddResourceHook(Byte, 2.0), Some("megaByteGenerator"))) ]
  }

  function GigaTier(): seq<Upgrade> {
    [ Upgrade("gigaSynthesizer", 3000.0, AutoConvert(Megabyte, Gigabyte, 1024.0)),
      Upgrade("gigaEfficiency", 3500.0, BonusYield(Gigabyte, 1.2)),
      Upgrade("gigabyteConvertMax", 4000.0, UnlockConvertMax("megabyte_to_gigabyte")),
      Upgrade("gigabyteAutoMax", 4500.0, UnlockAutoMax("megabyte_to_gigabyte")),
      Upgrade("gigaframeCompressor", 4800.0,
              PassiveEffect(AddPrestigeHook(0.5), Some("gigaframeCompressor"))),
      Upgrade("gigaKilobyteGenerator", 5200.0,
              PassiveEffect(AddResourceHook(Kilobyte, 2.0), Some("gigaKilobyteGenerator"))) ]
  }

  function TeraTier(): seq<Upgrade> {
    [ Upgrade("teraCompiler", 6000.0, AutoConvert(Gigabyte, Terabyte, 1024.0)),
      Upgrade("terabyteConvertMax", 7000.0, UnlockConvertMax("gigabyte_to_terabyte")),
      Upgrade("terabyteAutoMax", 8000.0, UnlockAutoMax("gigabyte_to_terabyte")),
      Upgrade("terafluxBooster", 8500.0, BonusYield(Terabyte, 1.25)),
      Upgrade("coreReactor", 9000.0, BonusYield(Terabyte, 1.35)),
      Upgrade("teraMegabyteGenerator", 9500.0,
              PassiveEffect(AddResourceHook(Megabyte, 2.0), Some("teraMegabyteGenerator"))) ]
  }

  function PetaTier(): seq<Upgrade> {
    [ Upgrade("petawriter", 10000.0, AutoConvert(Terabyte, Petabyte, 1024.0)),
      Upgrade("petabyteConvertMax", 11000.0, UnlockConvertMax("terabyte_to_petabyte")),
      Upgrade("petabyteAutoMax", 12500.0, UnlockAutoMax("terabyte_to_petabyte")),
      Upgrade("dataCondenser", 13500.0, BonusYield(Petabyte, 1.3)),
      Upgrade("hyperscalarEngine", 15000.0,
              PassiveEffect(AddPrestigeHook(1.0), Some("hyperscalarEngine"))),
      Upgrade("petaGigabyteGenerator", 16000.0,
              PassiveEffect(AddResourceHook(Gigabyte, 2.0), Some("petaGigabyteGenerator"))) ]
  }

  /** `[...bitTier, ..., ...petaTier]` before spreading: the eight lists in tier order. */
  function TierLists(): (ls: seq<seq<Upgrade>>)
    ensures |ls| == 8
    ensures forall a :: 0 <= a < 8 ==> ls[a] == TierList(a)
  {
    seq(8, a requires 0 <= a < 8 => TierList(a))
  }

  /** The list of the tier at position `a` of the tier order. */
  function TierList(a: nat): seq<Upgrade>
    requires a < 8
  {
    if a == 0 then BitTier() else if a == 1 then NibbleTier() else if a == 2 then ByteTier()
    else if a == 3 then KiloTier() else if a == 4 then MegaTier() else if a == 5 then GigaTier()
    else if a == 6 then TeraTier() else PetaTier()
  }

  /** The lists spread one after another. */
  function Flatten(ls: seq<seq<Upgrade>>): seq<Upgrade> {
    if ls == [] then [] else ls[0] + Flatten(ls[1..])
  }

  /** `allUpgrades`. */
  function AllUpgrades(): seq<Upgrade> {
    Flatten(TierLists())
  }

  /** The keys of a list of upgrades, in order. */
  function Keys(us: seq<Upgrade>): (ks: seq<string>)
    ensures |ks| == |us|
    ensures forall i :: 0 <= i < |us| ==> ks[i] == us[i].key
  {
    seq(|us|, i requires 0 <= i < |us| => us[i].key)
  }

  /**
   * `Object.fromEntries(...)`: each upgrade under its key, a later entry
   * replacing an earlier one with the same key.
   */
  function FromEntries(us: seq<Upgrade>): (m: map<string, Upgrade>)
    ensures forall k :: k in m <==> k in Keys(us)
    ensures forall k :: k in m ==> m[k].key == k
  {
    if us == [] then map[]
    else
      var m := FromEntries(us[..|us| - 1]);
      assert Keys(us) == Keys(us[..|us| - 1]) + [us[|us| - 1].key];
      m[us[|us| - 1].key := us[|us| - 1]]
  }

  /** `upgradeDefinitions`. */
  function Definitions(): map<string, Upgrade> {
    FromEntries(AllUpgrades())
  }

  /** With no key repeated, the object holds each listed upgrade under its key. */
  lemma {:induction false} FromEntriesDistinct(us: seq<Upgrade>, i: nat)
    requires UniqueKeys(us)
    requires i < |us|
    ensures us[i].key in FromEntries(us) && FromEntries(us)[us[i].key] == us[i]
    decreases |us|
  {
    var n := |us| - 1;
    if i < n {
      FromEntriesDistinct(us[..n], i);
    }
  }

  /** No key appears twice in `us`. */
  predicate UniqueKeys(us: seq<Upgrade>) {
    forall i, j :: 0 <= i < j < |us| ==> us[i].key != us[j].key
  }

  /** No key of `xs` is also a key of `ys`. */
  predicate Apart(xs: seq<Upgrade>, ys: seq<Upgrade>) {
    forall i, j :: 0 <= i < |xs| && 0 <= j < |ys| ==> xs[i].key != ys[j].key
  }

  /** A list apart from each of several lists is apart from their concatenation. */
  lemma {:induction false} ApartFromFlatten(xs: seq<Upgrade>, ls: seq<seq<Upgrade>>)
    requires forall b :: 0 <= b < |ls| ==> Apart(xs, ls[b])
    ensures Apart(xs, Flatten(ls))
    decreases |ls|
  {
    if ls != [] {
      ApartFromFlatten(xs, ls[1..]);
      assert Apart(xs, ls[0]);
    }
  }

  /**
   * Lists with no repeated key that are pairwise apart concatenate to a list
   * with no repeated key.
   */
  lemma {:induction false} FlattenDistinct(ls: seq<seq<Upgrade>>)
    requires forall a :: 0 <= a < |ls| ==> UniqueKeys(ls[a])
    requires forall a, b :: 0 <= a < b < |ls| ==> Apart(ls[a], ls[b])
    ensures UniqueKeys(Flatten(ls))
    decreases |ls|
  {
    if ls != [] {
      var head, rest := ls[0], Flatten(ls[1..]);
      FlattenDistinct(ls[1..]);
      ApartFromFlatten(head, ls[1..]);
      assert UniqueKeys(head) && Apart(head, rest);
      forall i, j | 0 <= i < j < |head + rest| ensures (head + rest)[i].key != (head + rest)[j].key {
        if j < |head| {
          assert head[i].key != head[j].key;
        } else if i >= |head| {
          assert rest[i - |head|].key != rest[j - |head|].key;
        }
      }
    }
  }

  /** Every entry of every list appears in the concatenation. */
  lemma {:induction false} InFlatten(ls: seq<seq<Upgrade>>, a: nat, j: nat)
    requires a < |ls| && j < |ls[a]|
    ensures exists i :: 0 <= i < |Flatten(ls)| && Flatten(ls)[i] == ls[a][j]
    decreases a
  {
    if a == 0 {
      assert Flatten(ls)[j] == ls[0][j];
    } else {
      InFlatten(ls[1..], a - 1, j);
      var i :| 0 <= i < |Flatten(ls[1..])| && Flatten(ls[1..])[i] == ls[a][j];
      assert Flatten(ls)[|ls[0]| + i] == ls[a][j];
    }
  }

  /**
   * What each tier list promises: no key twice, costs strictly increasing
   * from one entry to the next, and, above bit, the opening described by
   * `OpensWithConversion`.
   */
  predicate WellFormedTier(a: nat, l: seq<Upgrade>)
    requires a < 8
  {
    UniqueKeys(l) && CostsRise(l) && (a > 0 ==> OpensWithConversion(a, l))
  }

  /** Each entry costs more than the one before it. */
  predicate CostsRise(l: seq<Upgrade>) {
    forall k :: 0 <= k < |l| - 1 ==> l[k].cost < l[k + 1].cost
  }

  /**
   * The list opens with an auto-convert upgrade from the tier below into
   * tier `a` whose amount is the exchange rate between them, and its Convert
   * Max and Auto-Convert Max upgrades name that same conversion.
   */
  predicate OpensWithConversion(a: nat, l: seq<Upgrade>)
    requires 0 < a < 8
  {
    var f, t := AllTiers()[a - 1], AllTiers()[a];
    && AutoMaxAt(a) < |l|
    && l[0].effect == AutoConvert(f, t, TierRate(f, t))
    && l[AutoMaxAt(a) - 1].effect == UnlockConvertMax(ConvertKey(f, t))
    && l[AutoMaxAt(a)].effect == UnlockAutoMax(ConvertKey(f, t))
  }

  /** Where the Auto-Convert Max upgrade sits: third in the tiers with no efficiency upgrade second, fourth otherwise. */
  function AutoMaxAt(a: nat): nat
    requires 0 < a < 8
  {
    if a >= 6 then 2 else 3
  }

  // Each literal list is checked one property at a time, then the three
  // facts are restated about `TierList(a)`.
  lemma BitKeysUnique() ensures UniqueKeys(BitTier()) {}
  lemma BitCostsRise() ensures CostsRise(BitTier()) {}
  lemma BitTierWellFormed(a: nat) requires a == 0 ensures WellFormedTier(a, TierList(a)) {
    BitKeysUnique(); BitCostsRise();
  }

  lemma NibbleKeysUnique() ensures UniqueKeys(NibbleTier()) {}
  lemma NibbleCostsRise() ensures CostsRise(NibbleTier()) {}
  lemma NibbleOpens() ensures OpensWithConversion(1, NibbleTier()) {
    assert ConvertKey(Bit, Nibble) == "bit_to_nibble";
  }
  lemma NibbleTierWellFormed(a: nat) requires a == 1 ensures WellFormedTier(a, TierList(a)) {
    NibbleKeysUnique(); NibbleCostsRise(); NibbleOpens();
  }

  lemma ByteKeysUnique() ensures UniqueKeys(ByteTier()) {}
  lemma ByteCostsRise() ensures CostsRise(ByteTier()) {}
  lemma ByteOpens() ensures OpensWithConversion(2, ByteTier()) {
    assert ConvertKey(Nibble, Byte) == "nibble_to_byte";
  }
  lemma ByteTierWellFormed(a: nat) requires a == 2 ensures WellFormedTier(a, TierList(a)) {
    ByteKeysUnique(); ByteCostsRise(); ByteOpens();
  }

  lemma KiloKeysUnique() ensures UniqueKeys(KiloTier()) {}
  lemma KiloCostsRise() ensures CostsRise(KiloTier()) {}
  lemma KiloOpens() ensures OpensWithConversion(3, KiloTier()) {
    assert ConvertKey(Byte, Kilobyte) == "byte_to_kilobyte";
  }
  lemma KiloTierWellFormed(a: nat) requires a == 3 ensures WellFormedTier(a, TierList(a)) {
    KiloKeysUnique(); KiloCostsRise(); KiloOpens();
  }

  lemma MegaKeysUnique() ensures UniqueKeys(MegaTier()) {}
  lemma MegaCostsRise() ensures CostsRise(MegaTier()) {}
  lemma MegaOpens() ensures OpensWithConversion(4, MegaTier()) {
    assert ConvertKey(Kilobyte, Megabyte) == "kilobyte_to_megabyte";
  }
  lemma MegaTierWellFormed(a: nat) requires a == 4 ensures WellFormedTier(a, TierList(a)) {
    MegaKeysUnique(); MegaCostsRise(); MegaOpens();
  }

  lemma GigaKeysUnique() ensures UniqueKeys(GigaTier()) {}
  lemma GigaCostsRise() ensures CostsRise(GigaTier()) {}
  lemma GigaOpens() ensures OpensWithConversion(5, GigaTier()) {
    assert ConvertKey(Megabyte, Gigabyte) == "megabyte_to_gigabyte";
  }
  lemma GigaTierWellFormed(a: nat) requires a == 5 ensures WellFormedTier(a, TierList(a)) {
    GigaKeysUnique(); GigaCostsRise(); GigaOpens();
  }

  lemma TeraKeysUnique() ensures UniqueKeys(TeraTier()) {}
  lemma TeraCostsRise() ensures CostsRise(TeraTier()) {}
  lemma TeraOpens() ensures OpensWithConversion(6, TeraTier()) {
    assert ConvertKey(Gigabyte, Terabyte) == "gigabyte_to_terabyte";
  }
  lemma TeraTierWellFormed(a: nat) requires a == 6 ensures WellFormedTier(a, TierList(a)) {
    TeraKeysUnique(); TeraCostsRise(); TeraOpens();
  }

  lemma PetaKeysUnique() ensures UniqueKeys(PetaTier()) {}
  lemma PetaCostsRise() ensures CostsRise(PetaTier()) {}
  lemma PetaOpens() ensures OpensWithConversion(7, PetaTier()) {
    assert ConvertKey(Terabyte, Petabyte) == "terabyte_to_petabyte";
  }
  lemma PetaTierWellFormed(a: nat) requires a == 7 ensures WellFormedTier(a, TierList(a)) {
    PetaKeysUnique(); PetaCostsRise(); PetaOpens();
  }

  /** Every tier list is well formed. */
  lemma TierWellFormed(a: nat)
    requires a < 8
    ensures WellFormedTier(a, TierList(a))
  {
    if a == 0 { BitTierWellFormed(a); }
    else if a == 1 { NibbleTierWellFormed(a); }
    else if a == 2 { ByteTierWellFormed(a); }
    else if a == 3 { KiloTierWellFormed(a); }
    else if a == 4 { MegaTierWellFormed(a); }
    else if a == 5 { GigaTierWellFormed(a); }
    else if a == 6 { TeraTierWellFormed(a); }
    else { PetaTierWellFormed(a); }
  }

  // Keys of different tiers differ: each lemma compares two literal lists.
  lemma BitNibbleApart(a: nat, b: nat) requires a == 0 && b == 1 ensures Apart(TierList(a), TierList(b)) {}
  lemma BitByteApart(a: nat, b: nat) requires a == 0 && b == 2 ensures Apart(TierList(a), TierList(b)) {}
  lemma BitKiloApart(a: nat, b: nat) requires a == 0 && b == 3 ensures Apart(TierList(a), TierList(b)) {}
  lemma BitMegaApart(a: nat, b: nat) requires a == 0 && b == 4 ensures Apart(TierList(a), TierList(b)) {}
  lemma BitGigaApart(a: nat, b: nat) requires a == 0 && b == 5 ensures Apart(TierList(a), TierList(b)) {}
  lemma BitTeraApart(a: nat, b: nat) requires a == 0 && b == 6 ensures Apart(TierList(a), TierList(b)) {}
  lemma BitPetaApart(a: nat, b: nat) requires a == 0 && b == 7 ensures Apart(TierList(a), TierList(b)) {}
  lemma NibbleByteApart(a: nat, b: nat) requires a == 1 && b == 2 ensures Apart(TierList(a), TierList(b)) {}
  lemma NibbleKiloApart(a: nat, b: nat) requires a == 1 && b == 3 ensures Apart(TierList(a), TierList(b)) {}
  lemma NibbleMegaApart(a: nat, b: nat) requires a == 1 && b == 4 ensures Apart(TierList(a), TierList(b)) {}
  lemma NibbleGigaApart(a: nat, b: nat) requires a == 1 && b == 5 ensures Apart(TierList(a), TierList(b)) {}
  lemma NibbleTeraApart(a: nat, b: nat) requires a == 1 && b == 6 ensures Apart(TierList(a), TierList(b)) {}
  lemma NibblePetaApart(a: nat, b: nat) requires a == 1 && b == 7 ensures Apart(TierList(a), TierList(b)) {}
  lemma ByteKiloApart(a: nat, b: nat) requires a == 2 && b == 3 ensures Apart(TierList(a), TierList(b)) {}
  lemma ByteMegaApart(a: nat, b: nat) requires a == 2 && b == 4 ensures Apart(TierList(a), TierList(b)) {}
  lemma ByteGigaApart(a: nat, b: nat) requires a == 2 && b == 5 ensures Apart(TierList(a), TierList(b)) {}
  lemma ByteTeraApart(a: nat, b: nat) requires a == 2 && b == 6 ensures Apart(TierList(a), TierList(b)) {}
  lemma BytePetaApart(a: nat, b: nat) requires a == 2 && b == 7 ensures Apart(TierList(a), TierList(b)) {}
  lemma KiloMegaApart(a: nat, b: nat) requires a == 3 && b == 4 ensures Apart(TierList(a), TierList(b)) {}
  lemma KiloGigaApart(a: nat, b: nat) requires a == 3 && b == 5 ensures Apart(TierList(a), TierList(b)) {}
  lemma KiloTeraApart(a: nat, b: nat) requires a == 3 && b == 6 ensures Apart(TierList(a), TierList(b)) {}
  lemma KiloPetaApart(a: nat, b: nat) requires a == 3 && b == 7 ensures Apart(TierList(a), TierList(b)) {}
  lemma MegaGigaApart(a: nat, b: nat) requires a == 4 && b == 5 ensures Apart(TierList(a), TierList(b)) {}
  lemma MegaTeraApart(a: nat, b: nat) requires a == 4 && b == 6 ensures Apart(TierList(a), TierList(b)) {}
  lemma MegaPetaApart(a: nat, b: nat) requires a == 4 && b == 7 ensures Apart(TierList(a), TierList(b)) {}
  lemma GigaTeraApart(a: nat, b: nat) requires a == 5 && b == 6 ensures Apart(TierList(a), TierList(b)) {}
  lemma GigaPetaApart(a: nat, b: nat) requires a == 5 && b == 7 ensures Apart(TierList(a), TierList(b)) {}
  lemma TeraPetaApart(a: nat, b: nat) requires a == 6 && b == 7 ensures Apart(TierList(a), TierList(b)) {}

  /** Distinct tiers list distinct keys. */
  lemma TiersApart(a: nat, b: nat)
    requires a < b < 8
    ensures Apart(TierList(a), TierList(b))
  {
    if a == 0 && b == 1 { BitNibbleApart(a, b); }
    else if a == 0 && b == 2 { BitByteApart(a, b); }
    else if a == 0 && b == 3 { BitKiloApart(a, b); }
    else if a == 0 && b == 4 { BitMegaApart(a, b); }
    else if a == 0 && b == 5 { BitGigaApart(a, b); }
    else if a == 0 && b == 6 { BitTeraApart(a, b); }
    else if a == 0 && b == 7 { BitPetaApart(a, b); }
    else if a == 1 && b == 2 { NibbleByteApart(a, b); }
    else if a == 1 && b == 3 { NibbleKiloApart(a, b); }
    else if a == 1 && b == 4 { NibbleMegaApart(a, b); }
    else if a == 1 && b == 5 { NibbleGigaApart(a, b); }
    else if a == 1 && b == 6 { NibbleTeraApart(a, b); }
    else if a == 1 && b == 7 { NibblePetaApart(a, b); }
    else if a == 2 && b == 3 { ByteKiloApart(a, b); }
    else if a == 2 && b == 4 { ByteMegaApart(a, b); }
    else if a == 2 && b == 5 { ByteGigaApart(a, b); }
    else if a == 2 && b == 6 { ByteTeraApart(a, b); }
    else if a == 2 && b == 7 { BytePetaApart(a, b); }
    else if a == 3 && b == 4 { KiloMegaApart(a, b); }
    else if a == 3 && b == 5 { KiloGigaApart(a, b); }
    else if a == 3 && b == 6 { KiloTeraApart(a, b); }
    else if a == 3 && b == 7 { KiloPetaApart(a, b); }
    else if a == 4 && b == 5 { MegaGigaApart(a, b); }
    else if a == 4 && b == 6 { MegaTeraApart(a, b); }
    else if a == 4 && b == 7 { MegaPetaApart(a, b); }
    else if a == 5 && b == 6 { GigaTeraApart(a, b); }
    else if a == 5 && b == 7 { GigaPetaApart(a, b); }
    else { TeraPetaApart(a, b); }
  }

  /** Upgrade keys are unique across all tiers, so no definition shadows another. */
  lemma KeysUnique()
    ensures UniqueKeys(AllUpgrades())
  {
    var ls := TierLists();
    forall a | 0 <= a < |ls| ensures UniqueKeys(ls[a]) {
      TierWellFormed(a);
    }
    forall a, b | 0 <= a < b < |ls| ensures Apart(ls[a], ls[b]) {
      TiersApart(a, b);
    }
    FlattenDistinct(ls);
  }

  /**
   * Every definition is stored under its own key; the definition stored
   * under a tier list's key is that very list entry.
   */
  lemma ListedIsDefined(a: nat, j: nat)
    requires a < 8 && j < |TierList(a)|
    ensures TierList(a)[j].key in Definitions()
    ensures Definitions()[TierList(a)[j].key] == TierList(a)[j]
  {
    InFlatten(TierLists(), a, j);
    var i :| 0 <= i < |AllUpgrades()| && AllUpgrades()[i] == TierList(a)[j];
    KeysUnique();
    FromEntriesDistinct(AllUpgrades(), i);
  }

  /** Within each tier list, costs strictly increase. */
  lemma CostsIncrease(a: nat, i: nat, j: nat)
    requires a < 8 && i < j < |TierList(a)|
    ensures TierList(a)[i].cost < TierList(a)[j].cost
  {
    TierWellFormed(a);
    AdjacentIncreaseChains(TierList(a), i, j);
  }

  /** Costs increasing between neighbours increase between any two positions. */
  lemma {:induction false} AdjacentIncreaseChains(l: seq<Upgrade>, i: nat, j: nat)
    requires CostsRise(l)
    requires i < j < |l|
    ensures l[i].cost < l[j].cost
    decreases j - i
  {
    if i + 1 < j {
      AdjacentIncreaseChains(l, i + 1, j);
    }
  }

  /** The definition stored under `k` is entry `j` of tier list `a`. */
  lemma DefinedAs(a: nat, j: nat, k: string)
    requires a < 8 && j < |TierList(a)| && TierList(a)[j].key == k
    ensures k in Definitions() && Definitions()[k] == TierList(a)[j]
  {
    ListedIsDefined(a, j);
  }

  /**
   * Above bit, each tier's opening upgrade auto-converts from the tier just
   * below into it at the exchange rate between the two, and its Convert Max
   * and Auto-Convert Max upgrades name that same conversion.
   */
  lemma AutoConvertsAdjacent(a: nat)
    requires 0 < a < 8
    ensures AutoMaxAt(a) < |TierList(a)|
    ensures var l := TierList(a);
      && l[0].effect.AutoConvert?
      && Index(l[0].effect.from) + 1 == Index(l[0].effect.to) == a
      && ConversionRate(TierName(l[0].effect.from), TierName(l[0].effect.to)) == Some(l[0].effect.amount)
      && l[AutoMaxAt(a) - 1].effect == UnlockConvertMax(ConvertKey(l[0].effect.from, l[0].effect.to))
      && l[AutoMaxAt(a)].effect == UnlockAutoMax(ConvertKey(l[0].effect.from, l[0].effect.to))
  {
    TierWellFormed(a);
    var f, t := AllTiers()[a - 1], AllTiers()[a];
    RateOf(f, t);
  }

  /**
   * Buying `megaEfficiency` and then `compileDaemon` leaves the megabyte
   * bonus at 1.25, not 1.15 * 1.25: the second overwrites the first.
   */
  lemma MegabyteBonusOverwritten(s: State)
    requires Megabyte in s.upgrades.conversionBonuses
    ensures MegaTier()[1].key == "megaEfficiency" && MegaTier()[4].key == "compileDaemon"
    ensures Apply(Apply(s, MegaTier()[1].effect), MegaTier()[4].effect).upgrades.conversionBonuses[Megabyte] == 1.25
  {
    BonusYieldOverwrites(s, Megabyte, 1.15, 1.25);
  }

  /** The same for `terafluxBooster` and then `coreReactor`: the terabyte bonus ends at 1.35. */
  lemma TerabyteBonusOverwritten(s: State)
    requires Terabyte in s.upgrades.conversionBonuses
    ensures TeraTier()[3].key == "terafluxBooster" && TeraTier()[4].key == "coreReactor"
    ensures Apply(Apply(s, TeraTier()[3].effect), TeraTier()[4].effect).upgrades.conversionBonuses[Terabyte] == 1.35
  {
    BonusYieldOverwrites(s, Terabyte, 1.25, 1.35);
  }

  /**
   * The hooks that `gigaframeCompressor` and `hyperscalarEngine` register
   * add 0.5 and 1 cycle to the prestige currency each time they run.
   */
  lemma CompressorHooksPayPrestige(s: State, m: Math)
    ensures GigaTier()[4].key == "gigaframeCompressor" && PetaTier()[4].key == "hyperscalarEngine"
    ensures GigaTier()[4].effect.PassiveEffect? && PetaTier()[4].effect.PassiveEffect?
    ensures FireHook(s, GigaTier()[4].effect.hook, m).0.meta.prestigeCurrency == s.meta.prestigeCurrency + 0.5
    ensures FireHook(s, PetaTier()[4].effect.hook, m).0.meta.prestigeCurrency == s.meta.prestigeCurrency + 1.0
  {
  }

  /** `bitAutoClicker` adds exactly 0.05 bits per tick of automatic generation. */
  lemma AutoClickerAddsBitGen(s: State)
    ensures BitTier()[1].key == "bitAutoClicker"
    ensures Apply(s, BitTier()[1].effect).generation.bitGenAmount == s.generation.bitGenAmount + 0.05
  {
  }
}
