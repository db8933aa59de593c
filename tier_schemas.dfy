/**
 * The tier table (scripts/data/tiers/tierSchemas.js): for each tier, in
 * order, its resource key, display name, reveal threshold and the keys of
 * the upgrades shown (and replayed on load) for it.
 */
module TierSchemas {
  import opened Utils
  import opened UpgradeEffects
  import opened UpgradeDefinitions

  datatype TierSchema = TierSchema(key: string, name: string, threshold: real, upgrades: seq<string>)

  /** `tierSchemas`. */
  function Schemas(): seq<TierSchema> {
    [ TierSchema("bit", "Bit", 0.0,
        ["bitDoubler", "bitAutoClicker", "clickBonus", "bitAmplifier", "pulseShaper"]),
      TierSchema("nibble", "Nibble", 100.0,
        ["nibbleCombiner", "nibbleEfficiency", "nibbleConvertMax", "nibbleAutoMax", "nibbleBoost",
         "nibbleShift"]),
      TierSchema("byte", "Byte", 100.0,
        ["byteAssembler", "byteEfficiency", "byteConvertMax", "byteAutoMax", "byteCache", "byteBonus"]),
      TierSchema("kilobyte", "Kilobyte", 1000.0,
        ["kiloAssembler", "kiloEfficiency", "kiloConvertMax", "kiloAutoMax", "threadOptimizer",
         "quantumBuffer"]),
      TierSchema("megabyte", "Megabyte", 1000.0,
        ["megaAssembler", "megaEfficiency", "megabyteConvertMax", "megabyteAutoMax", "compileDaemon",
         "coreParallel"]),
      TierSchema("gigabyte", "Gigabyte", 1000.0,
        ["gigaSynthesizer", "gigaEfficiency", "gigabyteConvertMax", "gigabyteAutoMax",
         "gigaframeCompressor"]),
      TierSchema("terabyte", "Terabyte", 1000.0,
        ["teraCompiler", "terabyteConvertMax", "terabyteAutoMax", "terafluxBooster", "coreReactor"]),
      TierSchema("petabyte", "Petabyte", 1000.0,
        ["petawriter", "petabyteConvertMax", "petabyteAutoMax", "dataCondenser", "hyperscalarEngine"]) ]
  }

  /**
   * How many entries of tier `a`'s upgrade list its schema shows: all six
   * for nibble, every entry but the last (the generator) elsewhere.
   */
  function ListedCount(a: nat): nat
    requires a < 8
  {
    if a == 0 then 5 else if a <= 4 then 6 else 5
  }

  /**
   * The keys tier `a`'s schema lists are those of the first
   * `ListedCount(a)` entries of its upgrade list, which is every entry for
   * nibble and all but the last elsewhere.
   */
  predicate ListsPrefix(a: nat)
    requires a < 8
  {
    && |Schemas()| == 8
    && ListedCount(a) <= |TierList(a)|
    && (a != 1 ==> ListedCount(a) == |TierList(a)| - 1)
    && (a == 1 ==> ListedCount(a) == |TierList(a)|)
    && Schemas()[a].upgrades == Keys(TierList(a)[..ListedCount(a)])
  }

  lemma BitListsPrefix(a: nat) requires a == 0 ensures ListsPrefix(a) {}
  lemma NibbleListsPrefix(a: nat) requires a == 1 ensures ListsPrefix(a) {}
  lemma ByteListsPrefix(a: nat) requires a == 2 ensures ListsPrefix(a) {}
  lemma KiloListsPrefix(a: nat) requires a == 3 ensures ListsPrefix(a) {}
  lemma MegaListsPrefix(a: nat) requires a == 4 ensures ListsPrefix(a) {}
  lemma GigaListsPrefix(a: nat) requires a == 5 ensures ListsPrefix(a) {}
  lemma TeraListsPrefix(a: nat) requires a == 6 ensures ListsPrefix(a) {}
  lemma PetaListsPrefix(a: nat) requires a == 7 ensures ListsPrefix(a) {}

  /** Every schema lists a prefix of its tier's upgrade list, in the same order. */
  lemma SchemaListsPrefix(a: nat)
    requires a < 8
    ensures ListsPrefix(a)
  {
    if a == 0 { BitListsPrefix(a); }
    else if a == 1 { NibbleListsPrefix(a); }
    else if a == 2 { ByteListsPrefix(a); }
    else if a == 3 { KiloListsPrefix(a); }
    else if a == 4 { MegaListsPrefix(a); }
    else if a == 5 { GigaListsPrefix(a); }
    else if a == 6 { TeraListsPrefix(a); }
    else { PetaListsPrefix(a); }
  }

  /**
   * Eight tiers in the order of `RESOURCE_WEIGHTS`, each keyed by its
   * resource name; bit is revealed from the start and thresholds never
   * decrease along the list.
   */
  lemma SchemaOrder()
    ensures |Schemas()| == 8
    ensures forall a :: 0 <= a < 8 ==> Schemas()[a].key == TierName(AllTiers()[a])
    ensures Schemas()[0].threshold == 0.0 && Schemas()[1].threshold == 100.0
    ensures forall a, b :: 0 <= a <= b < 8 ==> Schemas()[a].threshold <= Schemas()[b].threshold
  {
  }

  /**
   * Every key a schema lists is defined, and the definition is the entry
   * at the same position of that tier's upgrade list.
   */
  lemma ListedKeysDefined(a: nat, i: nat)
    requires a < 8 && i < |Schemas()[a].upgrades|
    ensures i < |TierList(a)| && Schemas()[a].upgrades[i] in Definitions()
    ensures Definitions()[Schemas()[a].upgrades[i]] == TierList(a)[i]
  {
    SchemaListsPrefix(a);
    ListedIsDefined(a, i);
  }

  /** No key is listed by two tiers, nor twice by one. */
  lemma ListedOnce(a: nat, i: nat, b: nat, j: nat)
    requires a < 8 && b < 8
    requires i < |Schemas()[a].upgrades| && j < |Schemas()[b].upgrades|
    requires Schemas()[a].upgrades[i] == Schemas()[b].upgrades[j]
    ensures a == b && i == j
  {
    SchemaListsPrefix(a);
    SchemaListsPrefix(b);
    var la, lb := TierList(a), TierList(b);
    if a < b {
      TiersApart(a, b);
    } else if b < a {
      TiersApart(b, a);
    } else {
      TierWellFormed(a);
      assert Keys(la[..ListedCount(a)])[i] == la[i].key;
      assert Keys(la[..ListedCount(a)])[j] == la[j].key;
    }
  }

  /** Keys drawn from the prefixes of two lists with no key in common differ. */
  lemma PrefixKeysApart(la: seq<Upgrade>, lb: seq<Upgrade>, na: nat, nb: nat, i: nat, j: nat)
    requires Apart(la, lb) && na <= |la| && nb <= |lb| && i < na && j < nb
    ensures Keys(la[..na])[i] != Keys(lb[..nb])[j]
  {
    assert Keys(la[..na])[i] == la[i].key;
    assert Keys(lb[..nb])[j] == lb[j].key;
  }

  /**
   * The upgrade after each schema's listed prefix, which is the last of its
   * tier list (bitOverclocker, byteBitGenerator and the five generators),
   * is listed by no schema, so it is never shown or replayed. Nibble lists
   * its whole tier.
   */
  lemma GeneratorsUnlisted(a: nat, b: nat, j: nat)
    requires a < 8 && a != 1 && b < 8 && j < |Schemas()[b].upgrades|
    ensures ListedCount(a) == |TierList(a)| - 1
    ensures Schemas()[b].upgrades[j] != TierList(a)[ListedCount(a)].key
  {
    SchemaListsPrefix(a);
    if a == b {
      TierWellFormed(a);
      UnlistedInOwnTier(TierList(a), ListedCount(a), j);
    } else {
      GeneratorUnlistedElsewhere(a, b, j);
    }
  }

  /** The entry after a prefix of a list with no repeated key is not a key of the prefix. */
  lemma UnlistedInOwnTier(l: seq<Upgrade>, n: nat, j: nat)
    requires UniqueKeys(l) && j < n < |l|
    ensures Keys(l[..n])[j] != l[n].key
  {
    assert Keys(l[..n])[j] == l[j].key;
  }

  /** The generator of tier `a` is not listed by the schema of another tier `b`. */
  lemma GeneratorUnlistedElsewhere(a: nat, b: nat, j: nat)
    requires a < 8 && b < 8 && a != b && j < |Schemas()[b].upgrades|
    requires ListedCount(a) < |TierList(a)|
    ensures Schemas()[b].upgrades[j] != TierList(a)[ListedCount(a)].key
  {
    SchemaListsPrefix(b);
    var la, lb, n := TierList(a), TierList(b), ListedCount(a);
    if a < b {
      TiersApart(a, b);
      PrefixKeysApart(la, lb, |la|, ListedCount(b), n, j);
    } else {
      TiersApart(b, a);
      PrefixKeysApart(lb, la, ListedCount(b), |la|, j, n);
    }
  }

  /** Above bit, a tier's first listed upgrade auto-converts from the tier below into that tier. */
  lemma FirstListedConvertsInto(a: nat)
    requires 0 < a < 8
    ensures |Schemas()[a].upgrades| > 0 && Schemas()[a].upgrades[0] in Definitions()
    ensures var e := Definitions()[Schemas()[a].upgrades[0]].effect;
      e.AutoConvert? && TierName(e.to) == Schemas()[a].key && Index(e.from) + 1 == a
  {
    SchemaListsPrefix(a);
    ListedKeysDefined(a, 0);
    AutoConvertsAdjacent(a);
    SchemaOrder();
    AllTiersComplete(TierList(a)[0].effect.to);
  }
}
