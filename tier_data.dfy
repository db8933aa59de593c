/**
 * The tiers with their upgrade definitions attached
 * (scripts/data/tiers/tierData.js).
 */
module TierData {
  import opened Wrappers
  import opened UpgradeDefinitions
  import opened TierSchemas

  /** A schema whose key list has been replaced by the definitions; `None` where a key is undefined. */
  datatype TierEntry = TierEntry(key: string, name: string, threshold: real, upgrades: seq<Option<Upgrade>>)

  /** `upgradeDefinitions[key]`. */
  function Lookup(defs: map<string, Upgrade>, key: string): (r: Option<Upgrade>)
    ensures r.Some? <==> key in defs
    ensures r.Some? ==> r.value == defs[key]
  {
    if key in defs then Some(defs[key]) else None
  }

  /** `{...tier, upgrades: tier.upgrades.map(key => upgradeDefinitions[key])}`. */
  function Attach(schema: TierSchema, defs: map<string, Upgrade>): (t: TierEntry)
    ensures t.key == schema.key && t.name == schema.name && t.threshold == schema.threshold
    ensures |t.upgrades| == |schema.upgrades|
    ensures forall j :: 0 <= j < |t.upgrades| ==> t.upgrades[j] == Lookup(defs, schema.upgrades[j])
  {
    TierEntry(schema.key, schema.name, schema.threshold,
         seq(|schema.upgrades|, j requires 0 <= j < |schema.upgrades| => Lookup(defs, schema.upgrades[j])))
  }

  /** `tierSchemas.map(...)`: one entry per schema, in order. */
  function Join(schemas: seq<TierSchema>, defs: map<string, Upgrade>): (r: seq<TierEntry>)
    ensures |r| == |schemas|
    ensures forall i :: 0 <= i < |r| ==> r[i] == Attach(schemas[i], defs)
  {
    seq(|schemas|, i requires 0 <= i < |schemas| => Attach(schemas[i], defs))
  }

  /** `tierData`. */
  function Tiers(): seq<TierEntry> {
    Join(Schemas(), Definitions())
  }

  /**
   * Entry `j` of tier `a` is defined: it is the upgrade stored under the
   * listed key, which is entry `j` of that tier's upgrade list.
   */
  lemma TierEntryDefined(a: nat, j: nat)
    requires a < 8 && j < |Schemas()[a].upgrades|
    ensures |Tiers()| == 8 && |Tiers()[a].upgrades| == |Schemas()[a].upgrades|
    ensures Tiers()[a].key == Schemas()[a].key && Tiers()[a].threshold == Schemas()[a].threshold
    ensures j < |TierList(a)| && Tiers()[a].upgrades[j] == Some(TierList(a)[j])
    ensures Tiers()[a].upgrades[j].value.key == Schemas()[a].upgrades[j]
  {
    ListedKeysDefined(a, j);
  }
}
