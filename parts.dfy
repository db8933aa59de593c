/**
 * The rig parts catalog (scripts/data/parts/parts.js): eight parts, each
 * adding fixed amounts to some of the rig's stats. Names, icons and
 * descriptions are display text and are not modelled.
 */
module Parts {
  import opened Wrappers

  /** The stat keys a part's `effects` object can name. */
  datatype Stat = ProcessingPower | Speed | Memory | StorageSlots

  /** A part: its id and its `effects` entries, in the literal's key order. */
  datatype Part = Part(id: string, effects: seq<(Stat, real)>)

  /** `computerParts`. */
  function Catalog(): seq<Part> {
    [ Part("cpu", [(ProcessingPower, 4.0)]),
      Part("gpu", [(Speed, 0.2)]),
      Part("ram", [(Memory, 8.0)]),
      Part("ssd", [(Speed, 0.1)]),
      Part("psu", [(ProcessingPower, 2.0), (Memory, 2.0)]),
      Part("cooler", [(Speed, 0.15)]),
      Part("network", [(Memory, 4.0), (Speed, 0.1)]),
      Part("mobo", [(ProcessingPower, 2.0), (Speed, 0.2), (Memory, 4.0)]) ]
  }

  /** The ids, in catalog order. */
  function Ids(ps: seq<Part>): (ids: seq<string>)
    ensures |ids| == |ps|
    ensures forall i :: 0 <= i < |ps| ==> ids[i] == ps[i].id
  {
    if ps == [] then [] else [ps[0].id] + Ids(ps[1..])
  }

  /** `computerParts.find(p => p.id === id)`: the first part with that id. */
  function Find(ps: seq<Part>, id: string): (r: Option<Part>)
    ensures r.Some? <==> id in Ids(ps)
    ensures r.Some? ==> r.value in ps && r.value.id == id
  {
    if ps == [] then None
    else if ps[0].id == id then Some(ps[0])
    else Find(ps[1..], id)
  }

  /** The total a list of effect entries adds to one stat. */
  function Amount(es: seq<(Stat, real)>, st: Stat): real {
    if es == [] then 0.0
    else Amount(es[..|es| - 1], st) + (if es[|es| - 1].0 == st then es[|es| - 1].1 else 0.0)
  }

  /** What the part of `ps` with id `id` adds to stat `st`; an id with no part adds nothing. */
  function PartAmount(ps: seq<Part>, id: string, st: Stat): real {
    match Find(ps, id)
    case None => 0.0
    case Some(p) => Amount(p.effects, st)
  }

  predicate Unique(ids: seq<string>) {
    forall i, j :: 0 <= i < j < |ids| ==> ids[i] != ids[j]
  }

  /** No stat is named twice in one `effects` object. */
  predicate StatsDistinct(es: seq<(Stat, real)>) {
    forall i, j :: 0 <= i < j < |es| ==> es[i].0 != es[j].0
  }

  /** Eight parts with distinct ids. */
  lemma CatalogIds()
    ensures |Catalog()| == 8
    ensures Ids(Catalog()) == ["cpu", "gpu", "ram", "ssd", "psu", "cooler", "network", "mobo"]
    ensures Unique(Ids(Catalog()))
  {
    IdList();
    IdsUnique(["cpu", "gpu", "ram", "ssd", "psu", "cooler", "network", "mobo"]);
  }

  lemma IdList()
    ensures |Catalog()| == 8
    ensures Ids(Catalog()) == ["cpu", "gpu", "ram", "ssd", "psu", "cooler", "network", "mobo"]
  {
    var ps := Catalog();
    assert Ids(ps) == [ps[0].id, ps[1].id, ps[2].id, ps[3].id, ps[4].id, ps[5].id, ps[6].id, ps[7].id];
  }

  /** Non-empty ids that differ pairwise in their first letter or their length are distinct. */
  lemma IdsUnique(ids: seq<string>)
    requires forall i :: 0 <= i < |ids| ==> ids[i] != []
    requires forall i, j :: 0 <= i < j < |ids| ==> |ids[i]| != |ids[j]| || ids[i][0] != ids[j][0]
    ensures Unique(ids)
  {
  }

  /** No part has the empty id. */
  lemma NoEmptyId()
    ensures "" !in Ids(Catalog())
  {
    CatalogIds();
  }

  /**
   * Every effect is a distinct stat among processing power, speed and
   * memory, with a strictly positive amount.
   */
  lemma CatalogEffects()
    ensures forall p :: p in Catalog() ==> StatsDistinct(p.effects)
    ensures forall p, e :: p in Catalog() && e in p.effects ==> e.1 > 0.0 && e.0 != StorageSlots
  {
    var ps := Catalog();
    forall p | p in ps
      ensures StatsDistinct(p.effects)
      ensures forall e :: e in p.effects ==> e.1 > 0.0 && e.0 != StorageSlots
    {
      var i :| 0 <= i < 8 && ps[i] == p;
      if i < 4 {
        assert i == 0 || i == 1 || i == 2 || i == 3;
      } else {
        assert i == 4 || i == 5 || i == 6 || i == 7;
      }
    }
  }

  /** No part changes the storage slots, whatever the id. */
  lemma NoPartAddsSlots(id: string)
    ensures PartAmount(Catalog(), id, StorageSlots) == 0.0
  {
    var r := Find(Catalog(), id);
    if r.Some? {
      CatalogEffects();
      NoSlotAmount(r.value.effects);
    }
  }

  /** Entries that never name the storage slots add nothing to them. */
  lemma {:induction false} NoSlotAmount(es: seq<(Stat, real)>)
    requires forall e :: e in es ==> e.0 != StorageSlots
    ensures Amount(es, StorageSlots) == 0.0
  {
    if es != [] {
      NoSlotAmount(es[..|es| - 1]);
    }
  }

  /** With distinct ids, looking a listed part up by its id finds that part. */
  lemma {:induction false} FindListed(ps: seq<Part>, i: nat)
    requires i < |ps| && Unique(Ids(ps))
    ensures Find(ps, ps[i].id) == Some(ps[i])
  {
    if i > 0 {
      assert Ids(ps[1..]) == Ids(ps)[1..];
      assert ps[0].id != ps[i].id by { assert Ids(ps)[0] != Ids(ps)[i]; }
      FindListed(ps[1..], i - 1);
    }
  }

  /** A listed part adds its own entries' amounts. */
  lemma ListedAmount(i: nat, st: Stat)
    requires i < 8
    ensures PartAmount(Catalog(), Catalog()[i].id, st) == Amount(Catalog()[i].effects, st)
  {
    CatalogIds();
    FindListed(Catalog(), i);
  }
}
