/**
 * The program catalog (scripts/data/programs/programDefinitions.js): what
 * each program costs in cycles, which resources it holds as collateral while
 * it runs, how many ticks it runs and what its effect is.
 */
module ProgramDefinitions {
  import opened Wrappers
  import opened Utils
  import opened ProgramTemplates

  /** One entry of `dataRequired`: `amount` of `resource` locked while the program runs. */
  datatype Requirement = Requirement(resource: Tier, amount: real)

  datatype Program = Program(
    key: string,
    name: string,
    cost: real,
    /** In the order the object literal lists the resources. */
    dataRequired: seq<Requirement>,
    /** `null` for a permanent program; counted in ticks by `tickPrograms`. */
    duration: Option<int>,
    effect: ProgramEffect,
    /** `!!permanent`: only a literal `permanent: true` makes it true. */
    permanent: bool)

  /** A JavaScript object has each key once: no resource is required twice. */
  predicate DistinctResources(reqs: seq<Requirement>) {
    forall i, j :: 0 <= i < j < |reqs| ==> reqs[i].resource != reqs[j].resource
  }

  /**
   * `createProgram`: it takes six arguments, so the object it builds has no
   * `permanent` field and any further argument is dropped.
   */
  function CreateProgram(key: string, name: string, cost: real, dataRequired: seq<Requirement>,
                         duration: Option<int>, effect: ProgramEffect): Program {
    Program(key, name, cost, dataRequired, duration, effect, false)
  }

  /** The catalog's keys, in the order the object literal lists them. */
  const OptimizeMemory := "optimizeMemory"
  const UnlockCompiler := "unlockCompiler"
  const AutoYieldDaemon := "autoYieldDaemon"
  const PassiveCompressor := "passiveCompressor"
  const OptimizeRuntime := "optimizeRuntime"
  const MemoryDefragmenter := "memoryDefragmenter"
  const BackgroundEncryptor := "backgroundEncryptor"

  const ProgramKeys: seq<string> := [
    OptimizeMemory, UnlockCompiler, AutoYieldDaemon, PassiveCompressor,
    OptimizeRuntime, MemoryDefragmenter, BackgroundEncryptor]

  /** The catalog's programs, in the order the object literal lists them. */
  function Catalog(): (ps: seq<Program>)
    ensures |ps| == |ProgramKeys|
    ensures forall i :: 0 <= i < |ps| ==> ps[i].key == ProgramKeys[i]
  {
    [
      CreateProgram(
        OptimizeMemory, "Optimize Memory Layout", 10.0,
        [Requirement(Byte, 500.0), Requirement(Nibble, 2000.0)],
        Some(30), GlobalSpeedBoost(0.9)),
      CreateProgram(
        UnlockCompiler, "Enable Compiler Tier", 20.0,
        [Requirement(Kilobyte, 1500.0), Requirement(Byte, 800.0)],
        Some(60), UnlockSystem("compilerUnlocked")),
      CreateProgram(
        AutoYieldDaemon, "Background Yield Script", 15.0,
        [Requirement(Nibble, 2500.0)],
        Some(45), AddPassiveYield(Nibble, 2.0)),
      CreateProgram(
        PassiveCompressor, "Enable Background Compression", 20.0,
        [Requirement(Nibble, 3000.0), Requirement(Byte, 1000.0)],
        Some(60), AddPassiveYield(Byte, 1.0)),
      CreateProgram(
        OptimizeRuntime, "Reduce Execution Lag", 25.0,
        [Requirement(Byte, 2000.0), Requirement(Kilobyte, 800.0)],
        Some(75), GlobalSpeedBoost(0.8)),
      // the seventh argument `false` is dropped by `createProgram`
      CreateProgram(
        MemoryDefragmenter, "Memory Defragmenter", 20.0,
        [Requirement(Byte, 2000.0), Requirement(Kilobyte, 500.0)],
        Some(60), TemporaryBoost("bit", 1.5, 60.0)),
      CreateProgram(
        BackgroundEncryptor, "Background Encryptor", 15.0,
        [Requirement(Nibble, 3000.0), Requirement(Byte, 1000.0)],
        None, AddPassiveYield(Byte, 3.0)).(permanent := true)
    ]
  }

  /**
   * Only the last program is permanent, and it alone has no duration; every
   * cost, duration and collateral amount is positive; no program requires a
   * resource twice; both speed boosts shorten the interval.
   */
  lemma ProgramFacts(i: nat)
    requires i < |Catalog()|
    ensures var p := Catalog()[i];
      && (p.permanent <==> p.key == BackgroundEncryptor)
      && (p.duration.None? <==> p.permanent)
      && (p.duration.Some? ==> p.duration.value > 0)
      && p.cost > 0.0
      && DistinctResources(p.dataRequired)
      && (forall j :: 0 <= j < |p.dataRequired| ==> p.dataRequired[j].amount > 0.0)
      && (p.effect.GlobalSpeedBoost? ==> 0.0 < p.effect.factor < 1.0)
  {
    var c := Catalog();
    if i == 0 { assert c[0].dataRequired == [Requirement(Byte, 500.0), Requirement(Nibble, 2000.0)]; }
    else if i == 1 { assert c[1].dataRequired == [Requirement(Kilobyte, 1500.0), Requirement(Byte, 800.0)]; }
    else if i == 2 { assert c[2].dataRequired == [Requirement(Nibble, 2500.0)]; }
    else if i == 3 { assert c[3].dataRequired == [Requirement(Nibble, 3000.0), Requirement(Byte, 1000.0)]; }
    else if i == 4 { assert c[4].dataRequired == [Requirement(Byte, 2000.0), Requirement(Kilobyte, 800.0)]; }
    else if i == 5 { assert c[5].dataRequired == [Requirement(Byte, 2000.0), Requirement(Kilobyte, 500.0)]; }
    else { assert c[6].dataRequired == [Requirement(Nibble, 3000.0), Requirement(Byte, 1000.0)]; }
  }

  /** The seven keys are different strings. */
  lemma KeysDistinct()
    ensures |ProgramKeys| == 7
    ensures forall i, j :: 0 <= i < j < |ProgramKeys| ==> ProgramKeys[i] != ProgramKeys[j]
  {
  }

  /** `programDefinitions`: each program under its own key. */
  function Definitions(): (c: map<string, Program>)
    ensures forall k :: k in c <==> k in ProgramKeys
    ensures forall i :: 0 <= i < |ProgramKeys| ==> c[ProgramKeys[i]] == Catalog()[i]
  {
    KeysDistinct();
    Keyed(ProgramKeys, Catalog())
  }

  /** The object whose `keys[i]` property holds `vs[i]`. */
  function Keyed<V>(keys: seq<string>, vs: seq<V>): (m: map<string, V>)
    requires |keys| == |vs|
    requires forall i, j :: 0 <= i < j < |keys| ==> keys[i] != keys[j]
    ensures forall k :: k in m <==> k in keys
    ensures forall i :: 0 <= i < |keys| ==> m[keys[i]] == vs[i]
  {
    map i | 0 <= i < |keys| :: keys[i] := vs[i]
  }

  /**
   * Each program of `programDefinitions` is stored under its own key, costs
   * cycles and collateral, and runs for a positive number of ticks unless it
   * is the one permanent program.
   */
  lemma DefinitionFacts(k: string)
    requires k in Definitions()
    ensures Definitions()[k].key == k
    ensures Definitions()[k].permanent <==> k == BackgroundEncryptor
    ensures Definitions()[k].duration.None? <==> Definitions()[k].permanent
    ensures Definitions()[k].duration.Some? ==> Definitions()[k].duration.value > 0
    ensures Definitions()[k].cost > 0.0
    ensures DistinctResources(Definitions()[k].dataRequired)
    ensures forall j :: 0 <= j < |Definitions()[k].dataRequired| ==> Definitions()[k].dataRequired[j].amount > 0.0
  {
    var i :| 0 <= i < |ProgramKeys| && ProgramKeys[i] == k;
    assert Definitions()[k] == Catalog()[i];
    ProgramFacts(i);
  }
}
