/**
 * The program groups (scripts/data/programs/programSchemas.js): each group
 * becomes visible, and its programs runnable, once the prestige currency
 * reaches the group's unlock threshold.
 */
module ProgramSchemas {
  import opened ProgramDefinitions

  datatype ProgramSchema = ProgramSchema(key: string, name: string, unlockThreshold: real, programs: seq<string>)

  /** `programSchemas`. */
  function Schemas(): (s: seq<ProgramSchema>)
    ensures |s| == 2
    ensures s[0].unlockThreshold == 100.0 && s[1].unlockThreshold == 150.0
    ensures forall i, j :: 0 <= i < |s| && 0 <= j < |s[i].programs| ==> s[i].programs[j] in Definitions()
  {
    [
      ProgramSchema("basicOS", "Bootloader Tasks", 100.0,
                    [OptimizeMemory, AutoYieldDaemon, MemoryDefragmenter]),
      ProgramSchema("developmentKit", "Dev Kit Utilities", 150.0,
                    [UnlockCompiler, PassiveCompressor, OptimizeRuntime, BackgroundEncryptor])
    ]
  }

  /** The two groups' lists, as positions in the catalog's key list. */
  lemma GroupKeys()
    ensures Schemas()[0].programs == [ProgramKeys[0], ProgramKeys[2], ProgramKeys[5]]
    ensures Schemas()[1].programs == [ProgramKeys[1], ProgramKeys[3], ProgramKeys[4], ProgramKeys[6]]
  {
  }

  /** Each catalog program is listed by exactly one of the two groups. */
  lemma EachProgramInOneGroup(i: int)
    requires 0 <= i < |ProgramKeys|
    ensures ProgramKeys[i] in Schemas()[0].programs <==> ProgramKeys[i] !in Schemas()[1].programs
  {
    KeysDistinct();
    GroupKeys();
    SplitInTwo(ProgramKeys, i);
  }

  /** Splitting seven different keys into positions {0, 2, 5} and {1, 3, 4, 6} puts each in exactly one part. */
  lemma SplitInTwo(k: seq<string>, i: int)
    requires |k| == 7 && forall p, q :: 0 <= p < q < |k| ==> k[p] != k[q]
    requires 0 <= i < 7
    ensures k[i] in [k[0], k[2], k[5]] <==> k[i] !in [k[1], k[3], k[4], k[6]]
  {
    if i == 0 || i == 2 || i == 5 {
      assert k[i] in [k[0], k[2], k[5]];
    } else {
      assert k[i] in [k[1], k[3], k[4], k[6]];
    }
  }
}
