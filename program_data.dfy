/**
 * The program groups with their definitions attached
 * (scripts/data/programs/programData.js).
 */
module ProgramData {
  import opened Wrappers
  import opened ProgramDefinitions
  import opened ProgramSchemas

  /** A schema whose key list has been replaced by the definitions; `None` where a key is undefined. */
  datatype ProgramGroup = ProgramGroup(key: string, name: string, unlockThreshold: real, programs: seq<Option<Program>>)

  /** `programDefinitions[key]`. */
  function Lookup(defs: map<string, Program>, key: string): Option<Program> {
    if key in defs then Some(defs[key]) else None
  }

  /** `schema.programs.map(key => defs[key])`, the other fields spread unchanged. */
  function Attach(schema: ProgramSchema, defs: map<string, Program>): (g: ProgramGroup)
    ensures g.key == schema.key && g.name == schema.name && g.unlockThreshold == schema.unlockThreshold
    ensures |g.programs| == |schema.programs|
    ensures forall j :: 0 <= j < |g.programs| ==> g.programs[j] == Lookup(defs, schema.programs[j])
  {
    ProgramGroup(schema.key, schema.name, schema.unlockThreshold,
                 seq(|schema.programs|, j requires 0 <= j < |schema.programs| => Lookup(defs, schema.programs[j])))
  }

  /** `programSchemas.map(...)`: one group per schema, in order. */
  function Join(schemas: seq<ProgramSchema>, defs: map<string, Program>): (r: seq<ProgramGroup>)
    ensures |r| == |schemas|
    ensures forall i :: 0 <= i < |r| ==> r[i] == Attach(schemas[i], defs)
  {
    seq(|schemas|, i requires 0 <= i < |schemas| => Attach(schemas[i], defs))
  }

  /** `programData`. */
  function Groups(): seq<ProgramGroup> {
    Join(Schemas(), Definitions())
  }

  /**
   * The joined groups keep the schemas' order and fields, and no program
   * entry is undefined: each is the definition stored under the listed key.
   */
  lemma GroupsComplete()
    ensures |Groups()| == |Schemas()|
    ensures forall i :: 0 <= i < |Groups()| ==>
      && Groups()[i].key == Schemas()[i].key
      && Groups()[i].unlockThreshold == Schemas()[i].unlockThreshold
      && |Groups()[i].programs| == |Schemas()[i].programs|
    ensures forall i, j :: 0 <= i < |Groups()| && 0 <= j < |Groups()[i].programs| ==>
      && Groups()[i].programs[j].Some?
      && Groups()[i].programs[j].value == Definitions()[Schemas()[i].programs[j]]
      && Groups()[i].programs[j].value.key == Schemas()[i].programs[j]
  {
    var s, d := Schemas(), Definitions();
    forall i, j | 0 <= i < |s| && 0 <= j < |s[i].programs|
      ensures Groups()[i].programs[j] == Some(d[s[i].programs[j]])
      ensures d[s[i].programs[j]].key == s[i].programs[j]
    {
      DefinitionFacts(s[i].programs[j]);
    }
  }
}
