/**
 * The scene builder (Sources/DicyaninEntityManagement/DicyaninEntityViewProvider.swift,
 * struct DicyaninSceneBuilder). It is a Swift value type: every method copies `self`,
 * appends to the copy and returns it, so a builder here is a datatype and each method a
 * function that returns a new builder, leaving its argument as it was.
 */
module SceneBuilder {
  import opened Scenes

  datatype DicyaninSceneBuilder = DicyaninSceneBuilder(
    id: string,
    name: string,
    description: string,
    entityConfigurations: seq<DicyaninEntityConfiguration>)

  /** `init(id:name:description:)`: the given identity and no configurations yet. */
  function Init(id: string, name: string, description: string): (b: DicyaninSceneBuilder)
    ensures b.id == id && b.name == name && b.description == description
    ensures |b.entityConfigurations| == 0
  {
    DicyaninSceneBuilder(id, name, description, [])
  }

  /** The builder's identity fields, which no method ever changes. */
  predicate SameIdentity(b: DicyaninSceneBuilder, b': DicyaninSceneBuilder)
  {
    b.id == b'.id && b.name == b'.name && b.description == b'.description
  }

  /** `addEntity(_:)`: the old configurations with `c` appended at the end. */
  function AddEntity(b: DicyaninSceneBuilder, c: DicyaninEntityConfiguration): (r: DicyaninSceneBuilder)
    ensures SameIdentity(b, r)
    ensures |r.entityConfigurations| == |b.entityConfigurations| + 1
    ensures r.entityConfigurations[..|b.entityConfigurations|] == b.entityConfigurations
    ensures r.entityConfigurations[|b.entityConfigurations|] == c
  {
    var builder := b.(entityConfigurations := b.entityConfigurations + [c]);
    assert builder.entityConfigurations[..|b.entityConfigurations|] == b.entityConfigurations;
    builder
  }

  /** `addEntities(_:)`: the old configurations followed by `cs`, in order. */
  function AddEntities(b: DicyaninSceneBuilder, cs: seq<DicyaninEntityConfiguration>): (r: DicyaninSceneBuilder)
    ensures SameIdentity(b, r)
    ensures |r.entityConfigurations| == |b.entityConfigurations| + |cs|
    ensures r.entityConfigurations[..|b.entityConfigurations|] == b.entityConfigurations
    ensures r.entityConfigurations[|b.entityConfigurations|..] == cs
  {
    var builder := b.(entityConfigurations := b.entityConfigurations + cs);
    assert builder.entityConfigurations[..|b.entityConfigurations|] == b.entityConfigurations;
    builder
  }

  /** `build()`: a scene carrying exactly the builder's fields. */
  function Build(b: DicyaninSceneBuilder): (s: DicyaninScene)
    ensures s.id == b.id && s.name == b.name && s.description == b.description
    ensures s.entityConfigurations == b.entityConfigurations
  {
    DicyaninScene(b.id, b.name, b.description, b.entityConfigurations)
  }

  /** Reference definition: `addEntity` applied to each of `cs`, left to right. */
  function AddEachEntity(b: DicyaninSceneBuilder, cs: seq<DicyaninEntityConfiguration>): DicyaninSceneBuilder
    decreases |cs|
  {
    if |cs| == 0 then b else AddEachEntity(AddEntity(b, cs[0]), cs[1..])
  }

  /** Adding a list at once is the same as adding its configurations one by one. */
  lemma {:induction false} AddEntitiesIsFold(b: DicyaninSceneBuilder, cs: seq<DicyaninEntityConfiguration>)
    ensures AddEntities(b, cs) == AddEachEntity(b, cs)
    decreases |cs|
  {
    if |cs| != 0 {
      AddEntitiesIsFold(AddEntity(b, cs[0]), cs[1..]);
      assert b.entityConfigurations + cs == (b.entityConfigurations + [cs[0]]) + cs[1..];
    }
  }

  /** Adding an empty list gives back the same builder. */
  lemma AddNoEntities(b: DicyaninSceneBuilder)
    ensures AddEntities(b, []) == b
  {
  }

  /**
   * The chain the default entity view uses, `init(...).addEntities(cs).build()`, yields the
   * scene with exactly that identity and those configurations.
   */
  lemma BuiltScene(id: string, name: string, description: string, cs: seq<DicyaninEntityConfiguration>)
    ensures Build(AddEntities(Init(id, name, description), cs)) == DicyaninScene(id, name, description, cs)
  {
  }
}
