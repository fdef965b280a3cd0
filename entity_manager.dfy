/**
 * The class DicyaninEntityManager (Sources/DicyaninEntityManagement/DicyaninEntityManager.swift)
 * with its state updated in place. Each method is proved to move the state exactly as the
 * SceneLifecycle definitions say and to keep the single-scene invariant.
 */
module EntityManager {
  import opened Wrappers
  import opened Scenes
  import opened EntityGraph
  import opened SceneLifecycle

  /** The RealityKit root entity; only its ordered child list is modelled. */
  class RootEntity {
    var children: seq<Entity>

    constructor ()
      ensures children == []
    {
      children := [];
    }
  }

  class DicyaninEntityManager {
    /** The private root, created once by `init()` and never reassigned. */
    const rootEntity: RootEntity
    var currentScene: Option<DicyaninScene>
    var loadedScenes: map<string, DicyaninScene>

    /** The class invariant: the table is empty or holds exactly the current scene. */
    ghost predicate Valid()
      reads this
    {
      SingleScene(currentScene, loadedScenes)
    }

    /** The manager's state as a value of the specification. */
    ghost function State(): ManagerState
      reads this, rootEntity
    {
      ManagerState(rootEntity.children, currentScene, loadedScenes)
    }

    /** `init()`: a fresh empty root, no current scene, no loaded scenes. */
    constructor ()
      ensures Valid() && fresh(rootEntity)
      ensures State() == EMPTY
    {
      rootEntity := new RootEntity();
      currentScene := None;
      loadedScenes := map[];
    }

    /**
     * `loadScene(_:)`. `outcomes[i]` is what `DicyaninEntity.create(from:)` gives for the
     * i-th configuration.
     */
    method LoadScene(scene: DicyaninScene, outcomes: CreationOutcomes)
      returns (r: Result<seq<DicyaninEntity>, CreationError>)
      requires Valid()
      requires |outcomes| == |scene.entityConfigurations|
      modifies this, rootEntity
      ensures Valid()
      ensures LoadResult(State(), r) == Load(old(State()), scene, outcomes)
    {
      if currentScene.Some? {
        UnloadScene(currentScene.value);
      }
      ghost var base := State();
      assert base == Cleared(old(State()));
      var entities: seq<DicyaninEntity> := [];
      for i := 0 to |scene.entityConfigurations|
        invariant forall j :: 0 <= j < i ==> outcomes[j].Success?
        invariant entities == Created(outcomes[..i])
        invariant rootEntity.children == base.children + entities
        invariant currentScene == base.currentScene && loadedScenes == base.loadedScenes
      {
        var created := outcomes[i];
        if created.Failure? {
          assert SucceededPrefix(outcomes) == i;
          return Failure(created.error);
        }
        rootEntity.children := rootEntity.children + [created.value];
        assert outcomes[..i + 1][..i] == outcomes[..i];
        entities := entities + [created.value];
      }
      assert outcomes[..|outcomes|] == outcomes;
      loadedScenes := loadedScenes[scene.id := scene];
      currentScene := Some(scene);
      return Success(entities);
    }

    /** `unloadScene(_:)`: only the argument's id is used; the stored scene drives the loop. */
    method UnloadScene(scene: DicyaninScene)
      requires Valid()
      modifies this, rootEntity
      ensures Valid()
      ensures State() == Unload(old(State()), scene)
    {
      if scene.id !in loadedScenes {
        return;
      }
      var loadedScene := loadedScenes[scene.id];
      var configs := loadedScene.entityConfigurations;
      for i := 0 to |configs|
        invariant DetachAll(rootEntity.children, configs[i..]) == DetachAll(old(rootEntity.children), configs)
        invariant currentScene == old(currentScene) && loadedScenes == old(loadedScenes)
      {
        var config := configs[i];
        assert configs[i..][1..] == configs[i + 1..];
        DetachFirstNamedAt(rootEntity.children, config.name);
        match FirstNamed(rootEntity.children, config.name)
        case Some(j) =>
          rootEntity.children := rootEntity.children[..j] + rootEntity.children[j + 1..];
        case None =>
      }
      assert configs[|configs|..] == [];
      loadedScenes := loadedScenes - {scene.id};
      if currentScene.Some? && currentScene.value.id == scene.id {
        currentScene := None;
      }
    }

    /** `getRootEntity()`: the one root all scenes attach to, the same object every time. */
    function GetRootEntity(): (root: RootEntity)
      ensures root == rootEntity
    {
      rootEntity
    }

    /**
     * `getEntitiesForScene(_:)`: nil for an id that is not loaded; otherwise every
     * DicyaninEntity child of the root, whichever scene it came from.
     */
    function GetEntitiesForScene(sceneId: string): (r: Option<seq<DicyaninEntity>>)
      reads this, rootEntity
      ensures r.None? <==> sceneId !in loadedScenes
      ensures Valid() ==> (r.Some? <==> currentScene.Some? && currentScene.value.id == sceneId)
      ensures r.Some? ==> forall e :: e in r.value <==> e in rootEntity.children && e.isDicyanin
      ensures r.Some? ==> r.value == DicyaninChildren(rootEntity.children)
    {
      DicyaninChildrenMembers(rootEntity.children);
      if sceneId in loadedScenes then Some(DicyaninChildren(rootEntity.children)) else None
    }

    /** `sceneCount`: the size of the table, which the invariant keeps at 0 or 1. */
    function SceneCount(): (n: nat)
      reads this
      ensures n == |loadedScenes|
      ensures Valid() ==> n <= 1 && (n == 0 <==> currentScene.None?)
    {
      assert Valid() ==> |loadedScenes| <= 1 && (|loadedScenes| == 0 <==> currentScene.None?) by {
        if Valid() {
          SceneCountAtMostOne(currentScene, loadedScenes);
        }
      }
      |loadedScenes|
    }
  }
}
