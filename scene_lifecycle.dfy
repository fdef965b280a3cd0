/**
 * The scene lifecycle of DicyaninEntityManager
 * (Sources/DicyaninEntityManagement/DicyaninEntityManager.swift) as a pure state machine:
 * the three pieces of state the class keeps, and what `loadScene` and `unloadScene` do to
 * them. The class in EntityManager is proved to follow these definitions step by step.
 */
module SceneLifecycle {
  import opened Wrappers
  import opened Scenes
  import opened EntityGraph

  /** The error `DicyaninEntity.create(from:)` throws; its content is opaque to the manager. */
  datatype CreationError = CreationError(description: string)

  /**
   * What `DicyaninEntity.create(from:)` answers for each configuration of a scene, in
   * order. The factory belongs to another package, so its answers are an input.
   */
  type CreationOutcomes = seq<Result<DicyaninEntity, CreationError>>

  /** The root's children, `currentScene` and `loadedScenes`. */
  datatype ManagerState = ManagerState(
    children: seq<Entity>,
    currentScene: Option<DicyaninScene>,
    loadedScenes: map<string, DicyaninScene>)

  /** The manager's state right after `init()`. */
  const EMPTY: ManagerState := ManagerState([], None, map[])

  /**
   * The class invariant: no scene is loaded exactly when there is no current scene, and
   * otherwise the table holds the current scene under its own id and nothing else.
   */
  predicate SingleScene(currentScene: Option<DicyaninScene>, loadedScenes: map<string, DicyaninScene>)
  {
    match currentScene
    case None => loadedScenes == map[]
    case Some(scene) => loadedScenes == map[scene.id := scene]
  }

  /** `sceneCount` under the invariant is 0 or 1, and 0 exactly when no scene is current. */
  lemma SceneCountAtMostOne(currentScene: Option<DicyaninScene>, loadedScenes: map<string, DicyaninScene>)
    requires SingleScene(currentScene, loadedScenes)
    ensures |loadedScenes| <= 1
    ensures |loadedScenes| == 0 <==> currentScene.None?
  {
  }

  /**
   * `unloadScene(scene)`: nothing happens for an id that is not loaded; otherwise the
   * STORED scene's configurations drive the detach loop, the id leaves the table, and the
   * current scene is cleared when its id is the argument's.
   */
  function Unload(s: ManagerState, scene: DicyaninScene): (t: ManagerState)
    ensures scene.id !in s.loadedScenes ==> t == s
    ensures scene.id !in t.loadedScenes
    ensures forall id :: id in t.loadedScenes <==> id in s.loadedScenes && id != scene.id
    ensures forall id :: id in t.loadedScenes ==> t.loadedScenes[id] == s.loadedScenes[id]
    ensures t.currentScene.Some? ==> t.currentScene == s.currentScene
    ensures s.currentScene.Some? && s.currentScene.value.id != scene.id ==> t.currentScene == s.currentScene
    ensures scene.id in s.loadedScenes && t.currentScene.Some? ==> t.currentScene.value.id != scene.id
    ensures SingleScene(s.currentScene, s.loadedScenes) ==> SingleScene(t.currentScene, t.loadedScenes)
    ensures SingleScene(s.currentScene, s.loadedScenes) && scene.id in s.loadedScenes ==>
      t.currentScene == None && t.loadedScenes == map[]
    // the STORED configurations drive the detach loop; other children survive, in order
    ensures scene.id in s.loadedScenes ==>
      t.children == DetachAll(s.children, s.loadedScenes[scene.id].entityConfigurations)
    ensures scene.id in s.loadedScenes ==>
      var names := ConfigNames(s.loadedScenes[scene.id].entityConfigurations);
      WithoutNames(t.children, names) == WithoutNames(s.children, names)
    ensures |t.children| <= |s.children| && multiset(t.children) <= multiset(s.children)
  {
    if scene.id !in s.loadedScenes then s
    else
      var loadedScene := s.loadedScenes[scene.id];
      var names := ConfigNames(loadedScene.entityConfigurations);
      DetachAllKeepsOthers(s.children, loadedScene.entityConfigurations, names);
      ManagerState(
        DetachAll(s.children, loadedScene.entityConfigurations),
        if s.currentScene.Some? && s.currentScene.value.id == scene.id then None else s.currentScene,
        s.loadedScenes - {scene.id})
  }

  /**
   * Only the argument's id matters: two scenes with the same id unload alike, whatever
   * configurations the argument itself carries.
   */
  lemma UnloadUsesStoredScene(s: ManagerState, scene: DicyaninScene, other: DicyaninScene)
    requires other.id == scene.id
    ensures Unload(s, other) == Unload(s, scene)
  {
  }

  /** A second `unloadScene` of the same scene does nothing more than the first. */
  lemma UnloadIdempotent(s: ManagerState, scene: DicyaninScene)
    ensures Unload(Unload(s, scene), scene) == Unload(s, scene)
  {
  }

  /** The state `loadScene` starts creating from: the current scene, if any, unloaded. */
  function Cleared(s: ManagerState): (t: ManagerState)
    ensures s.currentScene.None? ==> t == s
    ensures s.currentScene.Some? ==> t == Unload(s, s.currentScene.value)
    ensures SingleScene(s.currentScene, s.loadedScenes) ==> t.currentScene == None && t.loadedScenes == map[]
  {
    match s.currentScene
    case None => s
    case Some(current) => Unload(s, current)
  }

  /** How many creation calls succeed before the first failure. */
  function SucceededPrefix(outcomes: CreationOutcomes): (k: nat)
    ensures k <= |outcomes|
    ensures forall i :: 0 <= i < k ==> outcomes[i].Success?
    ensures k < |outcomes| ==> outcomes[k].Failure?
  {
    if |outcomes| == 0 || outcomes[0].Failure? then 0 else 1 + SucceededPrefix(outcomes[1..])
  }

  /** The entities of a run of successful creations, in order. */
  function Created(outcomes: CreationOutcomes): (r: seq<DicyaninEntity>)
    requires forall i :: 0 <= i < |outcomes| ==> outcomes[i].Success?
    ensures |r| == |outcomes|
    ensures forall i :: 0 <= i < |r| ==> r[i] == outcomes[i].value
  {
    if |outcomes| == 0 then []
    else Created(outcomes[..|outcomes| - 1]) + [outcomes[|outcomes| - 1].value]
  }

  /** The state after `loadScene` and what it returns or throws. */
  datatype LoadResult = LoadResult(state: ManagerState, result: Result<seq<DicyaninEntity>, CreationError>)

  /**
   * `loadScene(scene)`: unload the current scene, then create the configurations in order,
   * attaching each entity to the end of the root; the first creation that throws stops the
   * loop and its error propagates, leaving the entities already attached in place and the
   * new scene unrecorded. Only when every creation succeeds is the scene recorded and made
   * current, and the created entities returned.
   */
  function Load(s: ManagerState, scene: DicyaninScene, outcomes: CreationOutcomes): (r: LoadResult)
    requires |outcomes| == |scene.entityConfigurations|
    // success exactly when every creation succeeds
    ensures r.result.Success? <==> forall i :: 0 <= i < |outcomes| ==> outcomes[i].Success?
    // success: one entity per configuration, in order, appended after what the unload left
    ensures r.result.Success? ==>
      && |r.result.value| == |scene.entityConfigurations|
      && (forall i :: 0 <= i < |r.result.value| ==> r.result.value[i] == outcomes[i].value)
      && r.state.children == Cleared(s).children + r.result.value
    ensures r.result.Success? ==>
      && r.state.currentScene == Some(scene)
      && scene.id in r.state.loadedScenes && r.state.loadedScenes[scene.id] == scene
    // failure at k: the error of creation k, the k earlier entities stay attached
    ensures r.result.Failure? ==>
      exists k :: 0 <= k < |outcomes| && outcomes[k] == Failure(r.result.error)
        && (forall i :: 0 <= i < k ==> outcomes[i].Success?)
        && |r.state.children| == |Cleared(s).children| + k
        && r.state.children[..|Cleared(s).children|] == Cleared(s).children
        && (forall i :: 0 <= i < k ==> r.state.children[|Cleared(s).children| + i] == outcomes[i].value)
    ensures r.result.Failure? ==>
      r.state.currentScene == Cleared(s).currentScene && r.state.loadedScenes == Cleared(s).loadedScenes
    // the invariant is kept either way
    ensures SingleScene(s.currentScene, s.loadedScenes) ==> SingleScene(r.state.currentScene, r.state.loadedScenes)
  {
    var base := Cleared(s);
    var k := SucceededPrefix(outcomes);
    var created := Created(outcomes[..k]);
    var children := base.children + created;
    assert children[..|base.children|] == base.children;
    if k < |outcomes| then
      LoadResult(base.(children := children), Failure(outcomes[k].error))
    else
      assert outcomes[..k] == outcomes;
      LoadResult(
        ManagerState(children, Some(scene), base.loadedScenes[scene.id := scene]),
        Success(created))
  }

  /**
   * A load that throws records nothing: the new scene is neither current nor in the table,
   * and a scene that was current before the call has been unloaded, so no scene is current.
   */
  lemma FailedLoadRecordsNothing(s: ManagerState, scene: DicyaninScene, outcomes: CreationOutcomes)
    requires SingleScene(s.currentScene, s.loadedScenes)
    requires |outcomes| == |scene.entityConfigurations|
    requires Load(s, scene, outcomes).result.Failure?
    ensures Load(s, scene, outcomes).state.currentScene == None
    ensures Load(s, scene, outcomes).state.loadedScenes == map[]
  {
  }

  /**
   * The assumption about the external factory that matching configurations to entities by
   * name depends on: every entity `create(from: c)` returns is named `c.name`.
   */
  predicate FactoryNamesAfter(outcomes: CreationOutcomes, configs: seq<DicyaninEntityConfiguration>)
  {
    |outcomes| == |configs| &&
    forall i :: 0 <= i < |outcomes| && outcomes[i].Success? ==> NamedAfterConfig(outcomes[i].value, configs[i])
  }

  /**
   * The other assumption about the factory: `create(from:)` makes a new entity, so none
   * of the entities it returns is already among `existing`.
   */
  predicate FreshAgainst(outcomes: CreationOutcomes, existing: seq<Entity>)
  {
    forall i :: 0 <= i < |outcomes| && outcomes[i].Success? ==> outcomes[i].value !in existing
  }

  /**
   * Unloading a freshly loaded scene detaches exactly the entities the load attached and
   * empties the bookkeeping, provided the factory names entities after their configurations
   * and nothing already under the root carries one of those names.
   */
  lemma LoadThenUnload(s: ManagerState, scene: DicyaninScene, outcomes: CreationOutcomes)
    requires SingleScene(s.currentScene, s.loadedScenes)
    requires |outcomes| == |scene.entityConfigurations|
    requires Load(s, scene, outcomes).result.Success?
    requires FactoryNamesAfter(outcomes, scene.entityConfigurations)
    requires NoneNamedIn(Cleared(s).children, ConfigNames(scene.entityConfigurations))
    ensures Unload(Load(s, scene, outcomes).state, scene) == ManagerState(Cleared(s).children, None, map[])
  {
    var r := Load(s, scene, outcomes);
    assert NamedAfter(r.result.value, scene.entityConfigurations);
    DetachAppended(Cleared(s).children, r.result.value, scene.entityConfigurations);
  }

  /**
   * Loading B after A succeeded replaces A: B is the one current and recorded scene, and
   * the root holds what it held before A was loaded followed by B's entities; none of A's
   * entities remain (when A's entities are named after their configurations, nothing left
   * under the root before A was loaded carries one of those names, and B's entities are new).
   */
  lemma {:induction false} LoadReplacesPrevious(
    s: ManagerState, a: DicyaninScene, outcomesA: CreationOutcomes, b: DicyaninScene, outcomesB: CreationOutcomes)
    requires SingleScene(s.currentScene, s.loadedScenes)
    requires |outcomesA| == |a.entityConfigurations| && |outcomesB| == |b.entityConfigurations|
    requires Load(s, a, outcomesA).result.Success?
    requires Load(Load(s, a, outcomesA).state, b, outcomesB).result.Success?
    requires FactoryNamesAfter(outcomesA, a.entityConfigurations)
    requires NoneNamedIn(Cleared(s).children, ConfigNames(a.entityConfigurations))
    requires FreshAgainst(outcomesB, Load(s, a, outcomesA).state.children)
    ensures var u := Load(Load(s, a, outcomesA).state, b, outcomesB);
      && u.state.children == Cleared(s).children + u.result.value
      && u.state.currentScene == Some(b)
      && u.state.loadedScenes == map[b.id := b]
      && |u.state.loadedScenes| == 1
    ensures forall e :: e in Load(s, a, outcomesA).result.value ==>
      e !in Load(Load(s, a, outcomesA).state, b, outcomesB).state.children
  {
    var ra := Load(s, a, outcomesA);
    var t := ra.state;
    var base := Cleared(s).children;
    LoadThenUnload(s, a, outcomesA);
    assert Cleared(t) == ManagerState(base, None, map[]);
    var u := Load(t, b, outcomesB);
    SceneCountAtMostOne(u.state.currentScene, u.state.loadedScenes);
    forall e | e in ra.result.value
      ensures e !in u.state.children
    {
      var i :| 0 <= i < |ra.result.value| && ra.result.value[i] == e;
      assert e.name == a.entityConfigurations[i].name;
      assert e.name in ConfigNames(a.entityConfigurations);
      assert e !in base;
      assert e in t.children;
      assert e !in u.result.value;
    }
  }

  /**
   * Why `LoadThenUnload` and `LoadReplacesPrevious` need their no-earlier-name requirement,
   * on a run that starts from `init()`: a load of [x, y] whose second creation throws leaves
   * the orphan x1 under the root with no scene recorded; reloading the same scene attaches
   * x2 and y2; unloading it then detaches the FIRST child named "x", which is the orphan,
   * so the scene's own x2 stays under the root although the factory names every entity
   * after its configuration.
   */
  lemma UnloadAfterFailedReloadKeepsEntity()
    ensures var configs := [DicyaninEntityConfiguration("x"), DicyaninEntityConfiguration("y")];
      var scene := DicyaninScene("a", "A", "", configs);
      var x1: DicyaninEntity := Entity(1, "x", true);
      var x2: DicyaninEntity := Entity(2, "x", true);
      var y2: DicyaninEntity := Entity(3, "y", true);
      var first := Load(EMPTY, scene, [Success(x1), Failure(CreationError("y"))]);
      var second := Load(first.state, scene, [Success(x2), Success(y2)]);
      && first.result.Failure?
      && first.state == ManagerState([x1], None, map[])
      && FactoryNamesAfter([Success(x2), Success(y2)], configs)
      && second.result == Success([x2, y2])
      && second.state.children == [x1, x2, y2]
      && Unload(second.state, scene).children == [x2]
      && x2 in second.result.value
  {
    var configs := [DicyaninEntityConfiguration("x"), DicyaninEntityConfiguration("y")];
    var scene := DicyaninScene("a", "A", "", configs);
    var x1: DicyaninEntity := Entity(1, "x", true);
    var x2: DicyaninEntity := Entity(2, "x", true);
    var y2: DicyaninEntity := Entity(3, "y", true);
    var first := Load(EMPTY, scene, [Success(x1), Failure(CreationError("y"))]);
    assert first.state.children == [x1];
    var second := Load(first.state, scene, [Success(x2), Success(y2)]);
    assert second.state.children == [x1, x2, y2];
    assert DetachFirstNamed([x1, x2, y2], "x") == [x2, y2];
    assert DetachFirstNamed([x2, y2], "y") == [x2];
  }

  /**
   * `getEntitiesForScene` after a successful load answers for the whole root: every
   * DicyaninEntity already there before the load, then the scene's own entities.
   */
  lemma {:induction false} LoadedEntitiesAreRootWide(s: ManagerState, scene: DicyaninScene, outcomes: CreationOutcomes)
    requires |outcomes| == |scene.entityConfigurations|
    requires Load(s, scene, outcomes).result.Success?
    ensures var r := Load(s, scene, outcomes);
      DicyaninChildren(r.state.children) == DicyaninChildren(Cleared(s).children) + r.result.value
  {
    var r := Load(s, scene, outcomes);
    DicyaninChildrenAppend(Cleared(s).children, r.result.value);
    DicyaninChildrenOfDicyanin(r.result.value);
  }
}
