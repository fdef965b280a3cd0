# DicyaninEntityManagement: scene lifecycle model

This project models the scene-management core of the DicyaninEntityManagement Swift
package, a visionOS library that loads declarative scenes into a RealityKit entity graph.
The project proves properties of that model.

It has two parts:

- **`DicyaninEntityManager`** owns a private root entity. It keeps an optional
  `currentScene` and a table `loadedScenes` from scene id to scene.
  - `loadScene` first unloads the current scene. It then creates one entity per
    configuration, in order, and attaches each to the root. If every creation succeeds,
    it records the scene.
  - `unloadScene` detaches the first root child carrying each stored configuration's name.
    It then clears the bookkeeping.
  - `getEntitiesForScene` lists the DicyaninEntity children of the whole root, but only
    while the id is loaded.
  - `sceneCount` is the table's size.
- **`DicyaninSceneBuilder`** is an append-only value-type builder. Its `build()` produces
  the plain `DicyaninScene` record.

Layout:

| file | module | what it holds |
|---|---|---|
| `wrappers.dfy` | `Wrappers` | `Option` (a Swift optional) and `Result` (a `throws` call) |
| `scenes.dfy` | `Scenes` | the `DicyaninScene` record and entity configurations (reduced to `name`) |
| `scene_builder.dfy` | `SceneBuilder` | the builder as a datatype with functions, and lemmas about them |
| `entity_graph.dfy` | `EntityGraph` | entities (identity, name, kind), first-match detach, `compactMap`, list lemmas |
| `scene_lifecycle.dfy` | `SceneLifecycle` | the manager's state and its `loadScene`/`unloadScene` transitions as pure functions (the specification) |
| `entity_manager.dfy` | `EntityManager` | the manager as a class; its methods update fields in place and are proved to follow the specification |

The class invariant `Valid()` holds after every method. It says that `loadedScenes` is
empty exactly when `currentScene` is nil, and otherwise is exactly
`{currentScene.id ↦ currentScene}`. So `sceneCount` is always 0 or 1.

`DicyaninEntity.create(from:)` belongs to a package that is not part of this model. It is
modelled as an input: `LoadScene` takes one `Result` per configuration, giving the entity
the factory returns for it or the error the factory throws. Matching a configuration to
the entity it produced depends on the created entity being named after its configuration.
That is never taken for granted: it is the predicate `FactoryNamesAfter`, and only the
lemmas that rely on it require it. In the same way, the fact that the factory makes a new
entity each time is the predicate `FreshAgainst`, required only where a lemma needs it.

`loadScene` unloads the current scene before anything else
(DicyaninEntityManager.swift:30-32), and unloading removes that scene's id from the table
(line 63). So the table never holds more than one scene. `SceneLifecycle.LoadReplacesPrevious`
proves that after loading A and then B, only B is recorded and the count is 1. Its claim about
the root (none of A's entities remains) needs two more conditions: the factory names and
freshness assumptions above, and that no child left under the root before A was loaded
carries one of A's configuration names.

That last condition is not always met, because `unloadScene` matches entities by name and
detaches the FIRST child carrying each name (DicyaninEntityManager.swift:56-59). A load that
throws part-way leaves the entities it already created under the root with no scene recorded
(lines 36-38, before lines 43-44 are reached). When the same scene is loaded again and then
unloaded, those orphans are detached in place of the scene's own entities, which stay under
the root. `SceneLifecycle.UnloadAfterFailedReloadKeepsEntity` proves this on a run from
`init()`. So the doc comment's "removes its entities" (line 49) holds only under the
condition above.

## Model

| member | source | states |
|---|---|---|
| `SceneBuilder.Init` | Sources/DicyaninEntityManagement/DicyaninEntityViewProvider.swift:47-52 | a fresh builder holds the given id, name and description and no configurations |
| `SceneBuilder.AddEntity` | Sources/DicyaninEntityManagement/DicyaninEntityViewProvider.swift:54-58 | the result has the old configurations as a prefix, followed by exactly the new configuration; id, name and description are unchanged |
| `SceneBuilder.AddEntities` | Sources/DicyaninEntityManagement/DicyaninEntityViewProvider.swift:60-64 | the result has the old configurations, then the given ones in order; id, name and description are unchanged |
| `SceneBuilder.Build` | Sources/DicyaninEntityManagement/DicyaninEntityViewProvider.swift:66-73 | the scene carries exactly the builder's id, name, description and configuration list |
| `SceneBuilder.AddEntitiesIsFold` | Sources/DicyaninEntityManagement/DicyaninEntityViewProvider.swift:54-64 | adding a list at once equals applying `addEntity` to each element, left to right |
| `SceneBuilder.AddNoEntities` | Sources/DicyaninEntityManagement/DicyaninEntityViewProvider.swift:60-64 | `addEntities([])` gives back the same builder |
| `SceneBuilder.BuiltScene` | Sources/DicyaninEntityManagement/DicyaninEntityView.swift:48-54 | the `init(...).addEntities(cs).build()` chain used by the default view yields the scene with that identity and exactly `cs` |
| `EntityGraph.FirstNamed` | Sources/DicyaninEntityManagement/DicyaninEntityManager.swift:57 | `first(where:)` by name: nil exactly when no child has the name; otherwise the index of a child with that name, with no earlier child carrying it |
| `EntityGraph.DetachFirstNamed` | Sources/DicyaninEntityManagement/DicyaninEntityManager.swift:57-58 | detaching the first child with a name removes at most one child |
| `EntityGraph.DetachFirstNamedAt` | Sources/DicyaninEntityManagement/DicyaninEntityManager.swift:57-58 | detaching removes exactly the child `first(where:)` finds and keeps the rest in order; with no match the children are unchanged |
| `EntityGraph.DetachAll` | Sources/DicyaninEntityManagement/DicyaninEntityManager.swift:56-60 | the unload loop removes at most one child per configuration, and the result is a sub-multiset of the children: it never adds a child |
| `EntityGraph.DetachAllKeepsOthers` | Sources/DicyaninEntityManagement/DicyaninEntityManager.swift:56-60 | every child whose name no configuration carries survives the unload loop, in its original relative order |
| `EntityGraph.DetachAppended` | Sources/DicyaninEntityManagement/DicyaninEntityManager.swift:36-60 | if entities named after the configurations are appended to children that carry none of those names, the unload loop over the same configurations gives back the original children exactly |
| `EntityGraph.DicyaninChildren` | Sources/DicyaninEntityManagement/DicyaninEntityManager.swift:79 | `compactMap { $0 as? DicyaninEntity }` never yields more entities than there are children |
| `EntityGraph.DicyaninChildrenMembers` | Sources/DicyaninEntityManagement/DicyaninEntityManager.swift:79 | `compactMap` keeps exactly the DicyaninEntity children and no others |
| `EntityGraph.DicyaninChildrenAppend` | Sources/DicyaninEntityManagement/DicyaninEntityManager.swift:79 | `compactMap` distributes over concatenation, so it keeps the children's order |
| `EntityGraph.DicyaninChildrenOfDicyanin` | Sources/DicyaninEntityManagement/DicyaninEntityManager.swift:79 | on a list of DicyaninEntities, `compactMap` returns the list unchanged |
| `SceneLifecycle.SceneCountAtMostOne` | Sources/DicyaninEntityManagement/DicyaninEntityManager.swift:43-66 | under the invariant the table has at most one entry, and none exactly when no scene is current |
| `SceneLifecycle.Unload` | Sources/DicyaninEntityManagement/DicyaninEntityManager.swift:52-67 | an unknown id changes nothing. Otherwise the STORED scene's configurations drive the first-match detach loop over the children, and every child whose name none of them carries survives in its original order. The id leaves the table and the other entries are kept. The current scene is cleared only when its id is the argument's. The invariant is kept |
| `SceneLifecycle.UnloadUsesStoredScene` | Sources/DicyaninEntityManagement/DicyaninEntityManager.swift:53-56 | only the argument's id matters: two scenes with the same id, whatever their configurations, unload alike |
| `SceneLifecycle.UnloadIdempotent` | Sources/DicyaninEntityManagement/DicyaninEntityManager.swift:53 | unloading the same scene twice equals unloading it once |
| `SceneLifecycle.Cleared` | Sources/DicyaninEntityManagement/DicyaninEntityManager.swift:30-32 | before creating anything, `loadScene` unloads the current scene if there is one; under the invariant this leaves no current scene and an empty table |
| `SceneLifecycle.SucceededPrefix` | Sources/DicyaninEntityManagement/DicyaninEntityManager.swift:36-37 | the number of creations that succeed before the first one that throws |
| `SceneLifecycle.Created` | Sources/DicyaninEntityManagement/DicyaninEntityManager.swift:35-40 | the collected entities are exactly the factory's results, one per call, in order |
| `SceneLifecycle.Load` | Sources/DicyaninEntityManagement/DicyaninEntityManager.swift:28-47 | success exactly when every creation succeeds. On success: one entity per configuration, in order, appended to the end of the root after the unload; the scene is current and stored under its id. On failure at k: the k-th error propagates, the k earlier entities stay attached, and the bookkeeping is as the unload left it. The invariant is kept |
| `SceneLifecycle.FailedLoadRecordsNothing` | Sources/DicyaninEntityManagement/DicyaninEntityManager.swift:30-44 | after a failed load no scene is current and the table is empty, even if a scene was current before the call |
| `SceneLifecycle.LoadThenUnload` | Sources/DicyaninEntityManagement/DicyaninEntityManager.swift:35-66 | if the factory names each entity after its configuration AND no child left under the root after the unload at 30-32 carries one of the scene's configuration names, unloading a freshly loaded scene detaches exactly its entities and empties the bookkeeping |
| `SceneLifecycle.LoadReplacesPrevious` | Sources/DicyaninEntityManagement/DicyaninEntityManager.swift:28-66 | if A's entities are named after A's configurations, no child left under the root before A was loaded carries one of those names, and B's entities are new: after loading A and then B, B is the only current and recorded scene (count 1), the root holds what it held before A followed by B's entities, and none of A's entities remains under the root |
| `SceneLifecycle.UnloadAfterFailedReloadKeepsEntity` | Sources/DicyaninEntityManagement/DicyaninEntityManager.swift:28-66 | from `init()`: a load of [x, y] that throws at y leaves x1 attached with nothing recorded; reloading attaches x2 and y2; unloading then detaches x1 and y2, so the scene's own x2 stays under the root although every entity is named after its configuration |
| `SceneLifecycle.LoadedEntitiesAreRootWide` | Sources/DicyaninEntityManagement/DicyaninEntityManager.swift:77-80 | after a load, the DicyaninEntity children are those already under the root, followed by the scene's own entities. The query is root-wide, not per scene |
| `EntityManager.DicyaninEntityManager.constructor` | Sources/DicyaninEntityManagement/DicyaninEntityManager.swift:18-20 | a fresh root with no children, no current scene, an empty table; the invariant holds |
| `EntityManager.DicyaninEntityManager.LoadScene` | Sources/DicyaninEntityManagement/DicyaninEntityManager.swift:28-47 | the in-place load (unload, then a creation loop that appends to the root and to the result) ends in the state and result `SceneLifecycle.Load` gives, and keeps the invariant |
| `EntityManager.DicyaninEntityManager.UnloadScene` | Sources/DicyaninEntityManagement/DicyaninEntityManager.swift:52-67 | the in-place unload loop over the stored configurations ends in the state `SceneLifecycle.Unload` gives, and keeps the invariant |
| `EntityManager.DicyaninEntityManager.GetRootEntity` | Sources/DicyaninEntityManagement/DicyaninEntityManager.swift:70-72 | hands out the manager's one root, a constant fixed when the manager is created |
| `EntityManager.DicyaninEntityManager.GetEntitiesForScene` | Sources/DicyaninEntityManagement/DicyaninEntityManager.swift:77-80 | nil exactly when the id is not loaded (under the invariant: exactly when it is not the current scene's id). Otherwise every DicyaninEntity child of the root, in order, and nothing else |
| `EntityManager.DicyaninEntityManager.SceneCount` | Sources/DicyaninEntityManagement/DicyaninEntityManager.swift:83-85 | the number of table entries; under the invariant at most 1, and 0 exactly when no scene is current |

## Left out

- `DicyaninEntity.create(from:)` is an external package and is not part of this model. Its answers are the `outcomes` input, one per configuration, so `LoadScene` requires exactly as many outcomes as configurations. The name link between a configuration and its entity is the predicate `FactoryNamesAfter`, which the lemmas that need it require.
- `async`, `await` and `@MainActor`: calls are serialized. Two `loadScene` calls that interleave at their suspension points are not modelled.
- `unloadScene` is declared `throws`, but nothing in its body can throw, so the model has no error path for it.
- RealityKit entities are reduced to an identity, a name and whether they are a DicyaninEntity. Transforms, components, `SIMD3<Float>` positions and scales are not modelled. `removeFromParent()` is modelled as removing the found child from the root's list at its index. Reparenting is not modelled: `Load` and `LoadScene` do not require `FreshAgainst`, so they accept a factory answer that is already a child and append it a second time, which RealityKit's `addChild` never does (it moves the entity). Only the lemmas that require `FreshAgainst` are limited to states RealityKit can reach.
- Ids and names are compared as exact character sequences. Swift's `String ==` and `Dictionary<String, _>` lookup (DicyaninEntityManager.swift:53,57,63,64,78) treat canonically equivalent Unicode strings as equal, for example a precomposed "é" and "e" followed by a combining accent. The model does not, so such ids or names do not match each other here.
- Entity configurations are reduced to their `name`, the only field the core reads. Position, scale and the animation, physics and collision parameters are not modelled.
- Sources/DicyaninEntityManagement/DicyaninEntityView.swift is SwiftUI view plumbing (`@State`, `.task`, callbacks) and is not modelled. Only its builder chain is used, in `SceneBuilder.BuiltScene`. As written, it passes an `onEntityLoaded:` argument that `DefaultDicyaninEntityViewProvider.init` does not declare, and it reads the private `rootEntity`.
- The `DicyaninEntityViewProvider` protocol and `DefaultDicyaninEntityViewProvider` (DicyaninEntityViewProvider.swift:6-38) are records of closures with no behaviour, so they are not modelled.
- Package.swift is a build manifest and is not modelled.
