/**
 * The plain scene record (Sources/DicyaninEntityManagement/DicyaninScene.swift).
 * It has no behaviour of its own: every field is a `let` set once by the initialiser.
 */
module Scenes {

  /**
   * An entity configuration from the external DicyaninEntity package. The core only ever
   * reads its `name` (to find the entity it produced); position, scale and the optional
   * animation/physics parameters are carried along untouched and are not modelled.
   */
  datatype DicyaninEntityConfiguration = DicyaninEntityConfiguration(name: string)

  /** A scene description: an id, display name, description and ordered configurations. */
  datatype DicyaninScene = DicyaninScene(
    id: string,
    name: string,
    description: string,
    entityConfigurations: seq<DicyaninEntityConfiguration>)

  /** The set of names the configurations of a scene ask for. */
  function ConfigNames(configs: seq<DicyaninEntityConfiguration>): (names: set<string>)
    ensures forall i :: 0 <= i < |configs| ==> configs[i].name in names
    ensures forall n :: n in names ==> exists i :: 0 <= i < |configs| && configs[i].name == n
  {
    set i | 0 <= i < |configs| :: configs[i].name
  }
}
