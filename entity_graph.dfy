/**
 * The root entity's ordered child list and the two queries the manager runs over it:
 * `children.first(where: { $0.name == name })` followed by `removeFromParent()`, and
 * `children.compactMap { $0 as? DicyaninEntity }`
 * (Sources/DicyaninEntityManagement/DicyaninEntityManager.swift:57-58,79).
 */
module EntityGraph {
  import opened Wrappers
  import opened Scenes

  /**
   * A RealityKit entity reduced to an identity, a name and whether it is a DicyaninEntity
   * (the kind `DicyaninEntity.create(from:)` makes) or some other entity a caller attached
   * to the shared root.
   */
  datatype Entity = Entity(uid: nat, name: string, isDicyanin: bool)

  /** The Swift subclass `DicyaninEntity`, as the entities for which `as? DicyaninEntity` succeeds. */
  type DicyaninEntity = e: Entity | e.isDicyanin witness Entity(0, "", true)

  /** Index of the first child named `name`, as `first(where:)` finds it. */
  function FirstNamed(children: seq<Entity>, name: string): (r: Option<nat>)
    ensures r.None? <==> forall i :: 0 <= i < |children| ==> children[i].name != name
    ensures r.Some? ==> r.value < |children| && children[r.value].name == name
    ensures r.Some? ==> forall j :: 0 <= j < r.value ==> children[j].name != name
  {
    if |children| == 0 then None
    else if children[0].name == name then Some(0)
    else match FirstNamed(children[1..], name)
      case None => None
      case Some(i) => Some(i + 1)
  }

  /**
   * The child list after the first child named `name` detaches itself from the root;
   * unchanged when no child has that name (the closed form is DetachFirstNamedAt).
   */
  function DetachFirstNamed(children: seq<Entity>, name: string): (r: seq<Entity>)
    ensures |children| - 1 <= |r| <= |children|
  {
    if |children| == 0 then []
    else
      assert children == [children[0]] + children[1..];
      if children[0].name == name then children[1..]
      else [children[0]] + DetachFirstNamed(children[1..], name)
  }

  /**
   * Detaching removes exactly the child `first(where:)` finds and keeps every other child
   * in order; with no match the children are unchanged.
   */
  lemma {:induction false} DetachFirstNamedAt(children: seq<Entity>, name: string)
    ensures FirstNamed(children, name).None? ==> DetachFirstNamed(children, name) == children
    ensures FirstNamed(children, name).Some? ==>
      var i := FirstNamed(children, name).value;
      i < |children| && DetachFirstNamed(children, name) == children[..i] + children[i + 1..]
    decreases |children|
  {
    if |children| != 0 && children[0].name != name {
      var tail := children[1..];
      var rest := DetachFirstNamed(tail, name);
      assert DetachFirstNamed(children, name) == [children[0]] + rest;
      DetachFirstNamedAt(tail, name);
      match FirstNamed(tail, name)
      case None =>
        assert FirstNamed(children, name) == None;
        assert [children[0]] + tail == children;
      case Some(i) =>
        assert FirstNamed(children, name) == Some(i + 1);
        assert rest == tail[..i] + tail[i + 1..];
        assert children[..i + 1] == [children[0]] + tail[..i];
        assert children[i + 2..] == tail[i + 1..];
    }
  }

  /**
   * The unload loop: for each configuration in order, detach the first child carrying its
   * name, skipping a name no child has.
   */
  function DetachAll(children: seq<Entity>, configs: seq<DicyaninEntityConfiguration>): (r: seq<Entity>)
    ensures |children| - |configs| <= |r| <= |children|
    ensures multiset(r) <= multiset(children)
    decreases |configs|
  {
    if |configs| == 0 then children
    else
      var once := DetachFirstNamed(children, configs[0].name);
      assert multiset(once) <= multiset(children) by {
        DetachFirstNamedAt(children, configs[0].name);
        if FirstNamed(children, configs[0].name).Some? {
          var i := FirstNamed(children, configs[0].name).value;
          assert children == children[..i] + [children[i]] + children[i + 1..];
        }
      }
      DetachAll(once, configs[1..])
  }

  /** The children whose names are outside `names`, in their order. */
  function WithoutNames(children: seq<Entity>, names: set<string>): (r: seq<Entity>)
    ensures forall e :: e in r <==> e in children && e.name !in names
  {
    if |children| == 0 then []
    else if children[0].name in names then WithoutNames(children[1..], names)
    else [children[0]] + WithoutNames(children[1..], names)
  }

  /** `compactMap { $0 as? DicyaninEntity }`: the DicyaninEntity children, in order. */
  function DicyaninChildren(children: seq<Entity>): (r: seq<DicyaninEntity>)
    ensures |r| <= |children|
  {
    if |children| == 0 then []
    else if children[0].isDicyanin then
      var e: DicyaninEntity := children[0];
      [e] + DicyaninChildren(children[1..])
    else DicyaninChildren(children[1..])
  }

  /** `compactMap` keeps exactly the children that are DicyaninEntities and nothing else. */
  lemma {:induction false} DicyaninChildrenMembers(children: seq<Entity>)
    ensures forall e :: e in DicyaninChildren(children) <==> e in children && e.isDicyanin
    decreases |children|
  {
    if |children| != 0 {
      DicyaninChildrenMembers(children[1..]);
      assert children == [children[0]] + children[1..];
    }
  }

  /** No child in `children` carries a name in `names`. */
  predicate NoneNamedIn(children: seq<Entity>, names: set<string>)
  {
    forall i :: 0 <= i < |children| ==> children[i].name !in names
  }

  /**
   * The assumption the unload loop depends on: an entity made from configuration `c` is
   * named `c.name`. The entity factory is not part of this model, so this is never taken
   * for granted; lemmas that need it say so in their requires.
   */
  predicate NamedAfterConfig(e: Entity, c: DicyaninEntityConfiguration)
  {
    e.name == c.name
  }

  /** The i-th created entity is named after the i-th configuration, for every i. */
  predicate NamedAfter(created: seq<Entity>, configs: seq<DicyaninEntityConfiguration>)
  {
    |created| == |configs| && forall i :: 0 <= i < |created| ==> NamedAfterConfig(created[i], configs[i])
  }

  /** Detaching the first child named `name` leaves the children with other names, in order. */
  lemma {:induction false} DetachFirstNamedKeepsOthers(children: seq<Entity>, name: string, names: set<string>)
    requires name in names
    ensures WithoutNames(DetachFirstNamed(children, name), names) == WithoutNames(children, names)
    decreases |children|
  {
    if |children| != 0 && children[0].name != name {
      var rest := DetachFirstNamed(children[1..], name);
      DetachFirstNamedKeepsOthers(children[1..], name, names);
      assert ([children[0]] + rest)[0] == children[0];
      assert ([children[0]] + rest)[1..] == rest;
    }
  }

  /**
   * Unloading never touches a child whose name none of the configurations carries: those
   * children stay, in their original relative order.
   */
  lemma {:induction false} DetachAllKeepsOthers(children: seq<Entity>, configs: seq<DicyaninEntityConfiguration>, names: set<string>)
    requires ConfigNames(configs) <= names
    ensures WithoutNames(DetachAll(children, configs), names) == WithoutNames(children, names)
    decreases |configs|
  {
    if |configs| != 0 {
      assert configs[0].name in ConfigNames(configs);
      DetachFirstNamedKeepsOthers(children, configs[0].name, names);
      assert ConfigNames(configs[1..]) <= ConfigNames(configs) by {
        forall n | n in ConfigNames(configs[1..]) ensures n in ConfigNames(configs) {
          var i :| 0 <= i < |configs[1..]| && configs[1..][i].name == n;
          assert configs[i + 1].name == n;
        }
      }
      DetachAllKeepsOthers(DetachFirstNamed(children, configs[0].name), configs[1..], names);
    }
  }

  /** With no earlier child of that name, the first match is the head of the appended part. */
  lemma DetachFirstAfterBase(base: seq<Entity>, e: Entity, rest: seq<Entity>)
    requires NoneNamedIn(base, {e.name})
    ensures DetachFirstNamed(base + [e] + rest, e.name) == base + rest
  {
    var children := base + [e] + rest;
    assert children[|base|] == e;
    var i := FirstNamed(children, e.name);
    DetachFirstNamedAt(children, e.name);
    assert forall j :: 0 <= j < |base| ==> children[j] == base[j];
    assert i == Some(|base|);
    assert children[..|base|] == base;
    assert children[|base| + 1..] == rest;
  }

  /**
   * Load/unload round trip on the child list: appending entities named after `configs` to
   * children that carry none of those names, and then detaching by those configurations,
   * gives back the original children exactly.
   */
  lemma {:induction false} DetachAppended(base: seq<Entity>, created: seq<Entity>, configs: seq<DicyaninEntityConfiguration>)
    requires NamedAfter(created, configs)
    requires NoneNamedIn(base, ConfigNames(configs))
    ensures DetachAll(base + created, configs) == base
    decreases |configs|
  {
    if |configs| == 0 {
      assert base + created == base;
    } else {
      var e := created[0];
      assert e.name == configs[0].name && configs[0].name in ConfigNames(configs);
      assert base + created == base + [e] + created[1..];
      DetachFirstAfterBase(base, e, created[1..]);
      assert NoneNamedIn(base, ConfigNames(configs[1..])) by {
        forall j | 0 <= j < |configs[1..]| ensures configs[1..][j].name in ConfigNames(configs) {
          assert configs[1..][j] == configs[j + 1];
        }
      }
      DetachAppended(base, created[1..], configs[1..]);
    }
  }

  /** `compactMap` distributes over concatenation, so it keeps the children's order. */
  lemma {:induction false} DicyaninChildrenAppend(a: seq<Entity>, b: seq<Entity>)
    ensures DicyaninChildren(a + b) == DicyaninChildren(a) + DicyaninChildren(b)
    decreases |a|
  {
    if |a| == 0 {
      assert a + b == b;
    } else {
      var ab := a + b;
      assert ab[0] == a[0];
      assert ab[1..] == a[1..] + b;
      DicyaninChildrenAppend(a[1..], b);
      var tail := DicyaninChildren(a[1..]) + DicyaninChildren(b);
      assert DicyaninChildren(ab[1..]) == tail;
      if a[0].isDicyanin {
        var e: DicyaninEntity := a[0];
        assert DicyaninChildren(ab) == [e] + tail;
        assert DicyaninChildren(a) == [e] + DicyaninChildren(a[1..]);
        assert [e] + tail == ([e] + DicyaninChildren(a[1..])) + DicyaninChildren(b);
      } else {
        assert DicyaninChildren(ab) == tail;
        assert DicyaninChildren(a) == DicyaninChildren(a[1..]);
      }
    }
  }

  /** On children that are all DicyaninEntities, `compactMap` gives them all back. */
  lemma {:induction false} DicyaninChildrenOfDicyanin(created: seq<DicyaninEntity>)
    ensures DicyaninChildren(created) == created
    decreases |created|
  {
    if |created| != 0 {
      DicyaninChildrenOfDicyanin(created[1..]);
    }
  }
}
