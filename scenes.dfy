/**
 * The three.js scene graph, reduced to the set of objects attached to it.
 * Objects are named by ids drawn from a counter, as three.js numbers every
 * Object3D it creates; geometry, materials and GPU buffers are not modelled.
 */
module Scenes {

  class Scene {
    var objects: set<nat>
    /** The id the next created object receives. */
    var nextId: nat

    /** Every attached object was created before, so new ids are never attached. */
    ghost predicate Valid()
      reads this
    {
      forall o :: o in objects ==> o < nextId
    }

    constructor ()
      ensures Valid() && objects == {} && nextId == 0
    {
      objects := {};
      nextId := 0;
    }

    /** Creating an object: a fresh id, attached to nothing yet. */
    method NewObject() returns (id: nat)
      requires Valid()
      modifies this`nextId
      ensures Valid()
      ensures id == old(nextId) && nextId == id + 1
      ensures id !in objects
    {
      id := nextId;
      nextId := nextId + 1;
    }

    /** `scene.add(obj)`. */
    method Add(id: nat)
      requires Valid() && id < nextId
      modifies this`objects
      ensures Valid() && objects == old(objects) + {id}
    {
      objects := objects + {id};
    }

    /** `scene.remove(obj)`: detaching an object that is not attached does nothing. */
    method Remove(id: nat)
      requires Valid()
      modifies this`objects
      ensures Valid() && objects == old(objects) - {id}
    {
      objects := objects - {id};
    }
  }
}
