/**
 * The `useBuilder` hook as an object: one state record that every callback
 * replaces with the corresponding transition of module Composition.
 */
module UseBuilder {
  import opened Wrappers
  import opened Json
  import C = Composition

  class Store {
    /** The hook's `state`. */
    var state: C.BuilderState

    /** The record the hook starts from. */
    ghost predicate Valid()
      reads this
    {
      C.Valid(state)
    }

    constructor()
      ensures state == C.Initial() && Valid()
    {
      state := C.Initial();
    }

    /** `addComponent(descriptor, zoneId)`, with `Date.now()` and `Math.random().toString(36)` given. */
    method AddComponent(descriptor: C.Component, zoneId: string, timestamp: nat, random36: string)
      modifies this
      ensures state == C.AddComponent(old(state), descriptor, zoneId, timestamp, random36)
      ensures old(Valid()) ==> Valid()
    {
      state := C.AddComponent(state, descriptor, zoneId, timestamp, random36);
    }

    /** `removeComponent(id)`. */
    method RemoveComponent(id: string)
      modifies this
      ensures state == C.RemoveComponent(old(state), id)
      ensures old(Valid()) ==> Valid()
    {
      state := C.RemoveComponent(state, id);
    }

    /** `selectComponent(component)`. */
    method SelectComponent(component: Option<C.Component>)
      modifies this
      ensures state == C.SelectComponent(old(state), component)
      ensures old(Valid()) ==> Valid()
    {
      state := C.SelectComponent(state, component);
    }

    /** `reorderComponents(fromIndex, toIndex)`, for a `fromIndex` that addresses a root child. */
    method ReorderComponents(fromIndex: int, toIndex: int)
      requires C.FindZone(state.dropZones, C.RootZoneId).Some? ==> -|C.RootChildren(state)| <= fromIndex < |C.RootChildren(state)|
      modifies this
      ensures state == C.ReorderComponents(old(state), fromIndex, toIndex)
      ensures old(Valid()) ==> Valid()
    {
      if Valid() {
        C.ReorderKeepsValid(state, fromIndex, toIndex);
      }
      state := C.ReorderComponents(state, fromIndex, toIndex);
    }

    /** `moveComponent(id, direction)`. */
    method MoveComponent(id: string, dir: C.Direction)
      modifies this
      ensures state == C.MoveComponent(old(state), id, dir)
      ensures old(Valid()) ==> Valid()
    {
      state := C.MoveComponent(state, id, dir);
    }

    /** `updateComponent(id, patch)`. */
    method UpdateComponent(id: string, patch: Props)
      modifies this
      ensures state == C.UpdateComponent(old(state), id, patch)
      ensures old(Valid()) ==> Valid()
    {
      state := C.UpdateComponent(state, id, patch);
    }
  }
}
