/**
 * `findEntityWithModelComponent`, the bounded first-child descent that finds the
 * entity carrying the model (ARModelView.swift and ARViewContainer.swift hold
 * identical private copies; it is defined once here).
 */
module EntitySearch {
  import opened Wrappers

  /** A RealityKit entity: an opaque id, whether it has a `ModelComponent`, and its children. */
  datatype Entity = Entity(id: nat, hasModelComponent: bool, children: seq<Entity>)

  /**
   * The entities whose components the search inspects, in order: the entity
   * itself, then first children, at most `limit` of them, ending at the first
   * one with a model component.
   */
  function Visited(e: Entity, limit: int): (v: seq<Entity>)
    ensures |v| <= if limit < 0 then 0 else limit
    ensures limit > 0 ==> |v| > 0 && v[0] == e
    decreases if limit < 0 then 0 else limit
  {
    if limit <= 0 then []
    else if e.hasModelComponent || |e.children| == 0 then [e]
    else [e] + Visited(e.children[0], limit - 1)
  }

  /**
   * The descent never reads `children[0]` of a childless entity (Swift traps
   * on that out-of-range index).  This rules the crash out rather than
   * modelling it.
   */
  predicate DescentDefined(e: Entity, limit: int)
    decreases if limit < 0 then 0 else limit
  {
    limit <= 0 || e.hasModelComponent ||
    (|e.children| > 0 && DescentDefined(e.children[0], limit - 1))
  }

  /**
   * Returns the first entity with a model component among the visited ones;
   * nil exactly when none of them has one, which happens only once `limit`
   * entities have been inspected (or at once, for a limit of zero or less).
   */
  method FindEntityWithModelComponent(e: Entity, recursiveSearchLimit: int) returns (r: Option<Entity>)
    requires DescentDefined(e, recursiveSearchLimit)
    ensures r.Some? ==> r.value.hasModelComponent
    ensures r.Some? ==> var v := Visited(e, recursiveSearchLimit);
      |v| > 0 && r.value == v[|v| - 1] && forall i :: 0 <= i < |v| - 1 ==> !v[i].hasModelComponent
    ensures r.None? <==> forall i :: 0 <= i < |Visited(e, recursiveSearchLimit)| ==> !Visited(e, recursiveSearchLimit)[i].hasModelComponent
    ensures r.None? ==> |Visited(e, recursiveSearchLimit)| == if recursiveSearchLimit < 0 then 0 else recursiveSearchLimit
  {
    var curEntity := e;
    var searchLimitCounter := 0;
    ghost var path: seq<Entity> := [];
    while searchLimitCounter < recursiveSearchLimit && !curEntity.hasModelComponent
      invariant 0 <= searchLimitCounter && (recursiveSearchLimit >= 0 ==> searchLimitCounter <= recursiveSearchLimit)
      invariant recursiveSearchLimit < 0 ==> searchLimitCounter == 0
      invariant |path| == searchLimitCounter
      invariant Visited(e, recursiveSearchLimit) == path + Visited(curEntity, recursiveSearchLimit - searchLimitCounter)
      invariant forall i :: 0 <= i < |path| ==> !path[i].hasModelComponent
      invariant DescentDefined(curEntity, recursiveSearchLimit - searchLimitCounter)
      decreases recursiveSearchLimit - searchLimitCounter
    {
      path := path + [curEntity];
      curEntity := curEntity.children[0];
      searchLimitCounter := searchLimitCounter + 1;
    }
    r := if searchLimitCounter >= recursiveSearchLimit then None else Some(curEntity);
  }
}
