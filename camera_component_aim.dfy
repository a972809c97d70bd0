/**
 * The base aim component: what the camera looks at. Its configuration is
 * edited in place through setters; its queries resolve the aim point.
 */
module CameraComponentAim {
  import opened Optional
  import opened Geometry
  import opened EngineWorld
  import opened TargetResolver

  class AimComponent {
    /** The actor that owns this component (GetOwningActor), never null. */
    var owner: ActorId
    /** Weak reference to the actor to aim at. */
    var aimTarget: Option<ActorId>
    /** World-space offset added to the aim point. */
    var aimOffset: Vec
    /** Optional socket on the aim target's skeletal mesh. */
    var socketName: Name
    /** Optional scene component, below the socket in priority. */
    var sceneComponent: Option<NodeId>

    function Spec(): TargetSpec
      reads this
    {
      TargetSpec(aimTarget, socketName, sceneComponent, owner)
    }

    method SetAimTarget(newAimTarget: Option<ActorId>) returns (r: Option<ActorId>)
      modifies this
      ensures aimTarget == newAimTarget && r == newAimTarget
      ensures owner == old(owner) && aimOffset == old(aimOffset)
      ensures socketName == old(socketName) && sceneComponent == old(sceneComponent)
    {
      aimTarget := newAimTarget;
      r := newAimTarget;
    }

    /** AimTarget.Get(): the weak reference reads as null once the actor is gone. */
    function GetAimTarget(w: WorldState): (r: Option<ActorId>)
      reads this
      ensures r.Some? <==> w.IsLive(aimTarget)
      ensures r.Some? ==> r == aimTarget
    {
      if w.IsLive(aimTarget) then aimTarget else None
    }

    method SetAimOffset(inAimOffset: Vec) returns (r: Vec)
      modifies this
      ensures aimOffset == inAimOffset && r == inAimOffset && GetAimOffset() == inAimOffset
      ensures owner == old(owner) && aimTarget == old(aimTarget)
      ensures socketName == old(socketName) && sceneComponent == old(sceneComponent)
    {
      aimOffset := inAimOffset;
      r := aimOffset;
    }

    function GetAimOffset(): Vec
      reads this
    {
      aimOffset
    }

    method SetAimSocket(newAimSocket: Name) returns (r: Name)
      modifies this
      ensures socketName == newAimSocket && r == newAimSocket && GetAimSocket() == newAimSocket
      ensures owner == old(owner) && aimTarget == old(aimTarget)
      ensures aimOffset == old(aimOffset) && sceneComponent == old(sceneComponent)
    {
      socketName := newAimSocket;
      r := socketName;
    }

    function GetAimSocket(): Name
      reads this
    {
      socketName
    }

    method SetSceneComponent(newSceneComponent: Option<NodeId>) returns (r: Option<NodeId>)
      modifies this
      ensures sceneComponent == newSceneComponent && r == newSceneComponent
      ensures GetSceneComponent() == newSceneComponent
      ensures owner == old(owner) && aimTarget == old(aimTarget)
      ensures aimOffset == old(aimOffset) && socketName == old(socketName)
    {
      sceneComponent := newSceneComponent;
      r := sceneComponent;
    }

    function GetSceneComponent(): Option<NodeId>
      reads this
    {
      sceneComponent
    }

    /** The aim point: the resolved location, plus AimOffset when asked for. */
    function GetRealAimPosition(w: WorldState, withOffset: bool): (r: Vec)
      reads this
      requires owner in w.actors
      ensures var raw := TransformAt(w, Spec(), Preferred(w, Spec())).location;
        r == if withOffset then Add(raw, aimOffset) else raw
    {
      ResolveIsPreferred(w, Spec());
      var raw := Resolve(w, Spec()).location;
      if withOffset then Add(raw, aimOffset) else raw
    }

    /** The full transform of the aim point, chosen by the same priority. */
    function GetRealAimTransform(w: WorldState): (r: Transform)
      reads this
      requires owner in w.actors
      ensures r == TransformAt(w, Spec(), Preferred(w, Spec()))
    {
      ResolveIsPreferred(w, Spec());
      Resolve(w, Spec())
    }

    predicate IsSocketValid(w: WorldState)
      reads this
    {
      SocketValid(w, aimTarget, socketName)
    }

    /** Only defined on a valid socket; then it is the transform the aim resolves to. */
    function GetSocketTransform(w: WorldState): (r: Transform)
      reads this
      requires IsSocketValid(w)
      ensures owner in w.actors ==> r == GetRealAimTransform(w)
    {
      SocketTransform(w, aimTarget, socketName)
    }

    /** Dereferences SceneComponent unchecked, so only defined on a valid one. */
    function GetSceneComponentTransform(w: WorldState): Transform
      reads this
      requires w.IsValidNode(sceneComponent)
    {
      w.nodes[sceneComponent.value].transform
    }
  }

  /** The position with offset is the raw position plus AimOffset; the transform's location is the raw position. */
  lemma AimPositionAgreesWithTransform(c: AimComponent, w: WorldState)
    requires c.owner in w.actors
    ensures c.GetRealAimPosition(w, true) == Add(c.GetRealAimPosition(w, false), c.aimOffset)
    ensures c.GetRealAimTransform(w).location == c.GetRealAimPosition(w, false)
  {
  }

  /** A valid socket wins, even when a valid scene component is also set. */
  lemma ValidSocketWins(c: AimComponent, w: WorldState)
    requires c.owner in w.actors && c.IsSocketValid(w)
    ensures c.GetRealAimTransform(w) == c.GetSocketTransform(w)
    ensures c.GetRealAimPosition(w, false) == c.GetSocketTransform(w).location
  {
  }
}
