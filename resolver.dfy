/**
 * Target resolution shared by the aim and follow components: the transform a
 * component tracks this frame, chosen by a fixed priority among a socket on
 * the target's skeletal mesh, an optional scene component, the target actor
 * and, last, the owning actor.
 */
module TargetResolver {
  import opened Optional
  import opened Geometry
  import opened EngineWorld

  /** What a component resolves against; target is a weak reference. */
  datatype TargetSpec = TargetSpec(target: Option<ActorId>, socket: Name, scene: Option<NodeId>, owner: ActorId)

  /** IsSocketValid: the named socket exists on the live target's skeletal mesh. */
  predicate SocketValid(w: WorldState, target: Option<ActorId>, socket: Name)
  {
    if socket.NameNone? || !w.IsLive(target) then false
    else match w.actors[target.value].mesh
      case None => false
      case Some(mesh) => socket in mesh.sockets
  }

  /** GetSocketTransform: dereferences the target and its mesh unchecked, so only defined on a valid socket. */
  function SocketTransform(w: WorldState, target: Option<ActorId>, socket: Name): Transform
    requires SocketValid(w, target, socket)
  {
    w.actors[target.value].mesh.value.sockets[socket]
  }

  /** The fixed priority chain; the owner is the last resort and is never null. */
  function Resolve(w: WorldState, spec: TargetSpec): Transform
    requires spec.owner in w.actors
  {
    if SocketValid(w, spec.target, spec.socket) then SocketTransform(w, spec.target, spec.socket)
    else if w.IsValidNode(spec.scene) then w.nodes[spec.scene.value].transform
    else if w.IsLive(spec.target) then w.actors[spec.target.value].transform
    else w.actors[spec.owner].transform
  }

  lemma SocketInvalidWithoutNameOrTarget(w: WorldState, target: Option<ActorId>, socket: Name)
    requires socket.NameNone? || !w.IsLive(target)
    ensures !SocketValid(w, target, socket)
  {
  }

  lemma SocketValidIffSocketExists(w: WorldState, target: Option<ActorId>, socket: Name)
    requires !socket.NameNone? && w.IsLive(target)
    ensures w.actors[target.value].mesh.None? ==> !SocketValid(w, target, socket)
    ensures w.actors[target.value].mesh.Some? ==>
      (SocketValid(w, target, socket) <==> socket in w.actors[target.value].mesh.value.sockets)
  {
  }

  // A reference definition of the chain: the tiers in priority order, and the
  // first tier that can supply a transform.

  datatype Tier = SocketTier | SceneTier | TargetTier | OwnerTier

  const Priority: seq<Tier> := [SocketTier, SceneTier, TargetTier, OwnerTier]

  predicate Available(w: WorldState, spec: TargetSpec, t: Tier)
  {
    match t
    case SocketTier => SocketValid(w, spec.target, spec.socket)
    case SceneTier => w.IsValidNode(spec.scene)
    case TargetTier => w.IsLive(spec.target)
    case OwnerTier => spec.owner in w.actors
  }

  function TransformAt(w: WorldState, spec: TargetSpec, t: Tier): Transform
    requires Available(w, spec, t)
  {
    match t
    case SocketTier => SocketTransform(w, spec.target, spec.socket)
    case SceneTier => w.nodes[spec.scene.value].transform
    case TargetTier => w.actors[spec.target.value].transform
    case OwnerTier => w.actors[spec.owner].transform
  }

  /** The index of the first available tier in order; one exists because the owner always is. */
  function FirstAvailable(order: seq<Tier>, w: WorldState, spec: TargetSpec): (k: nat)
    requires OwnerTier in order && spec.owner in w.actors
    ensures k < |order| && Available(w, spec, order[k])
    ensures forall j | 0 <= j < k :: !Available(w, spec, order[j])
    decreases |order|
  {
    if Available(w, spec, order[0]) then 0
    else 1 + FirstAvailable(order[1..], w, spec)
  }

  /** The tier resolution picks, by the reference definition. */
  function Preferred(w: WorldState, spec: TargetSpec): Tier
    requires spec.owner in w.actors
  {
    Priority[FirstAvailable(Priority, w, spec)]
  }

  /** The chain of ifs returns the transform of the first available tier in priority order. */
  lemma ResolveIsPreferred(w: WorldState, spec: TargetSpec)
    requires spec.owner in w.actors
    ensures Available(w, spec, Preferred(w, spec))
    ensures Resolve(w, spec) == TransformAt(w, spec, Preferred(w, spec))
  {
  }

  /**
   * Which tier wins, in each direction: a valid socket wins even over a valid
   * scene component; each lower tier wins exactly when every higher one fails.
   */
  lemma PreferredTier(w: WorldState, spec: TargetSpec)
    requires spec.owner in w.actors
    ensures Preferred(w, spec) == SocketTier <==> SocketValid(w, spec.target, spec.socket)
    ensures Preferred(w, spec) == SceneTier <==>
      !SocketValid(w, spec.target, spec.socket) && w.IsValidNode(spec.scene)
    ensures Preferred(w, spec) == TargetTier <==>
      !SocketValid(w, spec.target, spec.socket) && !w.IsValidNode(spec.scene) && w.IsLive(spec.target)
    ensures Preferred(w, spec) == OwnerTier <==>
      !SocketValid(w, spec.target, spec.socket) && !w.IsValidNode(spec.scene) && !w.IsLive(spec.target)
  {
  }
}
