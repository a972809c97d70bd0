/**
 * The engine world as seen by the camera components: actors and scene
 * components addressed by handle, each with a liveness flag and a transform;
 * an actor may carry a skeletal mesh whose sockets have world transforms.
 */
module EngineWorld {
  import opened Optional
  import opened Geometry

  type ActorId = nat
  type NodeId = nat

  /** An FName; NameNone is NAME_None, the name IsNone() reports. */
  datatype Name = NameNone | Named(text: string)

  /** The first skeletal-mesh component of an actor, reduced to its sockets' world transforms. */
  datatype SkeletalMesh = SkeletalMesh(sockets: map<Name, Transform>)

  datatype Actor = Actor(alive: bool, transform: Transform, mesh: Option<SkeletalMesh>)

  /** A USceneComponent. */
  datatype SceneNode = SceneNode(alive: bool, transform: Transform)

  datatype WorldState = WorldState(actors: map<ActorId, Actor>, nodes: map<NodeId, SceneNode>)
  {
    /**
     * A weak actor reference that is non-null: set, present and not destroyed.
     * A reference to a destroyed actor reads as null.
     */
    predicate IsLive(h: Option<ActorId>)
    {
      h.Some? && h.value in actors && actors[h.value].alive
    }

    /** IsValid(SceneComponent): the pointer is set and the component is not destroyed. */
    predicate IsValidNode(h: Option<NodeId>)
    {
      h.Some? && h.value in nodes && nodes[h.value].alive
    }

    /** The world after AddActorWorldOffset(delta) on actor id; attached components and sockets are not moved. */
    function Translated(id: ActorId, delta: Vec): (w': WorldState)
      requires id in actors
      ensures w'.nodes == nodes && w'.actors.Keys == actors.Keys
      ensures forall a | a in actors && a != id :: w'.actors[a] == actors[a]
      ensures w'.actors[id].transform.location == Add(actors[id].transform.location, delta)
      ensures w'.actors[id].transform.rotation == actors[id].transform.rotation
      ensures w'.actors[id].alive == actors[id].alive && w'.actors[id].mesh == actors[id].mesh
    {
      var a := actors[id];
      var t := a.transform.(location := Add(a.transform.location, delta));
      this.(actors := actors[id := a.(transform := t)])
    }
  }

  /** The running world, which the follow step updates in place. */
  class World {
    var state: WorldState

    constructor (initial: WorldState)
      ensures state == initial
    {
      state := initial;
    }

    /** AActor::AddActorWorldOffset: moves one actor by delta and nothing else. */
    method AddActorWorldOffset(id: ActorId, delta: Vec)
      requires id in state.actors
      modifies this
      ensures state == old(state).Translated(id, delta)
    {
      state := state.Translated(id, delta);
    }
  }
}
