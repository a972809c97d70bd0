/**
 * The simple follow component: each frame it moves its owner by a damped,
 * axis-masked world-space delta towards the resolved follow position.
 */
module SimpleFollowing {
  import opened Optional
  import opened Geometry
  import opened EngineWorld
  import opened TargetResolver

  /** The pipeline stage a component runs in; follow runs before aim. */
  datatype Stage = Follow | Aim | PostProcess

  datatype FollowType = WorldSpace | LocalSpace

  datatype DampMethod = DampNone | Naive | Simulate
  {
    /** The methods that go through the damper; every other one is a pass-through. */
    predicate Smooths()
    {
      Naive? || Simulate?
    }
  }

  /** Damping parameters: the method and a damp time per axis. */
  datatype DampParams = DampParams(dampMethod: DampMethod, dampTime: Vec)

  /**
   * Engine library routines the follow step calls, left uninterpreted:
   * GetLocalSpacePosition(owner, p), TransformDirection(owner, d),
   * GetPositionWithLocalRotatedOffset(p, rot, offset) and
   * DamperVectorWithDifferentDampTime(params, deltaTime, input, dampTime).
   */
  datatype CameraMath = CameraMath(
    localSpacePosition: (Transform, Vec) -> Vec,
    transformDirection: (Transform, Vec) -> Vec,
    rotatedOffset: (Vec, Rot, Vec) -> Vec,
    damper: (DampParams, real, Vec, Vec) -> Vec)

  /** The binarised mask: 1 on every axis whose mask value is nonzero, else 0. */
  function Binarised(m: Vec): Vec
  {
    Vec(if m.x != 0.0 then 1.0 else 0.0,
        if m.y != 0.0 then 1.0 else 0.0,
        if m.z != 0.0 then 1.0 else 0.0)
  }

  class SimpleFollow {
    var owner: ActorId
    var stage: Stage
    var followType: FollowType
    var axisMasks: Vec
    var dampParams: DampParams
    /** Weak reference to the actor to follow. */
    var followTarget: Option<ActorId>
    var followOffset: Vec
    var socketName: Name
    var sceneComponent: Option<NodeId>

    /**
     * The fields declared by the follow base class and the value of
     * FDampParams() are set by code outside this model and are passed in.
     */
    constructor (owner: ActorId, followTarget: Option<ActorId>, followOffset: Vec,
                 socketName: Name, sceneComponent: Option<NodeId>, defaultDamp: DampParams)
      ensures stage == Follow && followType == WorldSpace && axisMasks == Vec(1.0, 1.0, 1.0)
      ensures dampParams == defaultDamp
      ensures this.owner == owner && this.followTarget == followTarget && this.followOffset == followOffset
      ensures this.socketName == socketName && this.sceneComponent == sceneComponent
    {
      this.owner := owner;
      this.followTarget := followTarget;
      this.followOffset := followOffset;
      this.socketName := socketName;
      this.sceneComponent := sceneComponent;
      stage := Follow;
      followType := WorldSpace;
      axisMasks := Vec(1.0, 1.0, 1.0);
      dampParams := defaultDamp;
    }

    function Spec(): TargetSpec
      reads this
    {
      TargetSpec(followTarget, socketName, sceneComponent, owner)
    }

    /** FollowTarget != nullptr. */
    predicate HasFollowTarget(w: WorldState)
      reads this
    {
      w.IsLive(followTarget)
    }

    /**
     * The resolved follow position. Without offset it is the raw resolved
     * location in both modes; with offset, WorldSpace adds FollowOffset and
     * LocalSpace rotates it into the resolved transform's frame.
     */
    function GetRealFollowPosition(w: WorldState, math: CameraMath, withOffset: bool): (r: Vec)
      reads this
      requires owner in w.actors
      ensures var t := TransformAt(w, Spec(), Preferred(w, Spec()));
        && (!withOffset ==> r == t.location)
        && (withOffset && followType == WorldSpace ==> r == Add(t.location, followOffset))
        && (withOffset && followType == LocalSpace ==> r == math.rotatedOffset(t.location, t.rotation, followOffset))
    {
      ResolveIsPreferred(w, Spec());
      var t := Resolve(w, Spec());
      match followType
      case WorldSpace => if withOffset then Add(t.location, followOffset) else t.location
      case LocalSpace => if withOffset then math.rotatedOffset(t.location, t.rotation, followOffset) else t.location
    }

    /** Naive and Simulate go through the damper; any other method passes the delta through. */
    function DampDeltaPosition(math: CameraMath, delta: Vec, deltaTime: real): (r: Vec)
      reads this
      ensures !dampParams.dampMethod.Smooths() ==> r == delta
      ensures dampParams.dampMethod.Smooths() ==> r == math.damper(dampParams, deltaTime, delta, dampParams.dampTime)
    {
      if dampParams.dampMethod == Naive || dampParams.dampMethod == Simulate then
        math.damper(dampParams, deltaTime, delta, dampParams.dampTime)
      else
        delta
    }

    /**
     * In WorldSpace, every axis whose mask is 0 is zeroed and every other axis
     * gets delta plus FollowOffset; in LocalSpace the delta passes unchanged.
     */
    function ApplyAxisMask(delta: Vec): (r: Vec)
      reads this
      ensures followType == WorldSpace ==> forall i | 0 <= i < 3 ::
        Comp(r, i) == if Comp(axisMasks, i) == 0.0 then 0.0 else Comp(delta, i) + Comp(followOffset, i)
      ensures followType == LocalSpace ==> r == delta
    {
      if followType == WorldSpace then
        var m := Binarised(axisMasks);
        Add(Mul(m, delta), Mul(m, followOffset))
      else
        delta
    }

    /** The displacement one update applies to the owner when there is a follow target. */
    function FrameDelta(w: WorldState, math: CameraMath, deltaTime: real): Vec
      reads this
      requires owner in w.actors
    {
      var ownerTransform := w.actors[owner].transform;
      var followPosition := GetRealFollowPosition(w, math, true);
      var worldDelta := math.transformDirection(ownerTransform, math.localSpacePosition(ownerTransform, followPosition));
      DampDeltaPosition(math, ApplyAxisMask(worldDelta), deltaTime)
    }

    /** One frame: without a follow target nothing changes; otherwise only the owner moves, by FrameDelta. */
    method UpdateComponent(world: World, math: CameraMath, deltaTime: real)
      requires HasFollowTarget(world.state) ==> owner in world.state.actors
      modifies world
      ensures !old(HasFollowTarget(world.state)) ==> world.state == old(world.state)
      ensures old(HasFollowTarget(world.state)) ==>
        world.state == old(world.state.Translated(owner, FrameDelta(world.state, math, deltaTime)))
    {
      if HasFollowTarget(world.state) {
        var followPosition := GetRealFollowPosition(world.state, math, true);
        var ownerTransform := world.state.actors[owner].transform;
        var localSpaceFollowPosition := math.localSpacePosition(ownerTransform, followPosition);
        var tempDeltaPosition := localSpaceFollowPosition;
        var worldDeltaPosition := math.transformDirection(ownerTransform, tempDeltaPosition);
        var maskedDeltaPosition := ApplyAxisMask(worldDeltaPosition);
        var dampedDeltaPosition := DampDeltaPosition(math, maskedDeltaPosition, deltaTime);
        world.AddActorWorldOffset(owner, dampedDeltaPosition);
      }
    }
  }

  /**
   * In WorldSpace without damping, an axis whose mask is 0 never moves the
   * owner, whatever the target, the offset and the frame conversions.
   */
  lemma MaskedAxisNeverMoves(f: SimpleFollow, w: WorldState, math: CameraMath, dt: real, i: int)
    requires 0 <= i < 3 && f.owner in w.actors
    requires f.followType == WorldSpace && !f.dampParams.dampMethod.Smooths() && Comp(f.axisMasks, i) == 0.0
    ensures Comp(f.FrameDelta(w, math, dt), i) == 0.0
  {
  }

  /** With DampNone the damped delta is the input, whatever DeltaTime is. */
  lemma NoDampingIgnoresDeltaTime(f: SimpleFollow, math: CameraMath, delta: Vec, dt1: real, dt2: real)
    requires !f.dampParams.dampMethod.Smooths()
    ensures f.DampDeltaPosition(math, delta, dt1) == delta == f.DampDeltaPosition(math, delta, dt2)
  {
  }

  /**
   * In WorldSpace with every axis active and no damping, when the owner's
   * local/world round trip is exact, the owner moves to the resolved position
   * plus twice FollowOffset: once from GetRealFollowPosition, once from ApplyAxisMask.
   */
  lemma WorldSpaceAppliesOffsetTwice(f: SimpleFollow, w: WorldState, math: CameraMath, dt: real)
    requires f.owner in w.actors
    requires f.followType == WorldSpace && f.dampParams.dampMethod == DampNone
    requires f.axisMasks.x != 0.0 && f.axisMasks.y != 0.0 && f.axisMasks.z != 0.0
    requires var o := w.actors[f.owner].transform; var p := f.GetRealFollowPosition(w, math, true);
      math.transformDirection(o, math.localSpacePosition(o, p)) == Sub(p, o.location)
    ensures var t := TransformAt(w, f.Spec(), Preferred(w, f.Spec()));
      f.FrameDelta(w, math, dt) == Sub(Add(Add(t.location, f.followOffset), f.followOffset), w.actors[f.owner].transform.location)
  {
  }

  /**
   * The end-to-end case of a target at (100, 0, 0), the owner at the origin,
   * offset (0, 0, 50), all axes active and no damping: the owner moves by
   * (100, 0, 100), the offset counted twice, and not by (100, 0, 50).
   */
  lemma OffsetCountedTwiceInScenario(f: SimpleFollow, w: WorldState, math: CameraMath, dt: real)
    requires w.actors == map[0 := Actor(true, Transform(Zero, Rot(0.0, 0.0, 0.0)), None),
                             1 := Actor(true, Transform(Vec(100.0, 0.0, 0.0), Rot(0.0, 0.0, 0.0)), None)]
    requires f.owner == 0 && f.followTarget == Some(1) && f.socketName == NameNone && f.sceneComponent == None
    requires f.followType == WorldSpace && f.axisMasks == Vec(1.0, 1.0, 1.0) && f.followOffset == Vec(0.0, 0.0, 50.0)
    requires f.dampParams.dampMethod == DampNone
    requires var o := Transform(Zero, Rot(0.0, 0.0, 0.0));
      math.transformDirection(o, math.localSpacePosition(o, Vec(100.0, 0.0, 50.0))) == Vec(100.0, 0.0, 50.0)
    ensures f.FrameDelta(w, math, dt) == Vec(100.0, 0.0, 100.0)
    ensures f.FrameDelta(w, math, dt) != Add(Vec(100.0, 0.0, 0.0), f.followOffset)
  {
  }
}
