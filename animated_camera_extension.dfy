/**
 * Configuration of the curve-driven camera extension: which animation to
 * play, in which reference frame, with which position offset.
 */
module AnimatedCameraExtension {
  import opened Optional
  import opened Geometry
  import opened EngineWorld

  type AnimId = nat

  /** A key of the simple curve the extension samples. */
  datatype CurveKey = CurveKey(time: real, value: real)

  class AnimatedExtension {
    /** The animation sequence to play; None is a null pointer. */
    var animToPlay: Option<AnimId>
    /** The actor in whose local space the animation plays. */
    var refCoordinateActor: Option<ActorId>
    /** The reference frame used when there is no reference actor. */
    var refCoordinate: Transform
    /** Position offset, in reference space. */
    var positionOffset: Vec
    var elapsedTime: real
    var simpleCurve: seq<CurveKey>

    /** A null animation is ignored; any other replaces the current one. */
    method SetAnim(newAnim: Option<AnimId>)
      modifies this
      ensures animToPlay == if newAnim.Some? then newAnim else old(animToPlay)
      ensures refCoordinateActor == old(refCoordinateActor) && refCoordinate == old(refCoordinate)
      ensures positionOffset == old(positionOffset)
      ensures elapsedTime == old(elapsedTime) && simpleCurve == old(simpleCurve)
    {
      if newAnim.Some? {
        animToPlay := newAnim;
      }
    }

    /** A null actor is ignored; any other becomes the reference actor. */
    method SetRefActor(newActor: Option<ActorId>)
      modifies this
      ensures refCoordinateActor == if newActor.Some? then newActor else old(refCoordinateActor)
      ensures animToPlay == old(animToPlay) && refCoordinate == old(refCoordinate)
      ensures positionOffset == old(positionOffset)
      ensures elapsedTime == old(elapsedTime) && simpleCurve == old(simpleCurve)
    {
      if newActor.Some? {
        refCoordinateActor := newActor;
      }
    }

    method SetRef(newTransform: Transform)
      modifies this
      ensures refCoordinate == newTransform
      ensures animToPlay == old(animToPlay) && refCoordinateActor == old(refCoordinateActor)
      ensures positionOffset == old(positionOffset)
      ensures elapsedTime == old(elapsedTime) && simpleCurve == old(simpleCurve)
    {
      refCoordinate := newTransform;
    }

    method SetOffset(newOffset: Vec)
      modifies this
      ensures positionOffset == newOffset
      ensures animToPlay == old(animToPlay) && refCoordinateActor == old(refCoordinateActor)
      ensures refCoordinate == old(refCoordinate)
      ensures elapsedTime == old(elapsedTime) && simpleCurve == old(simpleCurve)
    {
      positionOffset := newOffset;
    }
  }
}
