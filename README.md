# Camera rig target resolution and simple follow, in Dafny

This project models the core of a component-based camera system for a game
engine: how an aim or follow component picks the transform it tracks each
frame, how the simple follow component turns that into a displacement of the
camera rig, and how the animated-camera extension is configured.

- `geometry.dfy` (`Geometry`): vectors, rotators and transforms over exact reals.
- `world.dfy` (`EngineWorld`): the engine world as abstract state. Actors and
  scene components are addressed by handle and carry a liveness flag and a
  transform. An actor may carry a skeletal mesh, given as a map from socket
  names to socket transforms. The `World` class holds the running world, which
  `AddActorWorldOffset` changes in place.
- `resolver.dfy` (`TargetResolver`): the priority chain that aim and follow
  share. A socket on the target's mesh comes first, then the scene component,
  then the target actor, then the owning actor. Beside it sits a reference
  definition: the first available tier in a priority list.
- `camera_component_aim.dfy` (`CameraComponentAim`): the aim component. Its
  setters change fields in place. Its queries resolve the aim point and the
  aim transform.
- `simple_follow.dfy` (`SimpleFollowing`): the simple follow component. It has
  the constructor defaults, follow-position resolution, the axis mask,
  damping dispatch, and the per-frame update that moves the owner.
- `animated_camera_extension.dfy` (`AnimatedCameraExtension`): the four
  configuration setters of the curve-driven extension.

Weak references (`AimTarget`, `FollowTarget`) are a handle plus the target's
liveness. A reference to a destroyed actor compares equal to null and falls
through the priority chain. The engine's maths routines are uninterpreted
function-valued parameters (`CameraMath`): the local-space conversion, the
direction transform, the rotated offset and the damper.

In WorldSpace mode the follow offset is applied twice. `GetRealFollowPosition(true)`
adds it once, and `ApplyAxisMask` adds it again on every active axis. The model
keeps this. `WorldSpaceAppliesOffsetTwice` and `OffsetCountedTwiceInScenario`
state it. Take a target at (100, 0, 0), the owner at the origin, offset
(0, 0, 50), all axes active and no damping. The code moves the owner by
(100, 0, 100); a mask that added the offset only once would give
(100, 0, 50).

## Model

| member | source | states |
|---|---|---|
| `TargetResolver.SocketInvalidWithoutNameOrTarget` | Source/ComponentCameraSystem/Public/Components/ECameraComponentAim.h:133-136 | A socket is never valid when its name is None or the target actor is not alive |
| `TargetResolver.SocketValidIffSocketExists` | Source/ComponentCameraSystem/Public/Components/ECameraComponentAim.h:138-152 | For a named socket on a live target: invalid when the target has no skeletal mesh, otherwise valid exactly when the mesh has that socket |
| `TargetResolver.SocketValid` | Source/ComponentCameraSystem/Public/Components/ECameraComponentAim.h:131-153 | None (definition: the guard chain of IsSocketValid); its properties are stated by the two lemmas above |
| `TargetResolver.SocketTransform` | Source/ComponentCameraSystem/Public/Components/ECameraComponentAim.h:155-161 | None beyond its requires: defined only on a valid socket, because the target and its mesh are dereferenced unchecked |
| `TargetResolver.Resolve` | Source/ComponentCameraSystem/Private/Components/SimpleFollow.cpp:52-76 | None (definition: the socket, scene component, target, owner if-chain shared by aim and follow); `ResolveIsPreferred` states what it returns |
| `TargetResolver.FirstAvailable` | Source/ComponentCameraSystem/Public/Components/ECameraComponentAim.h:92-103 | Resolution never fails: some tier in the order can supply a transform, and every tier before it cannot |
| `TargetResolver.ResolveIsPreferred` | Source/ComponentCameraSystem/Public/Components/ECameraComponentAim.h:117-128 | The chain of socket, scene component, target and owner returns the transform of the first available tier in that priority order |
| `TargetResolver.PreferredTier` | Source/ComponentCameraSystem/Public/Components/ECameraComponentAim.h:36-38 | Each tier wins exactly when every higher tier fails and it is available; a valid socket wins even over a valid scene component |
| `EngineWorld.WorldState.Translated` | Source/ComponentCameraSystem/Private/Components/SimpleFollow.cpp:43 | Offsetting an actor moves its location by the delta and keeps its rotation, liveness and mesh; no other entry of the world record changes (attachment is not tracked) |
| `EngineWorld.World.AddActorWorldOffset` | Source/ComponentCameraSystem/Private/Components/SimpleFollow.cpp:43 | The world afterwards is the old world with only that actor translated |
| `CameraComponentAim.AimComponent.SetAimTarget` | Source/ComponentCameraSystem/Public/Components/ECameraComponentAim.h:44-48 | Stores the new target, returns it, and leaves the other fields unchanged |
| `CameraComponentAim.AimComponent.GetAimTarget` | Source/ComponentCameraSystem/Public/Components/ECameraComponentAim.h:50-53 | Returns the stored target while it is alive and null once it is destroyed |
| `CameraComponentAim.AimComponent.SetAimOffset` | Source/ComponentCameraSystem/Public/Components/ECameraComponentAim.h:55-59 | Stores the offset and returns it; the getter then returns it; the other fields are unchanged |
| `CameraComponentAim.AimComponent.GetAimOffset` | Source/ComponentCameraSystem/Public/Components/ECameraComponentAim.h:61-64 | None (definition: reads the field); `SetAimOffset` states the round trip |
| `CameraComponentAim.AimComponent.SetAimSocket` | Source/ComponentCameraSystem/Public/Components/ECameraComponentAim.h:66-70 | Stores the socket name and returns it; the getter then returns it; the other fields are unchanged |
| `CameraComponentAim.AimComponent.GetAimSocket` | Source/ComponentCameraSystem/Public/Components/ECameraComponentAim.h:72-75 | None (definition: reads the field); `SetAimSocket` states the round trip |
| `CameraComponentAim.AimComponent.SetSceneComponent` | Source/ComponentCameraSystem/Public/Components/ECameraComponentAim.h:77-81 | Stores the scene component and returns it; the getter then returns it; the other fields are unchanged |
| `CameraComponentAim.AimComponent.GetSceneComponent` | Source/ComponentCameraSystem/Public/Components/ECameraComponentAim.h:83-86 | None (definition: reads the field); `SetSceneComponent` states the round trip |
| `CameraComponentAim.AimComponent.GetRealAimPosition` | Source/ComponentCameraSystem/Public/Components/ECameraComponentAim.h:88-113 | The location of the first available tier in priority order, plus AimOffset exactly when the offset is asked for |
| `CameraComponentAim.AimComponent.GetRealAimTransform` | Source/ComponentCameraSystem/Public/Components/ECameraComponentAim.h:115-129 | The transform (location and rotation) of the first available tier in priority order |
| `CameraComponentAim.AimComponent.GetSocketTransform` | Source/ComponentCameraSystem/Public/Components/ECameraComponentAim.h:155-161 | Defined only on a valid socket, where it is the transform the aim resolves to |
| `CameraComponentAim.AimComponent.IsSocketValid` | Source/ComponentCameraSystem/Public/Components/ECameraComponentAim.h:131-153 | None (definition: `TargetResolver.SocketValid` on AimTarget and SocketName) |
| `CameraComponentAim.AimComponent.GetSceneComponentTransform` | Source/ComponentCameraSystem/Public/Components/ECameraComponentAim.h:163-166 | None beyond its requires: defined only on a valid scene component, which it dereferences unchecked |
| `CameraComponentAim.AimPositionAgreesWithTransform` | Source/ComponentCameraSystem/Public/Components/ECameraComponentAim.h:105-112 | The position with offset is the raw position plus AimOffset, and the raw position is the location of the aim transform in every world |
| `CameraComponentAim.ValidSocketWins` | Source/ComponentCameraSystem/Public/Components/ECameraComponentAim.h:92-99 | With a valid socket, the aim transform and the raw aim position are the socket's, whatever the scene component |
| `SimpleFollowing.SimpleFollow.constructor` | Source/ComponentCameraSystem/Private/Components/SimpleFollow.cpp:12-18 | A new follow has stage Follow, type WorldSpace, axis masks (1, 1, 1) and the default damping parameters |
| `SimpleFollowing.SimpleFollow.GetRealFollowPosition` | Source/ComponentCameraSystem/Private/Components/SimpleFollow.cpp:47-100 | Without offset, the first available tier's location in both modes; with offset, that location plus FollowOffset in WorldSpace, or the offset rotated by the tier's rotation in LocalSpace |
| `SimpleFollowing.SimpleFollow.DampDeltaPosition` | Source/ComponentCameraSystem/Private/Components/SimpleFollow.cpp:102-115 | Naive and Simulate give the damper's output; any other method returns the input unchanged |
| `SimpleFollowing.SimpleFollow.ApplyAxisMask` | Source/ComponentCameraSystem/Private/Components/SimpleFollow.cpp:117-125 | In WorldSpace each axis with mask 0 is 0 and each other axis is delta plus FollowOffset, so any nonzero mask acts as 1; in LocalSpace the delta is unchanged whatever the mask |
| `SimpleFollowing.SimpleFollow.HasFollowTarget` | Source/ComponentCameraSystem/Private/Components/SimpleFollow.cpp:22 | None (definition: FollowTarget is set and alive) |
| `SimpleFollowing.SimpleFollow.FrameDelta` | Source/ComponentCameraSystem/Private/Components/SimpleFollow.cpp:25-40 | None (definition: the displacement one frame computes); `WorldSpaceAppliesOffsetTwice` and `MaskedAxisNeverMoves` state its properties |
| `SimpleFollowing.SimpleFollow.UpdateComponent` | Source/ComponentCameraSystem/Private/Components/SimpleFollow.cpp:20-45 | Without a follow target the world is unchanged; otherwise the owner's location moves by the damped, masked world delta towards the follow position with offset, and nothing else in the world record changes |
| `SimpleFollowing.MaskedAxisNeverMoves` | Source/ComponentCameraSystem/Private/Components/SimpleFollow.cpp:119-122 | In WorldSpace without damping, an axis with mask 0 gets a zero displacement whatever the target, offset and frame conversions |
| `SimpleFollowing.NoDampingIgnoresDeltaTime` | Source/ComponentCameraSystem/Private/Components/SimpleFollow.cpp:105-112 | With a pass-through method the damped delta equals the input for any two DeltaTime values |
| `SimpleFollowing.WorldSpaceAppliesOffsetTwice` | Source/ComponentCameraSystem/Private/Components/SimpleFollow.cpp:25-43 | In WorldSpace with all axes active, no damping and an exact local/world round trip, the owner moves to the resolved position plus twice FollowOffset |
| `SimpleFollowing.OffsetCountedTwiceInScenario` | Source/ComponentCameraSystem/Private/Components/SimpleFollow.cpp:117-122 | For target (100, 0, 0), owner at the origin and offset (0, 0, 50), the displacement is (100, 0, 100), not (100, 0, 50) |
| `AnimatedCameraExtension.AnimatedExtension.SetAnim` | Source/ComponentCameraSystem/Public/Extensions/AnimatedCameraExtension.h:51 | A null animation leaves AnimToPlay unchanged and any other replaces it; no other field changes |
| `AnimatedCameraExtension.AnimatedExtension.SetRefActor` | Source/ComponentCameraSystem/Public/Extensions/AnimatedCameraExtension.h:52 | A null actor leaves RefCoordinateActor unchanged and any other replaces it; no other field changes |
| `AnimatedCameraExtension.AnimatedExtension.SetRef` | Source/ComponentCameraSystem/Public/Extensions/AnimatedCameraExtension.h:53 | RefCoordinate is overwritten unconditionally; no other field, ElapsedTime and the curve included, changes |
| `AnimatedCameraExtension.AnimatedExtension.SetOffset` | Source/ComponentCameraSystem/Public/Extensions/AnimatedCameraExtension.h:54 | PositionOffset is overwritten unconditionally; no other field, ElapsedTime and the curve included, changes |

## Left out

- Keyframe extension (Source/ComponentCameraSystem/Public/Extensions/KeyframeExtension.h): only declarations are available. Its playback goes through the engine's sequence player, and its procedural-generation parameters are marked obsolete.
- Animated extension behaviour: its constructor, `UpdateComponent_Implementation`, `ResetOnBecomeViewTarget` and `EvaluateFOV` live in a source file that is not part of this model. Only the four setters and the fields they touch are modelled. The curve is a plain sequence of keys.
- Damping internals: `DamperVectorWithDifferentDampTime` (the Naive and Simulate smoothing, the per-axis damper state and its reset) is floating-point library code. It is an uninterpreted function of the parameters, DeltaTime, the input and the damp times.
- Frame conversions: `GetLocalSpacePosition`, `TransformDirection` and `GetPositionWithLocalRotatedOffset` are quaternion/trigonometry library calls. They are uninterpreted. Only the lemmas that need it assume that the local/world round trip is exact.
- Follow-side socket and target helpers: `IsSocketValid`, `GetSocketTransform` and `GetFollowTarget` are declared in the follow base class, which is not part of this model. They use the same resolver as the aim component, whose socket check has the same structure. `FollowTarget` is taken to be a weak reference, like `AimTarget`.
- Base-class state: the owning actor, and the follow component's target, offset, socket and scene component, are set by base-class code that is not part of this model. The follow constructor takes them as parameters, and it takes `FDampParams()` as a parameter too. The aim component's constructor is not part of this model either.
- Attachment: components and actors attached to the owner, and the owner's own socket transforms, do not move with it in this model. Socket and scene-component transforms are stored as world transforms, separately from the actor's, so `AddActorWorldOffset` moves only the actor's own location. The displacement of the frame is unaffected, because it is computed before the move.
- `CameraComponentAim.AimComponent.GetRealAimTransform`: scale is dropped from every returned transform, because `Transform` keeps only location and rotation. The same holds for `GetSocketTransform` and `GetSceneComponentTransform`.
- Engine queries: `GetComponentByClass`, `Cast`, `DoesSocketExist` and the transform getters are reads of the abstract world state. A mesh is the actor's first skeletal-mesh component, reduced to its socket map.
- Names: an `FName` is either None or a string compared exactly. Case-insensitive comparison and numeric suffixes are not modelled.
- Stage ordering between components, reflection, Blueprint exposure and weak/soft pointer mechanics beyond liveness: these are engine plumbing.
- Floating-point precision: vectors use exact reals, so rounding is not modelled.
- A component without an owning actor: the resolver requires the owner to exist, because the source dereferences it as the last resort.
