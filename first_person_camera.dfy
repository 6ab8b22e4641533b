/**
 * The first-person demo's camera logic: pitch clamping, the key-to-velocity
 * rule of the translation step, the nearest-hit look-at target, and the
 * per-frame copy of body poses onto meshes.
 */
module FirstPerson {

  import opened Wrappers
  import opened JsBuiltins
  import opened Scene
  import opened InputControl

  /** Key codes of the demo's KEYS table. */
  const KeyA := 65
  const KeyS := 83
  const KeyW := 87
  const KeyD := 68
  const KeyShift := 16

  /** `Math.PI`, the double closest to pi. */
  const Pi: real := 3.141592653589793

  /** The pitch bound, pi / 3. */
  const MaxPitch: real := Pi / 3.0

  /** `clamp(x, a, b)`: `Math.min(Math.max(x, a), b)`. */
  function Clamp(x: real, a: real, b: real): (r: real)
    ensures r <= b
    ensures a <= b ==> a <= r
    ensures a <= x <= b ==> r == x
    ensures x >= b ==> r == b
    ensures x <= a <= b ==> r == a
  {
    var low := if x < a then a else x;
    if low < b then low else b
  }

  /**
   * One axis of `updateTranslation_`: +1 for the positive key, -1 for the
   * negative key, so holding both cancels out.
   */
  function AxisVelocity(positive: bool, negative: bool): (v: int)
    ensures -1 <= v <= 1
    ensures v == 0 <==> positive == negative
    ensures v == 1 <==> positive && !negative
    ensures v == -1 <==> negative && !positive
  {
    (if positive then 1 else 0) + (if negative then -1 else 0)
  }

  /**
   * `movSpeed`: the step along the camera's -z axis, 1.4 units with Shift
   * held and 0.8 otherwise.
   */
  function MoveSpeed(shift: bool): (speed: real)
    ensures speed < 0.0
    ensures shift ==> speed == -1.4
    ensures !shift ==> speed == -0.8
  {
    if shift then -1.4 else -0.8
  }

  /** What `ray.intersectBox` gave for one box: the hit point and its distance to the ray origin. */
  datatype Hit = Hit(point: Vec3, distance: real)

  /** The default target lies this far along the view direction. */
  const FarDistance: real := 100.0

  /**
   * The loop in `updateCamera_`: start from the far point and keep any hit
   * strictly closer than the best so far. `hits[i]` is None when the ray
   * misses box i. `chosen` is the box whose hit became the target, None
   * when the far point stayed.
   */
  method ClosestTarget(hits: seq<Option<Hit>>, far: Vec3) returns (target: Vec3, chosen: Option<nat>)
    ensures chosen.None? ==> target == far
    ensures chosen.None? ==> forall i :: 0 <= i < |hits| && hits[i].Some? ==> hits[i].value.distance >= FarDistance
    ensures chosen.Some? ==> chosen.value < |hits| && hits[chosen.value].Some?
    ensures chosen.Some? ==> target == hits[chosen.value].value.point
    ensures chosen.Some? ==> hits[chosen.value].value.distance < FarDistance
    ensures chosen.Some? ==> forall i :: 0 <= i < |hits| && hits[i].Some? ==>
      hits[chosen.value].value.distance <= hits[i].value.distance
    ensures chosen.Some? ==> forall i :: 0 <= i < chosen.value && hits[i].Some? ==>
      hits[chosen.value].value.distance < hits[i].value.distance
  {
    target, chosen := far, None;
    var closestDistance := FarDistance;
    var i := 0;
    while i < |hits|
      invariant 0 <= i <= |hits|
      invariant chosen.None? ==> target == far && closestDistance == FarDistance
      invariant chosen.Some? ==> chosen.value < i && hits[chosen.value].Some?
      invariant chosen.Some? ==> target == hits[chosen.value].value.point
      invariant chosen.Some? ==> closestDistance == hits[chosen.value].value.distance < FarDistance
      invariant forall j :: 0 <= j < i && hits[j].Some? ==> closestDistance <= hits[j].value.distance
      invariant chosen.Some? ==> forall j :: 0 <= j < chosen.value && hits[j].Some? ==>
        closestDistance < hits[j].value.distance
    {
      if hits[i].Some? && hits[i].value.distance < closestDistance {
        target, chosen := hits[i].value.point, Some(i);
        closestDistance := hits[i].value.distance;
      }
      i := i + 1;
    }
  }

  /** The camera's orientation and movement state. */
  class FirstPersonCamera {
    const input: InputController
    const phiSpeed: real
    const thetaSpeed: real
    var phi: real
    var theta: real
    var headBobActive: bool

    /** The pitch stays within [-pi/3, pi/3]. */
    ghost predicate Valid()
      reads this
    {
      -MaxPitch <= theta <= MaxPitch
    }

    constructor ()
      ensures Valid()
      ensures fresh(input) && input.State() == Initial()
      ensures phiSpeed == 8.0 && thetaSpeed == 5.0
      ensures phi == 0.0 && theta == 0.0 && !headBobActive
    {
      input := new InputController();
      phiSpeed := 8.0;
      thetaSpeed := 5.0;
      phi := 0.0;
      theta := 0.0;
      headBobActive := false;
    }

    /**
     * `updateRotation_`: the mouse delta, scaled by the window size, turns
     * the yaw freely and the pitch within its bounds.
     */
    method UpdateRotation(innerWidth: real, innerHeight: real)
      requires innerWidth > 0.0 && innerHeight > 0.0
      modifies this
      ensures Valid()
      ensures phi == old(phi) + -(input.current.mouseXDelta / innerWidth) * phiSpeed
      ensures theta == Clamp(old(theta) + -(input.current.mouseYDelta / innerHeight) * thetaSpeed, -MaxPitch, MaxPitch)
      ensures headBobActive == old(headBobActive)
    {
      var xh := input.current.mouseXDelta / innerWidth;
      var yh := input.current.mouseYDelta / innerHeight;
      phi := phi + -xh * phiSpeed;
      theta := Clamp(theta + -yh * thetaSpeed, -MaxPitch, MaxPitch);
    }

    /**
     * The velocity part of `updateTranslation_`: W/S give the forward
     * velocity, A/D the strafe velocity, Shift the speed; any movement
     * switches the head bob on, and nothing here switches it off.
     */
    method UpdateTranslation() returns (forwardVelocity: int, strafeVelocity: int, movSpeed: real)
      modifies this
      ensures forwardVelocity == AxisVelocity(input.Key(KeyW), input.Key(KeyS))
      ensures strafeVelocity == AxisVelocity(input.Key(KeyA), input.Key(KeyD))
      ensures movSpeed == MoveSpeed(input.Key(KeyShift))
      ensures headBobActive == (old(headBobActive) || forwardVelocity != 0 || strafeVelocity != 0)
      ensures phi == old(phi) && theta == old(theta)
    {
      forwardVelocity := (if input.Key(KeyW) then 1 else 0) + (if input.Key(KeyS) then -1 else 0);
      strafeVelocity := (if input.Key(KeyA) then 1 else 0) + (if input.Key(KeyD) then -1 else 0);
      movSpeed := if input.Key(KeyShift) then -1.4 else -0.8;
      if forwardVelocity != 0 || strafeVelocity != 0 {
        headBobActive := true;
      }
    }
  }

  /**
   * The body of `animate`: every mesh takes the pose of the body at the
   * same index, then the camera's hit box follows the camera's
   * translation and rotation.
   */
  method SyncFrame(meshes: seq<Object3D>, bodies: seq<Body>, cameraMesh: Object3D, cameraBody: Body,
                   translation: Vec3, rotation: Quat)
    requires |meshes| <= |bodies|
    requires Distinct(meshes) && cameraMesh !in meshes
    modifies Elems(meshes), cameraMesh, cameraBody
    ensures forall i :: 0 <= i < |meshes| ==>
      meshes[i].position == old(bodies[i].position) && meshes[i].quaternion == old(bodies[i].quaternion)
    ensures cameraBody.position == translation && cameraBody.quaternion == rotation
    ensures cameraMesh.position == translation && cameraMesh.quaternion == rotation
  {
    CopyPoses(meshes, bodies);
    cameraBody.position := translation;
    cameraMesh.position := cameraBody.position;
    cameraBody.quaternion := rotation;
    cameraMesh.quaternion := cameraBody.quaternion;
  }
}
