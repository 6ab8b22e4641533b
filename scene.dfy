/**
 * The parts of the rendering and physics libraries that the games touch:
 * a pose (position and orientation) on physics bodies and on render
 * objects, and the per-frame copy of body poses onto render objects.
 * Coordinates are abstract reals.
 */
module Scene {

  import opened JsBuiltins

  datatype Vec3 = Vec3(x: real, y: real, z: real)

  datatype Quat = Quat(x: real, y: real, z: real, w: real)

  const Origin := Vec3(0.0, 0.0, 0.0)

  const IdentityQuat := Quat(0.0, 0.0, 0.0, 1.0)

  /** `v.add(w)`, component by component. */
  function Add(v: Vec3, w: Vec3): Vec3
  {
    Vec3(v.x + w.x, v.y + w.y, v.z + w.z)
  }

  /** A rigid body of the physics library; only its pose is modelled. */
  class Body {
    var position: Vec3
    var quaternion: Quat

    constructor ()
      ensures position == Origin && quaternion == IdentityQuat
    {
      position := Origin;
      quaternion := IdentityQuat;
    }
  }

  /** A render object (mesh or loaded model) of the rendering library; only its pose is modelled. */
  class Object3D {
    var position: Vec3
    var quaternion: Quat

    constructor ()
      ensures position == Origin && quaternion == IdentityQuat
    {
      position := Origin;
      quaternion := IdentityQuat;
    }
  }

  /**
   * The loop `meshes[i].position.copy(bodies[i].position);
   * meshes[i].quaternion.copy(bodies[i].quaternion)` over every mesh.
   * `bodies[i]` must exist for each mesh (the source would throw on
   * `undefined.position`), and no mesh may be listed twice, or a later
   * copy would overwrite an earlier one.
   */
  method CopyPoses(meshes: seq<Object3D>, bodies: seq<Body>)
    requires |meshes| <= |bodies|
    requires Distinct(meshes)
    modifies Elems(meshes)
    ensures forall i :: 0 <= i < |meshes| ==>
      meshes[i].position == bodies[i].position && meshes[i].quaternion == bodies[i].quaternion
  {
    var i := 0;
    while i < |meshes|
      invariant 0 <= i <= |meshes|
      invariant forall j :: 0 <= j < i ==>
        meshes[j].position == bodies[j].position && meshes[j].quaternion == bodies[j].quaternion
    {
      meshes[i].position := bodies[i].position;
      meshes[i].quaternion := bodies[i].quaternion;
      i := i + 1;
    }
  }
}
